/** The confirm actions of the main page: after a dialog is confirmed, show
    the loading overlay, run the chain call, write the new status of the
    record, and hide the overlay again. */
module MainActions {
  import opened Common
  import opened Offers
  import opened Web3Client
  import opened OfferAcceptance
  import opened OfferCancellation
  import TransactionView

  /** What the page does that others can observe, in order. */
  datatype Effect =
    | ShowLoading
    | ChainCalls(calls: seq<ChainCall>)
    | StoreUpdate(id: string, status: Status)
    | Toast(message: string)
    | HideLoading

  /** The effects of one action that got past its guard. */
  function ActionEffects<T>(run: Run<T>, id: string, status: Status): (r: seq<Effect>)
    ensures |r| == 4 && r[0] == ShowLoading && r[1] == ChainCalls(run.calls) && r[3] == HideLoading
    ensures StoreUpdate(id, status) in r <==> run.result.Resolved?
    ensures run.result.Thrown? ==> r[2] == Toast(run.result.message)
  {
    [ShowLoading, ChainCalls(run.calls)]
      + (if run.result.Resolved? then [StoreUpdate(id, status)] else [Toast(run.result.message)])
      + [HideLoading]
  }

  /** The store after an action: the status is written only once the call resolved. */
  function StoreAfter<T>(store: Store, run: Run<T>, id: string, status: Status): (r: Store)
    ensures run.result.Thrown? ==> r == store
    ensures run.result.Resolved? ==> r == WithStatus(store, id, status)
  {
    if run.result.Resolved? then WithStatus(store, id, status) else store
  }

  class MainPage {
    const derive: Derivations
    /** `useWallet()`: the connected key and whether a signer is available. */
    const publicKey: Option<Pubkey>
    const hasSigner: bool
    /** `useAnchorWallet()` and `useProgram(...)`. */
    const wallet: Option<Pubkey>
    const program: Option<Program>
    var store: Store
    var loading: bool
    var effects: seq<Effect>

    constructor (derive: Derivations, publicKey: Option<Pubkey>, hasSigner: bool, wallet: Option<Pubkey>,
                 program: Option<Program>, store: Store)
      ensures this.derive == derive && this.publicKey == publicKey && this.hasSigner == hasSigner
      ensures this.wallet == wallet && this.program == program && this.store == store
      ensures !loading && effects == []
    {
      this.derive, this.publicKey, this.hasSigner := derive, publicKey, hasSigner;
      this.wallet, this.program, this.store := wallet, program, store;
      loading, effects := false, [];
    }

    /** The arguments `cancelOfferAction` gives `cancelOffer`: the connected key is the seller. */
    function CancelArgs(escrowAccountAddressString: string, nftAddress: string): (args: CancelOfferArgs)
      requires publicKey.Some?
      ensures args.seller == publicKey.value && args.wallet == wallet && args.program == program
      ensures args.escrowAccountAddressString == escrowAccountAddressString && args.nftAddressString == nftAddress
    {
      CancelOfferArgs(wallet, program, publicKey.value, escrowAccountAddressString, nftAddress)
    }

    /** The arguments `acceptOfferAction` gives `acceptOffer`: no seller address and no signer. */
    function AcceptArgs(escrowAccountAddressString: string, nftAddress: string): (args: AcceptOfferArgs)
      requires publicKey.Some?
      ensures args.buyer == publicKey.value && args.sellerAddressString.None? && !args.signed
      ensures args.wallet == wallet && args.program == program
      ensures args.escrowAccountAddressString == escrowAccountAddressString && args.sellerNFTAddressStr == nftAddress
    {
      AcceptOfferArgs(wallet, program, escrowAccountAddressString, publicKey.value, None, nftAddress, false)
    }

    method CancelOfferAction(net: Network, id: string, escrowAccountAddressString: string, nftAddress: string)
      modifies this
      // without a key or a signer nothing happens
      ensures publicKey.None? || !hasSigner ==>
        store == old(store) && loading == old(loading) && effects == old(effects)
      // otherwise CANCELED is written only after cancelOffer resolved, and loading ends hidden
      ensures publicKey.Some? && hasSigner ==>
        var run := CancelOffer(derive, net, CancelArgs(escrowAccountAddressString, nftAddress));
        && store == StoreAfter(old(store), run, id, CANCELED)
        && effects == old(effects) + ActionEffects(run, id, CANCELED)
        && !loading
    {
      if publicKey.None? || !hasSigner {
        return;
      }
      loading := true;
      effects := effects + [ShowLoading];
      var run := CancelOffer(derive, net, CancelArgs(escrowAccountAddressString, nftAddress));
      effects := effects + [ChainCalls(run.calls)];
      if run.result.Resolved? {
        store := WithStatus(store, id, CANCELED);
        effects := effects + [StoreUpdate(id, CANCELED)];
      } else {
        effects := effects + [Toast(run.result.message)];
      }
      loading := false;
      effects := effects + [HideLoading];
    }

    method AcceptOfferAction(net: Network, id: string, escrowAccountAddressString: string, amount: int,
                             nftAddress: string)
      modifies this
      ensures publicKey.None? || !hasSigner ==>
        store == old(store) && loading == old(loading) && effects == old(effects)
      ensures publicKey.Some? && hasSigner ==>
        var run := AcceptOffer(derive, net, AcceptArgs(escrowAccountAddressString, nftAddress));
        && store == StoreAfter(old(store), run, id, ACCEPTED)
        && effects == old(effects) + ActionEffects(run, id, ACCEPTED)
        && !loading
    {
      if publicKey.None? || !hasSigner {
        return;
      }
      loading := true;
      effects := effects + [ShowLoading];
      var run := AcceptOffer(derive, net, AcceptArgs(escrowAccountAddressString, nftAddress));
      effects := effects + [ChainCalls(run.calls)];
      if run.result.Resolved? {
        store := WithStatus(store, id, ACCEPTED);
        effects := effects + [StoreUpdate(id, ACCEPTED)];
      } else {
        effects := effects + [Toast(run.result.message)];
      }
      loading := false;
      effects := effects + [HideLoading];
    }

    /** `handleConfirm`: a discard runs the cancel action, an acceptance the accept action. */
    method HandleConfirm(net: Network, props: TransactionView.ActionProps)
      modifies this
      ensures publicKey.None? || !hasSigner ==>
        store == old(store) && loading == old(loading) && effects == old(effects)
      ensures publicKey.Some? && hasSigner && props.CancelOffer? ==>
        var run := CancelOffer(derive, net, CancelArgs(props.escrowAddress, props.nftAddress));
        store == StoreAfter(old(store), run, props.id, CANCELED) && effects == old(effects) + ActionEffects(run, props.id, CANCELED)
      ensures publicKey.Some? && hasSigner && props.AcceptOffer? ==>
        var run := AcceptOffer(derive, net, AcceptArgs(props.escrowAddress, props.nftAddress));
        store == StoreAfter(old(store), run, props.id, ACCEPTED) && effects == old(effects) + ActionEffects(run, props.id, ACCEPTED)
    {
      match props
      case CancelOffer(id, escrowAddress, _, _, nftAddress) =>
        CancelOfferAction(net, id, escrowAddress, nftAddress);
      case AcceptOffer(id, escrowAddress, amount, _, _, nftAddress) =>
        AcceptOfferAction(net, id, escrowAddress, amount, nftAddress);
    }
  }

  /** The accept action hands `acceptOffer` no signer, so the transaction it
      sends before the exchange carries no signer from the page. */
  lemma AcceptActionSendsUnsigned(d: Derivations, net: Network, wallet: Option<Pubkey>, program: Option<Program>,
                                  escrow: string, buyer: Pubkey, nft: string)
    ensures var run := AcceptOffer(d, net, AcceptOfferArgs(wallet, program, escrow, buyer, None, nft, false));
      forall i :: 0 <= i < |run.calls| && run.calls[i].SendTransaction? ==> !run.calls[i].signed
  {
  }

  /** A status write from a confirmed dialog touches only the record the
      dialog was opened for, and only its status. */
  lemma ConfirmWritesOnlyThatRecord<T>(store: Store, run: Run<T>, id: string, status: Status)
    requires run.result.Resolved? && id in store && store[id].Stored?
    ensures var after := StoreAfter(store, run, id, status);
      && after.Keys == store.Keys
      && after[id] == Stored(store[id].offer.(status := status))
      && forall k :: k in store && k != id ==> after[k] == store[k]
  {
  }
}
