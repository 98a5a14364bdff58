/** The buyer's offer form. Submitting calls `requestOffer` with the keys
    `buyer` and `sellerAddressStr`, which `requestOffer` does not declare:
    its `seller`, `buyerAddressStr`, `wallet` and `program` stay unbound. */
module BuyerInput {
  import opened Common
  import opened Offers
  import opened FormInputs
  import opened Web3Client
  import opened OfferRequest

  datatype FormEffect = RequestCalls(calls: seq<ChainCall>) | ShowLoading | HideLoading

  /** The arguments `requestOffer` actually receives from the form. */
  function SubmittedArgs(nftAddress: string, amount: int, fee: int): (args: RequestOfferArgs)
    ensures args.seller.None? && args.buyerAddressStr.None? && args.wallet.None? && args.program.None?
    ensures args.sellerNFTAddressStr == nftAddress && args.amountInSol == amount && args.fee == fee && args.signed
  {
    RequestOfferArgs(None, None, nftAddress, None, None, amount, fee, true)
  }

  class BuyerInputForm {
    const derive: Derivations
    const nftAddress: string
    const sellerAddress: string
    const isRequested: bool
    const publicKey: Option<Pubkey>
    const hasSigner: bool
    const feePercentage: int
    /** `isValidAmount`, whose result depends on how bn.js treats fractions. */
    const isValidAmount: int -> bool
    var amount: int
    var fee: int
    var errorMessage: string
    var loading: bool
    var effects: seq<FormEffect>

    constructor (derive: Derivations, nftAddress: string, sellerAddress: string, isRequested: bool,
                 publicKey: Option<Pubkey>, hasSigner: bool, feePercentage: int, isValidAmount: int -> bool,
                 loading: bool)
      ensures this.derive == derive && this.nftAddress == nftAddress && this.sellerAddress == sellerAddress
      ensures this.isRequested == isRequested && this.publicKey == publicKey && this.hasSigner == hasSigner
      ensures this.feePercentage == feePercentage && this.isValidAmount == isValidAmount && this.loading == loading
      ensures amount == 0 && fee == 0 && errorMessage == "" && effects == []
    {
      this.derive, this.nftAddress, this.sellerAddress, this.isRequested := derive, nftAddress, sellerAddress, isRequested;
      this.publicKey, this.hasSigner, this.feePercentage := publicKey, hasSigner, feePercentage;
      this.isValidAmount, this.loading := isValidAmount, loading;
      amount, fee, errorMessage, effects := 0, 0, "", [];
    }

    /** `handleChangeAmount`: the amount typed, and its fee. */
    method HandleChangeAmount(value: int)
      modifies this
      ensures amount == value && fee == Fee(value, feePercentage)
      ensures errorMessage == old(errorMessage) && loading == old(loading) && effects == old(effects)
    {
      amount := value;
      fee := Fee(value, feePercentage);
    }

    predicate IsDisabled()
      reads this
    {
      Disabled(isRequested, amount, sellerAddress, loading, publicKey)
    }

    /** `resetInputs`: amount and fee back to zero, no error. */
    method ResetInputs()
      modifies this
      ensures amount == 0 && fee == 0 && errorMessage == ""
      ensures loading == old(loading) && effects == old(effects)
      ensures IsDisabled()
    {
      amount := 0;
      fee := 0;
      errorMessage := "";
    }

    /** `handleSubmit`; `escrowKey` is the key `requestOffer` would generate. */
    method HandleSubmit(net: Network, escrowKey: Pubkey)
      modifies this
      // no wallet, or an amount the check refuses: a message and no call
      ensures publicKey.None? || !hasSigner ==>
        errorMessage == WALLET_ERROR && loading == old(loading) && effects == old(effects)
      ensures publicKey.Some? && hasSigner && !isValidAmount(amount) ==>
        errorMessage == AMOUNT_ERROR && loading == old(loading) && effects == old(effects)
      // otherwise requestOffer runs with the amount and the current fee; loading is shown only
      // after it resolves, a throw leaves its message, and loading ends hidden
      ensures publicKey.Some? && hasSigner && isValidAmount(amount) ==>
        var run := RequestOffer(derive, net, SubmittedArgs(nftAddress, amount, fee), escrowKey);
        && effects == old(effects) + [RequestCalls(run.calls)]
                     + (if run.result.Resolved? then [ShowLoading] else []) + [HideLoading]
        && errorMessage == (if run.result.Thrown? then run.result.message else "")
        && !loading
      ensures amount == old(amount) && fee == old(fee)
      // and since requestOffer gets no seller, such a submission always ends with the TypeError's
      // message shown (TYPE_ERROR stands for that message)
      ensures publicKey.Some? && hasSigner && isValidAmount(amount) ==>
        errorMessage == TYPE_ERROR && effects == old(effects) + [RequestCalls([]), HideLoading]
    {
      errorMessage := "";
      if publicKey.None? || !hasSigner {
        errorMessage := WALLET_ERROR;
        return;
      }
      if !isValidAmount(amount) {
        errorMessage := AMOUNT_ERROR;
        return;
      }
      var run := RequestOffer(derive, net, SubmittedArgs(nftAddress, amount, fee), escrowKey);
      SubmitNeverReachesTheChain(derive, net, nftAddress, amount, fee, escrowKey);
      // SHOW_LOADING follows the awaited call, so it is dispatched only when the call resolved
      effects := effects + [RequestCalls(run.calls)] + (if run.result.Resolved? then [ShowLoading] else []);
      if run.result.Thrown? {
        errorMessage := run.result.message;
      }
      loading := false;
      effects := effects + [HideLoading];
    }
  }

  /** With its seller unbound, the request throws before any call: the form
      never sends a transaction nor initializes an escrow, and always shows
      the error. */
  lemma {:induction false} SubmitNeverReachesTheChain(d: Derivations, net: Network, nftAddress: string,
                                                      amount: int, fee: int, escrowKey: Pubkey)
    ensures var run := RequestOffer(d, net, SubmittedArgs(nftAddress, amount, fee), escrowKey);
      && run.calls == []
      && run.result == Thrown(TYPE_ERROR)
  {
    var args := SubmittedArgs(nftAddress, amount, fee);
    assert args.seller.None?;
  }

  /** An offer of 10 SOL at a fee percentage of 4 has a fee of 40 SOL and
      asks 50 SOL in escrow. */
  lemma TenSolAtFour()
    ensures Fee(100, 4) == 400 && TotalAmountInLamports(100, Fee(100, 4)) == 50 * LAMPORTS_PER_SOL
  {
  }
}
