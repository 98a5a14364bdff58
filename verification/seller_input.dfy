/** The seller's offer form. Submitting does not touch the chain: it builds
    a REQUESTED record with a freshly generated escrow key and writes it to
    the store under the literal child key "newTxHistoryKey". */
module SellerInput {
  import opened Common
  import opened Offers
  import opened FormInputs
  import TransactionView
  import MainActions
  import Web3Client

  /** The child key the record is written under. */
  const LITERAL_KEY: string := "newTxHistoryKey"

  datatype FormEffect = ShowLoading | StoreWrite(key: string, offer: Offer) | Submitted(offer: Offer) | HideLoading

  class SellerInputForm {
    const nftAddress: string
    const sellerAddress: string
    const isRequested: bool
    const publicKey: Option<Pubkey>
    const hasSigner: bool
    const feePercentage: int
    /** `isValidAmount`, whose result depends on how bn.js treats fractions. */
    const isValidAmount: int -> bool
    var amount: int
    var fee: int
    var errorMessage: string
    var loading: bool
    var store: Store
    var effects: seq<FormEffect>

    constructor (nftAddress: string, sellerAddress: string, isRequested: bool, publicKey: Option<Pubkey>,
                 hasSigner: bool, feePercentage: int, isValidAmount: int -> bool, loading: bool, store: Store)
      ensures this.nftAddress == nftAddress && this.sellerAddress == sellerAddress && this.isRequested == isRequested
      ensures this.publicKey == publicKey && this.hasSigner == hasSigner && this.feePercentage == feePercentage
      ensures this.isValidAmount == isValidAmount && this.loading == loading && this.store == store
      ensures amount == 0 && fee == 0 && errorMessage == "" && effects == []
    {
      this.nftAddress, this.sellerAddress, this.isRequested := nftAddress, sellerAddress, isRequested;
      this.publicKey, this.hasSigner, this.feePercentage := publicKey, hasSigner, feePercentage;
      this.isValidAmount, this.loading, this.store := isValidAmount, loading, store;
      amount, fee, errorMessage, effects := 0, 0, "", [];
    }

    /** `handleChangeAmount`: the amount typed, and its fee. */
    method HandleChangeAmount(value: int)
      modifies this
      ensures amount == value && fee == Fee(value, feePercentage)
      ensures errorMessage == old(errorMessage) && loading == old(loading) && store == old(store)
      ensures effects == old(effects)
    {
      amount := value;
      fee := Fee(value, feePercentage);
    }

    predicate IsDisabled()
      reads this
    {
      Disabled(isRequested, amount, sellerAddress, loading, publicKey)
    }

    /** `resetInputs`: amount and fee back to zero, no error. */
    method ResetInputs()
      modifies this
      ensures amount == 0 && fee == 0 && errorMessage == ""
      ensures loading == old(loading) && store == old(store) && effects == old(effects)
      ensures IsDisabled()
    {
      amount := 0;
      fee := 0;
      errorMessage := "";
    }

    /** The record a submission builds; `newKey` is the key `push` generated
        and `now` the current time. */
    function NewRecord(escrowKey: Pubkey, newKey: string, now: int): (r: Offer)
      requires publicKey.Some?
      reads this
      ensures r.status == REQUESTED && r.id == Some(newKey) && r.buyerAddress == publicKey.value
      ensures r.sellerAddress == sellerAddress && r.escrowAddress == escrowKey && r.nftAddress == nftAddress
      ensures r.offeredAmount == amount && r.createdAt == Some(now) && r.updatedAt.None?
    {
      Offer(Some(newKey), publicKey.value, sellerAddress, escrowKey, nftAddress, amount, REQUESTED, Some(now), None)
    }

    /** `handleSubmit`; `escrowKey` is the generated keypair's key. */
    method HandleSubmit(escrowKey: Pubkey, newKey: string, now: int)
      modifies this
      // no wallet: the wallet message and nothing else
      ensures publicKey.None? || !hasSigner ==>
        && errorMessage == WALLET_ERROR
        && amount == old(amount) && fee == old(fee) && loading == old(loading)
        && store == old(store) && effects == old(effects)
      // an amount the check refuses: the amount message and nothing else
      ensures publicKey.Some? && hasSigner && !isValidAmount(old(amount)) ==>
        && errorMessage == AMOUNT_ERROR
        && amount == old(amount) && fee == old(fee) && loading == old(loading)
        && store == old(store) && effects == old(effects)
      // otherwise the record goes under the literal key, the form is reset, and loading ends hidden
      ensures publicKey.Some? && hasSigner && isValidAmount(old(amount)) ==>
        var record := Offer(Some(newKey), publicKey.value, sellerAddress, escrowKey, nftAddress, old(amount),
                            REQUESTED, Some(now), None);
        && store == WithChild(old(store), LITERAL_KEY, record)
        && effects == old(effects) + [ShowLoading, StoreWrite(LITERAL_KEY, record), Submitted(record), HideLoading]
        && amount == 0 && fee == 0 && errorMessage == "" && !loading
    {
      errorMessage := "";
      if publicKey.None? || !hasSigner {
        errorMessage := WALLET_ERROR;
        return;
      }
      if !isValidAmount(amount) {
        errorMessage := AMOUNT_ERROR;
        return;
      }
      loading := true;
      effects := effects + [ShowLoading];
      var newTxHistory := NewRecord(escrowKey, newKey, now);
      store := WithChild(store, LITERAL_KEY, newTxHistory);
      effects := effects + [StoreWrite(LITERAL_KEY, newTxHistory)];
      ResetInputs();
      effects := effects + [Submitted(newTxHistory)];
      loading := false;
      effects := effects + [HideLoading];
    }
  }

  /** Two submissions leave one record: the second overwrites the first. */
  lemma SecondSubmissionOverwrites(store: Store, first: Offer, second: Offer)
    ensures var after := WithChild(WithChild(store, LITERAL_KEY, first), LITERAL_KEY, second);
      && after[LITERAL_KEY] == Stored(second)
      && forall k :: k in after && k != LITERAL_KEY ==> after[k] == store[k]
  {
  }

  /** A record written under the literal key carries its generated key as
      `id`, and a discard confirmed on its row writes the status under that
      id: unless the generated key is the literal one, the record itself
      stays REQUESTED and a status-only child appears next to it. */
  lemma {:induction false} DiscardMissesLiteralRecord(store: Store, record: Offer, newKey: string,
                                                      run: Web3Client.Run<()>)
    requires record.id == Some(newKey) && newKey != LITERAL_KEY && record.status == REQUESTED
    requires run.result.Resolved?
    requires newKey !in store
    ensures var written := WithChild(store, LITERAL_KEY, record);
      var props := TransactionView.Dialog(record, TransactionView.Discard);
      var after := MainActions.StoreAfter(written, run, props.id, CANCELED);
      && after[LITERAL_KEY] == Stored(record)
      && StatusOf(after[LITERAL_KEY]) == REQUESTED
      && after[newKey] == StatusOnly(CANCELED)
  {
    var written := WithChild(store, LITERAL_KEY, record);
    var props := TransactionView.Dialog(record, TransactionView.Discard);
    assert props.id == newKey;
    assert newKey !in written;
  }
}
