/** One row of the offers table: shortened addresses, the status label, the
    actions a viewer may take, and the payloads of the two dialogs. */
module TransactionView {
  import opened Common
  import opened Offers

  function Min(a: int, b: int): int { if a <= b then a else b }
  function Max(a: int, b: int): int { if a <= b then b else a }

  /** `address.slice(0, 3) + ".." + address.slice(-4)`: JavaScript's slices
      clamp to the string, so a short address shows overlapping parts. */
  function ShortAddress(address: string): (r: string)
    ensures |r| == Min(3, |address|) + 2 + Min(4, |address|)
    ensures |address| >= 3 ==> r[..3] == address[..3]
    ensures |address| < 3 ==> r[..|address|] == address
    ensures r[Min(3, |address|)..Min(3, |address|) + 2] == ".."
    ensures |address| >= 4 ==> r[|r| - 4..] == address[|address| - 4..]
    ensures |address| >= 7 ==> |r| == 9
  {
    address[..Min(3, |address|)] + ".." + address[Max(|address| - 4, 0)..]
  }

  /** `StatusLogo`: the text shown for each status. */
  function StatusLabel(status: Status): (text: string)
    ensures text == "Accepted" <==> status == ACCEPTED
    ensures text == "Canceled" <==> status == CANCELED
    ensures text == "Requested" <==> status == REQUESTED
  {
    match status
    case ACCEPTED => "Accepted"
    case CANCELED => "Canceled"
    case REQUESTED => "Requested"
  }

  /** Each status has its own label. */
  lemma StatusLabelInjective(s: Status, t: Status)
    ensures StatusLabel(s) == StatusLabel(t) <==> s == t
  {
    if s != t {
      assert StatusLabel(s)[0] != StatusLabel(t)[0];
    }
  }

  datatype Action = Discard | Accept

  /** `ActionButton`: the buttons shown for a viewer of the given side. */
  function Actions(viewer: TransactionType, status: Status): (r: seq<Action>)
    ensures status != REQUESTED ==> r == []
    ensures status == REQUESTED && viewer == Seller ==> r == [Discard]
    ensures status == REQUESTED && viewer == Buyer ==> r == [Accept, Discard]
    ensures Accept in r <==> status == REQUESTED && viewer == Buyer
    ensures Discard in r <==> status == REQUESTED
  {
    match viewer
    case Seller => if status == REQUESTED then [Discard] else []
    case Buyer => if status == REQUESTED then [Accept, Discard] else []
  }

  /** The payload a dialog hands back on confirmation (`ActionProps`). */
  datatype ActionProps =
    | CancelOffer(id: string, escrowAddress: string, sellerAddress: string, buyerAddress: string, nftAddress: string)
    | AcceptOffer(id: string, escrowAddress: string, amount: int, sellerAddress: string, buyerAddress: string,
                  nftAddress: string)

  /** A record as read back from the store carries its id. */
  function RecordId(offer: Offer): string
  {
    if offer.id.Some? then offer.id.value else ""
  }

  /** `handleClickDiscard` / `handleClickAccept`: the dialog a button opens. */
  function Dialog(offer: Offer, action: Action): (p: ActionProps)
    ensures p.id == RecordId(offer) && p.escrowAddress == offer.escrowAddress && p.nftAddress == offer.nftAddress
    ensures p.sellerAddress == offer.sellerAddress && p.buyerAddress == offer.buyerAddress
    ensures action == Discard <==> p.CancelOffer?
    ensures p.AcceptOffer? ==> p.amount == offer.offeredAmount
  {
    match action
    case Discard =>
      CancelOffer(RecordId(offer), offer.escrowAddress, offer.sellerAddress, offer.buyerAddress, offer.nftAddress)
    case Accept =>
      AcceptOffer(RecordId(offer), offer.escrowAddress, offer.offeredAmount, offer.sellerAddress,
                  offer.buyerAddress, offer.nftAddress)
  }

  /** A row opens a dialog only through a shown button, so only for a
      requested record, and an acceptance only for a buyer. */
  lemma DialogsOnlyForRequested(viewer: TransactionType, offer: Offer, action: Action)
    requires action in Actions(viewer, offer.status)
    ensures offer.status == REQUESTED
    ensures Dialog(offer, action).AcceptOffer? ==> viewer == Buyer
  {
  }
}
