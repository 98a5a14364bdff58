/** The off-chain record of an offer and the store that holds the records,
    keyed by the store's child keys. */
module Offers {
  import opened Common

  datatype Status = REQUESTED | ACCEPTED | CANCELED

  /** Which side of the offers a list shows; the numbering of the source's enum. */
  datatype TransactionType = Seller | Buyer

  function TransactionTypeCode(t: TransactionType): (code: int)
    ensures 0 <= code <= 1
    ensures t == Seller <==> code == 0
  {
    match t
    case Seller => 0
    case Buyer => 1
  }

  /** An offer record (`CreateTxHistoryInput` when written, `TxHistory` when
      read back). Amounts are in tenths of SOL; timestamps are integers. */
  datatype Offer = Offer(
    id: Option<string>,
    buyerAddress: string,
    sellerAddress: string,
    escrowAddress: string,
    nftAddress: string,
    offeredAmount: int,
    status: Status,
    createdAt: Option<int>,
    updatedAt: Option<int>)

  /** A child of the store: a full record, or what a status update leaves at
      a key that held no record. */
  datatype StoredRecord = Stored(offer: Offer) | StatusOnly(status: Status)

  type Store = map<string, StoredRecord>

  function StatusOf(rec: StoredRecord): Status
  {
    match rec
    case Stored(o) => o.status
    case StatusOnly(s) => s
  }

  /** `update(ref(database, id), { status })`: only the `status` child of
      `id` is written, and a missing `id` gets a record holding just that. */
  function WithStatus(store: Store, id: string, s: Status): (r: Store)
    ensures r.Keys == store.Keys + {id}
    ensures StatusOf(r[id]) == s
    ensures id in store && store[id].Stored? ==> r[id] == Stored(store[id].offer.(status := s))
    ensures (id !in store || store[id].StatusOnly?) ==> r[id] == StatusOnly(s)
    ensures forall k :: k in store && k != id ==> r[k] == store[k]
  {
    if id in store && store[id].Stored? then store[id := Stored(store[id].offer.(status := s))]
    else store[id := StatusOnly(s)]
  }

  /** Writing a status twice is writing it once, and the later of two writes wins. */
  lemma {:induction false} WithStatusOverwrites(store: Store, id: string, s: Status, t: Status)
    ensures WithStatus(WithStatus(store, id, s), id, t) == WithStatus(store, id, t)
  {
    var once := WithStatus(store, id, s);
    var twice := WithStatus(once, id, t);
    var direct := WithStatus(store, id, t);
    assert twice.Keys == direct.Keys;
    assert twice[id] == direct[id];
    forall k | k in twice
      ensures twice[k] == direct[k]
    {
      if k != id {
        assert twice[k] == once[k] == store[k];
      }
    }
  }

  /** `update(ref(database), { key: offer })`: the whole child `key` is replaced. */
  function WithChild(store: Store, key: string, offer: Offer): (r: Store)
    ensures r.Keys == store.Keys + {key} && r[key] == Stored(offer)
    ensures forall k :: k in store && k != key ==> r[k] == store[k]
  {
    store[key := Stored(offer)]
  }
}
