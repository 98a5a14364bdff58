/** The `useTransactions` hook: pick the fetcher for a side, query the store
    for the records of an address, collect them, sort them newest first and
    keep the list unless nothing was found. */
module UseTransactions {
  import opened Common
  import opened Offers

  datatype Result<T> = Success(value: T) | Failure(message: string)

  const MISSING_TYPE_MESSAGE: string := "TranasactionType is missing"

  /** `fetchBuyerTransactions` filters on `buyerAddress`, `fetchSellerTransactions` on `sellerAddress`. */
  datatype Fetcher = FetchBuyerTransactions | FetchSellerTransactions

  /** The hook's `switch` on the numeric transaction type. */
  function FetcherFor(typeCode: int): (r: Result<Fetcher>)
    ensures r.Success? <==> typeCode == 0 || typeCode == 1
    ensures typeCode == TransactionTypeCode(Buyer) ==> r == Success(FetchBuyerTransactions)
    ensures typeCode == TransactionTypeCode(Seller) ==> r == Success(FetchSellerTransactions)
    ensures r.Failure? ==> r.message == MISSING_TYPE_MESSAGE
  {
    if typeCode == 1 then Success(FetchBuyerTransactions)
    else if typeCode == 0 then Success(FetchSellerTransactions)
    else Failure(MISSING_TYPE_MESSAGE)
  }

  /** The child a fetcher's query orders by and compares with the address. */
  function FilterField(f: Fetcher, o: Offer): string
  {
    match f
    case FetchBuyerTransactions => o.buyerAddress
    case FetchSellerTransactions => o.sellerAddress
  }

  /** `query(ref(database), orderByChild(field), equalTo(address))`: the full
      records whose field equals the address, under their keys. */
  function QueryResult(store: Store, f: Fetcher, address: string): (r: map<string, Offer>)
    ensures forall k :: k in r <==> k in store && store[k].Stored? && FilterField(f, store[k].offer) == address
    ensures forall k :: k in r ==> r[k] == store[k].offer
  {
    map k | k in store && store[k].Stored? && FilterField(f, store[k].offer) == address :: store[k].offer
  }

  // ---------------------------------------------------------------------
  // Collecting the snapshot's values

  /** The values of a map, with multiplicity. */
  ghost function ValuesMultiset<V>(m: map<string, V>): multiset<V>
    decreases |m|
  {
    if m == map[] then multiset{}
    else
      var k :| k in m;
      assert (m - {k}).Keys == m.Keys - {k};
      multiset{m[k]} + ValuesMultiset(m - {k})
  }

  lemma RemoveCommutes<V>(m: map<string, V>, j: string, k: string)
    ensures m - {j} - {k} == m - {k} - {j}
  {
  }

  lemma {:induction false} ValuesMultisetRemove<V>(m: map<string, V>, k: string)
    requires k in m
    ensures ValuesMultiset(m) == multiset{m[k]} + ValuesMultiset(m - {k})
    decreases |m|
  {
    var j :| j in m && ValuesMultiset(m) == multiset{m[j]} + ValuesMultiset(m - {j});
    if j != k {
      assert (m - {j}).Keys == m.Keys - {j};
      assert (m - {k}).Keys == m.Keys - {k};
      RemoveCommutes(m, j, k);
      ValuesMultisetRemove(m - {j}, k);
      ValuesMultisetRemove(m - {k}, j);
    }
  }

  /** `keys` lists the keys of `m`, each once: the order `for..in` visits them. */
  ghost predicate Enumerates<V>(keys: seq<string>, m: map<string, V>)
  {
    && (forall i, j :: 0 <= i < j < |keys| ==> keys[i] != keys[j])
    && (forall k :: k in m <==> k in keys)
  }

  /** The entries of `m` whose keys are not among `visited`. */
  function Unvisited<V>(m: map<string, V>, visited: seq<string>): map<string, V>
  {
    map k | k in m && k !in visited :: m[k]
  }

  lemma UnvisitedStart<V>(m: map<string, V>)
    ensures Unvisited(m, []) == m
  {
  }

  /** Visiting the next key removes exactly that entry. */
  lemma UnvisitedStep<V>(m: map<string, V>, keys: seq<string>, i: nat)
    requires Enumerates(keys, m) && i < |keys|
    ensures keys[i] in Unvisited(m, keys[..i])
    ensures Unvisited(m, keys[..i]) - {keys[i]} == Unvisited(m, keys[..i + 1])
  {
    assert keys[..i + 1] == keys[..i] + [keys[i]];
    assert keys[i] !in keys[..i];
  }

  lemma UnvisitedEnd<V>(m: map<string, V>, keys: seq<string>)
    requires Enumerates(keys, m)
    ensures Unvisited(m, keys) == map[]
  {
  }

  /** `for (var id in data) list.push(data[id])`: every value once, in visiting order. */
  method Collect<V>(data: map<string, V>, keys: seq<string>) returns (list: seq<V>)
    requires Enumerates(keys, data)
    ensures |list| == |keys| && forall i :: 0 <= i < |keys| ==> list[i] == data[keys[i]]
    ensures multiset(list) == ValuesMultiset(data)
  {
    list := [];
    UnvisitedStart(data);
    assert keys[..0] == [];
    for i := 0 to |keys|
      invariant |list| == i && forall j :: 0 <= j < i ==> list[j] == data[keys[j]]
      invariant multiset(list) + ValuesMultiset(Unvisited(data, keys[..i])) == ValuesMultiset(data)
    {
      UnvisitedStep(data, keys, i);
      ValuesMultisetRemove(Unvisited(data, keys[..i]), keys[i]);
      list := list + [data[keys[i]]];
    }
    UnvisitedEnd(data, keys);
    assert keys[..|keys|] == keys;
  }

  // ---------------------------------------------------------------------
  // Sorting newest first

  /** `updatedAt || createdAt`; a record with neither sorts as time 0. */
  function SortKey(o: Offer): (key: int)
    ensures o.updatedAt.Some? ==> key == o.updatedAt.value
    ensures o.updatedAt.None? ==> key == (if o.createdAt.Some? then o.createdAt.value else 0)
  {
    if o.updatedAt.Some? then o.updatedAt.value
    else if o.createdAt.Some? then o.createdAt.value
    else 0
  }

  /** Non-increasing in the sort key. */
  predicate NewestFirst(s: seq<Offer>)
    // the first record is the newest, and every suffix is again newest first
    ensures NewestFirst(s) && |s| > 0 ==> forall i :: 0 <= i < |s| ==> SortKey(s[0]) >= SortKey(s[i])
    ensures NewestFirst(s) && |s| > 0 ==> NewestFirst(s[1..])
  {
    forall i, j :: 0 <= i < j < |s| ==> SortKey(s[i]) >= SortKey(s[j])
  }

  /** Insert `x` after every element at least as new, keeping the order. */
  function Insert(s: seq<Offer>, x: Offer): (r: seq<Offer>)
    ensures multiset(r) == multiset(s) + multiset{x}
  {
    if s == [] then [x]
    else if SortKey(x) > SortKey(s[0]) then [x] + s
    else
      assert s == [s[0]] + s[1..];
      [s[0]] + Insert(s[1..], x)
  }

  /** Inserting keeps every key under a bound that `x` and `s` respect. */
  lemma {:induction false} InsertBounded(s: seq<Offer>, x: Offer, bound: int)
    requires forall i :: 0 <= i < |s| ==> SortKey(s[i]) <= bound
    requires SortKey(x) <= bound
    ensures forall i :: 0 <= i < |Insert(s, x)| ==> SortKey(Insert(s, x)[i]) <= bound
  {
    if s != [] && SortKey(x) <= SortKey(s[0]) {
      InsertBounded(s[1..], x, bound);
    }
  }

  /** Inserting into a list sorted newest first keeps it sorted. */
  lemma {:induction false} InsertSorted(s: seq<Offer>, x: Offer)
    requires NewestFirst(s)
    ensures NewestFirst(Insert(s, x))
  {
    if s != [] && SortKey(x) <= SortKey(s[0]) {
      InsertSorted(s[1..], x);
      InsertBounded(s[1..], x, SortKey(s[0]));
      var r := Insert(s, x);
      assert r == [s[0]] + Insert(s[1..], x);
    }
  }

  /** The comparator `date2 - date1` sorts newest first; the result keeps
      exactly the collected records. */
  method SortNewestFirst(list: seq<Offer>) returns (sorted: seq<Offer>)
    ensures NewestFirst(sorted)
    ensures multiset(sorted) == multiset(list)
  {
    sorted := [];
    for i := 0 to |list|
      invariant NewestFirst(sorted)
      invariant multiset(sorted) == multiset(list[..i])
    {
      assert list[..i + 1] == list[..i] + [list[i]];
      InsertSorted(sorted, list[i]);
      sorted := Insert(sorted, list[i]);
    }
    assert list[..|list|] == list;
  }

  // ---------------------------------------------------------------------
  // The hook

  class TransactionsHook {
    const fetcher: Fetcher
    var transactions: Option<seq<Offer>>

    constructor (fetcher: Fetcher)
      ensures this.fetcher == fetcher && transactions == None
    {
      this.fetcher := fetcher;
      transactions := None;
    }

    /** The returned fetch function. `read` is whether `get` resolved;
        `keys` is the order in which `for..in` visits the snapshot. */
    method Fetch(store: Store, address: string, read: Outcome<()>, keys: seq<string>)
      requires Enumerates(keys, QueryResult(store, fetcher, address))
      modifies this
      // no query for an empty address, nothing kept on a failed read or an empty result
      ensures address == "" || read.Thrown? || |QueryResult(store, fetcher, address)| == 0 ==>
        transactions == old(transactions)
      // otherwise: exactly the matching records, newest first
      ensures address != "" && read.Resolved? && |QueryResult(store, fetcher, address)| != 0 ==>
        && transactions.Some?
        && NewestFirst(transactions.value)
        && multiset(transactions.value) == ValuesMultiset(QueryResult(store, fetcher, address))
    {
      if address != "" {
        if read.Resolved? {
          var data := QueryResult(store, fetcher, address);
          if |data| != 0 {
            var list := Collect(data, keys);
            var sorted := SortNewestFirst(list);
            if |sorted| != 0 {
              transactions := Some(sorted);
            }
          }
        }
      }
    }
  }

  /** `useTransactions(type, database)`: a hook for a known type, or the error it throws. */
  method UseTransactionsHook(typeCode: int) returns (r: Result<TransactionsHook>)
    ensures r.Success? <==> FetcherFor(typeCode).Success?
    ensures r.Success? ==> fresh(r.value) && r.value.fetcher == FetcherFor(typeCode).value
                           && r.value.transactions == None
    ensures r.Failure? ==> r.message == MISSING_TYPE_MESSAGE
  {
    match FetcherFor(typeCode)
    case Failure(m) => r := Failure(m);
    case Success(f) =>
      var hook := new TransactionsHook(f);
      r := Success(hook);
  }

  /** Every record in a fetched list belongs to the address, on the fetcher's side. */
  lemma FetchedRecordsMatch(store: Store, f: Fetcher, address: string, list: seq<Offer>)
    requires multiset(list) == ValuesMultiset(QueryResult(store, f, address))
    ensures forall o :: o in list ==> FilterField(f, o) == address
  {
    forall o | o in list
      ensures FilterField(f, o) == address
    {
      assert o in multiset(list);
      ValuesMultisetMembers(QueryResult(store, f, address), o);
    }
  }

  /** What the values multiset holds is a value of the map. */
  lemma {:induction false} ValuesMultisetMembers<V>(m: map<string, V>, o: V)
    requires o in ValuesMultiset(m)
    ensures exists k :: k in m && m[k] == o
    decreases |m|
  {
    var k :| k in m && ValuesMultiset(m) == multiset{m[k]} + ValuesMultiset(m - {k});
    if m[k] != o {
      assert (m - {k}).Keys == m.Keys - {k};
      ValuesMultisetMembers(m - {k}, o);
    }
  }
}
