/** The live transaction feed's list updates: merging the stored demo
    transactions into the current list, and inserting one newly created
    transaction. Both keep the list newest first. */
module TransactionFeed {
  import opened Wrappers

  datatype TransactionStatus = Succeeded | Failed | Pending

  /** A transaction as the feed holds it; the timestamp is already converted
      to epoch milliseconds. */
  datatype Transaction = Transaction(
    id: string,
    amount: real,
    currency: string,
    status: TransactionStatus,
    customer: string,
    timestamp: int,
    paymentMethod: string,
    description: Option<string>,
    receiptUrl: Option<string>)

  // ---------------------------------------------------------------------
  // Newest-first order
  // ---------------------------------------------------------------------

  predicate NewestFirst(s: seq<Transaction>)
  {
    forall i, j :: 0 <= i < j < |s| ==> s[j].timestamp <= s[i].timestamp
  }

  /** An entry at least as new as every entry of a newest-first list can
      go in front of it. */
  lemma PrependNewestFirst(y: Transaction, s: seq<Transaction>)
    requires NewestFirst(s)
    requires forall i :: 0 <= i < |s| ==> s[i].timestamp <= y.timestamp
    ensures NewestFirst([y] + s)
  {
    var r := [y] + s;
    forall i, j | 0 <= i < j < |r| ensures r[j].timestamp <= r[i].timestamp {
      assert r[j] == s[j - 1];
      if i > 0 { assert r[i] == s[i - 1]; }
    }
  }

  /** Places `x` before the first entry that is not newer than it, so that
      among equal timestamps `x` keeps its place ahead of the others. */
  function InsertNewestFirst(x: Transaction, s: seq<Transaction>): (r: seq<Transaction>)
    requires NewestFirst(s)
    ensures NewestFirst(r)
    ensures multiset(r) == multiset(s) + multiset{x}
    ensures |r| == |s| + 1
  {
    if s == [] || s[0].timestamp <= x.timestamp then
      PrependNewestFirst(x, s);
      [x] + s
    else
      var rest := InsertNewestFirst(x, s[1..]);
      assert s == [s[0]] + s[1..];
      assert forall i :: 0 <= i < |rest| ==> rest[i].timestamp <= s[0].timestamp by {
        forall i | 0 <= i < |rest| ensures rest[i].timestamp <= s[0].timestamp {
          assert rest[i] in multiset(s[1..]) + multiset{x};
        }
      }
      PrependNewestFirst(s[0], rest);
      [s[0]] + rest
  }

  /** Sorting by descending timestamp with a stable sort, as the feed's
      `sort` with comparator `b - a` does. */
  function SortNewestFirst(s: seq<Transaction>): (r: seq<Transaction>)
    ensures NewestFirst(r)
    ensures multiset(r) == multiset(s)
    ensures |r| == |s|
  {
    if s == [] then []
    else
      assert s == [s[0]] + s[1..];
      InsertNewestFirst(s[0], SortNewestFirst(s[1..]))
  }

  /** Sorting a list that is already newest first leaves it as it is. */
  lemma {:induction false} SortNewestFirstSorted(s: seq<Transaction>)
    requires NewestFirst(s)
    ensures SortNewestFirst(s) == s
  {
    if s != [] {
      SortNewestFirstSorted(s[1..]);
      assert s == [s[0]] + s[1..];
    }
  }

  // ---------------------------------------------------------------------
  // Merging stored demo transactions
  // ---------------------------------------------------------------------

  function Ids(s: seq<Transaction>): set<string>
  {
    set t | t in s :: t.id
  }

  /** The incoming entries whose id is not among `ids`, in their order. */
  function WithoutIds(incoming: seq<Transaction>, ids: set<string>): (r: seq<Transaction>)
    ensures |r| <= |incoming|
    ensures forall t :: t in r <==> t in incoming && t.id !in ids
    ensures (forall t :: t in incoming ==> t.id in ids) ==> r == []
  {
    if incoming == [] then []
    else
      var rest := WithoutIds(incoming[1..], ids);
      assert incoming == [incoming[0]] + incoming[1..];
      if incoming[0].id in ids then rest else [incoming[0]] + rest
  }

  /** Every incoming entry whose id is not among `ids` is kept as many times
      as it occurs; every other one is dropped. */
  lemma {:induction false} WithoutIdsCounts(incoming: seq<Transaction>, ids: set<string>)
    ensures forall t :: multiset(WithoutIds(incoming, ids))[t] ==
                        if t.id in ids then 0 else multiset(incoming)[t]
  {
    if incoming != [] {
      WithoutIdsCounts(incoming[1..], ids);
      assert incoming == [incoming[0]] + incoming[1..];
      assert multiset(incoming) == multiset{incoming[0]} + multiset(incoming[1..]);
    }
  }

  /** The merge step of loading the stored demo transactions: incoming
      entries with an id already in the list are dropped, the rest go in
      front of the current list, and the whole is sorted newest first. */
  function MergeStored(current: seq<Transaction>, parsed: seq<Transaction>): (r: seq<Transaction>)
    ensures NewestFirst(r)
    ensures |r| == |current| + |WithoutIds(parsed, Ids(current))|
    ensures forall t: Transaction :: t.id in Ids(current) ==> multiset(r)[t] == multiset(current)[t]
    ensures forall t: Transaction :: t.id !in Ids(current) ==> multiset(r)[t] == multiset(parsed)[t]
  {
    var newDemos := WithoutIds(parsed, Ids(current));
    WithoutIdsCounts(parsed, Ids(current));
    assert forall u :: u in current ==> u.id in Ids(current);
    SortNewestFirst(newDemos + current)
  }

  /** Loading the stored demo transactions: when nothing is stored, or what
      is stored does not parse, the list stays as it is. */
  function LoadDemo(current: seq<Transaction>, stored: Option<seq<Transaction>>): (r: seq<Transaction>)
    ensures stored.None? ==> r == current
    ensures stored.Some? ==> r == MergeStored(current, stored.value)
    ensures stored.Some? ==> NewestFirst(r) && multiset(current) <= multiset(r)
  {
    match stored
    case None => current
    case Some(parsed) =>
      var r := MergeStored(current, parsed);
      assert forall u :: u in current ==> u.id in Ids(current);
      r
  }

  /** When every incoming id is already present, the merge only sorts. */
  lemma MergeNothingNew(current: seq<Transaction>, parsed: seq<Transaction>)
    requires forall t :: t in parsed ==> t.id in Ids(current)
    ensures MergeStored(current, parsed) == SortNewestFirst(current)
    ensures NewestFirst(current) ==> MergeStored(current, parsed) == current
  {
    var newDemos := WithoutIds(parsed, Ids(current));
    assert newDemos + current == current;
    if NewestFirst(current) {
      SortNewestFirstSorted(current);
    }
  }

  /** Loading the same stored transactions a second time (as the window's
      focus handler does) changes nothing. */
  lemma MergeStoredIdempotent(current: seq<Transaction>, parsed: seq<Transaction>)
    ensures MergeStored(MergeStored(current, parsed), parsed) == MergeStored(current, parsed)
  {
    var merged := MergeStored(current, parsed);
    forall t | t in parsed ensures t.id in Ids(merged) {
      if t.id in Ids(current) {
        var u :| u in current && u.id == t.id;
        assert multiset(merged)[u] == multiset(current)[u];
        assert u in merged;
      } else {
        assert multiset(merged)[t] == multiset(parsed)[t];
        assert t in merged;
      }
    }
    MergeNothingNew(merged, parsed);
  }

  // ---------------------------------------------------------------------
  // Inserting a newly created transaction
  // ---------------------------------------------------------------------

  /** The update on a transaction-created event: a transaction whose id is
      already listed leaves the list as it is; otherwise it is put in front
      and the list sorted newest first. */
  function InsertCreated(current: seq<Transaction>, t: Transaction): (r: seq<Transaction>)
    ensures t.id in Ids(current) ==> r == current
    ensures t.id !in Ids(current) ==>
              NewestFirst(r) && multiset(r) == multiset{t} + multiset(current) && |r| == |current| + 1
  {
    if exists u :: u in current && u.id == t.id then
      current
    else
      SortNewestFirst([t] + current)
  }

  /** Delivering the same created transaction twice changes nothing more. */
  lemma InsertCreatedIdempotent(current: seq<Transaction>, t: Transaction)
    ensures InsertCreated(InsertCreated(current, t), t) == InsertCreated(current, t)
  {
    var once := InsertCreated(current, t);
    if t.id !in Ids(current) {
      assert t in multiset(once);
      assert t.id in Ids(once);
    }
  }

  /** On a newest-first list, inserting one transaction and merging a stored
      list holding just that transaction give the same list. */
  lemma InsertCreatedIsMergeOfOne(current: seq<Transaction>, t: Transaction)
    requires NewestFirst(current)
    ensures InsertCreated(current, t) == MergeStored(current, [t])
  {
    if t.id in Ids(current) {
      MergeNothingNew(current, [t]);
    } else {
      assert WithoutIds([t], Ids(current)) == [t];
    }
  }

  // ---------------------------------------------------------------------
  // The feed's state
  // ---------------------------------------------------------------------

  /** The feed component's transaction list, replaced by each update. */
  class Feed {
    var transactions: seq<Transaction>

    constructor ()
      ensures transactions == []
    {
      transactions := [];
    }

    /** `stored` is the parsed stored list, or None when nothing is stored
        or it fails to parse. */
    method LoadDemoTransactions(stored: Option<seq<Transaction>>)
      modifies this
      ensures transactions == LoadDemo(old(transactions), stored)
      ensures stored.Some? ==> NewestFirst(transactions)
      ensures multiset(old(transactions)) <= multiset(transactions)
    {
      transactions := LoadDemo(transactions, stored);
    }

    method HandleTransactionCreated(newTransaction: Transaction)
      modifies this
      ensures transactions == InsertCreated(old(transactions), newTransaction)
      ensures newTransaction.id in Ids(transactions)
      ensures old(NewestFirst(transactions)) ==> NewestFirst(transactions)
    {
      transactions := InsertCreated(transactions, newTransaction);
      if newTransaction.id !in Ids(old(transactions)) {
        assert newTransaction in multiset(transactions);
        assert newTransaction in transactions;
      }
    }
  }
}
