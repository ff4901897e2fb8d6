// The append-only result cache: a counter and a table from identifiers to
// stored records. Each insert stores the record under the current counter
// and then advances the counter, so the keys are always exactly
// 0 .. id-1 and no entry is ever overwritten.
//
// The reader/writer lock of the service only serialises the calls; the
// model is sequential.

module Cache {
  import opened Records

  /** Largest value of a `u32`; the counter must stay below it to be incremented. */
  const MAX_U32: int := 0xFFFF_FFFF

  /** The abstract value of the state: counter and table. */
  datatype CacheView = CacheView(id: U32, cache: map<U32, LoanRecord>)

  /** `AppState::default()`. */
  const Empty: CacheView := CacheView(0, map[])

  /** The identifiers below `n`. */
  function KeyRange(n: U32): (keys: set<U32>)
    ensures forall k: U32 :: k in keys <==> k < n
  {
    if n == 0 then {} else KeyRange(n - 1) + {n - 1}
  }

  lemma {:induction false} KeyRangeSize(n: U32)
    ensures |KeyRange(n)| == n
  {
    if n > 0 {
      KeyRangeSize(n - 1);
    }
  }

  /** The cache invariant: the keys are exactly the identifiers handed out so far. */
  ghost predicate WellFormed(v: CacheView)
  {
    v.cache.Keys == KeyRange(v.id)
  }

  /** What one insert does to the state. */
  function Put(v: CacheView, loan: LoanRecord): (w: CacheView)
    requires v.id < MAX_U32
    ensures w.id == v.id + 1 && w.cache.Keys == v.cache.Keys + {v.id} && w.cache[v.id] == loan
    ensures forall k :: k in v.cache && k != v.id ==> w.cache[k] == v.cache[k]
  {
    CacheView(v.id + 1, v.cache[v.id := loan])
  }

  /** An insert keeps the invariant, adds one entry and overwrites none. */
  lemma PutPreservesWellFormed(v: CacheView, loan: LoanRecord)
    requires WellFormed(v) && v.id < MAX_U32
    ensures WellFormed(Put(v, loan))
    ensures v.id !in v.cache
    ensures |Put(v, loan).cache| == |v.cache| + 1
    ensures forall k :: k in v.cache ==> k in Put(v, loan).cache && Put(v, loan).cache[k] == v.cache[k]
  {
  }

  /** The size of a well-formed cache is its counter. */
  lemma WellFormedSize(v: CacheView)
    requires WellFormed(v)
    ensures |v.cache| == v.id
  {
    KeyRangeSize(v.id);
    assert |v.cache| == |v.cache.Keys|;
  }

  /** The state after inserting `loans` one by one into a fresh cache. */
  function Replay(loans: seq<LoanRecord>): (v: CacheView)
    requires |loans| <= MAX_U32
    ensures v.id == |loans|
    ensures WellFormed(v)
  {
    if loans == [] then Empty
    else
      var before := Replay(loans[..|loans| - 1]);
      PutPreservesWellFormed(before, loans[|loans| - 1]);
      Put(before, loans[|loans| - 1])
  }

  /** Sequential inserts assign the keys 0, 1, ..., n-1 in call order. */
  lemma {:induction false} ReplayAssignsInOrder(loans: seq<LoanRecord>)
    requires |loans| <= MAX_U32
    ensures forall i :: 0 <= i < |loans| ==> i in Replay(loans).cache && Replay(loans).cache[i] == loans[i]
  {
    if loans != [] {
      var prefix := loans[..|loans| - 1];
      ReplayAssignsInOrder(prefix);
      forall i | 0 <= i < |loans|
        ensures i in Replay(loans).cache && Replay(loans).cache[i] == loans[i]
      {
        if i < |prefix| {
          assert prefix[i] == loans[i];
        }
      }
    }
  }

  class AppState {
    var id: U32
    var cache: map<U32, LoanRecord>

    function View(): CacheView
      reads this
    {
      CacheView(id, cache)
    }

    ghost predicate Valid()
      reads this
    {
      WellFormed(View())
    }

    /** `AppState::default()`: counter 0, empty table. */
    constructor ()
      ensures Valid() && View() == Empty
    {
      id := 0;
      cache := map[];
    }

    /** Stores `loan` under the current counter, then advances the counter. */
    method Insert(loan: LoanRecord)
      requires Valid()
      requires id < MAX_U32
      modifies this
      ensures Valid()
      ensures View() == Put(old(View()), loan)
      ensures old(id) !in old(cache)
    {
      PutPreservesWellFormed(View(), loan);
      var key := id;
      cache := cache[key := loan];
      id := id + 1;
    }
  }
}
