/** GeneralDataStructures/HashMap/HashMap.c: an array of chains, as one map. */
module HashMaps {
  import opened Basics
  import opened SetChains

  type Buckets<T> = seq<seq<Entry<T>>>

  /** The entries of bucket `i` of `n` have different keys, which all belong there. */
  ghost predicate InBucket<T>(s: seq<Entry<T>>, i: int, n: int) {
    DistinctKeys(s) && n > 0 && forall j :: 0 <= j < |s| ==> s[j].key >= 0 && s[j].key % n == i
  }

  ghost predicate Hashed<T>(bs: Buckets<T>, n: int) {
    n > 0 && forall i :: 0 <= i < |bs| ==> InBucket(bs[i], i, n)
  }

  /** What the buckets hold together */
  ghost function Items<T>(bs: Buckets<T>): map<int, T> {
    if bs == [] then map[] else Items(bs[..|bs| - 1]) + AsMap(bs[|bs| - 1])
  }

  /** Where the C code looks for a key */
  ghost function Get<T>(bs: Buckets<T>, k: int): Option<T>
    requires bs != []
  {
    Lookup(bs[k % |bs|], k)
  }

  lemma BucketKeys<T>(s: seq<Entry<T>>, i: int, n: int, k: int)
    requires InBucket(s, i, n) && k in AsMap(s)
    ensures k >= 0 && k % n == i
  {
    LookupIsMap(s, k);
    var j :| 0 <= j < |s| && s[j].key == k;
  }

  lemma {:induction false} ItemsByBucket<T>(bs: Buckets<T>, n: int, k: int)
    requires Hashed(bs, n) && |bs| <= n && k >= 0
    ensures k in Items(bs) <==> k % n < |bs| && k in AsMap(bs[k % n])
    ensures k in Items(bs) ==> Items(bs)[k] == AsMap(bs[k % n])[k]
  {
    if bs != [] {
      var m := |bs| - 1;
      assert forall i :: 0 <= i < m ==> bs[..m][i] == bs[i];
      ItemsByBucket(bs[..m], n, k);
      if k in AsMap(bs[m]) { BucketKeys(bs[m], m, n, k); }
    }
  }

  /** Looking in one bucket only finds what all the buckets together hold. */
  lemma GetIsMap<T>(bs: Buckets<T>, k: int)
    requires bs != [] && Hashed(bs, |bs|) && k >= 0
    ensures Get(bs, k) == if k in Items(bs) then Some(Items(bs)[k]) else None
  {
    ItemsByBucket(bs, |bs|, k);
    LookupIsMap(bs[k % |bs|], k);
  }

  // -------------------------------------------------------------- one bucket's changes

  lemma Prepended<T>(s: seq<Entry<T>>, i: int, n: int, e: Entry<T>)
    requires InBucket(s, i, n) && !HasKey(s, e.key) && e.key >= 0 && e.key % n == i
    ensures InBucket([e] + s, i, n)
    ensures forall k :: Lookup([e] + s, k) == if k == e.key then Some(e.item) else Lookup(s, k)
  {
    assert ([e] + s)[1..] == s;
    forall j | 0 <= j < |s| ensures s[j].key != e.key {
      assert !HasKey(s, e.key);
    }
  }

  lemma StillInBucket<T>(s: seq<Entry<T>>, i: int, n: int, k: int)
    requires InBucket(s, i, n)
    ensures InBucket(Without(s, k), i, n)
  {
    if HasKey(s, k) {
      var m :| 0 <= m < |s| && s[m].key == k;
      WithoutAt(s, m);
      DroppedDistinct(s, m);
      forall j | 0 <= j < |s| - 1 ensures Without(s, k)[j] == if j < m then s[j] else s[j + 1] {
      }
    } else {
      WithoutMissing(s, k);
    }
  }

  lemma Removed<T>(s: seq<Entry<T>>, k: int, j: int)
    requires DistinctKeys(s)
    ensures Lookup(Without(s, k), j) == if j == k then None else Lookup(s, j)
  {
    WithoutIsMap(s, k);
    LookupIsMap(s, j);
    LookupIsMap(Without(s, k), j);
  }

  lemma AllVisited<T>(f: (int, T) -> Option<T>, s: seq<Entry<T>>, i: int, n: int, k: int)
    requires InBucket(s, i, n)
    ensures InBucket(Visited(f, s), i, n)
    ensures Lookup(Visited(f, s), k) == if Lookup(s, k).Some? then f(k, Lookup(s, k).value) else None
  {
    VisitedIsMap(f, s);
    LookupIsMap(s, k);
    LookupIsMap(Visited(f, s), k);
    forall j | 0 <= j < |Visited(f, s)| ensures Visited(f, s)[j].key >= 0 && Visited(f, s)[j].key % n == i {
      VisitedKeys(f, s, Visited(f, s)[j].key);
      var m :| 0 <= m < |s| && s[m].key == Visited(f, s)[j].key;
    }
  }

  // ------------------------------------------------------------------------ the map

  /** Bucket `b` has changed, and with it what is found at `k`. */
  ghost predicate ChangedAt<T>(bs: Buckets<T>, bs': Buckets<T>, k: int, r: Option<T>) {
    bs != [] && bs' != [] && forall j :: j >= 0 ==> Get(bs', j) == if j == k then r else Get(bs, j)
  }

  lemma OneBucket<T>(bs: Buckets<T>, k: int, s: seq<Entry<T>>, r: Option<T>)
    requires bs != [] && k >= 0
    requires forall j :: j >= 0 ==> Lookup(s, j) == if j == k then r else Lookup(bs[k % |bs|], j)
    ensures ChangedAt(bs, bs[k % |bs| := s], k, r)
  {
  }

  /** The first `n` buckets have been visited. */
  ghost predicate VisitedTo<T>(f: (int, T) -> Option<T>, bs: Buckets<T>, bs': Buckets<T>, n: int) {
    |bs'| == |bs| && forall i :: 0 <= i < |bs| ==> bs'[i] == if i < n then Visited(f, bs[i]) else bs[i]
  }

  /** The keys of the first `n` buckets that `f` has removed, in the order in which it sees them */
  function GoneTo<T>(f: (int, T) -> Option<T>, bs: Buckets<T>, n: nat): seq<int>
    requires n <= |bs|
  {
    if n == 0 then [] else GoneTo(f, bs, n - 1) + Gone(f, bs[n - 1])
  }

  ghost predicate IteratedTo<T>(f: (int, T) -> Option<T>, bs: Buckets<T>, bs': Buckets<T>, gone: seq<int>, n: nat) {
    n <= |bs| && VisitedTo(f, bs, bs', n) && gone == GoneTo(f, bs, n)
  }

  lemma NextBucket<T>(f: (int, T) -> Option<T>, bs: Buckets<T>, bs': Buckets<T>, gone: seq<int>,
                      at: nat, n: nat, bs'': Buckets<T>, gone': seq<int>)
    requires at < |bs| && n == at + 1 && IteratedTo(f, bs, bs', gone, at) && |bs'| == |bs|
    requires bs'' == bs'[at := Visited(f, bs'[at])] && gone' == gone + Gone(f, bs'[at])
    ensures IteratedTo(f, bs, bs'', gone', n)
  {
  }

  /** An iteration gives every item to `f` exactly once. */
  lemma IterationMeans<T>(f: (int, T) -> Option<T>, bs: Buckets<T>, bs': Buckets<T>, k: int)
    requires bs != [] && Hashed(bs, |bs|) && VisitedTo(f, bs, bs', |bs|) && k >= 0
    ensures Get(bs', k) == if Get(bs, k).Some? then f(k, Get(bs, k).value) else None
  {
    AllVisited(f, bs[k % |bs|], k % |bs|, |bs|, k);
  }

  lemma EmptyBuckets<T>(bs: Buckets<T>)
    requires bs != [] && forall i :: 0 <= i < |bs| ==> bs[i] == []
    ensures Hashed(bs, |bs|) && forall k :: Get(bs, k) == None
  {
  }

  ghost predicate NewChain<T>(c: SetChain<T>)
    reads c, c.nodes
  {
    c.Valid() && c.Contents() == [] && c.nodes == {}
  }

  class HashMap<T(==)> {
    const sets: array<SetChain<T>>

    /** The contents of the buckets */
    ghost var buckets: Buckets<T>
    ghost var nodes: set<SetNode<T>>

    /** The chains are different objects with no node in common. */
    ghost predicate Separate()
      reads this, sets, sets[..]
    {
      && sets.Length == |buckets| && buckets != []
      && (forall i :: 0 <= i < sets.Length ==> sets[i].nodes <= nodes)
      && (forall i, j :: 0 <= i < sets.Length && 0 <= j < sets.Length && i != j ==>
           sets[i] != sets[j] && sets[i].nodes !! sets[j].nodes)
    }

    ghost predicate ValidBucket(i: int)
      reads this, sets, sets[..], nodes
      requires Separate() && 0 <= i < sets.Length
    {
      sets[i].Valid() && sets[i].Contents() == buckets[i]
    }

    ghost predicate Valid()
      reads this, sets, sets[..], nodes
    {
      Separate() && Hashed(buckets, |buckets|) && forall i :: 0 <= i < sets.Length ==> ValidBucket(i)
    }

    /** HashMap_new */
    constructor (numSlots: nat)
      requires numSlots > 0
      ensures Valid() && fresh(sets) && |buckets| == numSlots && forall k :: Get(buckets, k) == None
    {
      var first := new SetChain<T>();
      var chains := new SetChain<T>[numSlots](_ => first);
      sets := chains;
      buckets := seq(numSlots, _ => []);
      nodes := {};
      new;
      EmptyBuckets(buckets);
      var i := 0;
      while i < numSlots
        modifies sets
        invariant 0 <= i <= numSlots
        invariant forall j :: 0 <= j < i ==> NewChain(sets[j]) && fresh(sets[j])
        invariant forall j, k :: 0 <= j < i && 0 <= k < i && j != k ==> sets[j] != sets[k]
      {
        var chain := new SetChain<T>();
        sets[i] := chain;
        i := i + 1;
      }
    }

    /** A bucket whose chain has not been touched is as it was. */
    twostate predicate SameBucket(i: int)
      requires 0 <= i < sets.Length == |buckets|
      reads this, sets, sets[i], sets[i].nodes
    {
      sets[i] == old(sets[i]) && sets[i].nodes == old(sets[i].nodes) && sets[i].Valid()
        && sets[i].Contents() == buckets[i]
    }

    twostate lemma Untouched(i: int)
      requires old(Separate()) && 0 <= i < sets.Length == |buckets| && old(ValidBucket(i))
      requires unchanged(sets) && unchanged(sets[i]) && unchanged(sets[i].nodes) && buckets[i] == old(buckets[i])
      ensures SameBucket(i)
    {
    }

    /** When bucket `b` alone has changed and is in order, so is the map. */
    twostate lemma StillValid(b: int)
      requires old(Valid()) && 0 <= b < sets.Length == |buckets| && unchanged(sets)
      requires forall i :: 0 <= i < sets.Length && i != b ==> SameBucket(i)
      requires buckets == old(buckets)[b := buckets[b]] && InBucket(buckets[b], b, sets.Length)
      requires sets[b].Valid() && sets[b].Contents() == buckets[b]
      requires nodes == old(nodes) + sets[b].nodes && fresh(sets[b].nodes - old(sets[b].nodes))
      ensures Valid()
    {
      forall i | 0 <= i < sets.Length && i != b ensures sets[i].nodes <= old(nodes) && sets[i].nodes !! sets[b].nodes {
        assert SameBucket(i);
      }
      forall i, j | 0 <= i < sets.Length && 0 <= j < sets.Length && i != j && i != b && j != b
        ensures sets[i] != sets[j] && sets[i].nodes !! sets[j].nodes {
        assert SameBucket(i) && SameBucket(j);
      }
      assert Separate();
      forall i | 0 <= i < sets.Length && i != b ensures ValidBucket(i) {
        assert SameBucket(i);
      }
    }

    /** HashMap_find */
    method Find(k: int) returns (r: Option<T>)
      requires Valid() && k >= 0
      ensures r == Get(buckets, k)
    {
      assert ValidBucket(k % sets.Length);
      r := sets[k % sets.Length].Find(k);
    }

    /** HashMap_insert */
    method Insert(k: int, item: T) returns (status: int)
      requires Valid() && k >= 0
      modifies this`nodes, this`buckets, sets[..], nodes
      ensures Valid() && status == if Get(old(buckets), k).Some? then ERROR else SUCCESS
      ensures if status == SUCCESS then ChangedAt(old(buckets), buckets, k, Some(item)) else buckets == old(buckets)
    {
      var n := sets.Length;
      var b := k % n;
      assert ValidBucket(b);
      ghost var s := buckets[b];
      LookupIsMap(s, k);
      if !HasKey(s, k) {
        Prepended(s, b, n, Entry(k, item));
        OneBucket(buckets, k, [Entry(k, item)] + s, Some(item));
      }
      status := sets[b].Insert(k, item);
      nodes := nodes + sets[b].nodes;
      if status == SUCCESS { buckets := buckets[b := [Entry(k, item)] + s]; }
      forall i | 0 <= i < sets.Length && i != b ensures SameBucket(i) {
        Untouched(i);
      }
      StillValid(b);
    }

    /** HashMap_remove */
    method Remove(k: int) returns (r: Option<T>)
      requires Valid() && k >= 0
      modifies this`buckets, sets[..], nodes
      ensures Valid() && r == Get(old(buckets), k) && ChangedAt(old(buckets), buckets, k, None)
    {
      var n := sets.Length;
      var b := k % n;
      assert ValidBucket(b);
      ghost var s := buckets[b];
      forall j | j >= 0 ensures Lookup(Without(s, k), j) == if j == k then None else Lookup(s, j) {
        Removed(s, k, j);
      }
      OneBucket(buckets, k, Without(s, k), None);
      ghost var at;
      r, at := sets[b].Remove(k);
      buckets := buckets[b := Without(s, k)];
      StillInBucket(s, b, n, k);
      forall i | 0 <= i < sets.Length && i != b ensures SameBucket(i) {
        Untouched(i);
      }
      StillValid(b);
    }

    /** HashMap_iterate with a function that may change the item it is given or have it removed */
    method Iterate(f: (int, T) -> Option<T>) returns (gone: seq<int>)
      requires Valid()
      modifies this`buckets, sets[..], nodes
      ensures Valid() && VisitedTo(f, old(buckets), buckets, |buckets|) && gone == GoneTo(f, old(buckets), |buckets|)
    {
      var b := 0;
      gone := [];
      while b < sets.Length
        invariant 0 <= b <= sets.Length && Valid() && IteratedTo(f, old(buckets), buckets, gone, b)
      {
        ghost var at, buckets', gone' := b, buckets, gone;
        var more := VisitBucket(f, b);
        gone := gone + more;
        b := b + 1;
        NextBucket(f, old(buckets), buckets', gone', at, b, buckets, gone);
      }
    }

    method VisitBucket(f: (int, T) -> Option<T>, b: nat) returns (gone: seq<int>)
      requires Valid() && b < sets.Length
      modifies this`buckets, sets[..], nodes
      ensures Valid() && buckets == old(buckets)[b := Visited(f, old(buckets)[b])] && gone == Gone(f, old(buckets)[b])
    {
      assert ValidBucket(b);
      ghost var s := buckets[b];
      AllVisited(f, s, b, sets.Length, 0);
      gone := sets[b].Iterate(f);
      buckets := buckets[b := Visited(f, s)];
      forall i | 0 <= i < sets.Length && i != b ensures SameBucket(i) {
        Untouched(i);
      }
      StillValid(b);
    }
  }
}
