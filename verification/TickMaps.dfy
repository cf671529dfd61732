/**
 tickDownSleepers on the real hash map does what the clock step of the scheduler says, in
 the order in which the map is traversed.
 */
module TickMaps {
  import opened Basics
  import opened KernelState
  import opened KernelSteps
  import opened Sleepers
  import opened SetChains
  import opened HashMaps

  /** tickDownSleeper as the function handed to HashMap_iterate: `None` removes the sleeper. */
  function TickDown(p: int, ticks: int): Option<int> {
    if ticks - 1 <= 0 then None else Some(ticks - 1)
  }

  ghost function Sleeping(s: State, p: Pid): Option<int> {
    if p in s.sleeping then Some(s.sleeping[p]) else None
  }

  /** The hash map holds the sleepers. */
  ghost predicate Holds(bs: Buckets<int>, s: State) {
    && bs != [] && Hashed(bs, |bs|)
    && (forall p :: p >= 0 ==> Get(bs, p) == Sleeping(s, p))
    && (forall p | p in s.sleeping :: p >= 0)
  }

  /** The keys of a chain from its head on */
  function Keys(s: seq<Entry<int>>): seq<int> {
    if s == [] then [] else Keys(s[..|s| - 1]) + [s[|s| - 1].key]
  }

  /** The keys of the first `n` buckets in the order of HashMap_iterate */
  function Traversal(bs: Buckets<int>, n: nat): seq<int>
    requires n <= |bs|
  {
    if n == 0 then [] else Traversal(bs, n - 1) + Keys(bs[n - 1])
  }

  lemma {:induction false} KeyAt(s: seq<Entry<int>>)
    ensures |Keys(s)| == |s| && forall i | 0 <= i < |s| :: Keys(s)[i] == s[i].key
  {
    if s != [] {
      KeyAt(s[..|s| - 1]);
    }
  }

  lemma KeysHas(s: seq<Entry<int>>, p: int)
    ensures p in Keys(s) <==> HasKey(s, p)
  {
    KeyAt(s);
    if p in Keys(s) {
      var i :| 0 <= i < |s| && Keys(s)[i] == p;
      assert s[i].key == p;
    }
  }

  lemma {:induction false} TraversalHas(bs: Buckets<int>, n: nat, p: int)
    requires Hashed(bs, |bs|) && n <= |bs|
    ensures p in Traversal(bs, n) <==> p >= 0 && p % |bs| < n && HasKey(bs[p % |bs|], p)
  {
    if n > 0 {
      TraversalHas(bs, n - 1, p);
      KeysHas(bs[n - 1], p);
      assert InBucket(bs[n - 1], n - 1, |bs|);
    }
  }

  lemma JoinNoDup(a: seq<int>, b: seq<int>)
    requires NoDup(a) && NoDup(b) && forall x | x in a :: x !in b
    ensures NoDup(a + b)
  {
    forall i, j | 0 <= i < j < |a + b| ensures (a + b)[i] != (a + b)[j] {
      if i < |a| <= j { assert a[i] in a; }
    }
  }

  /** No key is visited twice. */
  lemma {:induction false} TraversalNoDup(bs: Buckets<int>, n: nat)
    requires Hashed(bs, |bs|) && n <= |bs|
    ensures NoDup(Traversal(bs, n))
  {
    if n > 0 {
      TraversalNoDup(bs, n - 1);
      var before, s := Traversal(bs, n - 1), bs[n - 1];
      assert InBucket(s, n - 1, |bs|);
      KeyAt(s);
      forall p | p in before ensures p !in Keys(s) {
        TraversalHas(bs, n - 1, p);
        KeysHas(s, p);
      }
      JoinNoDup(before, Keys(s));
    }
  }

  lemma {:induction false} DueOfSum(a: seq<Pid>, b: seq<Pid>, sleeping: map<Pid, int>)
    ensures Due(a + b, sleeping) == Due(a, sleeping) + Due(b, sleeping)
  {
    if a == [] {
      assert a + b == b;
    } else {
      assert (a + b)[1..] == a[1..] + b;
      DueOfSum(a[1..], b, sleeping);
    }
  }

  /** In one chain, the sleepers that the callback removes are the due ones. */
  lemma {:induction false} GoneAreDue(s: seq<Entry<int>>, sleeping: map<Pid, int>)
    requires forall i | 0 <= i < |s| :: s[i].key in sleeping && sleeping[s[i].key] == s[i].item
    ensures Gone(TickDown, s) == Due(Keys(s), sleeping)
  {
    if s != [] {
      var n := |s| - 1;
      GoneAreDue(s[..n], sleeping);
      DueOfSum(Keys(s[..n]), [s[n].key], sleeping);
    }
  }

  lemma BucketHolds(bs: Buckets<int>, s: State, b: nat, i: nat)
    requires Holds(bs, s) && b < |bs| && i < |bs[b]|
    ensures bs[b][i].key in s.sleeping && s.sleeping[bs[b][i].key] == bs[b][i].item
  {
    var p := bs[b][i].key;
    assert InBucket(bs[b], b, |bs|);
    WithoutAt(bs[b], i);
    assert Get(bs, p) == Some(bs[b][i].item);
  }

  lemma {:induction false} AllGoneAreDue(bs: Buckets<int>, s: State, n: nat)
    requires Holds(bs, s) && n <= |bs|
    ensures GoneTo(TickDown, bs, n) == Due(Traversal(bs, n), s.sleeping)
  {
    if n > 0 {
      AllGoneAreDue(bs, s, n - 1);
      var chain := bs[n - 1];
      forall i | 0 <= i < |chain| ensures chain[i].key in s.sleeping && s.sleeping[chain[i].key] == chain[i].item {
        BucketHolds(bs, s, n - 1, i);
      }
      GoneAreDue(chain, s.sleeping);
      DueOfSum(Traversal(bs, n - 1), Keys(chain), s.sleeping);
    }
  }

  /** The traversal lists every sleeper once. */
  lemma TraversalLists(bs: Buckets<int>, s: State)
    requires Holds(bs, s)
    ensures Lists(Traversal(bs, |bs|), s.sleeping)
  {
    TraversalNoDup(bs, |bs|);
    forall p ensures p in Traversal(bs, |bs|) <==> p in s.sleeping {
      TraversalHas(bs, |bs|, p);
      if p >= 0 {
        LookupIsMap(bs[p % |bs|], p);
        assert Get(bs, p) == Sleeping(s, p);
      }
    }
  }

  lemma VisitedHashed(bs: Buckets<int>, bs': Buckets<int>)
    requires Hashed(bs, |bs|) && VisitedTo(TickDown, bs, bs', |bs|)
    ensures Hashed(bs', |bs'|)
  {
    forall i | 0 <= i < |bs'| ensures InBucket(bs'[i], i, |bs'|) {
      AllVisited(TickDown, bs[i], i, |bs|, 0);
    }
  }

  /**
   Iterating over the map, with removals on the way, is the clock tick of the scheduler: it
   ticks every sleeper down once, and the sleepers removed join the ready queue in the
   order in which the map is traversed.
   */
  lemma TickRefines(bs: Buckets<int>, bs': Buckets<int>, gone: seq<int>, s: State)
    requires Holds(bs, s) && VisitedTo(TickDown, bs, bs', |bs|) && gone == GoneTo(TickDown, bs, |bs|)
    ensures var order := Traversal(bs, |bs|);
      && Lists(order, s.sleeping)
      && TickAll(s, order).ready == s.ready + gone
      && Holds(bs', TickAll(s, order))
  {
    var order := Traversal(bs, |bs|);
    TraversalLists(bs, s);
    AllGoneAreDue(bs, s, |bs|);
    TickMeans(s, order);
    VisitedHashed(bs, bs');
    forall p | p >= 0 ensures Get(bs', p) == Sleeping(TickAll(s, order), p) {
      IterationMeans(TickDown, bs, bs', p);
      assert Get(bs, p) == Sleeping(s, p);
      assert p in order <==> p in s.sleeping;
    }
  }
}
