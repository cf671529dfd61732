/**
 Delay.  Each clock tick counts every sleeper down once, in whatever order the map is
 traversed, and Delay(n) ends at exactly the n-th later clock trap.
 */
module Sleepers {
  import opened Basics
  import opened KernelState
  import opened KernelSteps
  import opened Footprint
  import opened Location

  /** The members of `order` whose last tick this is, in that order. */
  ghost function Due(order: seq<Pid>, sleeping: map<Pid, int>): seq<Pid> {
    if order == [] then []
    else (if order[0] in sleeping && sleeping[order[0]] <= 1 then [order[0]] else []) + Due(order[1..], sleeping)
  }

  /** Sleepers that are not in `order`, or in it and not yet due. */
  ghost function Left(order: seq<Pid>, sleeping: map<Pid, int>): map<Pid, int> {
    map p | p in sleeping && (p !in order || sleeping[p] > 1) :: if p in order then sleeping[p] - 1 else sleeping[p]
  }

  lemma {:induction false} DueElsewhere(order: seq<Pid>, a: map<Pid, int>, b: map<Pid, int>)
    requires forall i | 0 <= i < |order| :: order[i] in a <==> order[i] in b
    requires forall i | 0 <= i < |order| && order[i] in a :: a[order[i]] == b[order[i]]
    ensures Due(order, a) == Due(order, b)
  {
    if order != [] {
      DueElsewhere(order[1..], a, b);
    }
  }

  lemma LeftStep(order: seq<Pid>, s: State)
    requires order != [] && NoDup(order)
    ensures Left(order[1..], TickOne(s, order[0]).sleeping) == Left(order, s.sleeping)
  {
    var a, b := Left(order[1..], TickOne(s, order[0]).sleeping), Left(order, s.sleeping);
    assert order[0] !in order[1..];
    assert forall q :: q in order <==> q == order[0] || q in order[1..];
    assert forall q :: q in a <==> q in b;
  }

  /** Ticking the first sleeper down makes nobody else due. */
  lemma SameDue(s: State, order: seq<Pid>)
    requires order != [] && NoDup(order)
    ensures Due(order[1..], TickOne(s, order[0]).sleeping) == Due(order[1..], s.sleeping)
  {
    assert order[0] !in order[1..];
    DueElsewhere(order[1..], TickOne(s, order[0]).sleeping, s.sleeping);
  }

  lemma Joined(a: seq<Pid>, b: seq<Pid>, c: seq<Pid>)
    ensures (a + b) + c == a + (b + c) && a + [] == a
  {
  }

  lemma OneReadied(s: State, order: seq<Pid>)
    requires order != []
    ensures TickOne(s, order[0]).ready + Due(order[1..], s.sleeping) == s.ready + Due(order, s.sleeping)
  {
    var rest := Due(order[1..], s.sleeping);
    if order[0] in s.sleeping && s.sleeping[order[0]] <= 1 {
      Joined(s.ready, [order[0]], rest);
    } else {
      Joined(s.ready, [], rest);
    }
  }

  lemma {:induction false} TickReadies(s: State, order: seq<Pid>)
    requires NoDup(order)
    ensures TickAll(s, order).ready == s.ready + Due(order, s.sleeping)
    decreases |order|
  {
    if order != [] {
      TickReadies(TickOne(s, order[0]), order[1..]);
      SameDue(s, order);
      OneReadied(s, order);
    }
  }

  /**
   One tick: the due sleepers join the ready queue in traversal order, every other sleeper
   counts down by one; none is skipped or counted twice although the callback removes
   sleepers from the map being traversed.
   */
  lemma {:induction false} TickMeans(s: State, order: seq<Pid>)
    requires NoDup(order)
    ensures TickAll(s, order).ready == s.ready + Due(order, s.sleeping)
    ensures TickAll(s, order).sleeping == Left(order, s.sleeping)
    decreases |order|
  {
    TickReadies(s, order);
    if order == [] {
      assert Left(order, s.sleeping) == s.sleeping;
    } else {
      TickMeans(TickOne(s, order[0]), order[1..]);
      LeftStep(order, s);
    }
  }

  /** Everyone in the sleeping map has ticks to go. */
  ghost predicate Positive(s: State) {
    forall p | p in s.sleeping :: s.sleeping[p] > 0
  }

  /** How a sleeper `p` other than the running process fares in one step. */
  ghost predicate Fares(s: State, s': State, p: Pid, clock: bool)
    requires p in s.sleeping
  {
    if !clock then p in s'.sleeping && s'.sleeping[p] == s.sleeping[p]
    else if s.sleeping[p] > 1 then p in s'.sleeping && s'.sleeping[p] == s.sleeping[p] - 1
    else p !in s'.sleeping && (p in s'.ready || p == s'.cur)
  }

  lemma ClockFares(s: State, order: seq<Pid>, p: Pid)
    requires Lists(order, s.sleeping) && p in s.sleeping
    ensures Fares(s, Kick(TickAll(s, order)), p, true)
  {
    TickMeans(s, order);
    assert p in order;
    if s.sleeping[p] <= 1 {
      DueHas(order, s.sleeping, p);
      var s1 := TickAll(s, order);
      assert p in s1.ready;
      var s2 := MakeReady(s1, s1.cur);
      assert p in s2.ready && s2.ready == [s2.ready[0]] + s2.ready[1..];
    }
  }

  lemma {:induction false} DueHas(order: seq<Pid>, sleeping: map<Pid, int>, p: Pid)
    requires p in order && p in sleeping && sleeping[p] <= 1
    ensures p in Due(order, sleeping)
  {
    if order[0] != p {
      DueHas(order[1..], sleeping, p);
    }
  }

  lemma StepFares(s: State, l: Label, p: Pid)
    requires Inv(s) && Enabled(s, l) && p in s.sleeping
    ensures Fares(s, Step(s, l), p, l.Clock?)
  {
    var h: Home :| Located(s, h);
    InvFresh(s);
    if l.Clock? {
      ClockFares(s, l.order, p);
    } else {
      OtherFares(s, l, p);
    }
  }

  lemma OtherFares(s: State, l: Label, p: Pid)
    requires s.nextPid !in s.procs && Enabled(s, l) && !l.Clock? && p in s.sleeping && s.cur !in s.sleeping
    ensures Fares(s, Step(s, l), p, false)
  {
    StepTouches(s, l);
    if StepKind(s, l) == KSleep {
      DelayFares(s, l.call.ticks, p);
    }
  }

  lemma DelayFares(s: State, ticks: int, p: Pid)
    requires s.cur in s.procs && p in s.sleeping && s.cur !in s.sleeping
    ensures Fares(s, Delay(s, ticks), p, false)
  {
  }

  /** The number of clock traps among `ls[i..j]`. */
  ghost function Ticks(ls: seq<Label>, i: nat, j: nat): nat
    requires i <= j <= |ls|
    decreases j - i
  {
    if i == j then 0 else Ticks(ls, i, j - 1) + if ls[j - 1].Clock? then 1 else 0
  }

  /** Consecutive states in which every sleeper fares as it should. */
  ghost predicate Counts(ss: seq<State>, ls: seq<Label>) {
    && |ss| == |ls| + 1
    && forall n, p | 0 <= n < |ls| && p in ss[n].sleeping :: Fares(ss[n], ss[n + 1], p, ls[n].Clock?)
  }

  lemma RunCounts(ss: seq<State>, ls: seq<Label>)
    requires Run(ss, ls)
    ensures Counts(ss, ls)
  {
    forall n, p | 0 <= n < |ls| && p in ss[n].sleeping
      ensures Fares(ss[n], ss[n + 1], p, ls[n].Clock?)
    {
      RunInv(ss, ls, n);
      StepFares(ss[n], ls[n], p);
    }
  }

  lemma {:induction false} SleepsOn(ss: seq<State>, ls: seq<Label>, i: nat, j: nat, p: Pid, n: int)
    requires Counts(ss, ls) && i <= j < |ss| && p in ss[i].sleeping && ss[i].sleeping[p] == n
    requires Ticks(ls, i, j) < n
    ensures p in ss[j].sleeping && ss[j].sleeping[p] == n - Ticks(ls, i, j)
    decreases j - i
  {
    if i < j {
      SleepsOn(ss, ls, i, j - 1, p, n);
      assert Fares(ss[j - 1], ss[j], p, ls[j - 1].Clock?);
    }
  }

  /**
   A process with `n` ticks to go in state `i` of a run sleeps through the next n - 1 clock
   traps, having n - k to go after k of them, and at the n-th is back on the ready queue (or
   already picked from it).
   */
  lemma WakesOnTime(ss: seq<State>, ls: seq<Label>, i: nat, j: nat, p: Pid, n: int)
    requires Run(ss, ls) && i <= j < |ss| && p in ss[i].sleeping && ss[i].sleeping[p] == n
    requires Ticks(ls, i, j) < n
    ensures p in ss[j].sleeping && ss[j].sleeping[p] == n - Ticks(ls, i, j)
    ensures j < |ls| && ls[j].Clock? && Ticks(ls, i, j) == n - 1 ==>
      p !in ss[j + 1].sleeping && (p in ss[j + 1].ready || p == ss[j + 1].cur)
  {
    RunCounts(ss, ls);
    SleepsOn(ss, ls, i, j, p, n);
    assert j < |ls| ==> Fares(ss[j], ss[j + 1], p, ls[j].Clock?);
  }

  /** Delay(n) with n > 0 puts the caller to sleep with n ticks to go. */
  lemma DelaySleeps(ss: seq<State>, ls: seq<Label>, i: nat, n: int)
    requires Run(ss, ls) && i < |ls| && ls[i] == Trap(CDelay(n)) && n > 0
    ensures ss[i].cur in ss[i + 1].sleeping && ss[i + 1].sleeping[ss[i].cur] == n
  {
    RunInv(ss, ls, i);
  }

  lemma {:induction false} StaysPositive(ss: seq<State>, ls: seq<Label>, i: nat)
    requires Run(ss, ls) && i < |ss|
    ensures Positive(ss[i])
  {
    if i > 0 {
      StaysPositive(ss, ls, i - 1);
      RunInv(ss, ls, i - 1);
      var s, l := ss[i - 1], ls[i - 1];
      InvFresh(s);
      StepTouches(s, l);
      if l.Clock? {
        TickMeans(s, l.order);
      } else if StepKind(s, l) == KSleep {
        assert l.Trap? && l.call.CDelay?;
      }
    }
  }
}
