/**
 What goes wrong when a child exits while its parent is blocked on a lock: a run after
 which a lock is free, a process is blocked waiting for it, and no woken waiter is about to
 retry.  Only a later Acquire and Release by somebody else would get it going again.
 */
module HarmfulExit {
  import opened Basics
  import opened KernelState
  import opened KernelSteps
  import opened Agreement
  import opened LockWakeups

  /** What matters of a state of this run: who is where, and lock 0. */
  datatype Snap = Snap(
    cur: Pid, ready: seq<Pid>, blocked: set<Pid>,
    owner: Option<Pid>, waiting: seq<Pid>, parked: set<Pid>, live: set<Pid>, next: Pid, harmed: bool)

  ghost predicate ProcFits(s: State, x: Snap, p: Pid) {
    && p in s.procs && s.procs[p].cont == (if p in x.parked then InAcquire(0) else User)
    && (p == 4 ==> s.procs[p].parent == Some(1))
  }

  ghost predicate Shows(s: State, x: Snap) {
    && s.mode == Up && s.cur == x.cur && s.ready == x.ready && s.blocked == x.blocked && s.sleeping == map[]
    && s.locks == map[0 := Lock(x.owner, x.waiting)]
    && s.procs.Keys == x.live && (forall p | p in x.live :: ProcFits(s, x, p))
    && x.cur in x.live && s.nextPid == x.next
  }

  ghost predicate HarmDone(ss: seq<State>, ls: seq<Label>)
    requires |ss| == |ls| + 1
  {
    exists k :: 0 <= k < |ls| && Harmful(ss[k], ls[k])
  }

  /** A run that ends in a state that `x` shows */
  ghost predicate Reaches(ss: seq<State>, ls: seq<Label>, x: Snap) {
    Run(ss, ls) && Shows(ss[|ls|], x) && (x.harmed ==> HarmDone(ss, ls))
  }

  lemma Extend(ss: seq<State>, ls: seq<Label>, l: Label) returns (ss': seq<State>, ls': seq<Label>)
    requires Run(ss, ls) && Enabled(ss[|ls|], l)
    ensures Run(ss', ls') && |ls'| == |ls| + 1 && ss'[|ls'|] == Step(ss[|ls|], l)
    ensures HarmDone(ss, ls) || Harmful(ss[|ls|], l) ==> HarmDone(ss', ls')
  {
    OneStepMore(ss, ls, l);
    ss', ls' := ss + [Step(ss[|ls|], l)], ls + [l];
    if HarmDone(ss, ls) {
      var k :| 0 <= k < |ls| && Harmful(ss[k], ls[k]);
      assert Harmful(ss'[k], ls'[k]);
    }
    if Harmful(ss[|ls|], l) { assert Harmful(ss'[|ls|], ls'[|ls|]); }
  }

  lemma DoClock(ss: seq<State>, ls: seq<Label>, x: Snap) returns (ss': seq<State>, ls': seq<Label>, x': Snap)
    requires Reaches(ss, ls, x) && x.cur !in x.parked && x.ready != []
    ensures x' == x.(cur := x.ready[0], ready := x.ready[1..] + [x.cur])
    ensures x.ready[0] in x.live ==> Reaches(ss', ls', x')
  {
    var s := ss[|ls|];
    x' := x.(cur := x.ready[0], ready := x.ready[1..] + [x.cur]);
    assert ProcFits(s, x, x.cur);
    ss', ls' := Extend(ss, ls, Clock([]));
    assert TickAll(s, []) == s;
    assert (s.ready + [s.cur])[1..] == s.ready[1..] + [s.cur];
    if x.ready[0] in x.live {
      forall p | p in x'.live ensures ProcFits(Step(s, Clock([])), x', p) {
        assert ProcFits(s, x, p);
      }
    }
  }

  lemma DoFork(ss: seq<State>, ls: seq<Label>, x: Snap, child: Pid)
    returns (ss': seq<State>, ls': seq<Label>, x': Snap)
    requires Reaches(ss, ls, x) && x.cur !in x.parked && x.cur != IDLE
    requires child == x.next && child !in x.live && child !in x.parked && (child == 4 ==> x.cur == 1)
    ensures x' == x.(cur := child, ready := x.ready + [x.cur], live := x.live + {child}, next := child + 1)
    ensures Reaches(ss', ls', x')
  {
    var s := ss[|ls|];
    x' := x.(cur := child, ready := x.ready + [x.cur], live := x.live + {child}, next := child + 1);
    assert ProcFits(s, x, x.cur);
    ss', ls' := Extend(ss, ls, Trap(CFork(true)));
    forall p | p in x'.live ensures ProcFits(Step(s, Trap(CFork(true))), x', p) {
      if p != child { assert ProcFits(s, x, p); }
    }
  }

  /** Acquire, or its loop after a wake-up, while the lock is held */
  lemma DoQueue(ss: seq<State>, ls: seq<Label>, x: Snap) returns (ss': seq<State>, ls': seq<Label>, x': Snap)
    requires Reaches(ss, ls, x) && x.cur != IDLE && x.owner.Some? && x.ready != [] && x.cur !in x.blocked
    requires x.ready[0] in x.live
    ensures x' == x.(cur := x.ready[0], ready := x.ready[1..], blocked := x.blocked + {x.cur},
                     waiting := x.waiting + [x.cur], parked := x.parked + {x.cur})
    ensures Reaches(ss', ls', x')
  {
    x' := x.(cur := x.ready[0], ready := x.ready[1..], blocked := x.blocked + {x.cur},
             waiting := x.waiting + [x.cur], parked := x.parked + {x.cur});
    assert ProcFits(ss[|ls|], x, x.cur);
    QueueShows(ss[|ls|], x, x');
    ss', ls' := Extend(ss, ls, if x.cur in x.parked then Resume else Trap(CAcquire(0)));
  }

  lemma QueueShows(s: State, x: Snap, x': Snap)
    requires Shows(s, x) && x.owner.Some? && x.ready != [] && x.cur !in x.blocked && x.ready[0] in x.live
    requires x' == x.(cur := x.ready[0], ready := x.ready[1..], blocked := x.blocked + {x.cur},
                      waiting := x.waiting + [x.cur], parked := x.parked + {x.cur})
    ensures Shows(AcquireLoop(s, 0), x')
  {
    forall p | p in x'.live ensures ProcFits(AcquireLoop(s, 0), x', p) {
      assert ProcFits(s, x, p);
    }
  }

  lemma DoTake(ss: seq<State>, ls: seq<Label>, x: Snap) returns (ss': seq<State>, ls': seq<Label>, x': Snap)
    requires Reaches(ss, ls, x) && x.cur != IDLE && x.owner == None
    ensures x' == x.(owner := Some(x.cur), parked := x.parked - {x.cur})
    ensures Reaches(ss', ls', x')
  {
    var s := ss[|ls|];
    x' := x.(owner := Some(x.cur), parked := x.parked - {x.cur});
    assert ProcFits(s, x, x.cur);
    var l := if x.cur in x.parked then Resume else Trap(CAcquire(0));
    ss', ls' := Extend(ss, ls, l);
    assert Step(s, l) == AcquireLoop(s, 0);
    forall p | p in x'.live ensures ProcFits(AcquireLoop(s, 0), x', p) {
      assert ProcFits(s, x, p);
    }
  }

  lemma DoFree(ss: seq<State>, ls: seq<Label>, x: Snap) returns (ss': seq<State>, ls': seq<Label>, x': Snap)
    requires Reaches(ss, ls, x) && x.cur != IDLE && x.owner == Some(x.cur) && x.waiting != [] && x.cur !in x.parked
    ensures x' == (if x.waiting[0] in x.blocked
      then x.(owner := None, waiting := x.waiting[1..], ready := x.ready + [x.waiting[0]],
        blocked := x.blocked - {x.waiting[0]})
      else x.(owner := None, waiting := x.waiting[1..]))
    ensures Reaches(ss', ls', x')
  {
    var s := ss[|ls|];
    x' := if x.waiting[0] in x.blocked
      then x.(owner := None, waiting := x.waiting[1..], ready := x.ready + [x.waiting[0]],
        blocked := x.blocked - {x.waiting[0]})
      else x.(owner := None, waiting := x.waiting[1..]);
    assert ProcFits(s, x, x.cur);
    ss', ls' := Extend(ss, ls, Trap(CRelease(0)));
    forall p | p in x'.live ensures ProcFits(Release(s, 0), x', p) {
      assert ProcFits(s, x, p);
    }
  }

  /** Process 4, a child of 1, exits while 1 is blocked in Acquire. */
  lemma DoExit(ss: seq<State>, ls: seq<Label>, x: Snap) returns (ss': seq<State>, ls': seq<Label>, x': Snap)
    requires Reaches(ss, ls, x) && x.cur == 4 && 1 in x.blocked && 1 in x.live && 1 in x.parked && 4 !in x.parked
    requires x.ready != [] && x.ready[0] in x.live && x.ready[0] != 4
    ensures x' == x.(cur := x.ready[0], ready := x.ready[1..] + [1], blocked := x.blocked - {1}, live := x.live - {4},
      harmed := true)
    ensures Reaches(ss', ls', x')
  {
    var s := ss[|ls|];
    x' := x.(cur := x.ready[0], ready := x.ready[1..] + [1], blocked := x.blocked - {1}, live := x.live - {4},
      harmed := true);
    assert ProcFits(s, x, 4);
    assert ProcFits(s, x, 1);
    ss', ls' := Extend(ss, ls, Trap(CExit(0)));
    assert (s.ready + [1])[1..] == s.ready[1..] + [1];
    forall p | p in x'.live ensures ProcFits(Exit(s, 0), x', p) {
      assert ProcFits(s, x, p);
    }
  }

  /** The lock is free, process 3 is blocked waiting for it, and no woken waiter is left to retry. */
  ghost predicate WakeupLost(s: State) {
    && 0 in s.locks && s.locks[0].owner == None && 3 in s.locks[0].waiting && 3 in s.blocked
    && forall p :: !Retrying(s, p, 0)
  }

  lemma Start() returns (ss: seq<State>, ls: seq<Label>, x: Snap)
    ensures x == Snap(1, [0], {}, None, [], {}, {0, 1}, 2, false) && Reaches(ss, ls, x)
  {
    var s := State(INIT, [IDLE], {}, map[], map[IDLE := FRESH_PROC, INIT := FRESH_PROC], map[], map[], map[], [], 2, 0,
      Up, Empty, 1);
    x := Snap(1, [0], {}, None, [], {}, {0, 1}, 2, false);
    ss, ls := Extend([s], [], Trap(CLockInit));
    assert Shows(Step(s, Trap(CLockInit)), x);
  }

  /** Process 2 holds the lock and has a child 3; init is running again. */
  lemma LockTaken() returns (ss: seq<State>, ls: seq<Label>, x: Snap)
    ensures x == Snap(1, [2, 3, 0], {}, Some(2), [], {}, {0, 1, 2, 3}, 4, false) && Reaches(ss, ls, x)
  {
    ss, ls, x := Start();
    ss, ls, x := DoFork(ss, ls, x, 2);
    ss, ls, x := DoTake(ss, ls, x);
    ss, ls, x := DoFork(ss, ls, x, 3);
    assert x == Snap(3, [0, 1, 2], {}, Some(2), [], {}, {0, 1, 2, 3}, 4, false);
    ss, ls, x := DoClock(ss, ls, x);
    assert x == Snap(0, [1, 2, 3], {}, Some(2), [], {}, {0, 1, 2, 3}, 4, false);
    ss, ls, x := DoClock(ss, ls, x);
  }

  /** Process 2 holds the lock; 3 and 4 are children of 2 and of init; init is about to run. */
  lemma Gather() returns (ss: seq<State>, ls: seq<Label>, x: Snap)
    ensures x == Snap(1, [4, 2, 3, 0], {}, Some(2), [], {}, {0, 1, 2, 3, 4}, 5, false) && Reaches(ss, ls, x)
  {
    ss, ls, x := LockTaken();
    ss, ls, x := DoFork(ss, ls, x, 4);
    assert x == Snap(4, [2, 3, 0, 1], {}, Some(2), [], {}, {0, 1, 2, 3, 4}, 5, false);
    ss, ls, x := DoClock(ss, ls, x);
    assert x == Snap(2, [3, 0, 1, 4], {}, Some(2), [], {}, {0, 1, 2, 3, 4}, 5, false);
    ss, ls, x := DoClock(ss, ls, x);
    assert x == Snap(3, [0, 1, 4, 2], {}, Some(2), [], {}, {0, 1, 2, 3, 4}, 5, false);
    ss, ls, x := DoClock(ss, ls, x);
    assert x == Snap(0, [1, 4, 2, 3], {}, Some(2), [], {}, {0, 1, 2, 3, 4}, 5, false);
    ss, ls, x := DoClock(ss, ls, x);
  }

  /** init queues for the lock, and the exit of its child 4 wakes it there. */
  lemma WakeInQueue() returns (ss: seq<State>, ls: seq<Label>, x: Snap)
    ensures x == Snap(2, [3, 0, 1], {}, Some(2), [1], {1}, {0, 1, 2, 3}, 5, true) && Reaches(ss, ls, x)
  {
    ss, ls, x := Gather();
    ss, ls, x := DoQueue(ss, ls, x);
    assert x == Snap(4, [2, 3, 0], {1}, Some(2), [1], {1}, {0, 1, 2, 3, 4}, 5, false);
    ss, ls, x := DoExit(ss, ls, x);
  }

  lemma InitRetries() returns (ss: seq<State>, ls: seq<Label>, x: Snap)
    ensures x == Snap(1, [2, 3, 0], {}, Some(2), [1], {1}, {0, 1, 2, 3}, 5, true) && Reaches(ss, ls, x)
  {
    ss, ls, x := WakeInQueue();
    ss, ls, x := DoClock(ss, ls, x);
    assert x == Snap(3, [0, 1, 2], {}, Some(2), [1], {1}, {0, 1, 2, 3}, 5, true);
    ss, ls, x := DoClock(ss, ls, x);
    assert x == Snap(0, [1, 2, 3], {}, Some(2), [1], {1}, {0, 1, 2, 3}, 5, true);
    ss, ls, x := DoClock(ss, ls, x);
  }

  /** init queues a second time. */
  lemma QueueAgain() returns (ss: seq<State>, ls: seq<Label>, x: Snap)
    ensures x == Snap(2, [3, 0], {1}, Some(2), [1, 1], {1}, {0, 1, 2, 3}, 5, true) && Reaches(ss, ls, x)
  {
    ss, ls, x := InitRetries();
    ss, ls, x := DoQueue(ss, ls, x);
  }

  /** Process 3 queues behind it. */
  lemma QueueTwice() returns (ss: seq<State>, ls: seq<Label>, x: Snap)
    ensures x == Snap(0, [2], {1, 3}, Some(2), [1, 1, 3], {1, 3}, {0, 1, 2, 3}, 5, true) && Reaches(ss, ls, x)
  {
    ss, ls, x := QueueAgain();
    ss, ls, x := DoClock(ss, ls, x);
    assert x == Snap(3, [0, 2], {1}, Some(2), [1, 1], {1}, {0, 1, 2, 3}, 5, true);
    ss, ls, x := DoQueue(ss, ls, x);
  }

  /** The kernel's promise on locks is broken by the harmful exit: this run ends in a lost wake-up. */
  lemma LostWakeup() returns (ss: seq<State>, ls: seq<Label>)
    ensures Run(ss, ls) && HarmDone(ss, ls) && WakeupLost(ss[|ls|])
  {
    var x;
    ss, ls, x := QueueTwice();
    ss, ls, x := DoClock(ss, ls, x);
    assert x == Snap(2, [0], {1, 3}, Some(2), [1, 1, 3], {1, 3}, {0, 1, 2, 3}, 5, true);
    ss, ls, x := DoFree(ss, ls, x);
    assert x == Snap(2, [0, 1], {3}, None, [1, 3], {1, 3}, {0, 1, 2, 3}, 5, true);
    ss, ls, x := DoClock(ss, ls, x);
    assert x == Snap(0, [1, 2], {3}, None, [1, 3], {1, 3}, {0, 1, 2, 3}, 5, true);
    ss, ls, x := DoClock(ss, ls, x);
    assert x == Snap(1, [2, 0], {3}, None, [1, 3], {1, 3}, {0, 1, 2, 3}, 5, true);
    ss, ls, x := DoTake(ss, ls, x);
    ss, ls, x := DoFree(ss, ls, x);
    assert x == Snap(1, [2, 0], {3}, None, [3], {3}, {0, 1, 2, 3}, 5, true);
    forall p ensures !Retrying(ss[|ls|], p, 0) {
      if p in x.live { assert ProcFits(ss[|ls|], x, p); }
    }
  }
}
