/**
 Wake-ups on locks: while a lock is free and somebody queues for it, a waiter already taken
 off the queue is awake and about to retry, however often others barge in, unless a release
 has popped a process that does not wait for the lock any more; and exactly then not.
 */
module LockWakeups {
  import opened Basics
  import opened KernelState
  import opened KernelSteps
  import opened Footprint
  import opened Location
  import opened Agreement

  ghost predicate Retrying(s: State, p: Pid, l: Id) {
    p in s.procs && p !in s.blocked && s.procs[p].cont == InAcquire(l)
  }

  ghost predicate Alert(s: State, l: Id)
    requires l in s.locks
  {
    s.locks[l].owner == None && s.locks[l].waiting != [] ==> exists p :: Retrying(s, p, l)
  }

  ghost predicate AllAlert(s: State) {
    forall l | l in s.locks :: Alert(s, l)
  }

  /** A lock that the step leaves alone: its retrying waiter is not the running process. */
  lemma StillAlert(s: State, s': State, l: Id)
    requires l in s.locks && l in s'.locks && Alert(s, l) && s'.locks[l] == s.locks[l]
    requires OthersUntouched(s, s') && s'.blocked <= s.blocked + {s.cur}
    requires s.cur in s.procs && s.procs[s.cur].cont != InAcquire(l)
    ensures Alert(s', l)
  {
    if s.locks[l].owner == None && s.locks[l].waiting != [] {
      var p :| Retrying(s, p, l);
      assert Retrying(s', p, l);
    }
  }

  lemma AcquireAlert(s: State, l: Id, k: Id)
    requires s.cur in s.procs && k in s.locks && Alert(s, k)
    requires s.procs[s.cur].cont == InAcquire(k) ==> k == l
    ensures Alert(Acquire(s, l), k)
  {
    if k != l || l !in s.locks {
      StillAlert(s, Acquire(s, l), k);
    }
  }

  /** Whether somebody retries on lock `k` does not change. */
  lemma SameAlert(s: State, s': State, k: Id)
    requires k in s.locks && k in s'.locks && s'.locks[k] == s.locks[k]
    requires forall p :: Retrying(s', p, k) <==> Retrying(s, p, k)
    ensures Alert(s', k) <==> Alert(s, k)
  {
    if exists p :: Retrying(s, p, k) {
      var p :| Retrying(s, p, k);
      assert Retrying(s', p, k);
    }
    if exists p :: Retrying(s', p, k) {
      var p :| Retrying(s', p, k);
      assert Retrying(s, p, k);
    }
  }

  /**
   A release of `m` by its owner leaves somebody in the queue, pops a process that is not
   blocked in Acquire of `m`, and nobody else has been woken to retry.
   */
  ghost predicate DropsWakeup(s: State, m: Id) {
    && MayRelease(s, m) && |s.locks[m].waiting| > 1
    && !WaitsFor(s, s.locks[m].waiting[0], m)
    && forall p :: !Retrying(s, p, m)
  }

  predicate WaitsFor(s: State, p: Pid, m: Id) {
    p in s.blocked && p in s.procs && s.procs[p].cont == InAcquire(m)
  }

  /** The step makes such a release, by itself or on the way into a condition variable. */
  ghost predicate LosesWakeup(s: State, l: Label) {
    && l.Trap?
    && ((l.call.CRelease? && DropsWakeup(s, l.call.lock))
        || (l.call.CCvarWait? && l.call.cvar in s.cvars && DropsWakeup(s, l.call.lock)))
  }

  /** Who retries on `m` after its release: those who did, and the popped process if it waited for it */
  lemma ReleaseWakes(s: State, m: Id, p: Pid)
    requires MayRelease(s, m) && s.locks[m].waiting != []
    ensures Retrying(DoRelease(s, m), p, m) <==> Retrying(s, p, m) || (p == s.locks[m].waiting[0] && WaitsFor(s, p, m))
  {
  }

  lemma ReleaseExact(s: State, m: Id)
    requires m in s.locks && Alert(s, m)
    ensures m in DoRelease(s, m).locks && (Alert(DoRelease(s, m), m) <==> !DropsWakeup(s, m))
  {
    if MayRelease(s, m) && |s.locks[m].waiting| > 1 {
      var s' := DoRelease(s, m);
      var w := s.locks[m].waiting[0];
      assert s'.locks[m] == Lock(None, s.locks[m].waiting[1..]);
      forall p ensures Retrying(s', p, m) <==> Retrying(s, p, m) || (p == w && WaitsFor(s, p, m)) {
        ReleaseWakes(s, m, p);
      }
      assert Alert(s', m) <==> exists p :: Retrying(s', p, m);
      if WaitsFor(s, w, m) {
        assert Retrying(s', w, m);
      } else if exists p :: Retrying(s, p, m) {
        var p :| Retrying(s, p, m);
        assert Retrying(s', p, m);
      }
    }
  }

  /** A release of another lock */
  lemma ElsewhereReleased(s: State, m: Id, k: Id)
    requires k in s.locks && k != m && Alert(s, k)
    ensures k in DoRelease(s, m).locks && Alert(DoRelease(s, m), k)
  {
    if s.locks[k].owner == None && s.locks[k].waiting != [] {
      var p :| Retrying(s, p, k);
      assert Retrying(DoRelease(s, m), p, k);
    }
  }

  lemma ReleaseAlert(s: State, m: Id, k: Id)
    requires k in s.locks && Alert(s, k)
    ensures k in DoRelease(s, m).locks && (Alert(DoRelease(s, m), k) <==> !(k == m && DropsWakeup(s, m)))
  {
    if k == m { ReleaseExact(s, m); } else { ElsewhereReleased(s, m, k); }
  }

  lemma CvarWaitAlert(s: State, c: Id, m: Id, k: Id)
    requires InUserMode(s) && s.cur !in s.blocked && k in s.locks && Alert(s, k)
    ensures k in CvarWait(s, c, m).locks
    ensures Alert(CvarWait(s, c, m), k) <==> !(k == m && c in s.cvars && DropsWakeup(s, m))
  {
    var s' := CvarWait(s, c, m);
    if c in s.cvars {
      ReleaseAlert(s, m, k);
      var s1 := DoRelease(s, m);
      assert DoRelease(s.(cvars := s.cvars[c := s.cvars[c] + [s.cur]]), m)
        == s1.(cvars := s.cvars[c := s.cvars[c] + [s.cur]]);
      SameAlert(s1, s', k);
    } else {
      SameAlert(s, s', k);
    }
  }

  lemma ReleaseCallAlert(s: State, m: Id, k: Id)
    requires InUserMode(s) && k in s.locks && Alert(s, k)
    ensures k in Release(s, m).locks && (Alert(Release(s, m), k) <==> !(k == m && DropsWakeup(s, m)))
  {
    ReleaseAlert(s, m, k);
    SameAlert(DoRelease(s, m), Release(s, m), k);
  }

  lemma InitAlert(s: State, k: Id)
    requires InUserMode(s) && k in s.locks && Alert(s, k)
    ensures k in DoCall(s, CLockInit).locks && Alert(DoCall(s, CLockInit), k)
  {
    if k != s.nextSyncId {
      SameAlert(s, DoCall(s, CLockInit), k);
    }
  }

  /** The lock that the step releases badly, if any */
  ghost predicate LosesAt(s: State, l: Label, k: Id) {
    LosesWakeup(s, l) && l.call.lock == k
  }

  lemma LockStepAlert(s: State, h: Home, l: Label, k: Id)
    requires Located(s, h) && Enabled(s, l) && StepKind(s, l) == KLock && k in s.locks && Alert(s, k)
    ensures k in Step(s, l).locks && (Alert(Step(s, l), k) <==> !LosesAt(s, l, k))
  {
    CurView(s, h);
    if l.Resume? {
      var c := s.procs[s.cur].cont;
      AcquireAlert(s, if c.InAcquire? then c.lock else c.relock, k);
    } else {
      LockCallAlert(s, l.call, k);
    }
  }

  lemma LockCallAlert(s: State, c: Call, k: Id)
    requires InUserMode(s) && s.cur !in s.blocked && GoodCall(s, c) && CallKind(c) == KLock && k in s.locks
      && Alert(s, k)
    ensures k in DoCall(s, c).locks && (Alert(DoCall(s, c), k) <==> !LosesAt(s, Trap(c), k))
  {
    if c.CAcquire? {
      AcquireAlert(s, c.lock, k);
    } else if c.CRelease? {
      ReleaseCallAlert(s, c.lock, k);
    } else if c.CCvarWait? {
      CvarWaitAlert(s, c.cvar, c.lock, k);
    } else {
      InitAlert(s, k);
    }
  }

  lemma OtherStepAlert(s: State, l: Label, k: Id)
    requires s.nextPid !in s.procs && Enabled(s, l) && s.cur in s.procs && StepKind(s, l) != KLock
    requires k in Step(s, l).locks && k in s.locks && Alert(s, k)
    ensures Alert(Step(s, l), k)
  {
    StepTouches(s, l);
    StillAlert(s, Step(s, l), k);
  }

  /** A step loses a wake-up on a lock if and only if it makes such a release. */
  lemma StepAlert(s: State, l: Label)
    requires Inv(s) && AllAlert(s) && Enabled(s, l)
    ensures AllAlert(Step(s, l)) <==> !LosesWakeup(s, l)
  {
    InvFresh(s);
    var h: Home :| Located(s, h);
    CurView(s, h);
    var s' := Step(s, l);
    if StepKind(s, l) != KLock {
      StepTouches(s, l);
      forall k | k in s'.locks ensures Alert(s', k) {
        OtherStepAlert(s, l, k);
      }
    } else {
      forall k | k in s.locks ensures k in s'.locks && (Alert(s', k) <==> !LosesAt(s, l, k)) {
        LockStepAlert(s, h, l, k);
      }
      LockSet(s, l);
      if LosesWakeup(s, l) {
        assert !Alert(s', l.call.lock);
      }
    }
  }

  /** Only KernelLockInit makes a lock. */
  lemma LockSet(s: State, l: Label)
    requires Enabled(s, l) && StepKind(s, l) == KLock
    ensures l == Trap(CLockInit) || Step(s, l).locks.Keys == s.locks.Keys
  {
    match l
    case Resume => SameKeys(s, var c := s.procs[s.cur].cont; if c.InAcquire? then c.lock else c.relock);
    case Trap(CAcquire(m)) => SameKeys(s, m);
    case Trap(CRelease(m)) => SameKeys(s, m);
    case Trap(CLockInit) =>
    case Trap(CCvarWait(c, m)) =>
      if c in s.cvars {
        SameKeys(s.(cvars := s.cvars[c := s.cvars[c] + [s.cur]]), m);
      }
  }

  lemma SameKeys(s: State, l: Id)
    requires s.cur in s.procs
    ensures Acquire(s, l).locks.Keys == s.locks.Keys && DoRelease(s, l).locks.Keys == s.locks.Keys
  {
  }

  // ------------------------------------------------------------ runs

  ghost predicate AlertUpTo(ss: seq<State>, i: nat)
    requires i < |ss|
  {
    forall j | 0 <= j <= i :: AllAlert(ss[j])
  }

  ghost predicate NoneLost(ss: seq<State>, ls: seq<Label>, i: nat)
    requires Traces(ss, ls, i)
  {
    forall j | 0 <= j < i :: !LosesWakeup(ss[j], ls[j])
  }

  lemma OneMoreStep(ss: seq<State>, ls: seq<Label>, i: nat, n: nat)
    requires n == i + 1 && Traces(ss, ls, n)
    ensures AlertUpTo(ss, n) <==> AlertUpTo(ss, i) && AllAlert(ss[n])
    ensures NoneLost(ss, ls, n) <==> NoneLost(ss, ls, i) && !LosesWakeup(ss[i], ls[i])
  {
  }

  /**
   Over any run: every free lock with a queue has somebody about to retry, all the way, if and only
   if no step lost a wake-up.
   */
  lemma {:induction false} AlertUnlessLost(ss: seq<State>, ls: seq<Label>, i: nat)
    requires Run(ss, ls) && Traces(ss, ls, i)
    ensures AlertUpTo(ss, i) <==> NoneLost(ss, ls, i)
  {
    if i > 0 {
      AlertUnlessLost(ss, ls, i - 1);
      OneMoreStep(ss, ls, i - 1, i);
      if AllAlert(ss[i - 1]) {
        RunInv(ss, ls, i - 1);
        StepAlert(ss[i - 1], ls[i - 1]);
      }
    }
  }

  /** While the wait queues agree with the blocked map, whatever a release pops waits for the lock. */
  lemma AgreedRelease(s: State, l: Label)
    requires Agree(s)
    ensures !LosesWakeup(s, l)
  {
    forall m | MayRelease(s, m) && s.locks[m].waiting != [] ensures WaitsFor(s, s.locks[m].waiting[0], m) {
      assert LockQ(s, m, s.locks[m].waiting);
      assert s.locks[m].waiting[0] in s.locks[m].waiting;
    }
  }

  /** A run without harmful exits loses no wake-up on a lock. */
  lemma CalmLosesNone(ss: seq<State>, ls: seq<Label>, i: nat)
    requires Run(ss, ls) && Traces(ss, ls, i) && Calm(ss, ls, i)
    ensures NoneLost(ss, ls, i)
  {
    forall j | 0 <= j < i ensures !LosesWakeup(ss[j], ls[j]) {
      RunAgrees(ss, ls, j);
      AgreedRelease(ss[j], ls[j]);
    }
  }

  /**
   As long as no step has lost a wake-up, a free lock with a non-empty queue has a woken
   waiter that is ready or running.
   */
  lemma NoLostWakeup(ss: seq<State>, ls: seq<Label>, i: nat, l: Id) returns (p: Pid)
    requires Run(ss, ls) && Traces(ss, ls, i) && NoneLost(ss, ls, i)
    requires l in ss[i].locks && ss[i].locks[l].owner == None && ss[i].locks[l].waiting != []
    ensures p in ss[i].procs && ss[i].procs[p].cont == InAcquire(l)
    ensures p in ss[i].ready || p == ss[i].cur
  {
    AlertUnlessLost(ss, ls, i);
    RunInv(ss, ls, i);
    assert AllAlert(ss[i]) && Alert(ss[i], l);
    p :| Retrying(ss[i], p, l);
    var h: Home :| Located(ss[i], h);
    assert Fits(ss[i].procs[p].cont, p, h[p], ss[i].ttys);
  }
}
