/**
 Mutual exclusion over runs.  Waiters are not handed the lock: a woken one retries, and any
 process may take the lock first, or be woken for another reason; still no two hold it.
 Holds for the code as it is.
 */
module Mutex {
  import opened Basics
  import opened KernelState
  import opened KernelSteps
  import opened Footprint
  import opened Location
  import opened Agreement
  import opened Calls

  /** The kernel's notes: who holds lock `l` */
  ghost function Holder(log: Log, l: Id): Option<Pid> {
    match log
    case Empty => None
    case Snoc(prev, e) =>
      if e.Acquired? && e.l == l then Some(e.p)
      else if e.Released? && e.l == l then None
      else Holder(prev, l)
  }

  /** Every acquisition found the lock free, every release came from the holder. */
  ghost predicate Exclusive(log: Log, l: Id) {
    match log
    case Empty => true
    case Snoc(prev, e) =>
      && Exclusive(prev, l)
      && (e.Acquired? && e.l == l ==> Holder(prev, l) == None)
      && (e.Released? && e.l == l ==> Holder(prev, l) == Some(e.p))
  }

  ghost predicate LockOk(s: State, l: Id) {
    && Exclusive(s.log, l)
    && Holder(s.log, l) == (if l in s.locks then s.locks[l].owner else None)
    && (l in s.locks ==> l < s.nextSyncId)
  }

  ghost predicate Locks(s: State) {
    forall l :: LockOk(s, l)
  }

  lemma AcquireKeeps(s: State, l: Id)
    requires Locks(s) && s.cur in s.procs
    ensures Locks(Acquire(s, l))
  {
    forall k ensures LockOk(Acquire(s, l), k) {
      assert LockOk(s, k);
    }
  }

  lemma ReleaseKeeps(s: State, l: Id)
    requires Locks(s)
    ensures Locks(DoRelease(s, l))
  {
    forall k ensures LockOk(DoRelease(s, l), k) {
      assert LockOk(s, k);
    }
  }

  lemma LockInitKeeps(s: State)
    requires Locks(s) && s.cur in s.procs
    ensures Locks(DoCall(s, CLockInit))
  {
    forall k ensures LockOk(DoCall(s, CLockInit), k) {
      assert LockOk(s, k) && LockOk(s, s.nextSyncId);
    }
  }

  lemma {:induction false} OtherEvents(log: Log, log': Log, kind: Kind, l: Id)
    requires Grows(log, log', kind) && kind != KLock
    ensures Holder(log', l) == Holder(log, l) && Exclusive(log', l) == Exclusive(log, l)
  {
    if log' != log {
      OtherEvents(log, log'.prev, kind, l);
    }
  }

  lemma SameLocksKeep(s: State, s': State, kind: Kind)
    requires Locks(s) && s'.locks == s.locks && s.nextSyncId <= s'.nextSyncId
    requires Grows(s.log, s'.log, kind) && kind != KLock
    ensures Locks(s')
  {
    forall l ensures LockOk(s', l) {
      assert LockOk(s, l);
      OtherEvents(s.log, s'.log, kind, l);
    }
  }

  lemma StepKeeps(s: State, l: Label)
    requires Inv(s) && Locks(s) && Enabled(s, l)
    ensures Locks(Step(s, l))
  {
    InvFresh(s);
    if StepKind(s, l) != KLock {
      StepTouches(s, l);
      SameLocksKeep(s, Step(s, l), StepKind(s, l));
    } else {
      match l
      case Resume => AcquireKeeps(s, var c := s.procs[s.cur].cont; if c.InAcquire? then c.lock else c.relock);
      case Trap(CAcquire(k)) => AcquireKeeps(s, k);
      case Trap(CRelease(k)) => ReleaseKeeps(s, k); SameLocksKeep(DoRelease(s, k), Step(s, l), KSleep);
      case Trap(CLockInit) => LockInitKeeps(s);
      case Trap(CCvarWait(c, k)) =>
        if c in s.cvars {
          var s1 := s.(cvars := s.cvars[c := s.cvars[c] + [s.cur]]);
          SameLocksKeep(s, s1, KSleep);
          ReleaseKeeps(s1, k);
          SameLocksKeep(DoRelease(s1, k), Step(s, l), KSleep);
        } else {
          SameLocksKeep(s, Step(s, l), KSleep);
        }
    }
  }

  lemma {:induction false} RunLocks(ss: seq<State>, ls: seq<Label>, i: nat)
    requires Run(ss, ls) && i < |ss|
    ensures Locks(ss[i])
  {
    if i == 0 {
      forall l ensures LockOk(ss[0], l) {}
    } else {
      RunLocks(ss, ls, i - 1);
      RunInv(ss, ls, i - 1);
      StepKeeps(ss[i - 1], ls[i - 1]);
    }
  }

  // ------------------------------------------------------------ over positions in the log

  ghost function Size(log: Log): nat {
    match log
    case Empty => 0
    case Snoc(prev, _) => 1 + Size(prev)
  }

  /** The `i`-th event, oldest first. */
  ghost function At(log: Log, i: nat): Event
    requires i < Size(log)
  {
    if i == Size(log) - 1 then log.ev else At(log.prev, i)
  }

  /** If `p` acquired `l` at `i` and nobody released it since, `p` still holds it. */
  lemma {:induction false} HeldSince(log: Log, l: Id, p: Pid, i: nat)
    requires Exclusive(log, l) && i < Size(log) && At(log, i) == Acquired(p, l)
    requires forall k | i < k < Size(log) :: At(log, k) != Released(p, l)
    ensures Holder(log, l) == Some(p)
  {
    if i < Size(log) - 1 {
      assert forall k | i < k < Size(log.prev) :: At(log, k) == At(log.prev, k);
      HeldSince(log.prev, l, p, i);
      assert At(log, Size(log) - 1) == log.ev;
    }
  }

  lemma {:induction false} ReleasedBetween(log: Log, l: Id, p: Pid, q: Pid, i: nat, j: nat)
    requires Exclusive(log, l) && i < j < Size(log)
    requires At(log, i) == Acquired(p, l) && At(log, j) == Acquired(q, l)
    ensures exists k :: i < k < j && At(log, k) == Released(p, l)
  {
    if j < Size(log) - 1 {
      ReleasedBetween(log.prev, l, p, q, i, j);
      var k :| i < k < j && At(log.prev, k) == Released(p, l);
      assert At(log, k) == At(log.prev, k);
    } else if forall k | i < k < j :: At(log, k) != Released(p, l) {
      assert forall k | i < k < j :: At(log, k) == At(log.prev, k);
      HeldSince(log.prev, l, p, i);
    }
  }

  // ------------------------------------------------------------ what the callers did

  /** The call is an Acquire of lock `l`, or a wait on a condition variable that takes `l` again. */
  predicate AsksFor(c: Option<Call>, l: Id) {
    c.Some? && ((c.value.CAcquire? && c.value.lock == l) || (c.value.CCvarWait? && c.value.lock == l))
  }

  /** The running process's call returns SUCCESS in this step, and that gives it lock `l`. */
  ghost predicate AcquiresNow(c: Option<Call>, s: State, l: Label, s': State, k: Id) {
    AsksFor(c, k) && Returns(s, l, s') && Code(s, s') == SUCCESS
  }

  /** Its Release of lock `k` returns SUCCESS. */
  ghost predicate ReleasesNow(s: State, l: Label, s': State, k: Id) {
    l == Trap(CRelease(k)) && Returns(s, l, s') && Code(s, s') == SUCCESS
  }

  /** It goes to sleep on a condition variable, to take lock `k` again afterwards. */
  ghost predicate SleepsNow(s: State, l: Label, s': State, k: Id) {
    l.Trap? && l.call.CCvarWait? && l.call.lock == k && !Returns(s, l, s')
  }

  /** Who holds lock `l` after `i` steps, told by the calls: whoever was last given it and has not given it back */
  ghost function HolderOf(ss: seq<State>, ls: seq<Label>, i: nat, l: Id): Option<Pid>
    requires Traces(ss, ls, i)
  {
    if i == 0 then None
    else NextHolder(HolderOf(ss, ls, i - 1, l), LastCall(ss, ls, i, ss[i - 1].cur), ss[i - 1], ls[i - 1], ss[i], l)
  }

  ghost function NextHolder(holder: Option<Pid>, c: Option<Call>, s: State, l: Label, s': State, k: Id): Option<Pid> {
    if AcquiresNow(c, s, l, s', k) then Some(s.cur)
    else if ReleasesNow(s, l, s', k) then None
    else if SleepsNow(s, l, s', k) && holder == Some(s.cur) then None
    else holder
  }

  /**
   What one step's note says of the lock is what its call says, and only a free lock is given and
   only its holder releases it.
   */
  ghost predicate Noted(c: Option<Call>, s: State, l: Label, s': State, k: Id) {
    && Holder(s'.log, k) == NextHolder(Holder(s.log, k), c, s, l, s', k)
    && (AcquiresNow(c, s, l, s', k) ==> Holder(s.log, k) == None)
    && (ReleasesNow(s, l, s', k) ==> Holder(s.log, k) == Some(s.cur))
  }

  lemma AcquireNoted(c: Call, s: State, l: Label, m: Id, k: Id)
    requires LockOk(s, m) && s.cur in s.procs && s.cur !in s.blocked
      && (c == CAcquire(m) || (c.CCvarWait? && c.lock == m))
    requires l == Trap(CAcquire(m)) || (l == Resume && s.procs[s.cur].cont != User)
    ensures Noted(Some(c), s, l, Acquire(s, m), k)
  {
    if m in s.locks && s.locks[m].owner == None {
      assert Acquire(s, m).log == Snoc(s.log, Acquired(s.cur, m));
    } else {
      assert Acquire(s, m).log == s.log;
      assert m in s.locks ==> Acquire(s, m).procs[s.cur].cont == InAcquire(m);
    }
  }

  lemma ReleaseNoted(s: State, m: Id, k: Id)
    requires LockOk(s, m) && InUserMode(s)
    ensures Noted(Some(CRelease(m)), s, Trap(CRelease(m)), Release(s, m), k)
  {
    assert Release(s, m).log == if MayRelease(s, m) then Snoc(s.log, Released(s.cur, m)) else s.log;
  }

  lemma CvarWaitNoted(s: State, v: Id, m: Id, k: Id)
    requires LockOk(s, m) && InUserMode(s) && s.cur !in s.blocked
    ensures Noted(Some(CCvarWait(v, m)), s, Trap(CCvarWait(v, m)), CvarWait(s, v, m), k)
  {
    var s' := CvarWait(s, v, m);
    if v in s.cvars {
      assert s'.log == if MayRelease(s, m) then Snoc(s.log, Released(s.cur, m)) else s.log;
      assert s'.procs[s.cur].cont == InCvarWait(v, m);
    }
  }

  lemma OtherNoted(c: Option<Call>, s: State, l: Label, k: Id)
    requires s.nextPid !in s.procs && Enabled(s, l) && Asks(c, s, l) && StepKind(s, l) != KLock
    ensures Noted(c, s, l, Step(s, l), k)
  {
    StepTouches(s, l);
    OtherEvents(s.log, Step(s, l).log, StepKind(s, l), k);
  }

  lemma StepNoted(c: Option<Call>, s: State, l: Label, k: Id)
    requires Inv(s) && Locks(s) && Enabled(s, l) && Asks(c, s, l)
    ensures Noted(c, s, l, Step(s, l), k)
  {
    InvFresh(s);
    var h: Home :| Located(s, h);
    CurView(s, h);
    if StepKind(s, l) != KLock {
      OtherNoted(c, s, l, k);
    } else if l.Resume? {
      var cont := s.procs[s.cur].cont;
      var m := if cont.InAcquire? then cont.lock else cont.relock;
      assert LockOk(s, m);
      AcquireNoted(c.value, s, l, m, k);
    } else if l.call.CAcquire? {
      assert LockOk(s, l.call.lock);
      AcquireNoted(l.call, s, l, l.call.lock, k);
    } else if l.call.CRelease? {
      assert LockOk(s, l.call.lock);
      ReleaseNoted(s, l.call.lock, k);
    } else if l.call.CCvarWait? {
      assert LockOk(s, l.call.lock);
      CvarWaitNoted(s, l.call.cvar, l.call.lock, k);
    }
  }

  /** What the kernel has noted is what the calls say. */
  lemma {:induction false} RunNoted(ss: seq<State>, ls: seq<Label>, i: nat, l: Id)
    requires Run(ss, ls) && Traces(ss, ls, i)
    ensures Holder(ss[i].log, l) == HolderOf(ss, ls, i, l)
  {
    if i > 0 {
      RunNoted(ss, ls, i - 1, l);
      RunLocks(ss, ls, i - 1);
      RunInv(ss, ls, i - 1);
      RunAsks(ss, ls, i - 1);
      StepNoted(LastCall(ss, ls, i, ss[i - 1].cur), ss[i - 1], ls[i - 1], l);
    }
  }

  /** Step `i` gives lock `l` to process `p`: its Acquire or its wait on a condition variable returns SUCCESS. */
  ghost predicate Acquires(ss: seq<State>, ls: seq<Label>, i: nat, l: Id, p: Pid)
    requires Traces(ss, ls, i + 1)
  {
    ss[i].cur == p && AcquiresNow(LastCall(ss, ls, i + 1, p), ss[i], ls[i], ss[i + 1], l)
  }

  /** In step `i` process `p` gives lock `l` back: its Release returns SUCCESS, or it sleeps on a condition variable. */
  ghost predicate GivesBack(ss: seq<State>, ls: seq<Label>, i: nat, l: Id, p: Pid)
    requires Traces(ss, ls, i + 1)
  {
    ss[i].cur == p && (ReleasesNow(ss[i], ls[i], ss[i + 1], l) || SleepsNow(ss[i], ls[i], ss[i + 1], l))
  }

  /** A call that gets a lock finds that nobody holds it; a Release that succeeds is by the holder. */
  lemma OnlyHolder(ss: seq<State>, ls: seq<Label>, i: nat, l: Id)
    requires Run(ss, ls) && Traces(ss, ls, i + 1)
    ensures Acquires(ss, ls, i, l, ss[i].cur) ==> HolderOf(ss, ls, i, l) == None
    ensures ReleasesNow(ss[i], ls[i], ss[i + 1], l) ==> HolderOf(ss, ls, i, l) == Some(ss[i].cur)
  {
    RunNoted(ss, ls, i, l);
    RunLocks(ss, ls, i);
    RunInv(ss, ls, i);
    RunAsks(ss, ls, i);
    StepNoted(LastCall(ss, ls, i + 1, ss[i].cur), ss[i], ls[i], l);
  }

  ghost predicate KeepsIt(ss: seq<State>, ls: seq<Label>, i: nat, j: nat, l: Id, p: Pid)
    requires Traces(ss, ls, j)
  {
    forall k | i < k < j :: !GivesBack(ss, ls, k, l, p)
  }

  lemma Given(ss: seq<State>, ls: seq<Label>, i: nat, n: nat, l: Id, p: Pid)
    requires n == i + 1 && Traces(ss, ls, n) && Acquires(ss, ls, i, l, p)
    ensures HolderOf(ss, ls, n, l) == Some(p)
  {
  }

  lemma HeldOn(ss: seq<State>, ls: seq<Label>, i: nat, n: nat, l: Id, p: Pid)
    requires n == i + 1 && Run(ss, ls) && Traces(ss, ls, n) && HolderOf(ss, ls, i, l) == Some(p)
      && !GivesBack(ss, ls, i, l, p)
    ensures HolderOf(ss, ls, n, l) == Some(p)
  {
    OnlyHolder(ss, ls, i, l);
  }

  /** What `p` was given in step `i` and has not given back up to step `j` it holds. */
  lemma {:induction false} StillHeld(ss: seq<State>, ls: seq<Label>, l: Id, p: Pid, i: nat, j: nat)
    requires Run(ss, ls) && i < j && Traces(ss, ls, j) && Acquires(ss, ls, i, l, p) && KeepsIt(ss, ls, i, j, l, p)
    ensures HolderOf(ss, ls, j, l) == Some(p)
  {
    if i + 1 == j {
      Given(ss, ls, i, j, l, p);
    } else {
      var k := j - 1;
      assert KeepsIt(ss, ls, i, k, l, p) && !GivesBack(ss, ls, k, l, p);
      StillHeld(ss, ls, l, p, i, k);
      HeldOn(ss, ls, k, j, l, p);
    }
  }

  /**
   Between two calls that get a lock, by whomever, the process that got it first has given
   it back by a call of its own.
   */
  lemma MutualExclusion(ss: seq<State>, ls: seq<Label>, l: Id, p: Pid, q: Pid, i: nat, j: nat)
    requires Run(ss, ls) && i < j && Traces(ss, ls, j + 1) && Acquires(ss, ls, i, l, p) && Acquires(ss, ls, j, l, q)
    ensures exists k :: i < k < j && GivesBack(ss, ls, k, l, p)
  {
    if KeepsIt(ss, ls, i, j, l, p) {
      StillHeld(ss, ls, l, p, i, j);
      OnlyHolder(ss, ls, j, l);
    }
  }
}
