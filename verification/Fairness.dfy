/**
 Bounded waiting.  The ready queue is served in order: no step moves a ready process back,
 and a process at index k runs after at most k + 1 clock traps.
 */
module Fairness {
  import opened Basics
  import opened KernelState
  import opened KernelSteps
  import opened Footprint
  import opened Location
  import opened Sleepers

  /** The ready queue loses at most its head and gains only at its tail. */
  ghost predicate Advances(s: State, s': State) {
    || s.ready <= s'.ready
    || (s.ready != [] && s'.cur == s.ready[0] && s.ready[1..] <= s'.ready)
  }

  /** The head has been dispatched. */
  ghost predicate Dispatched(s: State, s': State) {
    s.ready != [] ==> s'.cur == s.ready[0] && s.ready[1..] <= s'.ready
  }

  lemma AppendAdvances(s: State, s1: State, s': State)
    requires s.ready <= s1.ready && Advances(s1, s')
    ensures Advances(s, s')
  {
    if !(s1.ready <= s'.ready) && s.ready != [] {
      assert s1.ready[0] == s.ready[0];
      assert s.ready[1..] <= s1.ready[1..];
    }
  }

  lemma PopAllAdvances(s: State, c: Id)
    requires c in s.cvars
    ensures s.ready <= PopAllCvar(s, c).ready
    decreases |s.cvars[c]|
  {
    if s.cvars[c] != [] {
      PopAllAdvances(PopCvar(s, c), c);
    }
  }

  lemma AcquireAdvances(s: State, l: Id)
    requires s.cur in s.procs
    ensures Advances(s, Acquire(s, l))
  {
  }

  lemma CvarWaitAdvances(s: State, c: Id, l: Id)
    requires s.cur in s.procs
    ensures Advances(s, CvarWait(s, c, l))
  {
    if c in s.cvars {
      var s1 := DoRelease(s.(cvars := s.cvars[c := s.cvars[c] + [s.cur]]), l);
      AppendAdvances(s, s1, CvarWait(s, c, l));
    }
  }

  lemma ExitAdvances(s: State, status: int)
    requires s.cur in s.procs
    ensures Advances(s, Exit(s, status))
  {
    if s.cur != INIT {
      AppendAdvances(s, Bury(ReportExit(s, status)), Exit(s, status));
    }
  }

  lemma PipeLoopAdvances(s: State, id: Id, len: int)
    requires s.cur in s.procs && id in s.pipes && len > 0
    ensures Advances(s, PipeLoop(s, id, len))
  {
  }

  lemma PipeAdvances(s: State, id: Id, len: int, buf: Bytes)
    requires s.cur in s.procs
    ensures Advances(s, PipeRead(s, id, len))
    ensures len <= |buf| ==> Advances(s, PipeWrite(s, id, len, buf))
  {
    if len > 0 && id in s.pipes {
      var pipe := s.pipes[id];
      var s1 := Note(s.(pipes := s.pipes[id := pipe.(waiting := pipe.waiting + [s.cur])]), PipeQueued(s.cur, id));
      PipeLoopAdvances(s1, id, len);
    }
  }

  lemma SendAdvances(s: State, t: nat, buf: Bytes, sent: nat)
    requires s.cur in s.procs && t < |s.ttys| && sent < |buf|
    ensures Advances(s, SendBatch(s, t, buf, sent))
  {
  }

  lemma TtyWriteAdvances(s: State, t: nat, buf: Bytes, sent: nat)
    requires s.cur in s.procs && t < |s.ttys|
    ensures Advances(s, BatchLoop(s, t, buf, sent))
    ensures buf != [] ==> Advances(s, TtyWriteLoop(s, t, buf))
  {
    if sent < |buf| {
      SendAdvances(s, t, buf, sent);
    }
    if buf != [] {
      SendAdvances(s, t, buf, 0);
    }
  }

  lemma TtyReadAdvances(s: State, t: nat, len: int)
    requires s.cur in s.procs && t < |s.ttys| && len > 0
    ensures Advances(s, TtyReadLoop(s, t, len))
  {
  }

  lemma CallAdvances(s: State, c: Call)
    requires s.cur in s.procs && GoodCall(s, c)
    ensures Advances(s, DoCall(s, c))
  {
    match c
    case CFork(frames) => FamilyAdvances(s, frames, 0);
    case CExit(status) => ExitAdvances(s, status);
    case CWait => FamilyAdvances(s, false, 0);
    case CDelay(ticks) => FamilyAdvances(s, false, ticks);
    case CAcquire(l) => AcquireAdvances(s, l);
    case CRelease(l) => ReleaseAdvances(s, l);
    case CCvarWait(c, l) => CvarWaitAdvances(s, c, l);
    case CSignal(c) => CvarAdvances(s, c);
    case CBroadcast(c) => CvarAdvances(s, c);
    case CPipeRead(id, len) => PipeAdvances(s, id, len, []);
    case CPipeWrite(id, len, buf) => PipeAdvances(s, id, len, buf);
    case CTtyWrite(t, len, buf) =>
      if len > 0 {
        TtyWriteAdvances(s, t, buf[..len], 0);
      }
    case CTtyRead(t, len) =>
      if len > 0 {
        TtyReadAdvances(s, t, len);
      }
    case CLockInit =>
    case CCvarInit =>
    case CPipeInit =>
  }

  lemma FamilyAdvances(s: State, frames: bool, ticks: int)
    requires s.cur in s.procs
    ensures Advances(s, Fork(s, frames)) && Advances(s, Wait(s)) && Advances(s, Delay(s, ticks))
  {
  }

  lemma ReleaseAdvances(s: State, l: Id)
    requires s.cur in s.procs
    ensures Advances(s, Release(s, l))
  {
  }

  lemma CvarAdvances(s: State, c: Id)
    requires s.cur in s.procs
    ensures Advances(s, Signal(s, c)) && Advances(s, Broadcast(s, c))
  {
    if c in s.cvars {
      PopAllAdvances(s, c);
    }
  }

  lemma ContinueAdvances(s: State)
    requires s.cur in s.procs && GoodCont(s, s.procs[s.cur].cont)
    ensures Advances(s, Continue(s))
  {
    match s.procs[s.cur].cont
    case User =>
    case InAcquire(l) => AcquireAdvances(s, l);
    case InCvarWait(_, l) => AcquireAdvances(s, l);
    case InPipeRead(id, len) => PipeLoopAdvances(s, id, len);
    case InWait =>
    case InTtyRead(t, len) => TtyReadAdvances(s, t, len);
    case InTtyWrite(t, buf) => TtyWriteAdvances(s, t, buf, 0);
    case InTtyBatch(t, buf, sent) => TtyWriteAdvances(s, t, buf, sent);
  }

  lemma ClockAdvances(s: State, order: seq<Pid>)
    requires Lists(order, s.sleeping)
    ensures Dispatched(s, Kick(TickAll(s, order)))
  {
    TickMeans(s, order);
    var s1 := TickAll(s, order);
    if s.ready != [] {
      var s2 := MakeReady(s1, s1.cur);
      assert s2.ready[0] == s.ready[0];
      assert s.ready[1..] <= s2.ready[1..];
    }
  }

  /** Every step serves the ready queue in order, and every clock trap serves its head. */
  lemma StepAdvances(s: State, l: Label)
    requires Enabled(s, l)
    ensures Advances(s, Step(s, l))
    ensures l.Clock? ==> Dispatched(s, Step(s, l))
  {
    match l
    case Trap(c) => CallAdvances(s, c);
    case Resume => ContinueAdvances(s);
    case Clock(order) =>
      ClockAdvances(s, order);
      if s.ready == [] {
        assert s.ready <= Step(s, l).ready;
      }
    case Receive(t, line) =>
    case Transmitted(t) =>
  }

  /** Consecutive states in which the ready queue is served. */
  ghost predicate Serves(ss: seq<State>, ls: seq<Label>) {
    && |ss| == |ls| + 1
    && forall n | 0 <= n < |ls| :: Advances(ss[n], ss[n + 1]) && (ls[n].Clock? ==> Dispatched(ss[n], ss[n + 1]))
  }

  lemma RunServes(ss: seq<State>, ls: seq<Label>)
    requires Run(ss, ls)
    ensures Serves(ss, ls)
  {
    forall n | 0 <= n < |ls|
      ensures Advances(ss[n], ss[n + 1]) && (ls[n].Clock? ==> Dispatched(ss[n], ss[n + 1]))
    {
      StepAdvances(ss[n], ls[n]);
    }
  }

  lemma MovesUp(s: State, s': State, clock: bool, k: nat) returns (ran: bool, k': nat)
    requires Advances(s, s') && (clock ==> Dispatched(s, s')) && k < |s.ready|
    ensures ran ==> s'.cur == s.ready[k]
    ensures !ran ==> k' < |s'.ready| && s'.ready[k'] == s.ready[k] && k' + (if clock then 1 else 0) <= k
  {
    if clock || !(s.ready <= s'.ready) {
      if k == 0 {
        return true, 0;
      }
      assert s'.ready[k - 1] == s.ready[1..][k - 1];
      return false, k - 1;
    }
    return false, k;
  }

  /**
   A process at index `k` of the ready queue in state `i` has, in state `j`, either run in a
   state `m` after `i`, or stands at an index `m` that every clock trap since has lowered.
   */
  lemma {:induction false} MovesUpTo(ss: seq<State>, ls: seq<Label>, i: nat, j: nat, k: nat) returns (ran: bool, m: nat)
    requires Serves(ss, ls) && i <= j < |ss| && k < |ss[i].ready|
    ensures ran ==> i < m <= j && ss[m].cur == ss[i].ready[k]
    ensures !ran ==> m + Ticks(ls, i, j) <= k && m < |ss[j].ready| && ss[j].ready[m] == ss[i].ready[k]
    decreases j - i
  {
    if i == j {
      return false, k;
    }
    ran, m := MovesUpTo(ss, ls, i, j - 1, k);
    if !ran {
      ran, m := MovesUp(ss[j - 1], ss[j], ls[j - 1].Clock?, m);
      if ran {
        m := j;
      }
    }
  }

  /**
   A process at index `k` of the ready queue runs by the time k + 1 clock traps have been
   taken, whatever happens in between.
   */
  lemma BoundedWaiting(ss: seq<State>, ls: seq<Label>, i: nat, j: nat, k: nat) returns (m: nat)
    requires Run(ss, ls) && i <= j < |ss| && k < |ss[i].ready| && Ticks(ls, i, j) > k
    ensures i < m <= j && ss[m].cur == ss[i].ready[k]
  {
    RunServes(ss, ls);
    var ran;
    ran, m := MovesUpTo(ss, ls, i, j, k);
  }

  lemma ClockStep(s: State, order: seq<Pid>)
    requires NoDup(order)
    ensures var s' := Kick(TickAll(s, order));
      [s'.cur] + s'.ready == s.ready + Due(order, s.sleeping) + [s.cur]
  {
    TickMeans(s, order);
    var s1 := TickAll(s, order);
    if s1.ready != [] {
      var line := s1.ready + [s.cur];
      assert line == [line[0]] + line[1..];
    }
  }

  /**
   A clock trap moves the line on by one: behind those who were ready come the sleepers whose time is up, in
   the order of the traversal, and last the process that was interrupted.
   */
  lemma ClockRotates(ss: seq<State>, ls: seq<Label>, i: nat, order: seq<Pid>)
    requires Run(ss, ls) && i < |ls| && ls[i] == Clock(order)
    ensures [ss[i + 1].cur] + ss[i + 1].ready == ss[i].ready + Due(order, ss[i].sleeping) + [ss[i].cur]
  {
    ClockStep(ss[i], order);
  }
}
