/**
 What a process asked for and what it got, told by the traps of a run and the return codes:
 the anchor for what the other modules say of bytes written and calls served.
 */
module Calls {
  import opened Basics
  import opened KernelState
  import opened KernelSteps
  import opened Footprint
  import opened Location
  import opened Agreement

  /** The last kernel call that `p` has made in the first `i` steps */
  ghost function LastCall(ss: seq<State>, ls: seq<Label>, i: nat, p: Pid): Option<Call>
    requires Traces(ss, ls, i)
  {
    if i == 0 then None
    else if ls[i - 1].Trap? && ss[i - 1].cur == p then Some(ls[i - 1].call)
    else LastCall(ss, ls, i - 1, p)
  }

  /** A call parked at `c` is this one. */
  predicate ParkedIn(c: Cont, call: Call) {
    match c
    case User => true
    case InAcquire(l) => call == CAcquire(l) || (call.CCvarWait? && call.lock == l)
    case InCvarWait(v, l) => call == CCvarWait(v, l)
    case InPipeRead(id, len) => call == CPipeRead(id, len)
    case InWait => call == CWait
    case InTtyRead(t, len) => call == CTtyRead(t, len)
    case InTtyWrite(t, buf) => Writes(call, t, buf)
    case InTtyBatch(t, buf, _) => Writes(call, t, buf)
  }

  /** A terminal write of these bytes */
  predicate Writes(call: Call, t: nat, bytes: Bytes) {
    call.CTtyWrite? && call.tty == t && 0 < call.len <= |call.buf| && call.buf[..call.len] == bytes
  }

  /** The running process's call, if it was in one, has returned to user mode in this step. */
  predicate Returns(s: State, l: Label, s': State) {
    (l.Trap? || l.Resume?) && s.cur in s'.procs && s'.procs[s.cur].cont == User
  }

  /** ... with this return code */
  function Code(s: State, s': State): int
    requires s.cur in s'.procs
  {
    s'.procs[s.cur].ret
  }

  /** Where the running process's call stands afterwards: where it stood, done, or parked at `c` */
  ghost predicate ParksAt(s: State, s': State, c: Cont)
    requires s.cur in s.procs
  {
    s.cur in s'.procs && s'.procs[s.cur].cont in {s.procs[s.cur].cont, User, c}
  }

  lemma AcquireParks(s: State, l: Id)
    requires s.cur in s.procs
    ensures ParksAt(s, Acquire(s, l), InAcquire(l))
  {
  }

  lemma CvarWaitParks(s: State, c: Id, l: Id)
    requires s.cur in s.procs
    ensures ParksAt(s, CvarWait(s, c, l), InCvarWait(c, l))
  {
  }

  lemma PipeParks(s: State, id: Id, len: int)
    requires s.cur in s.procs
    ensures ParksAt(s, PipeRead(s, id, len), InPipeRead(id, len))
    ensures id in s.pipes && len > 0 ==> ParksAt(s, PipeLoop(s, id, len), InPipeRead(id, len))
  {
  }

  lemma WaitParks(s: State)
    requires s.cur in s.procs
    ensures ParksAt(s, Wait(s), InWait) && ParksAt(s, Reap(s), User)
    ensures Reap(s).procs.Keys == s.procs.Keys && Wait(s).procs.Keys == s.procs.Keys
  {
  }

  lemma TtyReadParks(s: State, t: nat, len: int)
    requires s.cur in s.procs && t < |s.ttys|
    ensures ParksAt(s, TtyRead(s, t, len), InTtyRead(t, len))
  {
  }

  lemma TtyWriteParks(s: State, t: nat, buf: Bytes, sent: nat)
    requires s.cur in s.procs && t < |s.ttys| && buf != []
    ensures s.cur in TtyWriteLoop(s, t, buf).procs && s.cur in BatchLoop(s, t, buf, sent).procs
    ensures TtyWriteLoop(s, t, buf).procs[s.cur].cont in {InTtyWrite(t, buf), InTtyBatch(t, buf, Min(s.maxLine, |buf|))}
    ensures ParksAt(s, BatchLoop(s, t, buf, sent), InTtyBatch(t, buf, sent + Min(s.maxLine, |buf| - sent)))
  {
    SendParks(s, t, buf, 0);
    if sent < |buf| {
      SendParks(s, t, buf, sent);
    }
  }

  lemma SendParks(s: State, t: nat, buf: Bytes, sent: nat)
    requires s.cur in s.procs && t < |s.ttys| && sent < |buf|
    ensures s.cur in SendBatch(s, t, buf, sent).procs
    ensures SendBatch(s, t, buf, sent).procs[s.cur].cont == InTtyBatch(t, buf, sent + Min(s.maxLine, |buf| - sent))
  {
  }

  lemma ExitEnds(s: State, status: int)
    requires s.cur in s.procs && s.cur != INIT
    ensures s.cur !in Exit(s, status).procs
  {
  }

  /** The calls that never park */
  lemma ForkStays(s: State, frames: bool, ticks: int)
    requires s.cur in s.procs && s.nextPid !in s.procs
    ensures ParksAt(s, Fork(s, frames), User) && ParksAt(s, Delay(s, ticks), User)
  {
  }

  lemma WakeStays(s: State, l: Id, c: Id)
    requires s.cur in s.procs
    ensures ParksAt(s, Release(s, l), User) && ParksAt(s, Signal(s, c), User) && ParksAt(s, Broadcast(s, c), User)
  {
  }

  lemma PipeStays(s: State, id: Id, len: int, buf: Bytes)
    requires s.cur in s.procs && len <= |buf|
    ensures ParksAt(s, PipeWrite(s, id, len, buf), User)
  {
  }

  lemma CallStays(s: State, c: Call)
    requires s.cur in s.procs && GoodCall(s, c) && s.nextPid !in s.procs
    requires c.CFork? || c.CDelay? || c.CRelease? || c.CSignal? || c.CBroadcast? || c.CPipeWrite? || c.CLockInit?
      || c.CCvarInit? || c.CPipeInit?
    ensures ParksAt(s, DoCall(s, c), User)
  {
    if c.CFork? || c.CDelay? {
      ForkStays(s, c.CFork? && c.frames, if c.CDelay? then c.ticks else 0);
    } else if c.CRelease? {
      WakeStays(s, c.lock, 0);
    } else if c.CSignal? || c.CBroadcast? {
      WakeStays(s, 0, c.cvar);
    } else if c.CPipeWrite? {
      PipeStays(s, c.pipe, c.len, c.buf);
    }
  }

  lemma CallParks(s: State, c: Call)
    requires s.cur in s.procs && InUserMode(s) && GoodCall(s, c) && s.nextPid !in s.procs
    requires s.cur in DoCall(s, c).procs
    ensures ParkedIn(DoCall(s, c).procs[s.cur].cont, c)
  {
    if c.CExit? {
      if s.cur != INIT { ExitEnds(s, c.status); }
    } else if c.CWait? {
      WaitParks(s);
    } else if c.CAcquire? {
      AcquireParks(s, c.lock);
    } else if c.CCvarWait? {
      CvarWaitParks(s, c.cvar, c.lock);
    } else if c.CPipeRead? {
      PipeParks(s, c.pipe, c.len);
    } else if c.CTtyRead? {
      TtyReadParks(s, c.tty, c.len);
    } else if c.CTtyWrite? {
      if c.len > 0 { TtyWriteParks(s, c.tty, c.buf[..c.len], 0); }
    } else {
      CallStays(s, c);
    }
  }

  lemma ResumeParks(s: State, call: Call)
    requires s.cur in s.procs && s.procs[s.cur].cont != User && GoodCont(s, s.procs[s.cur].cont)
    requires ParkedIn(s.procs[s.cur].cont, call)
    ensures s.cur in Continue(s).procs && ParkedIn(Continue(s).procs[s.cur].cont, call)
  {
    var c := s.procs[s.cur].cont;
    if c.InAcquire? {
      AcquireParks(s, c.lock);
    } else if c.InCvarWait? {
      AcquireParks(s, c.relock);
    } else if c.InPipeRead? {
      PipeParks(s, c.pipe, c.len);
    } else if c.InWait? {
      WaitParks(s);
    } else if c.InTtyRead? {
      TtyReadParks(s, c.rtty, c.rlen);
    } else if c.InTtyWrite? {
      TtyWriteParks(s, c.wtty, c.wbuf, 0);
    } else {
      TtyWriteParks(s, c.btty, c.bbuf, c.sent);
    }
  }

  /** Whoever is parked is parked in the call it made last. */
  ghost predicate Parked(ss: seq<State>, ls: seq<Label>, i: nat, p: Pid)
    requires Traces(ss, ls, i)
  {
    p in ss[i].procs && ss[i].procs[p].cont != User ==>
      LastCall(ss, ls, i, p).Some? && ParkedIn(ss[i].procs[p].cont, LastCall(ss, ls, i, p).value)
  }

  lemma StaysParked(s: State, l: Label, p: Pid)
    requires Inv(s) && Enabled(s, l) && p in Step(s, l).procs && p != s.cur
    ensures if p in s.procs then Step(s, l).procs[p].cont == s.procs[p].cont else Step(s, l).procs[p].cont == User
  {
    InvFresh(s);
    StepTouches(s, l);
    if p !in s.procs {
      assert StepKind(s, l) == KFamily;
      if l.Resume? || l == Trap(CWait) {
        WaitParks(s);
      } else if l.call.CExit? {
        NobodyBorn(s, l.call.status);
      }
    }
  }

  lemma NobodyBorn(s: State, status: int)
    requires s.cur in s.procs
    ensures Exit(s, status).procs.Keys <= s.procs.Keys
  {
  }

  lemma {:induction false} RunParks(ss: seq<State>, ls: seq<Label>, i: nat, p: Pid)
    requires Run(ss, ls) && Traces(ss, ls, i)
    ensures Parked(ss, ls, i, p)
  {
    if i > 0 && p in ss[i].procs {
      var s, l := ss[i - 1], ls[i - 1];
      RunParks(ss, ls, i - 1, p);
      RunInv(ss, ls, i - 1);
      InvFresh(s);
      if p != s.cur {
        StaysParked(s, l, p);
      } else if l.Trap? {
        CallParks(s, l.call);
      } else if l.Resume? {
        ResumeParks(s, LastCall(ss, ls, i - 1, p).value);
      } else {
        StepTouches(s, l);
      }
    }
  }

  /** What the last call is at a step of the running process */
  ghost predicate Asks(c: Option<Call>, s: State, l: Label) {
    && (l.Trap? ==> c == Some(l.call))
    && (l.Resume? && s.cur in s.procs ==> c.Some? && ParkedIn(s.procs[s.cur].cont, c.value))
  }

  lemma RunAsks(ss: seq<State>, ls: seq<Label>, i: nat)
    requires Run(ss, ls) && i < |ls|
    ensures Asks(LastCall(ss, ls, i + 1, ss[i].cur), ss[i], ls[i])
  {
    RunParks(ss, ls, i, ss[i].cur);
  }
}
