/**
 What the kernel calls answer, over any run: when a call returns, with which code, and what it has
 done.  Wherever earlier calls of the run and their codes tell what a code depends on, they are what is used.
 */
module ReturnCodes {
  import opened Basics
  import opened KernelState
  import opened KernelSteps
  import opened Footprint
  import opened Location
  import opened Agreement
  import opened Calls
  import opened Objects
  import Families
  import Kinship
  import Mutex
  import Pipes
  import TtyReads
  import TtyWrites

  // ------------------------------------------------------------ Fork

  /** The processes that the step brings into being */
  function Born(s: State, s': State): set<Pid> {
    s'.procs.Keys - s.procs.Keys
  }

  ghost predicate ForkFailed(s: State, s': State) {
    s.cur in s'.procs && s'.cur == s.cur && InUserMode(s') && Code(s, s') == ERROR && s'.ready == s.ready
  }

  /** The child `q` runs and finds SUCCESS; the caller, last in line, will find the pid of the child. */
  ghost predicate ForkReturned(s: State, s': State, q: Pid) {
    && Born(s, s') == {q} && q > 0 && s'.cur == q && s'.ready == s.ready + [s.cur]
    && q in s'.procs && s'.procs[q].cont == User && s'.procs[q].ret == SUCCESS
    && s.cur in s'.procs && s'.procs[s.cur].cont == User && Code(s, s') == q
  }

  lemma ForkStep(s: State, frames: bool)
    requires InUserMode(s) && s.nextPid !in s.procs && s.nextPid > 0
    ensures var s' := Fork(s, frames);
      if frames then ForkReturned(s, s', s.nextPid) else Born(s, s') == {} && ForkFailed(s, s')
  {
  }

  /** How many calls of Fork the first `i` labels have, those that fail included */
  function Forks(ls: seq<Label>, i: nat): nat
    requires i <= |ls|
  {
    if i == 0 then 0 else Forks(ls, i - 1) + if ls[i - 1].Trap? && ls[i - 1].call.CFork? then 1 else 0
  }

  lemma StepPids(s: State, l: Label)
    requires Inv(s) && Enabled(s, l)
    ensures Step(s, l).nextPid == s.nextPid + if l.Trap? && l.call.CFork? then 1 else 0
  {
    if !(l.Trap? && (l.call.CFork? || l.call.CExit?)) {
      Kinship.SameChildren(s, l, 0);
    }
  }

  /** Every Fork uses up a pid, whether it succeeds or not, and nothing else does. */
  lemma {:induction false} PidsCount(ss: seq<State>, ls: seq<Label>, i: nat)
    requires Run(ss, ls) && Traces(ss, ls, i)
    ensures ss[i].nextPid == 2 + Forks(ls, i)
  {
    if i > 0 {
      PidsCount(ss, ls, i - 1);
      RunInv(ss, ls, i - 1);
      StepPids(ss[i - 1], ls[i - 1]);
    }
  }

  lemma {:induction false} ForksGrow(ls: seq<Label>, i: nat, j: nat)
    requires j <= i <= |ls|
    ensures Forks(ls, j) <= Forks(ls, i)
  {
    if j < i { ForksGrow(ls, i - 1, j); }
  }

  /** Nobody has the next pid, or has had it. */
  lemma NextPidUnused(ss: seq<State>, ls: seq<Label>, i: nat, j: nat)
    requires Run(ss, ls) && Traces(ss, ls, i) && j <= i
    ensures ss[i].nextPid !in ss[j].procs
  {
    PidsCount(ss, ls, i);
    PidsCount(ss, ls, j);
    ForksGrow(ls, i, j);
    RunInv(ss, ls, j);
    InvFresh(ss[j]);
  }

  /**
   A Fork makes a process exactly if memory suffices.  If not, it returns ERROR; if so, there is one new
   process, whose pid nobody has had before, and of the two only the new one finds SUCCESS.
   */
  lemma ForkAnswers(ss: seq<State>, ls: seq<Label>, i: nat, frames: bool)
    requires Run(ss, ls) && Traces(ss, ls, i + 1) && ls[i] == Trap(CFork(frames))
    ensures Born(ss[i], ss[i + 1]) != {} <==> frames
    ensures Born(ss[i], ss[i + 1]) == {} ==> ForkFailed(ss[i], ss[i + 1])
    ensures Born(ss[i], ss[i + 1]) != {} ==> ForkReturned(ss[i], ss[i + 1], 2 + Forks(ls, i))
    ensures Born(ss[i], ss[i + 1]) != {} ==> forall j | 0 <= j <= i :: ss[i + 1].cur !in ss[j].procs
  {
    PidsCount(ss, ls, i);
    NextPidUnused(ss, ls, i, i);
    ForkStep(ss[i], frames);
    forall j | 0 <= j <= i ensures ss[i].nextPid !in ss[j].procs {
      NextPidUnused(ss, ls, i, j);
    }
  }

  // ------------------------------------------------------------ pipes

  predicate OtherPipesKeep(s: State, s': State, id: Id) {
    s'.pipes - {id} == s.pipes - {id}
  }

  /** A write is all or nothing: it returns its length and its bytes are at the end of the pipe's, or ERROR. */
  ghost predicate PipeWriteAnswer(s: State, s': State, made: bool, id: Id, len: int, buf: Bytes)
    requires s.cur in s'.procs && len <= |buf|
  {
    var held := Pipes.BufferOf(s, id);
    && OtherPipesKeep(s, s', id)
    && if len > 0 && made && |held| + len <= PipeMax(s)
       then Code(s, s') == len && Pipes.BufferOf(s', id) == held + buf[..len]
       else Code(s, s') == (if len == 0 then SUCCESS else ERROR) && Pipes.BufferOf(s', id) == held
  }

  lemma PipeWriteStep(s: State, id: Id, len: int, buf: Bytes)
    requires InUserMode(s) && len <= |buf|
    ensures Returns(s, Trap(CPipeWrite(id, len, buf)), PipeWrite(s, id, len, buf))
    ensures PipeWriteAnswer(s, PipeWrite(s, id, len, buf), id in s.pipes, id, len, buf)
  {
    Pipes.WriteEffect(s, id, len, buf);
  }

  /** A PipeWrite returns at once: its length exactly if the pipe has been made and has room for all of it. */
  lemma PipeWriteAnswers(ss: seq<State>, ls: seq<Label>, i: nat, id: Id, len: int, buf: Bytes)
    requires Run(ss, ls) && Traces(ss, ls, i + 1) && ls[i] == Trap(CPipeWrite(id, len, buf))
    ensures Returns(ss[i], ls[i], ss[i + 1]) && len <= |buf|
    ensures PipeWriteAnswer(ss[i], ss[i + 1], MakesIt(ls, i, CPipeInit, id), id, len, buf)
  {
    NamesAreMade(ss, ls, i);
    PipeWriteStep(ss[i], id, len, buf);
  }

  /** A reader that need not wait for others: it comes when nobody is before it, or has been woken */
  ghost predicate NeedNotQueue(s: State, l: Label, id: Id) {
    l.Resume? || Pipes.WaitingOf(s, id) == [] || Pipes.WaitingOf(s, id)[0] == s.cur
  }

  /**
   When a PipeRead goes on, it returns if it asked for nothing or a pipe that is not there, or need not queue and
   finds all its bytes, which it takes off the front of the pipe; a woken reader whose queue is empty fails.
   */
  ghost predicate PipeReadAnswer(s: State, l: Label, s': State, made: bool, id: Id, len: int) {
    var held := Pipes.BufferOf(s, id);
    var done := len <= 0 || !made || (len <= |held| && NeedNotQueue(s, l, id));
    && OtherPipesKeep(s, s', id) && s.cur in s'.procs
    && (Returns(s, l, s') <==> done)
    && if done && len > 0 && made && !(l.Resume? && Pipes.WaitingOf(s, id) == [])
       then
         && Code(s, s') == len && Pipes.BufferOf(s', id) == held[len..]
         && Pipes.Taken(s'.log, id) == Pipes.Taken(s.log, id) + held[..len]
       else
         && (done ==> Code(s, s') == if len == 0 then SUCCESS else ERROR)
         && Pipes.BufferOf(s', id) == held && Pipes.Taken(s'.log, id) == Pipes.Taken(s.log, id)
  }

  lemma LoopStep(s: State, id: Id, len: int)
    requires s.cur in s.procs && s.procs[s.cur].cont == InPipeRead(id, len) && id in s.pipes && len > 0
    ensures PipeReadAnswer(s, Resume, PipeLoop(s, id, len), true, id, len)
  {
    var pipe := s.pipes[id];
    var s' := PipeLoop(s, id, len);
    PipeParks(s, id, len);
    if |pipe.buffer| >= len && pipe.waiting != [] {
      assert s'.log == Snoc(s.log, PipeTaken(s.cur, id, len, pipe.buffer[..len]));
      assert s'.pipes == s.pipes[id := Pipe(pipe.buffer[len..], pipe.waiting[1..])];
    } else {
      assert s'.log == s.log && s'.pipes == s.pipes;
    }
  }

  lemma PipeReadStep(s: State, id: Id, len: int)
    requires InUserMode(s) && s.cur !in s.blocked
    ensures PipeReadAnswer(s, Trap(CPipeRead(id, len)), PipeRead(s, id, len), id in s.pipes, id, len)
  {
    if len > 0 && id in s.pipes {
      var pipe := s.pipes[id];
      var s' := PipeRead(s, id, len);
      var log1 := Snoc(s.log, PipeQueued(s.cur, id));
      if (pipe.waiting + [s.cur])[0] == s.cur && |pipe.buffer| >= len {
        assert s'.log == Snoc(log1, PipeTaken(s.cur, id, len, pipe.buffer[..len]));
      } else {
        assert s'.log == log1 && s'.procs[s.cur].cont == InPipeRead(id, len);
      }
    }
  }

  lemma PipeReadAnswers(ss: seq<State>, ls: seq<Label>, i: nat, id: Id, len: int)
    requires Run(ss, ls) && Traces(ss, ls, i + 1) && (ls[i].Trap? || ls[i].Resume?)
    requires LastCall(ss, ls, i + 1, ss[i].cur) == Some(CPipeRead(id, len))
    ensures PipeReadAnswer(ss[i], ls[i], ss[i + 1], MakesIt(ls, i, CPipeInit, id), id, len)
  {
    RunAsks(ss, ls, i);
    RunInv(ss, ls, i);
    InvFresh(ss[i]);
    NamesAreMade(ss, ls, i);
    if ls[i].Trap? {
      CurUnblocked(ss[i]);
      PipeReadStep(ss[i], id, len);
    } else {
      LoopStep(ss[i], id, len);
    }
  }

  lemma CurUnblocked(s: State)
    requires Inv(s)
    ensures s.cur in s.procs && s.cur !in s.blocked
  {
    var h: Home :| Located(s, h);
    CurView(s, h);
  }

  // ------------------------------------------------------------ locks and condition variables

  /** The call that goes on in step `i` now wants lock `m`: an Acquire, or a CvarWait that has been woken. */
  ghost predicate WantsLock(ss: seq<State>, ls: seq<Label>, i: nat, m: Id)
    requires Traces(ss, ls, i + 1)
  {
    var c := LastCall(ss, ls, i + 1, ss[i].cur);
    ls[i] == Trap(CAcquire(m)) || (ls[i] == Resume && Mutex.AsksFor(c, m))
  }

  /** Lock `m` and condition variable `v` are there exactly if they have been made. */
  lemma Exist(ss: seq<State>, ls: seq<Label>, i: nat, m: Id, v: Id)
    requires Run(ss, ls) && Traces(ss, ls, i)
    ensures (m in ss[i].locks <==> MakesIt(ls, i, CLockInit, m)) && (v in ss[i].cvars <==> MakesIt(ls, i, CCvarInit, v))
    ensures ss[i].cur in ss[i].procs && ss[i].cur !in ss[i].blocked
  {
    NamesAreMade(ss, ls, i);
    RunInv(ss, ls, i);
    CurUnblocked(ss[i]);
  }

  /** What the call that wants lock `m` gives, `held` or not */
  ghost predicate AcquireAnswer(s: State, l: Label, s': State, made: bool, held: bool) {
    && s.cur in s'.procs && (Returns(s, l, s') <==> !held)
    && (!held ==> Code(s, s') == if made then SUCCESS else ERROR)
  }

  lemma AcquireStep(s: State, l: Label, m: Id)
    requires s.cur in s.procs && s.cur !in s.blocked && (l.Trap? || l.Resume?)
    ensures AcquireAnswer(s, l, Acquire(s, m), m in s.locks, m in s.locks && s.locks[m].owner != None)
  {
  }

  lemma ResumeIsAcquire(s: State, c: Option<Call>, m: Id)
    requires Enabled(s, Resume) && Asks(c, s, Resume) && Mutex.AsksFor(c, m)
    ensures Step(s, Resume) == Acquire(s, m)
  {
  }

  /** Whoever wants a lock returns exactly if nobody holds it: with the lock, or ERROR if it was never made. */
  lemma AcquireAnswers(ss: seq<State>, ls: seq<Label>, i: nat, m: Id)
    requires Run(ss, ls) && Traces(ss, ls, i + 1) && WantsLock(ss, ls, i, m)
    ensures AcquireAnswer(ss[i], ls[i], ss[i + 1], MakesIt(ls, i, CLockInit, m), Mutex.HolderOf(ss, ls, i, m) != None)
  {
    Exist(ss, ls, i, m, 0);
    Holds(ss, ls, i, m);
    AcquireStep(ss[i], ls[i], m);
    if ls[i].Resume? {
      RunAsks(ss, ls, i);
      ResumeIsAcquire(ss[i], LastCall(ss, ls, i + 1, ss[i].cur), m);
    }
  }

  /** The owner in the lock is the process that holds it by the calls. */
  lemma Holds(ss: seq<State>, ls: seq<Label>, i: nat, m: Id)
    requires Run(ss, ls) && Traces(ss, ls, i)
    ensures Mutex.HolderOf(ss, ls, i, m) == if m in ss[i].locks then ss[i].locks[m].owner else None
  {
    Mutex.RunLocks(ss, ls, i);
    Mutex.RunNoted(ss, ls, i, m);
    assert Mutex.LockOk(ss[i], m);
  }

  lemma ReleaseStep(s: State, m: Id)
    requires InUserMode(s)
    ensures Returns(s, Trap(CRelease(m)), Release(s, m))
    ensures Code(s, Release(s, m)) == if MayRelease(s, m) then SUCCESS else ERROR
  {
  }

  /** A Release returns at once, with SUCCESS exactly if the caller holds the lock. */
  lemma ReleaseAnswers(ss: seq<State>, ls: seq<Label>, i: nat, m: Id)
    requires Run(ss, ls) && Traces(ss, ls, i + 1) && ls[i] == Trap(CRelease(m))
    ensures Returns(ss[i], ls[i], ss[i + 1])
    ensures Code(ss[i], ss[i + 1]) == if Mutex.HolderOf(ss, ls, i, m) == Some(ss[i].cur) then SUCCESS else ERROR
  {
    Holds(ss, ls, i, m);
    ReleaseStep(ss[i], m);
  }

  /** A call on condition variable `v` */
  predicate OnCvarCall(c: Call, v: Id) {
    (c.CSignal? || c.CBroadcast? || c.CCvarWait?) && c.cvar == v
  }

  ghost predicate CvarAnswer(s: State, c: Call, s': State, made: bool) {
    && s.cur in s'.procs && (Returns(s, Trap(c), s') <==> !(c.CCvarWait? && made))
    && (Returns(s, Trap(c), s') ==> Code(s, s') == if made then SUCCESS else ERROR)
  }

  lemma CvarStep(s: State, c: Call, v: Id)
    requires InUserMode(s) && s.cur !in s.blocked && OnCvarCall(c, v)
    ensures CvarAnswer(s, c, DoCall(s, c), v in s.cvars)
  {
  }

  /**
   A call on a condition variable that was never made returns ERROR at once.  On one that was, Signal
   and Broadcast return SUCCESS at once and CvarWait goes to sleep.
   */
  lemma CvarAnswers(ss: seq<State>, ls: seq<Label>, i: nat, v: Id)
    requires Run(ss, ls) && Traces(ss, ls, i + 1) && ls[i].Trap? && OnCvarCall(ls[i].call, v)
    ensures CvarAnswer(ss[i], ls[i].call, ss[i + 1], MakesIt(ls, i, CCvarInit, v))
  {
    Exist(ss, ls, i, 0, v);
    CvarStep(ss[i], ls[i].call, v);
  }

  // ------------------------------------------------------------ Delay, and the init calls

  predicate AtOnce(s: State, l: Label, s': State) {
    Returns(s, l, s') && s'.cur == s.cur && s'.ready == s.ready
  }

  lemma DelayAnswers(ss: seq<State>, ls: seq<Label>, i: nat, ticks: int)
    requires Run(ss, ls) && Traces(ss, ls, i + 1) && ls[i] == Trap(CDelay(ticks))
    ensures Returns(ss[i], ls[i], ss[i + 1]) && Code(ss[i], ss[i + 1]) == if ticks < 0 then ERROR else SUCCESS
    ensures AtOnce(ss[i], ls[i], ss[i + 1]) <==> ticks <= 0
    ensures ss[i].cur in ss[i + 1].sleeping <==> ticks > 0
  {
    RunInv(ss, ls, i);
  }

  lemma InitAnswers(ss: seq<State>, ls: seq<Label>, i: nat)
    requires Run(ss, ls) && Traces(ss, ls, i + 1) && IsInit(ls[i])
    ensures AtOnce(ss[i], ls[i], ss[i + 1]) && Code(ss[i], ss[i + 1]) == SUCCESS
  {
  }

  // ------------------------------------------------------------ terminals

  lemma TtyReadStep(s: State, l: Label, t: nat, len: int)
    requires s.cur in s.procs && t < |s.ttys| && (l.Trap? || l.Resume?)
    ensures var s' := TtyRead(s, t, len);
      && s.cur in s'.procs && (Returns(s, l, s') <==> len <= 0 || s.ttys[t].lineReady)
      && (len <= 0 ==> Code(s, s') == if len < 0 then ERROR else SUCCESS)
  {
    if len > 0 {
      var tty := s.ttys[t];
      if !tty.lineReady {
        assert TtyRead(s, t, len).procs[s.cur].cont == InTtyRead(t, len);
      } else if len < |tty.line| {
        TtyReads.PartEffect(s, t, len);
      }
    }
  }

  /** A TtyRead returns if it asked for nothing or there is a line that has not been read to its end. */
  lemma TtyReadAnswers(ss: seq<State>, ls: seq<Label>, i: nat, t: nat, len: int)
    requires Run(ss, ls) && Traces(ss, ls, i + 1) && (ls[i].Trap? || ls[i].Resume?)
    requires LastCall(ss, ls, i + 1, ss[i].cur) == Some(CTtyRead(t, len))
    ensures ss[i].cur in ss[i + 1].procs
    ensures var line := TtyReads.LineOf(ss, ls, i, t);
      Returns(ss[i], ls[i], ss[i + 1]) <==>
        len <= 0 || (line.Some? && (TtyReads.ReadsDone(ss, ls, i, t) == 0
                                    || TtyReads.BytesRead(ss, ls, i, t) < |line.value|))
    ensures len <= 0 ==> Code(ss[i], ss[i + 1]) == if len < 0 then ERROR else SUCCESS
  {
    RunAsks(ss, ls, i);
    RunInv(ss, ls, i);
    InvFresh(ss[i]);
    TtyReadStep(ss[i], ls[i], t, len);
    TtyReads.RunGood(ss, ls, i);
    TtyReads.RunNoted(ss, ls, i, t);
    assert TtyReads.LineOk(ss[i].ttys[t], ss[i].log, t);
  }

  lemma WriteStep(s: State, t: nat, len: int, buf: Bytes)
    requires InUserMode(s) && t < |s.ttys| && len <= |buf|
    ensures var l := Trap(CTtyWrite(t, len, buf)); var s' := TtyWrite(s, t, len, buf);
      && s.cur in s'.procs && (Returns(s, l, s') <==> len <= 0)
      && (len <= 0 ==> Code(s, s') == if len < 0 then ERROR else SUCCESS)
  {
    if len > 0 {
      TtyWriteParks(s, t, buf[..len], 0);
    }
  }

  lemma BatchStep(s: State, t: nat, buf: Bytes, sent: nat)
    requires s.cur in s.procs && t < |s.ttys| && sent <= |buf| && s.procs[s.cur].cont == InTtyBatch(t, buf, sent)
    ensures var s' := BatchLoop(s, t, buf, sent);
      && s.cur in s'.procs && (Returns(s, Resume, s') <==> sent == |buf|)
      && (sent == |buf| ==> Code(s, s') == |buf|)
  {
    if sent < |buf| {
      SendParks(s, t, buf, sent);
    }
  }

  /** The output ends with these bytes. */
  ghost predicate EndsWith(output: Bytes, bytes: Bytes) {
    |bytes| <= |output| && output[|output| - |bytes|..] == bytes
  }

  lemma TailOf(done: Bytes, bytes: Bytes)
    ensures EndsWith(done + bytes, bytes)
  {
  }

  /** When a TtyWrite returns, it returns its length, and its bytes are the last that the terminal has been given. */
  lemma TtyWriteAnswers(ss: seq<State>, ls: seq<Label>, i: nat, t: nat, len: int, buf: Bytes)
    requires Run(ss, ls) && Traces(ss, ls, i + 1) && Returns(ss[i], ls[i], ss[i + 1])
    requires LastCall(ss, ls, i + 1, ss[i].cur) == Some(CTtyWrite(t, len, buf))
    ensures Code(ss[i], ss[i + 1]) == if len < 0 then ERROR else if len == 0 then SUCCESS else len
    ensures len > 0 ==> len <= |buf| && EndsWith(TtyWrites.Sent(ss[i].log, t), buf[..len])
  {
    var s := ss[i];
    RunAsks(ss, ls, i);
    RunInv(ss, ls, i);
    InvFresh(s);
    if ls[i].Trap? {
      WriteStep(s, t, len, buf);
    } else {
      WriteResumes(ss, ls, i, t, len, buf);
    }
  }

  lemma WriteResumes(ss: seq<State>, ls: seq<Label>, i: nat, t: nat, len: int, buf: Bytes)
    requires Run(ss, ls) && Traces(ss, ls, i + 1) && Returns(ss[i], ls[i], ss[i + 1]) && ls[i] == Resume
    requires LastCall(ss, ls, i + 1, ss[i].cur) == Some(CTtyWrite(t, len, buf))
    ensures len > 0 && len <= |buf| && Code(ss[i], ss[i + 1]) == len
    ensures EndsWith(TtyWrites.Sent(ss[i].log, t), buf[..len])
  {
    var s := ss[i];
    RunAsks(ss, ls, i);
    var c := s.procs[s.cur].cont;
    if c.InTtyWrite? {
      TtyWriteParks(s, t, c.wbuf, 0);
    } else {
      BatchStep(s, t, c.bbuf, c.sent);
      TtyWrites.NeverInterleaved(ss, ls, i, t, s.cur);
      assert c.bbuf[..|c.bbuf|] == c.bbuf;
      TailOf(TtyWrites.WrittenTo(ss, ls, i, t), c.bbuf);
    }
  }

  // ------------------------------------------------------------ Exit

  /** The step halts the machine. */
  predicate Halts(s: State, l: Label) {
    l.Trap? && l.call.CExit? && s.cur == INIT
  }

  lemma ExitRuns(s: State, status: int)
    requires s.mode == Up && s.cur in s.procs && s.cur != INIT
    ensures Exit(s, status).mode != Halted
  {
    assert Bury(ReportExit(s, status)).mode == Up;
  }

  lemma FamilyRuns(s: State, frames: bool, ticks: int)
    requires s.mode == Up && s.cur in s.procs
    ensures Fork(s, frames).mode == Up && Delay(s, ticks).mode != Halted
    ensures Wait(s).mode != Halted && Reap(s).mode == Up
  {
  }

  lemma LockRuns(s: State, m: Id, v: Id)
    requires s.mode == Up && s.cur in s.procs
    ensures Acquire(s, m).mode != Halted && Release(s, m).mode == Up && CvarWait(s, v, m).mode != Halted
  {
  }

  lemma SyncRuns(s: State, c: Call)
    requires s.mode == Up && InUserMode(s) && CallKind(c) in {KLock, KCvar}
    ensures DoCall(s, c).mode != Halted
  {
    if c.CAcquire? || c.CRelease? {
      LockRuns(s, c.lock, 0);
    } else if c.CCvarWait? {
      LockRuns(s, c.lock, c.cvar);
    }
  }

  lemma LoopRuns(s: State, id: Id, len: int)
    requires s.mode == Up && s.cur in s.procs && id in s.pipes && len > 0
    ensures PipeLoop(s, id, len).mode != Halted
  {
  }

  lemma PipeRuns(s: State, id: Id, len: int, buf: Bytes)
    requires s.mode == Up && s.cur in s.procs
    ensures PipeRead(s, id, len).mode != Halted && (len <= |buf| ==> PipeWrite(s, id, len, buf).mode == Up)
  {
    if len > 0 && id in s.pipes {
      var pipe := s.pipes[id];
      LoopRuns(Note(s.(pipes := s.pipes[id := pipe.(waiting := pipe.waiting + [s.cur])]), PipeQueued(s.cur, id)), id,
        len);
    }
  }

  lemma TtyReadRuns(s: State, t: nat, len: int)
    requires s.mode == Up && s.cur in s.procs && t < |s.ttys|
    ensures TtyRead(s, t, len).mode != Halted
  {
    if len > 0 && s.ttys[t].lineReady {
      var tty := s.ttys[t];
      if len < |tty.line| {
        var s1 := Note(SetTty(s, t, tty.(line := tty.line[len..])), TtyTaken(s.cur, t, tty.line[..len]));
        assert UnblockReader(s1, t).mode == Up;
      }
    }
  }

  lemma SendRuns(s: State, t: nat, buf: Bytes, sent: nat)
    requires s.mode == Up && s.cur in s.procs && t < |s.ttys| && sent < |buf|
    ensures SendBatch(s, t, buf, sent).mode != Halted
  {
  }

  lemma TtyWriteRuns(s: State, t: nat, buf: Bytes, sent: nat)
    requires s.mode == Up && s.cur in s.procs && t < |s.ttys| && buf != []
    ensures TtyWriteLoop(s, t, buf).mode != Halted && BatchLoop(s, t, buf, sent).mode != Halted
  {
    SendRuns(s, t, buf, 0);
    if sent < |buf| { SendRuns(s, t, buf, sent); }
  }

  lemma CallRuns(s: State, c: Call)
    requires s.mode == Up && InUserMode(s) && GoodCall(s, c) && !Halts(s, Trap(c))
    ensures DoCall(s, c).mode != Halted
  {
    match c
    case CFork(frames) => FamilyRuns(s, frames, 0);
    case CExit(status) => ExitRuns(s, status);
    case CWait => FamilyRuns(s, false, 0);
    case CDelay(ticks) => FamilyRuns(s, false, ticks);
    case CPipeRead(id, len) => PipeRuns(s, id, len, []);
    case CPipeWrite(id, len, buf) => PipeRuns(s, id, len, buf);
    case CPipeInit =>
    case CTtyWrite(t, len, buf) => if len > 0 { TtyWriteRuns(s, t, buf[..len], 0); }
    case CTtyRead(t, len) => TtyReadRuns(s, t, len);
    case _ => SyncRuns(s, c);
  }

  lemma ResumeRuns(s: State)
    requires Enabled(s, Resume)
    ensures Continue(s).mode != Halted
  {
    match s.procs[s.cur].cont
    case InAcquire(m) =>
    case InCvarWait(_, m) =>
    case InPipeRead(id, len) => LoopRuns(s, id, len);
    case InWait => FamilyRuns(s, false, 0);
    case InTtyRead(t, len) => TtyReadRuns(s, t, len);
    case InTtyWrite(t, buf) => TtyWriteRuns(s, t, buf, 0);
    case InTtyBatch(t, buf, sent) => TtyWriteRuns(s, t, buf, sent);
  }

  lemma ExitStep(s: State, status: int)
    requires s.cur in s.procs && s.cur != INIT
    ensures Exit(s, status).procs.Keys == s.procs.Keys - {s.cur}
  {
    assert ReportExit(s, status).procs.Keys == s.procs.Keys;
  }

  /** The machine halts exactly when init exits; a process ends exactly when it exits. */
  lemma ExitAnswers(ss: seq<State>, ls: seq<Label>, i: nat)
    requires Run(ss, ls) && Traces(ss, ls, i + 1)
    ensures ss[i + 1].mode == Halted <==> Halts(ss[i], ls[i])
    ensures ss[i].procs.Keys - ss[i + 1].procs.Keys == if Kinship.ExitsNow(ss[i], ls[i]) then {ss[i].cur} else {}
  {
    var s, l := ss[i], ls[i];
    if l.Trap? && !Halts(s, l) {
      CallRuns(s, l.call);
    } else if l.Resume? {
      ResumeRuns(s);
    }
    StepEnds(ss, ls, i);
  }

  /** Exit readies the parent if it is blocked, on whatever, and nobody else; the first in line runs. */
  ghost predicate ReadiesParent(s: State, s': State, parent: Option<Pid>) {
    var woken := parent.Some? && parent.value in s.blocked;
    && [s'.cur] + s'.ready == s.ready + (if woken then [parent.value] else [])
    && s'.blocked == s.blocked - (if woken then {parent.value} else {})
  }

  lemma ExitReadies(s: State, status: int)
    requires s.cur in s.procs && s.cur != INIT && s.ready != []
    requires var parent := s.procs[s.cur].parent; parent.Some? ==> parent.value in s.procs
    ensures ReadiesParent(s, Exit(s, status), s.procs[s.cur].parent)
  {
    var s1 := Bury(ReportExit(s, status));
    assert s1.ready == [s1.ready[0]] + s1.ready[1..];
  }

  lemma ExitWakesParent(ss: seq<State>, ls: seq<Label>, i: nat)
    requires Run(ss, ls) && Traces(ss, ls, i + 1) && Kinship.ExitsNow(ss[i], ls[i]) && ss[i].cur in ss[i].procs
    ensures ReadiesParent(ss[i], ss[i + 1], ss[i].procs[ss[i].cur].parent)
  {
    var s := ss[i];
    IdleNeverLeaves(ss, ls, i);
    Families.RunFamilies(ss, ls, i);
    assert Families.Linked(s.procs);
    ExitReadies(s, ls[i].call.status);
  }

  lemma StepEnds(ss: seq<State>, ls: seq<Label>, i: nat)
    requires Run(ss, ls) && Traces(ss, ls, i + 1)
    ensures ss[i].procs.Keys - ss[i + 1].procs.Keys == if Kinship.ExitsNow(ss[i], ls[i]) then {ss[i].cur} else {}
  {
    var s, l := ss[i], ls[i];
    RunInv(ss, ls, i);
    InvFresh(s);
    if Kinship.ExitsNow(s, l) {
      ExitStep(s, l.call.status);
    } else if l.Trap? && l.call.CFork? {
      ForkStep(s, l.call.frames);
    } else if !(l.Trap? && l.call.CExit?) {
      Kinship.SameChildren(s, l, 0);
    }
  }
}
