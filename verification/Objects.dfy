/**
 Locks, condition variables and pipes over runs: which ids name one is told by the init calls
 alone.  One counter serves all three, so no id names two objects, and none is ever reused.
 */
module Objects {
  import opened Basics
  import opened KernelState
  import opened KernelSteps
  import opened Location

  predicate IsInit(l: Label) {
    l == Trap(CLockInit) || l == Trap(CCvarInit) || l == Trap(CPipeInit)
  }

  /** How many objects the first `i` labels make */
  function Made(ls: seq<Label>, i: nat): nat
    requires i <= |ls|
  {
    if i == 0 then 0 else Made(ls, i - 1) + if IsInit(ls[i - 1]) then 1 else 0
  }

  /** Among the first `i` labels, that of the object with number `id`, counted from 0, is this init call. */
  predicate MakesIt(ls: seq<Label>, i: nat, init: Call, id: Id)
    requires i <= |ls|
  {
    i > 0 && ((ls[i - 1] == Trap(init) && id == Made(ls, i - 1)) || MakesIt(ls, i - 1, init, id))
  }

  lemma {:induction false} MadeBefore(ls: seq<Label>, i: nat, init: Call, id: Id)
    requires i <= |ls| && MakesIt(ls, i, init, id) && IsInit(Trap(init))
    ensures 0 <= id < Made(ls, i)
  {
    if !(ls[i - 1] == Trap(init) && id == Made(ls, i - 1)) {
      MadeBefore(ls, i - 1, init, id);
    }
  }

  /** The ids in use, and the next one */
  ghost predicate Names(s: State, locks: set<Id>, cvars: set<Id>, pipes: set<Id>, next: nat) {
    s.locks.Keys == locks && s.cvars.Keys == cvars && s.pipes.Keys == pipes && s.nextSyncId == next
  }

  ghost predicate SameNames(s: State, s': State) {
    Names(s', s.locks.Keys, s.cvars.Keys, s.pipes.Keys, s.nextSyncId)
  }

  lemma LockNames(s: State, m: Id, v: Id)
    requires s.cur in s.procs
    ensures SameNames(s, Acquire(s, m)) && SameNames(s, Release(s, m)) && SameNames(s, CvarWait(s, v, m))
  {
  }

  lemma CvarNames(s: State, v: Id)
    requires s.cur in s.procs
    ensures SameNames(s, Signal(s, v)) && SameNames(s, Broadcast(s, v))
  {
    if v in s.cvars {
      BroadcastNames(s, v);
    }
  }

  lemma {:induction false} BroadcastNames(s: State, v: Id)
    requires v in s.cvars
    ensures PopAllCvar(s, v).cvars.Keys == s.cvars.Keys
    decreases |s.cvars[v]|
  {
    if s.cvars[v] != [] {
      BroadcastNames(PopCvar(s, v), v);
    }
  }

  lemma LoopNames(s: State, id: Id, len: int)
    requires s.cur in s.procs && id in s.pipes && len > 0
    ensures SameNames(s, PipeLoop(s, id, len))
  {
  }

  lemma ReadNames(s: State, id: Id, len: int)
    requires s.cur in s.procs
    ensures SameNames(s, PipeRead(s, id, len))
  {
    if len > 0 && id in s.pipes {
      var pipe := s.pipes[id];
      LoopNames(Note(s.(pipes := s.pipes[id := pipe.(waiting := pipe.waiting + [s.cur])]), PipeQueued(s.cur, id)), id,
        len);
    }
  }

  lemma WriteNames(s: State, id: Id, len: int, buf: Bytes)
    requires s.cur in s.procs && len <= |buf|
    ensures SameNames(s, PipeWrite(s, id, len, buf))
  {
  }

  lemma TtyReadNames(s: State, t: nat, len: int)
    requires s.cur in s.procs && t < |s.ttys|
    ensures SameNames(s, TtyRead(s, t, len))
  {
  }

  lemma SendNames(s: State, t: nat, buf: Bytes, sent: nat)
    requires s.cur in s.procs && t < |s.ttys| && sent < |buf|
    ensures SameNames(s, SendBatch(s, t, buf, sent))
  {
  }

  lemma TtyWriteNames(s: State, t: nat, buf: Bytes, sent: nat)
    requires s.cur in s.procs && t < |s.ttys| && buf != []
    ensures SameNames(s, TtyWriteLoop(s, t, buf)) && SameNames(s, BatchLoop(s, t, buf, sent))
  {
    SendNames(s, t, buf, 0);
    if sent < |buf| { SendNames(s, t, buf, sent); }
  }

  lemma ForkNames(s: State, frames: bool)
    requires s.cur in s.procs
    ensures SameNames(s, Fork(s, frames))
  {
  }

  lemma ExitNames(s: State, status: int)
    requires s.cur in s.procs
    ensures SameNames(s, Exit(s, status))
  {
    var s1 := ReportExit(s, status);
    assert SameNames(s, s1);
    assert SameNames(s1, Bury(s1));
  }

  lemma ReapNames(s: State)
    requires s.cur in s.procs
    ensures SameNames(s, Reap(s))
  {
  }

  lemma WaitNames(s: State)
    requires s.cur in s.procs
    ensures SameNames(s, Wait(s))
  {
    ReapNames(s);
  }

  lemma InitNames(s: State, c: Call)
    requires s.cur in s.procs && IsInit(Trap(c))
    ensures var id := s.nextSyncId;
      Names(DoCall(s, c),
            s.locks.Keys + (if c == CLockInit then {id} else {}),
            s.cvars.Keys + (if c == CCvarInit then {id} else {}),
            s.pipes.Keys + (if c == CPipeInit then {id} else {}),
            id + 1)
  {
  }

  lemma CallNames(s: State, c: Call)
    requires s.cur in s.procs && GoodCall(s, c) && !IsInit(Trap(c))
    ensures SameNames(s, DoCall(s, c))
  {
    match c
    case CFork(frames) => ForkNames(s, frames);
    case CExit(status) => ExitNames(s, status);
    case CWait => WaitNames(s);
    case CDelay(_) =>
    case CAcquire(m) => LockNames(s, m, 0);
    case CRelease(m) => LockNames(s, m, 0);
    case CCvarWait(v, m) => LockNames(s, m, v);
    case CSignal(v) => CvarNames(s, v);
    case CBroadcast(v) => CvarNames(s, v);
    case CPipeRead(id, len) => ReadNames(s, id, len);
    case CPipeWrite(id, len, buf) => WriteNames(s, id, len, buf);
    case CTtyWrite(t, len, buf) => if len > 0 { TtyWriteNames(s, t, buf[..len], 0); }
    case CTtyRead(t, len) => TtyReadNames(s, t, len);
  }

  lemma ContinueNames(s: State)
    requires s.cur in s.procs && s.procs[s.cur].cont != User && GoodCont(s, s.procs[s.cur].cont)
    ensures SameNames(s, Continue(s))
  {
    match s.procs[s.cur].cont
    case InAcquire(m) => LockNames(s, m, 0);
    case InCvarWait(v, m) => LockNames(s, m, v);
    case InPipeRead(id, len) => LoopNames(s, id, len);
    case InWait => ReapNames(s);
    case InTtyRead(t, len) => TtyReadNames(s, t, len);
    case InTtyWrite(t, buf) => TtyWriteNames(s, t, buf, 0);
    case InTtyBatch(t, buf, sent) => TtyWriteNames(s, t, buf, sent);
  }

  lemma OtherNames(s: State, l: Label)
    requires Enabled(s, l) && !IsInit(l) && s.cur in s.procs
    ensures SameNames(s, Step(s, l))
  {
    match l
    case Trap(c) => CallNames(s, c);
    case Resume => ContinueNames(s);
    case Clock(order) =>
    case Receive(t, line) =>
    case Transmitted(t) =>
  }

  /** An init call makes one new object of its kind; no other step changes what the ids name. */
  lemma StepNames(s: State, l: Label)
    requires Inv(s) && Enabled(s, l)
    ensures var id := s.nextSyncId;
      Names(Step(s, l),
            s.locks.Keys + (if l == Trap(CLockInit) then {id} else {}),
            s.cvars.Keys + (if l == Trap(CCvarInit) then {id} else {}),
            s.pipes.Keys + (if l == Trap(CPipeInit) then {id} else {}),
            id + if IsInit(l) then 1 else 0)
  {
    InvFresh(s);
    if IsInit(l) {
      InitNames(s, l.call);
    } else {
      OtherNames(s, l);
    }
  }

  ghost predicate Told(s: State, ls: seq<Label>, i: nat)
    requires i <= |ls|
  {
    && s.nextSyncId == Made(ls, i)
    && (forall id :: id in s.locks <==> MakesIt(ls, i, CLockInit, id))
    && (forall id :: id in s.cvars <==> MakesIt(ls, i, CCvarInit, id))
    && (forall id :: id in s.pipes <==> MakesIt(ls, i, CPipeInit, id))
  }

  /** In every state of every run an id names a lock exactly if a LockInit has made it, and so for the others. */
  lemma {:induction false} NamesAreMade(ss: seq<State>, ls: seq<Label>, i: nat)
    requires Run(ss, ls) && Traces(ss, ls, i)
    ensures Told(ss[i], ls, i)
  {
    if i > 0 {
      NamesAreMade(ss, ls, i - 1);
      RunInv(ss, ls, i - 1);
      StepNames(ss[i - 1], ls[i - 1]);
    }
  }

  /** The number of the next object names none yet. */
  lemma NextIsFree(ss: seq<State>, ls: seq<Label>, i: nat)
    requires Run(ss, ls) && Traces(ss, ls, i)
    ensures ss[i].nextSyncId !in ss[i].locks && ss[i].nextSyncId !in ss[i].cvars && ss[i].nextSyncId !in ss[i].pipes
  {
    NamesAreMade(ss, ls, i);
    var next := ss[i].nextSyncId;
    if next in ss[i].locks {
      MadeBefore(ls, i, CLockInit, next);
    } else if next in ss[i].cvars {
      MadeBefore(ls, i, CCvarInit, next);
    } else if next in ss[i].pipes {
      MadeBefore(ls, i, CPipeInit, next);
    }
  }
}
