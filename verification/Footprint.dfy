/**
 What a step can touch.  Every step has one kind, and changes the objects and notes the
 events of that kind only; of the other processes' calls it changes none.
 */
module Footprint {
  import opened Basics
  import opened KernelState
  import opened KernelSteps

  datatype Kind = KLock | KCvar | KPipe | KTty | KFamily | KSleep

  function EventKind(e: Event): Kind {
    match e
    case Acquired(_, _) => KLock
    case Released(_, _) => KLock
    case PipeQueued(_, _) => KPipe
    case PipeWritten(_, _, _) => KPipe
    case PipeTaken(_, _, _, _) => KPipe
    case TtySent(_, _, _) => KTty
    case TtyWritten(_, _, _) => KTty
    case TtyReceived(_, _) => KTty
    case TtyTaken(_, _, _) => KTty
    case Exited(_, _) => KFamily
    case Reaped(_, _) => KFamily
  }

  function CallKind(c: Call): Kind {
    match c
    case CFork(_) => KFamily
    case CExit(_) => KFamily
    case CWait => KFamily
    case CDelay(_) => KSleep
    case CAcquire(_) => KLock
    case CRelease(_) => KLock
    case CCvarWait(_, _) => KLock
    case CSignal(_) => KCvar
    case CBroadcast(_) => KCvar
    case CPipeRead(_, _) => KPipe
    case CPipeWrite(_, _, _) => KPipe
    case CTtyWrite(_, _, _) => KTty
    case CTtyRead(_, _) => KTty
    case CLockInit => KLock
    case CCvarInit => KCvar
    case CPipeInit => KPipe
  }

  function ContKind(c: Cont): Kind {
    match c
    case User => KSleep
    case InAcquire(_) => KLock
    case InCvarWait(_, _) => KLock
    case InPipeRead(_, _) => KPipe
    case InWait => KFamily
    case InTtyRead(_, _) => KTty
    case InTtyWrite(_, _) => KTty
    case InTtyBatch(_, _, _) => KTty
  }

  function StepKind(s: State, l: Label): Kind {
    match l
    case Trap(c) => CallKind(c)
    case Resume => if s.cur in s.procs then ContKind(s.procs[s.cur].cont) else KSleep
    case Clock(_) => KSleep
    case Receive(_, _) => KTty
    case Transmitted(_) => KTty
  }

  /** `log'` is `log` and further events of kind `k`. */
  ghost predicate Grows(log: Log, log': Log, k: Kind) {
    log' == log || (log'.Snoc? && EventKind(log'.ev) == k && Grows(log, log'.prev, k))
  }

  /** Only the running process's call and return code differ. */
  ghost predicate Tagged(procs: map<Pid, Proc>, procs': map<Pid, Proc>, cur: Pid) {
    || procs' == procs
    || (cur in procs && cur in procs'
        && procs' == procs[cur := procs[cur].(cont := procs'[cur].cont, ret := procs'[cur].ret)])
  }

  ghost predicate OthersUntouched(s: State, s': State) {
    forall p | p in s.procs && p != s.cur :: p in s'.procs && s'.procs[p].cont == s.procs[p].cont
  }

  /** If the running process's call parks, it parks at a point of kind `k`. */
  ghost predicate ParksAs(s: State, s': State, k: Kind) {
    s.cur in s.procs && s.cur in s'.procs ==>
      var c := s'.procs[s.cur].cont;
      c == s.procs[s.cur].cont || c == User || ContKind(c) == k
  }

  ghost predicate Touches(s: State, s': State, k: Kind) {
    && Grows(s.log, s'.log, k)
    && s.nextSyncId <= s'.nextSyncId && s'.maxLine == s.maxLine && |s'.ttys| == |s.ttys|
    && (k != KLock ==> s'.locks == s.locks)
    && (k != KLock && k != KCvar ==> s'.cvars == s.cvars)
    && (k != KPipe ==> s'.pipes == s.pipes)
    && (k != KTty ==> s'.ttys == s.ttys)
    && (k != KSleep ==> s'.sleeping == s.sleeping)
    && (k != KFamily ==> Tagged(s.procs, s'.procs, s.cur) && s'.nextPid == s.nextPid)
    && (k == KFamily ==> OthersUntouched(s, s'))
    && (k == KTty || k == KSleep ==> s'.blocked == s.blocked)
    && ParksAs(s, s', k)
    && s'.blocked <= s.blocked + {s.cur}
  }

  lemma AcquireTouches(s: State, l: Id)
    requires s.cur in s.procs
    ensures Touches(s, Acquire(s, l), KLock)
  {
  }

  lemma ReleaseTouches(s: State, l: Id)
    requires s.cur in s.procs
    ensures Touches(s, Release(s, l), KLock)
  {
  }

  lemma CvarWaitTouches(s: State, c: Id, l: Id)
    requires s.cur in s.procs
    ensures Touches(s, CvarWait(s, c, l), KLock)
  {
  }

  lemma CvarTouches(s: State, c: Id)
    requires s.cur in s.procs
    ensures Touches(s, Signal(s, c), KCvar) && Touches(s, Broadcast(s, c), KCvar)
  {
  }

  lemma PipeLoopTouches(s: State, id: Id, len: int)
    requires s.cur in s.procs && id in s.pipes && len > 0
    ensures Touches(s, PipeLoop(s, id, len), KPipe)
  {
  }

  lemma PipeReadTouches(s: State, id: Id, len: int)
    requires s.cur in s.procs
    ensures Touches(s, PipeRead(s, id, len), KPipe)
  {
    if len > 0 && id in s.pipes {
      var pipe := s.pipes[id];
      var s1 := Note(s.(pipes := s.pipes[id := pipe.(waiting := pipe.waiting + [s.cur])]), PipeQueued(s.cur, id));
      PipeLoopTouches(s1, id, len);
      Extends(s.log, s1.log, PipeLoop(s1, id, len).log, KPipe);
    }
  }

  lemma {:induction false} Extends(a: Log, b: Log, c: Log, k: Kind)
    requires Grows(a, b, k) && Grows(b, c, k)
    ensures Grows(a, c, k)
  {
    if c != b {
      Extends(a, b, c.prev, k);
    }
  }

  lemma PipeWriteTouches(s: State, id: Id, len: int, buf: Bytes)
    requires s.cur in s.procs && len <= |buf|
    ensures Touches(s, PipeWrite(s, id, len, buf), KPipe)
  {
    if len > 0 && id in s.pipes && |s.pipes[id].buffer| + len <= PipeMax(s) {
      var pipe := s.pipes[id];
      var s1 := Note(s.(pipes := s.pipes[id := pipe.(buffer := pipe.buffer + buf[..len])]),
        PipeWritten(s.cur, id, buf[..len]));
      assert Touches(s, s1, KPipe);
      WakeTouches(s, s1, pipe.waiting, len);
    }
  }

  /** The tail of KernelPipeWrite: it wakes the head of the queue and returns. */
  lemma WakeTouches(s: State, s1: State, waiting: seq<Pid>, len: int)
    requires s.cur in s.procs && Touches(s, s1, KPipe) && s1.procs == s.procs && s1.cur == s.cur
    ensures Touches(s, Return(if waiting != [] then Unblock(s1, waiting[0]) else s1, len), KPipe)
  {
  }

  lemma TtyReadTouches(s: State, t: nat, len: int)
    requires s.cur in s.procs && t < |s.ttys|
    ensures Touches(s, TtyRead(s, t, len), KTty)
  {
    if len > 0 {
      TtyReadLoopTouches(s, t, len);
    }
  }

  lemma TtyReadLoopTouches(s: State, t: nat, len: int)
    requires s.cur in s.procs && t < |s.ttys| && len > 0
    ensures Touches(s, TtyReadLoop(s, t, len), KTty)
  {
    var tty := s.ttys[t];
    if !tty.lineReady {
      TtyReadWaitTouches(s, t, len);
    } else if len < |tty.line| {
      TtyReadPartTouches(s, t, len);
    }
  }

  lemma TtyReadPartTouches(s: State, t: nat, len: int)
    requires s.cur in s.procs && t < |s.ttys| && s.ttys[t].lineReady && 0 < len < |s.ttys[t].line|
    ensures Touches(s, TtyReadLoop(s, t, len), KTty)
  {
  }

  lemma TtyReadWaitTouches(s: State, t: nat, len: int)
    requires s.cur in s.procs && t < |s.ttys| && len > 0 && !s.ttys[t].lineReady
    ensures Touches(s, TtyReadLoop(s, t, len), KTty)
  {
  }

  lemma TtyWriteTouches(s: State, t: nat, buf: Bytes)
    requires s.cur in s.procs && t < |s.ttys| && buf != []
    ensures Touches(s, TtyWriteLoop(s, t, buf), KTty)
  {
    if s.ttys[t].transmitter == None {
      SendTouches(s, t, buf, 0);
    }
  }

  lemma SendTouches(s: State, t: nat, buf: Bytes, sent: nat)
    requires s.cur in s.procs && t < |s.ttys| && sent < |buf|
    ensures Touches(s, SendBatch(s, t, buf, sent), KTty)
  {
  }

  lemma BatchLoopTouches(s: State, t: nat, buf: Bytes, sent: nat)
    requires s.cur in s.procs && t < |s.ttys|
    ensures Touches(s, BatchLoop(s, t, buf, sent), KTty)
  {
    if sent < |buf| {
      SendTouches(s, t, buf, sent);
    }
  }

  lemma ReceiveTouches(s: State, t: nat, line: Option<Bytes>)
    requires t < |s.ttys|
    ensures Touches(s, TtyReceive(s, t, line), KTty)
  {
  }

  lemma ForkTouches(s: State, frames: bool)
    requires s.cur in s.procs && s.nextPid !in s.procs
    ensures Touches(s, Fork(s, frames), KFamily)
  {
  }

  lemma ExitTouches(s: State, status: int)
    requires s.cur in s.procs
    ensures Touches(s, Exit(s, status), KFamily)
  {
    var s1 := ReportExit(s, status);
    ReportTouches(s, status);
    BuryTouches(s1);
    assert Touches(s, Bury(s1), KFamily);
  }

  lemma ReportTouches(s: State, status: int)
    requires s.cur in s.procs
    ensures Touches(s, ReportExit(s, status), KFamily) && ReportExit(s, status).cur == s.cur
  {
  }

  lemma BuryTouches(s: State)
    requires s.cur in s.procs
    ensures Bury(s) == s.(procs := Bury(s).procs) && OthersUntouched(s, Bury(s))
  {
  }

  lemma ReapTouches(s: State)
    requires s.cur in s.procs
    ensures Touches(s, Reap(s), KFamily)
  {
  }

  lemma WaitTouches(s: State)
    requires s.cur in s.procs
    ensures Touches(s, Wait(s), KFamily)
  {
    ReapTouches(s);
  }

  lemma DelayTouches(s: State, ticks: int)
    requires s.cur in s.procs
    ensures Touches(s, Delay(s, ticks), KSleep)
  {
  }

  lemma TtyCallTouches(s: State, t: nat, len: int, buf: Bytes)
    requires s.cur in s.procs && t < |s.ttys| && len <= |buf|
    ensures Touches(s, TtyWrite(s, t, len, buf), KTty)
  {
    if len > 0 {
      TtyWriteTouches(s, t, buf[..len]);
    }
  }

  lemma SyncTouches(s: State, c: Call)
    requires s.cur in s.procs && GoodCall(s, c) && CallKind(c) in {KLock, KCvar, KPipe}
    ensures Touches(s, DoCall(s, c), CallKind(c))
  {
    match c
    case CAcquire(l) => AcquireTouches(s, l);
    case CRelease(l) => ReleaseTouches(s, l);
    case CCvarWait(c, l) => CvarWaitTouches(s, c, l);
    case CSignal(c) => CvarTouches(s, c);
    case CBroadcast(c) => CvarTouches(s, c);
    case CPipeRead(id, len) => PipeReadTouches(s, id, len);
    case CPipeWrite(id, len, buf) => PipeWriteTouches(s, id, len, buf);
    case CLockInit =>
    case CCvarInit =>
    case CPipeInit =>
  }

  lemma CallTouches(s: State, c: Call)
    requires s.cur in s.procs && s.nextPid !in s.procs && GoodCall(s, c)
    ensures Touches(s, DoCall(s, c), CallKind(c))
  {
    match c
    case CFork(frames) => ForkTouches(s, frames);
    case CExit(status) => ExitTouches(s, status);
    case CWait => WaitTouches(s);
    case CDelay(ticks) => DelayTouches(s, ticks);
    case CTtyWrite(t, len, buf) => TtyCallTouches(s, t, len, buf);
    case CTtyRead(t, len) => TtyReadTouches(s, t, len);
    case _ => SyncTouches(s, c);
  }

  lemma ContinueTouches(s: State)
    requires s.cur in s.procs && s.procs[s.cur].cont != User && s.nextPid !in s.procs
    requires GoodCont(s, s.procs[s.cur].cont)
    ensures Touches(s, Continue(s), ContKind(s.procs[s.cur].cont))
  {
    match s.procs[s.cur].cont
    case InAcquire(l) => AcquireTouches(s, l);
    case InCvarWait(_, l) => AcquireTouches(s, l);
    case InPipeRead(id, len) => PipeLoopTouches(s, id, len);
    case InWait => ReapTouches(s);
    case InTtyRead(t, len) => TtyReadTouches(s, t, len);
    case InTtyWrite(t, buf) => TtyWriteTouches(s, t, buf);
    case InTtyBatch(t, buf, sent) => BatchLoopTouches(s, t, buf, sent);
  }

  /** Every step changes objects, and notes events, of its own kind only. */
  lemma StepTouches(s: State, l: Label)
    requires Enabled(s, l) && s.nextPid !in s.procs
    ensures Touches(s, Step(s, l), StepKind(s, l))
  {
    match l
    case Trap(c) => CallTouches(s, c);
    case Resume => ContinueTouches(s);
    case Clock(order) =>
    case Receive(t, line) => ReceiveTouches(s, t, line);
    case Transmitted(t) =>
  }
}
