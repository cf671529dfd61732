/**
 The kernel's steps.  The kernel is never interrupted in kernel mode, so one step is the
 stretch of C code from a trap (or from the return of KernelContextSwitch into a parked
 call) to the next context switch or return to user mode.
 */
module KernelSteps {
  import opened Basics
  import opened KernelState

  // ---------------------------------------------------------------- Scheduler.c

  function Note(s: State, e: Event): State {
    s.(log := Snoc(s.log, e))
  }

  function SetCont(s: State, p: Pid, c: Cont): State
    requires p in s.procs
  {
    s.(procs := s.procs[p := s.procs[p].(cont := c)])
  }

  /** The running process's kernel call returns `v` to user mode. */
  function Return(s: State, v: int): State
    requires s.cur in s.procs
  {
    s.(procs := s.procs[s.cur := s.procs[s.cur].(cont := User, ret := v)])
  }

  /** enq_q(readyQ, p) */
  function MakeReady(s: State, p: Pid): State {
    s.(ready := s.ready + [p])
  }

  /** deq_q(readyQ) followed by switchBetween */
  function Dispatch(s: State): (r: State)
    ensures r == s.(cur := r.cur, ready := r.ready, mode := r.mode)
  {
    if s.ready == [] then s.(mode := Stuck)
    else s.(cur := s.ready[0], ready := s.ready[1..])
  }

  /** blockProcess, its caller to resume at `c` */
  function Block(s: State, c: Cont): (r: State)
    requires s.cur in s.procs
    ensures r == s.(cur := r.cur, ready := r.ready, blocked := r.blocked, mode := r.mode, procs := r.procs)
    ensures r.procs == s.procs || r.procs == s.procs[s.cur := s.procs[s.cur].(cont := c)]
  {
    if s.cur in s.blocked then s.(mode := Stuck)
    else Dispatch(SetCont(s, s.cur, c).(blocked := s.blocked + {s.cur}))
  }

  function Unblock(s: State, p: Pid): (r: State)
    ensures r == s.(ready := r.ready, blocked := r.blocked)
  {
    if p in s.blocked then MakeReady(s.(blocked := s.blocked - {p}), p) else s
  }

  /** sleepProcess for a positive number of ticks */
  function Sleep(s: State, ticks: int): State
    requires s.cur in s.procs
  {
    if s.cur in s.sleeping then s.(mode := Stuck)
    else Dispatch(Return(s, SUCCESS).(sleeping := s.sleeping[s.cur := ticks]))
  }

  /** tickDownSleeper */
  function TickOne(s: State, p: Pid): (r: State)
    ensures r == s.(ready := r.ready, sleeping := r.sleeping)
  {
    if p !in s.sleeping then s
    else if s.sleeping[p] - 1 <= 0 then MakeReady(s.(sleeping := s.sleeping - {p}), p)
    else s.(sleeping := s.sleeping[p := s.sleeping[p] - 1])
  }

  /** tickDownSleepers, `order` being the order in which the hash map is traversed */
  function TickAll(s: State, order: seq<Pid>): (r: State)
    ensures r == s.(ready := r.ready, sleeping := r.sleeping)
    decreases |order|
  {
    if order == [] then s else TickAll(TickOne(s, order[0]), order[1..])
  }

  /** kickProcess */
  function Kick(s: State): (r: State)
    ensures r == s.(cur := r.cur, ready := r.ready, mode := r.mode)
  {
    if s.ready == [] then s else Dispatch(MakeReady(s, s.cur))
  }

  // ------------------------------------------------------ GeneralKernelCalls.c

  /** KernelFork; `frames` tells whether physical memory suffices. */
  function Fork(s: State, frames: bool): State
    requires s.cur in s.procs
  {
    var child := s.nextPid;
    if !frames then Return(s.(nextPid := child + 1), ERROR)
    else
      var me := s.procs[s.cur];
      var parent := me.(ret := child, children := me.children + {child}, numChildren := me.numChildren + 1);
      var s1 := s.(nextPid := child + 1,
                   procs := s.procs[s.cur := parent][child := FRESH_PROC.(parent := Some(s.cur))]);
      MakeReady(s1, s.cur).(cur := child)
  }

  /** exitProcess up to the wake-up of the parent */
  function ReportExit(s: State, status: int): State
    requires s.cur in s.procs
  {
    var parent := s.procs[s.cur].parent;
    if parent.None? || parent.value !in s.procs then s
    else
      var q := parent.value;
      var z := Zombie(s.cur, status);
      var s1 := s.(procs := s.procs[q := s.procs[q].(zombies := s.procs[q].zombies + [z])]);
      Unblock(Note(s1, Exited(q, z)), q)
  }

  /** removeParent on every child, then delete_process */
  function Bury(s: State): State
    requires s.cur in s.procs
  {
    var orphans := s.procs[s.cur].children;
    s.(procs := map p | p in s.procs && p != s.cur ::
         if p in orphans then s.procs[p].(parent := None) else s.procs[p])
  }

  function Exit(s: State, status: int): State
    requires s.cur in s.procs
  {
    if s.cur == INIT then s.(mode := Halted)
    else Dispatch(Bury(ReportExit(s, status)))
  }

  /** KernelWait from the dequeue on */
  function Reap(s: State): State
    requires s.cur in s.procs
  {
    var me := s.procs[s.cur];
    if me.zombies == [] then Return(s, ERROR)
    else
      var s1 := s.(procs := s.procs[s.cur := me.(zombies := me.zombies[1..])]);
      Return(Note(s1, Reaped(s.cur, me.zombies[0])), me.zombies[0].pid)
  }

  function Wait(s: State): State
    requires s.cur in s.procs
  {
    if s.procs[s.cur].numChildren <= 0 then Return(s, ERROR)
    else if s.procs[s.cur].zombies == [] then Block(s, InWait)
    else Reap(s)
  }

  function Delay(s: State, ticks: int): State
    requires s.cur in s.procs
  {
    if ticks < 0 then Return(s, ERROR)
    else if ticks == 0 then Return(s, SUCCESS)
    else Sleep(s, ticks)
  }

  // --------------------------------------------------------- LockKernelCalls.c

  /** The while loop of KernelAcquire, from its test; parks at the same test. */
  function AcquireLoop(s: State, l: Id): State
    requires s.cur in s.procs && l in s.locks
  {
    var lock := s.locks[l];
    if lock.owner == None then
      Return(Note(s.(locks := s.locks[l := lock.(owner := Some(s.cur))]), Acquired(s.cur, l)), SUCCESS)
    else
      Block(s.(locks := s.locks[l := lock.(waiting := lock.waiting + [s.cur])]), InAcquire(l))
  }

  function Acquire(s: State, l: Id): State
    requires s.cur in s.procs
  {
    if l !in s.locks then Return(s, ERROR) else AcquireLoop(s, l)
  }

  predicate MayRelease(s: State, l: Id) {
    l in s.locks && s.locks[l].owner == Some(s.cur)
  }

  /** KernelRelease as it changes the state, whether called by the user or by KernelCvarWait */
  function DoRelease(s: State, l: Id): (r: State)
    ensures r == s.(ready := r.ready, blocked := r.blocked, locks := r.locks, log := r.log)
  {
    if !MayRelease(s, l) then s
    else
      var waiting := s.locks[l].waiting;
      var s1 := Note(s, Released(s.cur, l));
      if waiting == [] then s1.(locks := s.locks[l := Lock(None, [])])
      else Unblock(s1.(locks := s.locks[l := Lock(None, waiting[1..])]), waiting[0])
  }

  function Release(s: State, l: Id): State
    requires s.cur in s.procs
  {
    Return(DoRelease(s, l), if MayRelease(s, l) then SUCCESS else ERROR)
  }

  // --------------------------------------------------------- CVarKernelCalls.c

  function CvarWait(s: State, c: Id, l: Id): State
    requires s.cur in s.procs
  {
    if c !in s.cvars then Return(s, ERROR)
    else Block(DoRelease(s.(cvars := s.cvars[c := s.cvars[c] + [s.cur]]), l), InCvarWait(c, l))
  }

  /** deq_q(cvarQ) and unblockProcess */
  function PopCvar(s: State, c: Id): (r: State)
    requires c in s.cvars && s.cvars[c] != []
    ensures r == s.(ready := r.ready, blocked := r.blocked, cvars := r.cvars)
  {
    Unblock(s.(cvars := s.cvars[c := s.cvars[c][1..]]), s.cvars[c][0])
  }

  function Signal(s: State, c: Id): State
    requires s.cur in s.procs
  {
    if c !in s.cvars then Return(s, ERROR)
    else if s.cvars[c] == [] then Return(s, SUCCESS)
    else Return(PopCvar(s, c), SUCCESS)
  }

  function PopAllCvar(s: State, c: Id): (r: State)
    requires c in s.cvars
    ensures r == s.(ready := r.ready, blocked := r.blocked, cvars := r.cvars) && r.blocked <= s.blocked
    decreases |s.cvars[c]|
  {
    if s.cvars[c] == [] then s else PopAllCvar(PopCvar(s, c), c)
  }

  function Broadcast(s: State, c: Id): State
    requires s.cur in s.procs
  {
    if c !in s.cvars then Return(s, ERROR)
    else Return(PopAllCvar(s, c), SUCCESS)
  }

  // --------------------------------------------------------- PipeKernelCalls.c

  /** KernelPipeRead from the test of its while loop on */
  function PipeLoop(s: State, id: Id, len: int): State
    requires s.cur in s.procs && id in s.pipes && len > 0
  {
    var pipe := s.pipes[id];
    if |pipe.buffer| < len then Block(s, InPipeRead(id, len))
    else if pipe.waiting == [] then Return(s, ERROR)
    else
      var rest := Pipe(pipe.buffer[len..], pipe.waiting[1..]);
      var s1 := Note(s.(pipes := s.pipes[id := rest]), PipeTaken(s.cur, id, len, pipe.buffer[..len]));
      var s2 := if rest.buffer != [] && rest.waiting != [] then Unblock(s1, rest.waiting[0]) else s1;
      Return(s2, len)
  }

  function PipeRead(s: State, id: Id, len: int): State
    requires s.cur in s.procs
  {
    if len < 0 then Return(s, ERROR)
    else if len == 0 then Return(s, SUCCESS)
    else if id !in s.pipes then Return(s, ERROR)
    else
      var pipe := s.pipes[id];
      var s1 := Note(s.(pipes := s.pipes[id := pipe.(waiting := pipe.waiting + [s.cur])]),
                     PipeQueued(s.cur, id));
      if s1.pipes[id].waiting[0] != s.cur then Block(s1, InPipeRead(id, len))
      else PipeLoop(s1, id, len)
  }

  /** PIPE_MAX_BYTES */
  function PipeMax(s: State): nat {
    s.maxLine / 2
  }

  function PipeWrite(s: State, id: Id, len: int, buf: Bytes): State
    requires s.cur in s.procs && len <= |buf|
  {
    if len < 0 then Return(s, ERROR)
    else if len == 0 then Return(s, SUCCESS)
    else if id !in s.pipes then Return(s, ERROR)
    else if |s.pipes[id].buffer| + len > PipeMax(s) then Return(s, ERROR)
    else
      var pipe := s.pipes[id];
      var s1 := Note(s.(pipes := s.pipes[id := pipe.(buffer := pipe.buffer + buf[..len])]),
                     PipeWritten(s.cur, id, buf[..len]));
      Return(if pipe.waiting != [] then Unblock(s1, pipe.waiting[0]) else s1, len)
  }

  // ----------------------------------------------- TtyKernelCalls.c, TtyBuffer.c

  function SetTty(s: State, t: nat, tty: Tty): State
    requires t < |s.ttys|
  {
    s.(ttys := s.ttys[t := tty])
  }

  /** unblockReader */
  function UnblockReader(s: State, t: nat): (r: State)
    requires t < |s.ttys|
    ensures r == s.(ready := r.ready, ttys := r.ttys) && |r.ttys| == |s.ttys|
  {
    var q := s.ttys[t].reading;
    if q == [] then s else MakeReady(SetTty(s, t, s.ttys[t].(reading := q[1..])), q[0])
  }

  /** unblockTransmitter */
  function UnblockTransmitter(s: State, t: nat): (r: State)
    requires t < |s.ttys|
    ensures r == s.(ready := r.ready, ttys := r.ttys) && |r.ttys| == |s.ttys|
  {
    var s1 := SetTty(s, t, s.ttys[t].(transmitter := None));
    var q := s1.ttys[t].transmitting;
    if q == [] then s1 else MakeReady(SetTty(s1, t, s1.ttys[t].(transmitting := q[1..])), q[0])
  }

  /** One round of the batch loop of KernelTtyWrite: TtyTransmit and waitTransmitter */
  function SendBatch(s: State, t: nat, buf: Bytes, sent: nat): State
    requires s.cur in s.procs && t < |s.ttys| && sent < |buf|
  {
    var n := Min(s.maxLine, |buf| - sent);
    var s1 := Note(s, TtySent(s.cur, t, buf[sent..sent + n]));
    var s2 := SetTty(s1, t, s.ttys[t].(transmitter := Some(s.cur), busy := true));
    Dispatch(SetCont(s2, s.cur, InTtyBatch(t, buf, sent + n)))
  }

  /** The loop of KernelTtyWrite that waits for the terminal, from its test */
  function TtyWriteLoop(s: State, t: nat, buf: Bytes): State
    requires s.cur in s.procs && t < |s.ttys| && buf != []
  {
    var tty := s.ttys[t];
    if tty.transmitter != None then
      Dispatch(SetCont(SetTty(s, t, tty.(transmitting := tty.transmitting + [s.cur])), s.cur, InTtyWrite(t, buf)))
    else SendBatch(s, t, buf, 0)
  }

  function TtyWrite(s: State, t: nat, len: int, buf: Bytes): State
    requires s.cur in s.procs && t < |s.ttys| && len <= |buf|
  {
    if len < 0 then Return(s, ERROR)
    else if len == 0 then Return(s, SUCCESS)
    else TtyWriteLoop(s, t, buf[..len])
  }

  /** The batch loop after the hardware has taken `sent` bytes */
  function BatchLoop(s: State, t: nat, buf: Bytes, sent: nat): State
    requires s.cur in s.procs && t < |s.ttys|
  {
    if sent < |buf| then SendBatch(s, t, buf, sent)
    else Return(UnblockTransmitter(Note(s, TtyWritten(s.cur, t, buf)), t), |buf|)
  }

  /** readBuffer from its loop test on */
  function TtyReadLoop(s: State, t: nat, len: int): State
    requires s.cur in s.procs && t < |s.ttys| && len > 0
  {
    var tty := s.ttys[t];
    if !tty.lineReady then
      Dispatch(SetCont(SetTty(s, t, tty.(reading := tty.reading + [s.cur])), s.cur, InTtyRead(t, len)))
    else if len < |tty.line| then
      var s1 := Note(SetTty(s, t, tty.(line := tty.line[len..])), TtyTaken(s.cur, t, tty.line[..len]));
      Return(UnblockReader(s1, t), len)
    else
      Return(Note(SetTty(s, t, tty.(line := [], lineReady := false)), TtyTaken(s.cur, t, tty.line)), |tty.line|)
  }

  function TtyRead(s: State, t: nat, len: int): State
    requires s.cur in s.procs && t < |s.ttys|
  {
    if len < 0 then Return(s, ERROR)
    else if len == 0 then Return(s, SUCCESS)
    else TtyReadLoop(s, t, len)
  }

  /** writeBuffer: the terminal delivers a line (`None`: end of file) */
  function TtyReceive(s: State, t: nat, line: Option<Bytes>): State
    requires t < |s.ttys|
  {
    var tty := s.ttys[t];
    match line
    case None => Note(SetTty(s, t, tty.(line := [], lineReady := false)), TtyReceived(t, line))
    case Some(bytes) =>
      UnblockReader(Note(SetTty(s, t, tty.(line := bytes, lineReady := true)), TtyReceived(t, line)), t)
  }

  /** handleTtyTransmit: signalTransmitter */
  function TtyTransmitted(s: State, t: nat): State
    requires t < |s.ttys|
  {
    var s1 := MakeReady(SetTty(s, t, s.ttys[t].(busy := false)), s.cur);
    match s.ttys[t].transmitter
    case None => s1.(mode := Stuck)
    case Some(p) => s1.(cur := p)
  }

  // ------------------------------------------------------------------ the machine

  datatype Call =
    | CFork(frames: bool)
    | CExit(status: int)
    | CWait
    | CDelay(ticks: int)
    | CAcquire(lock: Id)
    | CRelease(lock: Id)
    | CCvarWait(cvar: Id, lock: Id)
    | CSignal(cvar: Id)
    | CBroadcast(cvar: Id)
    | CPipeRead(pipe: Id, len: int)
    | CPipeWrite(pipe: Id, len: int, buf: Bytes)
    | CTtyWrite(tty: nat, len: int, buf: Bytes)
    | CTtyRead(tty: nat, len: int)
    | CLockInit
    | CCvarInit
    | CPipeInit

  datatype Label =
    | Trap(call: Call)
    | Resume
    | Clock(order: seq<Pid>)
    | Receive(tty: nat, line: Option<Bytes>)
    | Transmitted(tty: nat)

  /** The user buffers and terminal numbers that the calls take for granted. */
  predicate GoodCall(s: State, c: Call) {
    match c
    case CPipeWrite(_, len, buf) => len <= |buf|
    case CTtyWrite(t, len, buf) => t < |s.ttys| && len <= |buf|
    case CTtyRead(t, _) => t < |s.ttys|
    case _ => true
  }

  function DoCall(s: State, c: Call): State
    requires s.cur in s.procs && GoodCall(s, c)
  {
    match c
    case CFork(frames) => Fork(s, frames)
    case CExit(status) => Exit(s, status)
    case CWait => Wait(s)
    case CDelay(ticks) => Delay(s, ticks)
    case CAcquire(l) => Acquire(s, l)
    case CRelease(l) => Release(s, l)
    case CCvarWait(c, l) => CvarWait(s, c, l)
    case CSignal(c) => Signal(s, c)
    case CBroadcast(c) => Broadcast(s, c)
    case CPipeRead(id, len) => PipeRead(s, id, len)
    case CPipeWrite(id, len, buf) => PipeWrite(s, id, len, buf)
    case CTtyWrite(t, len, buf) => TtyWrite(s, t, len, buf)
    case CTtyRead(t, len) => TtyRead(s, t, len)
    case CLockInit => Return(s.(locks := s.locks[s.nextSyncId := Lock(None, [])], nextSyncId := s.nextSyncId + 1),
      SUCCESS)
    case CCvarInit => Return(s.(cvars := s.cvars[s.nextSyncId := []], nextSyncId := s.nextSyncId + 1), SUCCESS)
    case CPipeInit => Return(s.(pipes := s.pipes[s.nextSyncId := Pipe([], [])], nextSyncId := s.nextSyncId + 1),
      SUCCESS)
  }

  /** What a parked call finds when it resumes: the object it names still exists. */
  predicate Finds(c: Cont, locks: set<Id>, cvars: set<Id>, pipes: set<Id>, terminals: nat) {
    match c
    case User => true
    case InAcquire(l) => l in locks
    case InCvarWait(c, _) => c in cvars
    case InPipeRead(id, len) => id in pipes && len > 0
    case InWait => true
    case InTtyRead(t, len) => t < terminals && len > 0
    case InTtyWrite(t, buf) => t < terminals && buf != []
    case InTtyBatch(t, buf, sent) => t < terminals && 0 < sent <= |buf|
  }

  predicate GoodCont(s: State, c: Cont) {
    Finds(c, s.locks.Keys, s.cvars.Keys, s.pipes.Keys, |s.ttys|)
  }

  /** The process that the last context switch chose goes on with its parked call. */
  function Continue(s: State): State
    requires s.cur in s.procs && GoodCont(s, s.procs[s.cur].cont)
  {
    match s.procs[s.cur].cont
    case User => s
    case InAcquire(l) => AcquireLoop(s, l)
    case InCvarWait(_, l) => Acquire(s, l)
    case InPipeRead(id, len) => PipeLoop(s, id, len)
    case InWait => Reap(s)
    case InTtyRead(t, len) => TtyReadLoop(s, t, len)
    case InTtyWrite(t, buf) => TtyWriteLoop(s, t, buf)
    case InTtyBatch(t, buf, sent) => BatchLoop(s, t, buf, sent)
  }

  predicate InUserMode(s: State) {
    s.cur in s.procs && s.procs[s.cur].cont == User
  }

  /** `order` lists every sleeper once, in any order. */
  ghost predicate Lists(order: seq<Pid>, sleeping: map<Pid, int>) {
    NoDup(order) && forall p :: p in order <==> p in sleeping
  }

  /** Interrupts are taken in user mode only; the idle process makes no calls (DoIdle). */
  ghost predicate Enabled(s: State, l: Label) {
    && s.mode == Up
    && match l
       case Trap(c) => InUserMode(s) && s.cur != IDLE && GoodCall(s, c)
       case Resume => s.cur in s.procs && s.procs[s.cur].cont != User && GoodCont(s, s.procs[s.cur].cont)
       case Clock(order) => InUserMode(s) && Lists(order, s.sleeping)
       case Receive(t, _) => InUserMode(s) && t < |s.ttys|
       case Transmitted(t) => InUserMode(s) && t < |s.ttys| && s.ttys[t].busy
  }

  function Step(s: State, l: Label): State
    requires Enabled(s, l)
  {
    match l
    case Trap(c) => DoCall(s, c)
    case Resume => Continue(s)
    case Clock(order) => Kick(TickAll(s, order))
    case Receive(t, line) => TtyReceive(s, t, line)
    case Transmitted(t) => TtyTransmitted(s, t)
  }

  /** A run from boot: `ss[i]` steps to `ss[i + 1]` by `ls[i]`. */
  ghost predicate Run(ss: seq<State>, ls: seq<Label>) {
    && |ss| == |ls| + 1
    && Boot(ss[0])
    && forall i | 0 <= i < |ls| :: Enabled(ss[i], ls[i]) && ss[i + 1] == Step(ss[i], ls[i])
  }

  /** `ss` and `ls` have at least `i` steps. */
  ghost predicate Traces(ss: seq<State>, ls: seq<Label>, i: nat) {
    |ss| == |ls| + 1 && i <= |ls|
  }

  lemma OneStepMore(ss: seq<State>, ls: seq<Label>, l: Label)
    requires Run(ss, ls) && Enabled(ss[|ls|], l)
    ensures Run(ss + [Step(ss[|ls|], l)], ls + [l])
  {
  }
}
