/**
 The kernel as the C code has it: global queues, maps and process control blocks updated
 in place.  Every method is proved against the step function that specifies it.

 A method that stands for a kernel call returns the call's return code, or `None` when the
 stretch ends in a context switch; the trap handler puts the code where the user finds it.
 */
module KernelCode {
  import opened Basics
  import opened KernelState
  import opened KernelSteps
  import opened Location

  /** What handleTrapKernel does with a return code */
  ghost function Returned(s: State, rc: Option<int>): State {
    if rc.Some? && s.cur in s.procs then Return(s, rc.value) else s
  }

  class Kernel {
    const maxLine: nat
    var cur: Pid
    var readyQ: seq<Pid>
    var blockedMap: set<Pid>
    var sleepingMap: map<Pid, int>
    var procs: map<Pid, Proc>
    var locks: map<Id, Lock>
    var cvars: map<Id, seq<Pid>>
    var pipes: map<Id, Pipe>
    var ttys: seq<Tty>
    var nextPid: Pid
    var nextSyncId: nat
    var mode: Mode
    ghost var log: Log

    ghost function View(): State
      reads this
    {
      State(cur, readyQ, blockedMap, sleepingMap, procs, locks, cvars, pipes, ttys, nextPid, nextSyncId, mode, log,
        maxLine)
    }

    // ---------------------------------------------------------------- Scheduler.c

    /** deq_q(readyQ) and KernelContextSwitch(switchBetween, ...) */
    method SwitchToReady()
      modifies this`cur, this`readyQ, this`mode
      ensures View() == Dispatch(old(View()))
    {
      if readyQ == [] {
        mode := Stuck;
      } else {
        cur, readyQ := readyQ[0], readyQ[1..];
      }
    }

    method Park(c: Cont)
      requires cur in procs
      modifies this`procs
      ensures View() == SetCont(old(View()), cur, c)
    {
      procs := procs[cur := procs[cur].(cont := c)];
    }

    method BlockProcess(c: Cont)
      requires cur in procs
      modifies this`cur, this`readyQ, this`mode, this`blockedMap, this`procs
      ensures View() == Block(old(View()), c)
    {
      if cur in blockedMap {
        mode := Stuck;
        return;
      }
      Park(c);
      blockedMap := blockedMap + {cur};
      SwitchToReady();
    }

    method UnblockProcess(p: Pid)
      modifies this`readyQ, this`blockedMap
      ensures View() == Unblock(old(View()), p)
    {
      if p in blockedMap {
        blockedMap := blockedMap - {p};
        readyQ := readyQ + [p];
      }
    }

    /** The caller goes to sleep; when it runs again, its call returns SUCCESS. */
    method SleepProcess(ticks: int)
      requires cur in procs
      modifies this`cur, this`readyQ, this`mode, this`sleepingMap, this`procs
      ensures View() == Sleep(old(View()), ticks)
    {
      if cur in sleepingMap {
        mode := Stuck;
        return;
      }
      sleepingMap := sleepingMap[cur := ticks];
      procs := procs[cur := procs[cur].(cont := User, ret := SUCCESS)];
      SwitchToReady();
    }

    method TickDownSleeper(p: Pid)
      modifies this`readyQ, this`sleepingMap
      ensures View() == TickOne(old(View()), p)
    {
      if p in sleepingMap {
        var ticks := sleepingMap[p] - 1;
        if ticks <= 0 {
          sleepingMap := sleepingMap - {p};
          readyQ := readyQ + [p];
        } else {
          sleepingMap := sleepingMap[p := ticks];
        }
      }
    }

    /** `order` is the order in which HashMap_iterate meets the sleepers. */
    method TickDownSleepers(order: seq<Pid>)
      modifies this`readyQ, this`sleepingMap
      ensures View() == TickAll(old(View()), order)
    {
      var i := 0;
      while i < |order|
        invariant 0 <= i <= |order| && TickAll(View(), order[i..]) == TickAll(old(View()), order)
      {
        assert order[i..][1..] == order[i + 1..];
        TickDownSleeper(order[i]);
        i := i + 1;
      }
    }

    method KickProcess()
      modifies this`cur, this`readyQ, this`mode
      ensures View() == Kick(old(View()))
    {
      if readyQ != [] {
        readyQ := readyQ + [cur];
        SwitchToReady();
      }
    }

    method RemoveParent(order: seq<Pid>)
      modifies this`procs
      ensures procs == map p | p in old(procs) ::
        if p in order then old(procs)[p].(parent := None) else old(procs)[p]
    {
      var i := 0;
      while i < |order|
        invariant 0 <= i <= |order|
        invariant procs == map p | p in old(procs) ::
          if p in order[..i] then old(procs)[p].(parent := None) else old(procs)[p]
      {
        if order[i] in procs {
          procs := procs[order[i] := procs[order[i]].(parent := None)];
        }
        i := i + 1;
      }
      assert order[..i] == order;
    }

    /** exitProcess; `order` is the order in which HashMap_iterate meets the children. */
    method ExitProcess(status: int, order: seq<Pid>)
      requires cur in procs && forall c :: c in order <==> c in procs[cur].children
      modifies this`cur, this`readyQ, this`mode, this`blockedMap, this`procs, this`log
      ensures View() == Dispatch(Bury(ReportExit(old(View()), status)))
    {
      var parent := procs[cur].parent;
      if parent.Some? && parent.value in procs {
        var q := parent.value;
        procs := procs[q := procs[q].(zombies := procs[q].zombies + [Zombie(cur, status)])];
        log := Snoc(log, Exited(q, Zombie(cur, status)));
        UnblockProcess(q);
      }
      ghost var s := View();
      RemoveParent(order);
      procs := map p | p in procs && p != cur :: procs[p];
      assert View() == Bury(s);
      SwitchToReady();
    }

    // ------------------------------------------------------ GeneralKernelCalls.c

    /** `frames` tells whether initPCB and the copying of region 1 find enough memory. */
    method KernelFork(frames: bool) returns (rc: Option<int>)
      requires cur in procs
      modifies this`cur, this`readyQ, this`procs, this`nextPid
      ensures Returned(View(), rc) == Fork(old(View()), frames)
    {
      var child := nextPid;
      nextPid := nextPid + 1;
      if !frames { return Some(ERROR); }
      var me := procs[cur];
      procs := procs[cur := me.(ret := child, children := me.children + {child}, numChildren := me.numChildren + 1)];
      procs := procs[child := FRESH_PROC.(parent := Some(cur))];
      ForkProcess(child);
      return None;
    }

    /** forkProcess and forkTo: the child runs at once. */
    method ForkProcess(child: Pid)
      modifies this`cur, this`readyQ
      ensures View() == MakeReady(old(View()), old(cur)).(cur := child)
    {
      readyQ := readyQ + [cur];
      cur := child;
    }

    method KernelExit(status: int, order: seq<Pid>) returns (rc: Option<int>)
      requires cur in procs && forall c :: c in order <==> c in procs[cur].children
      modifies this`cur, this`readyQ, this`mode, this`blockedMap, this`procs, this`log
      ensures rc == None && View() == Exit(old(View()), status)
    {
      if cur == INIT {
        mode := Halted;
      } else {
        ExitProcess(status, order);
      }
      return None;
    }

    method KernelWait() returns (rc: Option<int>)
      requires cur in procs
      modifies this`cur, this`readyQ, this`mode, this`blockedMap, this`procs, this`log
      ensures Returned(View(), rc) == Wait(old(View()))
    {
      if procs[cur].numChildren <= 0 { return Some(ERROR); }
      if procs[cur].zombies == [] {
        BlockProcess(InWait);
        return None;
      }
      rc := FinishWait();
    }

    /** KernelWait from where it dequeues a zombie */
    method FinishWait() returns (rc: Option<int>)
      requires cur in procs
      modifies this`procs, this`log
      ensures Returned(View(), rc) == Reap(old(View()))
    {
      var me := procs[cur];
      if me.zombies == [] { return Some(ERROR); }
      procs := procs[cur := me.(zombies := me.zombies[1..])];
      log := Snoc(log, Reaped(cur, me.zombies[0]));
      return Some(me.zombies[0].pid);
    }

    method KernelDelay(ticks: int) returns (rc: Option<int>)
      requires cur in procs
      modifies this`cur, this`readyQ, this`mode, this`sleepingMap, this`procs
      ensures Returned(View(), rc) == Delay(old(View()), ticks)
    {
      if ticks != 0 {
        if ticks < 0 { return Some(ERROR); }
        SleepProcess(ticks);
        return None;
      }
      return Some(SUCCESS);
    }

    // --------------------------------------------------------- LockKernelCalls.c

    method KernelAcquire(l: Id) returns (rc: Option<int>)
      requires cur in procs
      modifies this`cur, this`readyQ, this`mode, this`blockedMap, this`procs, this`locks, this`log
      ensures Returned(View(), rc) == Acquire(old(View()), l)
    {
      if l !in locks { return Some(ERROR); }
      rc := RetryAcquire(l);
    }

    /** KernelAcquire from the test of its loop */
    method RetryAcquire(l: Id) returns (rc: Option<int>)
      requires cur in procs && l in locks
      modifies this`cur, this`readyQ, this`mode, this`blockedMap, this`procs, this`locks, this`log
      ensures Returned(View(), rc) == AcquireLoop(old(View()), l)
    {
      var lock := locks[l];
      if lock.owner != None {
        locks := locks[l := lock.(waiting := lock.waiting + [cur])];
        BlockProcess(InAcquire(l));
        return None;
      }
      locks := locks[l := lock.(owner := Some(cur))];
      log := Snoc(log, Acquired(cur, l));
      return Some(SUCCESS);
    }

    method KernelRelease(l: Id) returns (rc: Option<int>)
      requires cur in procs
      modifies this`readyQ, this`blockedMap, this`locks, this`log
      ensures View() == DoRelease(old(View()), l) && Returned(View(), rc) == Release(old(View()), l)
    {
      if l !in locks || locks[l].owner != Some(cur) { return Some(ERROR); }
      locks := locks[l := locks[l].(owner := None)];
      log := Snoc(log, Released(cur, l));
      var q := locks[l].waiting;
      if q != [] {
        locks := locks[l := locks[l].(waiting := q[1..])];
        UnblockProcess(q[0]);
      }
      return Some(SUCCESS);
    }

    // --------------------------------------------------------- CVarKernelCalls.c

    method KernelCvarWait(c: Id, l: Id) returns (rc: Option<int>)
      requires cur in procs
      modifies this`cur, this`readyQ, this`mode, this`blockedMap, this`procs, this`locks, this`cvars, this`log
      ensures Returned(View(), rc) == CvarWait(old(View()), c, l)
    {
      if c !in cvars { return Some(ERROR); }
      cvars := cvars[c := cvars[c] + [cur]];
      var ignored := KernelRelease(l);
      BlockProcess(InCvarWait(c, l));
      return None;
    }

    method KernelCvarSignal(c: Id) returns (rc: Option<int>)
      requires cur in procs
      modifies this`readyQ, this`blockedMap, this`cvars
      ensures Returned(View(), rc) == Signal(old(View()), c)
    {
      if c !in cvars { return Some(ERROR); }
      var q := cvars[c];
      if q != [] {
        cvars := cvars[c := q[1..]];
        UnblockProcess(q[0]);
      }
      return Some(SUCCESS);
    }

    method KernelCvarBroadcast(c: Id) returns (rc: Option<int>)
      requires cur in procs
      modifies this`readyQ, this`blockedMap, this`cvars
      ensures Returned(View(), rc) == Broadcast(old(View()), c)
    {
      if c !in cvars { return Some(ERROR); }
      while cvars[c] != []
        invariant c in cvars && PopAllCvar(View(), c) == PopAllCvar(old(View()), c)
        decreases if c in cvars then |cvars[c]| else 0
      {
        var q := cvars[c];
        cvars := cvars[c := q[1..]];
        UnblockProcess(q[0]);
      }
      return Some(SUCCESS);
    }

    // --------------------------------------------------------- PipeKernelCalls.c

    method KernelPipeRead(id: Id, len: int) returns (rc: Option<int>)
      requires cur in procs
      modifies this`cur, this`readyQ, this`mode, this`blockedMap, this`procs, this`pipes, this`log
      ensures Returned(View(), rc) == PipeRead(old(View()), id, len)
    {
      if len < 0 { return Some(ERROR); }
      if len == 0 { return Some(SUCCESS); }
      if id !in pipes { return Some(ERROR); }
      pipes := pipes[id := pipes[id].(waiting := pipes[id].waiting + [cur])];
      log := Snoc(log, PipeQueued(cur, id));
      if pipes[id].waiting[0] != cur {
        BlockProcess(InPipeRead(id, len));
        return None;
      }
      rc := RetryPipeRead(id, len);
    }

    /** KernelPipeRead from the test of its loop */
    method RetryPipeRead(id: Id, len: int) returns (rc: Option<int>)
      requires cur in procs && id in pipes && len > 0
      modifies this`cur, this`readyQ, this`mode, this`blockedMap, this`procs, this`pipes, this`log
      ensures Returned(View(), rc) == PipeLoop(old(View()), id, len)
    {
      var pipe := pipes[id];
      if |pipe.buffer| < len {
        BlockProcess(InPipeRead(id, len));
        return None;
      }
      if pipe.waiting == [] { return Some(ERROR); }
      var rest := Pipe(pipe.buffer[len..], pipe.waiting[1..]);
      pipes := pipes[id := rest];
      log := Snoc(log, PipeTaken(cur, id, len, pipe.buffer[..len]));
      if rest.buffer != [] && rest.waiting != [] { UnblockProcess(rest.waiting[0]); }
      return Some(len);
    }

    method KernelPipeWrite(id: Id, len: int, buf: Bytes) returns (rc: Option<int>)
      requires cur in procs && len <= |buf|
      modifies this`readyQ, this`blockedMap, this`pipes, this`log
      ensures Returned(View(), rc) == PipeWrite(old(View()), id, len, buf)
    {
      if len < 0 { return Some(ERROR); }
      if len == 0 { return Some(SUCCESS); }
      if id !in pipes { return Some(ERROR); }
      var pipe := pipes[id];
      if |pipe.buffer| + len > maxLine / 2 { return Some(ERROR); }
      pipes := pipes[id := pipe.(buffer := pipe.buffer + buf[..len])];
      log := Snoc(log, PipeWritten(cur, id, buf[..len]));
      if pipe.waiting != [] { UnblockProcess(pipe.waiting[0]); }
      return Some(len);
    }

    // ------------------------------------- Scheduler.c, TtyKernelCalls.c, TtyBuffer.c

    method BlockTransmitter(t: nat, c: Cont)
      requires cur in procs && t < |ttys|
      modifies this`cur, this`readyQ, this`mode, this`procs, this`ttys
      ensures View() == Dispatch(SetCont(SetTty(old(View()), t,
        old(ttys)[t].(transmitting := old(ttys)[t].transmitting + [old(cur)])), old(cur), c))
    {
      ttys := ttys[t := ttys[t].(transmitting := ttys[t].transmitting + [cur])];
      Park(c);
      SwitchToReady();
    }

    method UnblockTransmitterOf(t: nat)
      requires t < |ttys|
      modifies this`readyQ, this`ttys
      ensures View() == UnblockTransmitter(old(View()), t)
    {
      ttys := ttys[t := ttys[t].(transmitter := None)];
      var q := ttys[t].transmitting;
      if q != [] {
        ttys := ttys[t := ttys[t].(transmitting := q[1..])];
        readyQ := readyQ + [q[0]];
      }
    }

    method BlockReader(t: nat, c: Cont)
      requires cur in procs && t < |ttys|
      modifies this`cur, this`readyQ, this`mode, this`procs, this`ttys
      ensures View() == Dispatch(SetCont(SetTty(old(View()), t,
        old(ttys)[t].(reading := old(ttys)[t].reading + [old(cur)])), old(cur), c))
    {
      ttys := ttys[t := ttys[t].(reading := ttys[t].reading + [cur])];
      Park(c);
      SwitchToReady();
    }

    method UnblockReaderOf(t: nat)
      requires t < |ttys|
      modifies this`readyQ, this`ttys
      ensures View() == UnblockReader(old(View()), t)
    {
      var q := ttys[t].reading;
      if q != [] {
        ttys := ttys[t := ttys[t].(reading := q[1..])];
        readyQ := readyQ + [q[0]];
      }
    }

    method KernelTtyWrite(t: nat, len: int, buf: Bytes) returns (rc: Option<int>)
      requires cur in procs && t < |ttys| && len <= |buf|
      modifies this`cur, this`readyQ, this`mode, this`procs, this`ttys, this`log
      ensures Returned(View(), rc) == TtyWrite(old(View()), t, len, buf)
    {
      if len < 0 { return Some(ERROR); }
      if len == 0 { return Some(SUCCESS); }
      rc := RetryTtyWrite(t, buf[..len]);
    }

    /** KernelTtyWrite from the test of the loop that waits for the terminal */
    method RetryTtyWrite(t: nat, buf: Bytes) returns (rc: Option<int>)
      requires cur in procs && t < |ttys| && buf != []
      modifies this`cur, this`readyQ, this`mode, this`procs, this`ttys, this`log
      ensures Returned(View(), rc) == TtyWriteLoop(old(View()), t, buf)
    {
      if ttys[t].transmitter != None {
        BlockTransmitter(t, InTtyWrite(t, buf));
      } else {
        TransmitBatch(t, buf, 0);
      }
      return None;
    }

    /** TtyTransmit and waitTransmitter */
    method TransmitBatch(t: nat, buf: Bytes, sent: nat)
      requires cur in procs && t < |ttys| && sent < |buf|
      modifies this`cur, this`readyQ, this`mode, this`procs, this`ttys, this`log
      ensures View() == SendBatch(old(View()), t, buf, sent)
    {
      var batchSize := Min(maxLine, |buf| - sent);
      log := Snoc(log, TtySent(cur, t, buf[sent..sent + batchSize]));
      ttys := ttys[t := ttys[t].(transmitter := Some(cur), busy := true)];
      Park(InTtyBatch(t, buf, sent + batchSize));
      SwitchToReady();
    }

    /** KernelTtyWrite from the test of its batch loop, `sent` bytes having been transmitted */
    method ContinueTtyWrite(t: nat, buf: Bytes, sent: nat) returns (rc: Option<int>)
      requires cur in procs && t < |ttys|
      modifies this`cur, this`readyQ, this`mode, this`procs, this`ttys, this`log
      ensures Returned(View(), rc) == BatchLoop(old(View()), t, buf, sent)
    {
      if sent < |buf| {
        TransmitBatch(t, buf, sent);
        return None;
      }
      log := Snoc(log, TtyWritten(cur, t, buf));
      UnblockTransmitterOf(t);
      return Some(|buf|);
    }

    method KernelTtyRead(t: nat, len: int) returns (rc: Option<int>)
      requires cur in procs && t < |ttys|
      modifies this`cur, this`readyQ, this`mode, this`procs, this`ttys, this`log
      ensures Returned(View(), rc) == TtyRead(old(View()), t, len)
    {
      if len < 0 { return Some(ERROR); }
      if len == 0 { return Some(SUCCESS); }
      rc := ReadBuffer(t, len);
    }

    /** readBuffer from the test of its loop */
    method ReadBuffer(t: nat, len: int) returns (rc: Option<int>)
      requires cur in procs && t < |ttys| && len > 0
      modifies this`cur, this`readyQ, this`mode, this`procs, this`ttys, this`log
      ensures Returned(View(), rc) == TtyReadLoop(old(View()), t, len)
    {
      var line := ttys[t].line;
      if !ttys[t].lineReady {
        BlockReader(t, InTtyRead(t, len));
        return None;
      }
      if len < |line| {
        log := Snoc(log, TtyTaken(cur, t, line[..len]));
        ttys := ttys[t := ttys[t].(line := line[len..])];
        UnblockReaderOf(t);
        return Some(len);
      }
      log := Snoc(log, TtyTaken(cur, t, line));
      ttys := ttys[t := ttys[t].(line := [], lineReady := false)];
      return Some(|line|);
    }

    // ------------------------------------------------------------ TrapHandlers.c

    method HandleTtyReceive(t: nat, line: Option<Bytes>)
      requires t < |ttys|
      modifies this`readyQ, this`ttys, this`log
      ensures View() == TtyReceive(old(View()), t, line)
    {
      log := Snoc(log, TtyReceived(t, line));
      match line
      case Some(bytes) =>
        ttys := ttys[t := ttys[t].(line := bytes, lineReady := true)];
        UnblockReaderOf(t);
      case None =>
        ttys := ttys[t := ttys[t].(line := [], lineReady := false)];
    }

    method HandleTtyTransmit(t: nat)
      requires t < |ttys|
      modifies this`cur, this`readyQ, this`mode, this`ttys
      ensures View() == TtyTransmitted(old(View()), t)
    {
      ttys := ttys[t := ttys[t].(busy := false)];
      readyQ := readyQ + [cur];
      match ttys[t].transmitter
      case Some(p) => cur := p;
      case None => mode := Stuck;
    }

    method HandleTrapClock(order: seq<Pid>)
      modifies this`cur, this`readyQ, this`mode, this`sleepingMap
      ensures View() == Kick(TickAll(old(View()), order))
    {
      TickDownSleepers(order);
      KickProcess();
    }

    method NewSyncObject(c: Call) returns (rc: Option<int>)
      requires cur in procs && (c.CLockInit? || c.CCvarInit? || c.CPipeInit?)
      modifies this`locks, this`cvars, this`pipes, this`nextSyncId
      ensures Returned(View(), rc) == DoCall(old(View()), c)
    {
      var id := nextSyncId;
      nextSyncId := nextSyncId + 1;
      if c.CLockInit? {
        locks := locks[id := Lock(None, [])];
      } else if c.CCvarInit? {
        cvars := cvars[id := []];
      } else {
        pipes := pipes[id := Pipe([], [])];
      }
      return Some(SUCCESS);
    }

    /** The return code goes to the user's register 0. */
    method SetReturnCode(rc: Option<int>)
      modifies this`procs
      ensures View() == Returned(old(View()), rc)
    {
      if rc.Some? && cur in procs {
        procs := procs[cur := procs[cur].(cont := User, ret := rc.value)];
      }
    }

    /** handleTrapKernel; `order` lists the children of a process that exits. */
    method HandleTrapKernel(c: Call, order: seq<Pid>)
      requires cur in procs && GoodCall(View(), c)
      requires forall p :: p in order <==> p in procs[cur].children
      modifies this`cur, this`readyQ, this`mode, this`blockedMap, this`sleepingMap, this`procs, this`locks, this`cvars
      modifies this`pipes, this`ttys, this`nextPid, this`nextSyncId, this`log
      ensures View() == DoCall(old(View()), c)
    {
      var rc: Option<int>;
      match c {
        case CFork(frames) => rc := KernelFork(frames);
        case CExit(status) => rc := KernelExit(status, order);
        case CWait => rc := KernelWait();
        case CDelay(ticks) => rc := KernelDelay(ticks);
        case CAcquire(l) => rc := KernelAcquire(l);
        case CRelease(l) => rc := KernelRelease(l);
        case CCvarWait(cv, l) => rc := KernelCvarWait(cv, l);
        case CSignal(cv) => rc := KernelCvarSignal(cv);
        case CBroadcast(cv) => rc := KernelCvarBroadcast(cv);
        case CPipeRead(id, len) => rc := KernelPipeRead(id, len);
        case CPipeWrite(id, len, buf) => rc := KernelPipeWrite(id, len, buf);
        case CTtyWrite(t, len, buf) => rc := KernelTtyWrite(t, len, buf);
        case CTtyRead(t, len) => rc := KernelTtyRead(t, len);
        case CLockInit => rc := NewSyncObject(c);
        case CCvarInit => rc := NewSyncObject(c);
        case CPipeInit => rc := NewSyncObject(c);
      }
      SetReturnCode(rc);
    }

    /** What KernelContextSwitch returns to in a process that was switched out inside a call */
    method ResumeCall()
      requires cur in procs && GoodCont(View(), procs[cur].cont)
      modifies this`cur, this`readyQ, this`mode, this`blockedMap, this`procs, this`locks, this`cvars, this`pipes,
        this`ttys
      modifies this`log
      ensures View() == Continue(old(View()))
    {
      var rc: Option<int>;
      match procs[cur].cont {
        case User => rc := None;
        case InAcquire(l) => rc := RetryAcquire(l);
        case InCvarWait(_, l) => rc := KernelAcquire(l);
        case InPipeRead(id, len) => rc := RetryPipeRead(id, len);
        case InWait => rc := FinishWait();
        case InTtyRead(t, len) => rc := ReadBuffer(t, len);
        case InTtyWrite(t, buf) => rc := RetryTtyWrite(t, buf);
        case InTtyBatch(t, buf, sent) => rc := ContinueTtyWrite(t, buf, sent);
      }
      SetReturnCode(rc);
    }

    // --------------------------------------------------------------- whole runs

    /** Everything the kernel has done since it started */
    ghost var states: seq<State>
    ghost var labels: seq<Label>

    /** What has happened is a run of the specification, so all that is proved about runs holds here. */
    ghost predicate Valid()
      reads this
    {
      Run(states, labels) && states[|labels|] == View() && Inv(View())
    }

    /** The end of KernelStart */
    constructor (terminals: nat, maxLine: nat)
      requires maxLine >= 1
      ensures Valid() && labels == [] && Boot(View()) && |ttys| == terminals
    {
      this.maxLine := maxLine;
      cur, readyQ, blockedMap, sleepingMap := INIT, [IDLE], {}, map[];
      procs := map[IDLE := FRESH_PROC, INIT := FRESH_PROC];
      locks, cvars, pipes, ttys := map[], map[], map[], seq(terminals, _ => FRESH_TTY);
      nextPid, nextSyncId, mode, log := 2, 0, Up, Empty;
      new;
      states, labels := [View()], [];
      BootInv(View());
    }

    method RunStretch(l: Label, order: seq<Pid>)
      requires cur in procs && Enabled(View(), l)
      requires forall p :: p in order <==> p in procs[cur].children
      modifies this`cur, this`readyQ, this`mode, this`blockedMap, this`sleepingMap, this`procs, this`locks, this`cvars
      modifies this`pipes, this`ttys, this`nextPid, this`nextSyncId, this`log
      ensures View() == Step(old(View()), l)
    {
      match l {
        case Trap(c) => HandleTrapKernel(c, order);
        case Resume => ResumeCall();
        case Clock(sleepers) => HandleTrapClock(sleepers);
        case Receive(t, line) => HandleTtyReceive(t, line);
        case Transmitted(t) => HandleTtyTransmit(t);
      }
    }

    /**
     One stretch of kernel code, from a trap or a context switch on; `order` lists the
     running process's children as its hash map would.
     */
    method Handle(l: Label, order: seq<Pid>)
      requires Valid() && Enabled(View(), l)
      requires cur in procs ==> forall p :: p in order <==> p in procs[cur].children
      modifies this
      ensures Valid() && View() == Step(old(View()), l)
      ensures labels == old(labels) + [l] && states == old(states) + [View()]
    {
      InvFresh(View());
      StepInv(View(), l);
      OneStepMore(states, labels, l);
      RunStretch(l, order);
      states, labels := states + [View()], labels + [l];
    }
  }
}
