/**
 The kernel's global variables as one value: the scheduler's queues and maps, the
 synchronisation objects, the terminals and the process table.  What a suspended
 kernel call still has to do (in C: its kernel stack) is the process's `Cont`.
 `log` records what the processes and devices observe; no step reads it.
 */
module KernelState {
  import opened Basics

  type Id = int

  /** Where a process's kernel call is parked; `User` when it has none to finish. */
  datatype Cont =
    | User
    | InAcquire(lock: Id)
    | InCvarWait(cvar: Id, relock: Id)
    | InPipeRead(pipe: Id, len: int)
    | InWait
    | InTtyRead(rtty: nat, rlen: int)
    | InTtyWrite(wtty: nat, wbuf: Bytes)
    | InTtyBatch(btty: nat, bbuf: Bytes, sent: nat)

  datatype Zombie = Zombie(pid: Pid, status: int)

  /** `ret` is the return code that the trap handler leaves in the user's register 0. */
  datatype Proc = Proc(
    cont: Cont,
    ret: int,
    parent: Option<Pid>,
    children: set<Pid>,
    numChildren: nat,
    zombies: seq<Zombie>)

  datatype Lock = Lock(owner: Option<Pid>, waiting: seq<Pid>)

  /** `buffer` is the first `numBytesWritten` bytes of the C buffer. */
  datatype Pipe = Pipe(buffer: Bytes, waiting: seq<Pid>)

  /** `busy`: the hardware has accepted a batch and not yet raised its transmit trap. */
  datatype Tty = Tty(
    transmitter: Option<Pid>,
    transmitting: seq<Pid>,
    reading: seq<Pid>,
    line: Bytes,
    lineReady: bool,
    busy: bool)

  datatype Event =
    | Acquired(p: Pid, l: Id)
    | Released(p: Pid, l: Id)
    | PipeQueued(p: Pid, id: Id)
    | PipeWritten(p: Pid, id: Id, bytes: Bytes)
    | PipeTaken(p: Pid, id: Id, len: int, bytes: Bytes)
    | TtySent(p: Pid, t: nat, bytes: Bytes)
    | TtyWritten(p: Pid, t: nat, bytes: Bytes)
    | TtyReceived(t: nat, line: Option<Bytes>)
    | TtyTaken(p: Pid, t: nat, bytes: Bytes)
    | Exited(parent: Pid, zombie: Zombie)
    | Reaped(parent: Pid, zombie: Zombie)

  /** Oldest event innermost. */
  datatype Log = Empty | Snoc(prev: Log, ev: Event)

  /** `Stuck`: a scheduler primitive reported ERROR (ready queue empty, key already in a map). */
  datatype Mode = Up | Halted | Stuck

  datatype State = State(
    cur: Pid,
    ready: seq<Pid>,
    blocked: set<Pid>,
    sleeping: map<Pid, int>,
    procs: map<Pid, Proc>,
    locks: map<Id, Lock>,
    cvars: map<Id, seq<Pid>>,
    pipes: map<Id, Pipe>,
    ttys: seq<Tty>,
    nextPid: Pid,
    nextSyncId: nat,
    mode: Mode,
    log: Log,
    maxLine: nat)

  const FRESH_PROC := Proc(User, SUCCESS, None, {}, 0, [])
  const FRESH_TTY := Tty(None, [], [], [], false, false)

  /** The end of `KernelStart`: init runs, idle is ready; any number of terminals. */
  ghost predicate Boot(s: State) {
    && s.cur == INIT && s.ready == [IDLE] && s.blocked == {} && s.sleeping == map[]
    && s.procs == map[IDLE := FRESH_PROC, INIT := FRESH_PROC]
    && s.locks == map[] && s.cvars == map[] && s.pipes == map[]
    && (forall t | 0 <= t < |s.ttys| :: s.ttys[t] == FRESH_TTY)
    && s.nextPid == 2 && s.nextSyncId == 0 && s.mode == Up && s.log == Empty
    && s.maxLine >= 1
  }
}
