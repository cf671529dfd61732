/**
 What an exit does that wakes its parent out of a queue and leaves the entry there: runs in
 which a reader overtakes the one before it, a signal is used up by a process that does not
 wait, and Wait reports an error to a process that has a live child.
 */
module StaleEntries {
  import opened Basics
  import opened KernelState
  import opened KernelSteps
  import opened Agreement
  import opened Calls
  import opened Families
  import opened Pipes
  import WaitOrder

  /** The end of some run */
  ghost predicate Reachable(s: State) {
    exists ss, ls :: Run(ss, ls) && ss[|ls|] == s
  }

  lemma Onward(s: State, l: Label)
    requires Reachable(s) && Enabled(s, l)
    ensures Reachable(Step(s, l))
  {
    var ss, ls :| Run(ss, ls) && ss[|ls|] == s;
    OneStepMore(ss, ls, l);
    assert (ss + [Step(s, l)])[|ls + [l]|] == Step(s, l);
  }

  lemma Tick(s: State)
    requires Reachable(s) && s.mode == Up && InUserMode(s) && s.sleeping == map[] && s.ready != []
    ensures Reachable(s.(cur := s.ready[0], ready := s.ready[1..] + [s.cur]))
  {
    assert TickAll(s, []) == s;
    assert (s.ready + [s.cur])[1..] == s.ready[1..] + [s.cur];
    Onward(s, Clock([]));
  }

  /** A read that queues and blocks, for want of bytes or behind another reader */
  lemma Queue(s: State, id: Id, len: int)
    requires Reachable(s) && s.mode == Up && InUserMode(s) && s.cur != IDLE && s.cur !in s.blocked && s.ready != []
    requires id in s.pipes && len > 0
    requires var q := s.pipes[id].waiting; if q == [] then |s.pipes[id].buffer| < len else q[0] != s.cur
    ensures Reachable(s.(
      cur := s.ready[0], ready := s.ready[1..], blocked := s.blocked + {s.cur},
      procs := s.procs[s.cur := s.procs[s.cur].(cont := InPipeRead(id, len))],
      pipes := s.pipes[id := s.pipes[id].(waiting := s.pipes[id].waiting + [s.cur])],
      log := Snoc(s.log, PipeQueued(s.cur, id))))
  {
    Onward(s, Trap(CPipeRead(id, len)));
  }

  /** The exit of a childless process whose parent `q` is blocked */
  lemma Leave(s: State, q: Pid, status: int)
    requires Reachable(s) && s.mode == Up && InUserMode(s) && s.cur != IDLE && s.cur != INIT && s.ready != []
    requires q in s.procs && q in s.blocked && q != s.cur
    requires s.procs[s.cur].parent == Some(q) && s.procs[s.cur].children == {}
    ensures Reachable(s.(
      cur := s.ready[0], ready := s.ready[1..] + [q], blocked := s.blocked - {q},
      procs := s.procs[q := s.procs[q].(zombies := s.procs[q].zombies + [Zombie(s.cur, status)])] - {s.cur},
      log := Snoc(s.log, Exited(q, Zombie(s.cur, status)))))
  {
    Onward(s, Trap(CExit(status)));
    var s1 := ReportExit(s, status);
    assert Bury(s1).procs == s1.procs - {s.cur};
    assert (s.ready + [q])[1..] == s.ready[1..] + [q];
  }

  const CHILD: Proc := FRESH_PROC.(parent := Some(1))

  // ------------------------------------------------------------ a reader overtakes

  /** Pipe 0 in a kernel with a line limit of 4 */
  function PipeState(cur: Pid, ready: seq<Pid>, blocked: set<Pid>, procs: map<Pid, Proc>, pipe: Pipe, nextPid: Pid,
                     log: Log): State {
    State(cur, ready, blocked, map[], procs, map[], map[], map[0 := pipe], [], nextPid, 1, Up, log, 4)
  }

  const ONE_BYTE: Bytes := [65]
  const WROTE: Log := Snoc(Empty, PipeWritten(3, 0, ONE_BYTE))
  const QUEUED: Log := Snoc(Snoc(WROTE, PipeQueued(1, 0)), PipeQueued(2, 0))

  /** init, with its child 2, whose child is 3; `a` and `b` are where init and 2 are, `zs` the zombies of 2. */
  function Family(a: Cont, b: Cont, zs: seq<Zombie>): map<Pid, Proc> {
    map[0 := FRESH_PROC, 1 := Proc(a, 2, None, {2}, 1, []), 2 := Proc(b, 3, Some(1), {3}, 1, zs)]
  }

  function Grown(a: Cont, b: Cont): map<Pid, Proc> {
    Family(a, b, [])[3 := Proc(User, 1, Some(2), {}, 0, [])]
  }

  lemma PipeMade()
    ensures Reachable(PipeState(1, [0], {}, map[0 := FRESH_PROC, 1 := FRESH_PROC], Pipe([], []), 2, Empty))
  {
    var s := State(1, [0], {}, map[], map[0 := FRESH_PROC, 1 := FRESH_PROC], map[], map[], map[], [], 2, 0, Up, Empty,
      4);
    var ss, ls: seq<Label> := [s], [];
    assert Run(ss, ls) && ss[|ls|] == s;
    Onward(s, Trap(CPipeInit));
    assert Step(s, Trap(CPipeInit)).procs == s.procs;
  }

  lemma ForkedOnce()
    ensures Reachable(PipeState(2, [0, 1], {}, map[0 := FRESH_PROC, 1 := Proc(User, 2, None, {2}, 1, []), 2 := CHILD],
      Pipe([], []), 3, Empty))
  {
    PipeMade();
    var s := PipeState(1, [0], {}, map[0 := FRESH_PROC, 1 := FRESH_PROC], Pipe([], []), 2, Empty);
    Onward(s, Trap(CFork(true)));
    assert s.procs[1].children + {2} == {2};
    assert Step(s, Trap(CFork(true))).procs == map[0 := FRESH_PROC, 1 := Proc(User, 2, None, {2}, 1, []), 2 := CHILD];
  }

  lemma ForkedTwice()
    ensures Reachable(PipeState(3, [0, 1, 2], {}, Family(User, User, [])[3 := FRESH_PROC.(parent := Some(2))],
      Pipe([], []), 4, Empty))
  {
    ForkedOnce();
    var s := PipeState(2, [0, 1], {}, map[0 := FRESH_PROC, 1 := Proc(User, 2, None, {2}, 1, []), 2 := CHILD],
      Pipe([], []), 3, Empty);
    Onward(s, Trap(CFork(true)));
    assert s.procs[2].children + {3} == {3};
    assert Step(s, Trap(CFork(true))).procs == Family(User, User, [])[3 := FRESH_PROC.(parent := Some(2))];
  }

  /** Process 3 writes one byte. */
  lemma OneByteWritten()
    ensures Reachable(PipeState(3, [0, 1, 2], {}, Grown(User, User), Pipe(ONE_BYTE, []), 4, WROTE))
  {
    ForkedTwice();
    var s := PipeState(3, [0, 1, 2], {}, Family(User, User, [])[3 := FRESH_PROC.(parent := Some(2))], Pipe([], []), 4,
      Empty);
    var write := Trap(CPipeWrite(0, 1, ONE_BYTE));
    Onward(s, write);
    assert ONE_BYTE[..1] == ONE_BYTE && s.pipes[0].buffer + ONE_BYTE == ONE_BYTE;
    assert Step(s, write).procs == Grown(User, User);
    assert Step(s, write).pipes == map[0 := Pipe(ONE_BYTE, [])];
  }

  lemma InitRunsAgain()
    ensures Reachable(PipeState(1, [2, 3, 0], {}, Grown(User, User), Pipe(ONE_BYTE, []), 4, WROTE))
  {
    OneByteWritten();
    Tick(PipeState(3, [0, 1, 2], {}, Grown(User, User), Pipe(ONE_BYTE, []), 4, WROTE));
    Tick(PipeState(0, [1, 2, 3], {}, Grown(User, User), Pipe(ONE_BYTE, []), 4, WROTE));
  }

  /** init asks for two bytes and waits. */
  lemma InitQueued()
    ensures Reachable(PipeState(2, [3, 0], {1}, Grown(InPipeRead(0, 2), User), Pipe(ONE_BYTE, [1]), 4,
      Snoc(WROTE, PipeQueued(1, 0))))
  {
    InitRunsAgain();
    var s := PipeState(1, [2, 3, 0], {}, Grown(User, User), Pipe(ONE_BYTE, []), 4, WROTE);
    Queue(s, 0, 2);
    assert s.pipes[0].waiting + [1] == [1] && s.blocked + {1} == {1};
    assert s.procs[1 := s.procs[1].(cont := InPipeRead(0, 2))] == Grown(InPipeRead(0, 2), User);
    assert s.pipes[0 := Pipe(ONE_BYTE, [1])] == map[0 := Pipe(ONE_BYTE, [1])];
  }

  /** Process 2 asks for one byte and queues behind it. */
  lemma BothQueued()
    ensures Reachable(PipeState(3, [0], {1, 2}, Grown(InPipeRead(0, 2), InPipeRead(0, 1)), Pipe(ONE_BYTE, [1, 2]), 4,
      QUEUED))
  {
    InitQueued();
    var s := PipeState(2, [3, 0], {1}, Grown(InPipeRead(0, 2), User), Pipe(ONE_BYTE, [1]), 4,
      Snoc(WROTE, PipeQueued(1, 0)));
    Queue(s, 0, 1);
    assert s.pipes[0].waiting + [2] == [1, 2] && s.blocked + {2} == {1, 2};
    assert s.procs[2 := s.procs[2].(cont := InPipeRead(0, 1))] == Grown(InPipeRead(0, 2), InPipeRead(0, 1));
    assert s.pipes[0 := Pipe(ONE_BYTE, [1, 2])] == map[0 := Pipe(ONE_BYTE, [1, 2])];
  }

  const ENDED: seq<Zombie> := [Zombie(3, 0)]
  const REPORTED: Log := Snoc(QUEUED, Exited(2, Zombie(3, 0)))

  /** Process 3 exits, which wakes its parent 2 and leaves it in the queue; 2 runs. */
  lemma WokenBehindHead()
    ensures Reachable(PipeState(2, [0], {1}, Family(InPipeRead(0, 2), InPipeRead(0, 1), ENDED), Pipe(ONE_BYTE, [1, 2]),
      4, REPORTED))
  {
    BothQueued();
    var s := PipeState(3, [0], {1, 2}, Grown(InPipeRead(0, 2), InPipeRead(0, 1)), Pipe(ONE_BYTE, [1, 2]), 4, QUEUED);
    Leave(s, 2, 0);
    assert s.blocked - {2} == {1} && s.procs[2].zombies + [Zombie(3, 0)] == ENDED;
    assert s.procs[2 := s.procs[2].(zombies := ENDED)] - {3} == Family(InPipeRead(0, 2), InPipeRead(0, 1), ENDED);
    Tick(PipeState(0, [2], {1}, Family(InPipeRead(0, 2), InPipeRead(0, 1), ENDED), Pipe(ONE_BYTE, [1, 2]), 4,
      REPORTED));
  }

  /** The order of the notes of this run */
  lemma OvertakenNotes(e: Event)
    requires e == PipeTaken(2, 0, 1, ONE_BYTE)
    ensures Arrived(Snoc(REPORTED, e), 0) == [1, 2] && Served(Snoc(REPORTED, e), 0) == [2]
  {
    assert Arrived(WROTE, 0) == [] && Served(WROTE, 0) == [];
    assert Arrived(QUEUED, 0) == [1, 2] && Served(QUEUED, 0) == [];
    assert Arrived(REPORTED, 0) == [1, 2] && Served(REPORTED, 0) == [];
  }

  /**
   Readers are not served in the order in which they came: process 1 asked first, 2 has got its
   byte, 1 is blocked.
   */
  lemma ReaderOvertakes() returns (ss: seq<State>, ls: seq<Label>)
    ensures Run(ss, ls) && Asked(ss, ls, |ls|, 0) == [1, 2] && Got(ss, ls, |ls|, 0) == [2]
    ensures 1 in ss[|ls|].blocked
  {
    WokenBehindHead();
    var s := PipeState(2, [0], {1}, Family(InPipeRead(0, 2), InPipeRead(0, 1), ENDED), Pipe(ONE_BYTE, [1, 2]), 4,
      REPORTED);
    Onward(s, Resume);
    assert ONE_BYTE[..1] == ONE_BYTE;
    var e := PipeTaken(2, 0, 1, ONE_BYTE);
    assert Step(s, Resume).log == Snoc(REPORTED, e) && 1 in Step(s, Resume).blocked;
    OvertakenNotes(e);
    ss, ls :| Run(ss, ls) && ss[|ls|] == Step(s, Resume);
    RunNoted(ss, ls, |ls|, 0);
  }

  // ------------------------------------------------------------ a Wait fails

  /** Condition variable 0, its queue and the processes */
  function CvarState(cur: Pid, ready: seq<Pid>, blocked: set<Pid>, procs: map<Pid, Proc>, queue: seq<Pid>,
                     nextPid: Pid, log: Log): State {
    State(cur, ready, blocked, map[], procs, map[], map[0 := queue], map[], [], nextPid, 1, Up, log, 1)
  }

  const ZOMBIE: Zombie := Zombie(2, 0)
  const DIED: Log := Snoc(Empty, Exited(1, ZOMBIE))
  const TAKEN: Log := Snoc(DIED, Reaped(1, ZOMBIE))

  /** idle and init; init has forked 2 */
  function Parent(cont: Cont, ret: int, zs: seq<Zombie>): map<Pid, Proc> {
    map[0 := FRESH_PROC, 1 := Proc(cont, ret, None, {2}, 1, zs)]
  }

  /** ... and 3, when 2 is gone */
  function SecondChild(cont: Cont): map<Pid, Proc> {
    map[0 := FRESH_PROC, 1 := Proc(cont, 3, None, {2, 3}, 2, []), 3 := CHILD]
  }

  lemma CvarMade()
    ensures Reachable(CvarState(1, [0], {}, map[0 := FRESH_PROC, 1 := FRESH_PROC], [], 2, Empty))
  {
    var s := State(1, [0], {}, map[], map[0 := FRESH_PROC, 1 := FRESH_PROC], map[], map[], map[], [], 2, 0, Up, Empty,
      1);
    var ss, ls: seq<Label> := [s], [];
    assert Run(ss, ls) && ss[|ls|] == s;
    Onward(s, Trap(CCvarInit));
    assert Step(s, Trap(CCvarInit)).procs == s.procs;
  }

  lemma FirstForked()
    ensures Reachable(CvarState(1, [2, 0], {}, Parent(User, 2, [])[2 := CHILD], [], 3, Empty))
  {
    CvarMade();
    var s := CvarState(1, [0], {}, map[0 := FRESH_PROC, 1 := FRESH_PROC], [], 2, Empty);
    Onward(s, Trap(CFork(true)));
    assert s.procs[1].children + {2} == {2};
    assert Step(s, Trap(CFork(true))).procs == Parent(User, 2, [])[2 := CHILD];
    Tick(CvarState(2, [0, 1], {}, Parent(User, 2, [])[2 := CHILD], [], 3, Empty));
    Tick(CvarState(0, [1, 2], {}, Parent(User, 2, [])[2 := CHILD], [], 3, Empty));
  }

  /** init waits on the condition variable, with a lock that does not exist. */
  lemma InitWaits()
    ensures Reachable(CvarState(2, [0], {1}, Parent(InCvarWait(0, 7), 2, [])[2 := CHILD], [1], 3, Empty))
  {
    FirstForked();
    var s := CvarState(1, [2, 0], {}, Parent(User, 2, [])[2 := CHILD], [], 3, Empty);
    Onward(s, Trap(CCvarWait(0, 7)));
    assert s.cvars[0] + [1] == [1] && s.blocked + {1} == {1};
    assert Step(s, Trap(CCvarWait(0, 7))).procs == Parent(InCvarWait(0, 7), 2, [])[2 := CHILD];
    assert Step(s, Trap(CCvarWait(0, 7))).cvars == map[0 := [1]];
  }

  /** Its child exits, which wakes init and leaves it in the queue. */
  lemma FirstExits()
    ensures Reachable(CvarState(1, [0], {}, Parent(InCvarWait(0, 7), 2, [ZOMBIE]), [1], 3, DIED))
  {
    InitWaits();
    var s := CvarState(2, [0], {1}, Parent(InCvarWait(0, 7), 2, [])[2 := CHILD], [1], 3, Empty);
    Leave(s, 1, 0);
    assert s.blocked - {1} == {} && s.procs[1].zombies + [ZOMBIE] == [ZOMBIE];
    assert s.procs[1 := s.procs[1].(zombies := [ZOMBIE])] - {2} == Parent(InCvarWait(0, 7), 2, [ZOMBIE]);
    Tick(CvarState(0, [1], {}, Parent(InCvarWait(0, 7), 2, [ZOMBIE]), [1], 3, DIED));
  }

  /** init finds no lock, and collects the child. */
  lemma FirstCollected()
    ensures Reachable(CvarState(1, [0], {}, Parent(User, 2, []), [1], 3, TAKEN))
  {
    FirstExits();
    var s := CvarState(1, [0], {}, Parent(InCvarWait(0, 7), 2, [ZOMBIE]), [1], 3, DIED);
    Onward(s, Resume);
    assert Step(s, Resume).procs == Parent(User, ERROR, [ZOMBIE]);
    var s1 := CvarState(1, [0], {}, Parent(User, ERROR, [ZOMBIE]), [1], 3, DIED);
    Onward(s1, Trap(CWait));
    assert [ZOMBIE][1..] == [];
    assert Step(s1, Trap(CWait)).procs == Parent(User, 2, []);
  }

  /** The signal takes the stale entry off the queue and readies nobody. */
  lemma StaleSignal(s: State)
    requires s == CvarState(1, [0], {}, Parent(User, 2, []), [1], 3, TAKEN)
    ensures Enabled(s, Trap(CSignal(0))) && WaitOrder.PopsStale(s, Trap(CSignal(0)), WaitOrder.CvarLine(0))
    ensures WaitOrder.Queue(s, WaitOrder.CvarLine(0)) == [1]
    ensures WaitOrder.Queue(Step(s, Trap(CSignal(0))), WaitOrder.CvarLine(0)) == []
    ensures Step(s, Trap(CSignal(0))).ready == s.ready
  {
  }

  /** The order of waking is lost: init, which waits no more, signals, and its own stale entry uses the signal up. */
  lemma SignalIsUsedUp() returns (ss: seq<State>, ls: seq<Label>)
    ensures Run(ss, ls) && ls != [] && ls[|ls| - 1] == Trap(CSignal(0))
    ensures WaitOrder.Queue(ss[|ls| - 1], WaitOrder.CvarLine(0)) == [1]
    ensures WaitOrder.Queue(ss[|ls|], WaitOrder.CvarLine(0)) == [] && ss[|ls|].ready == ss[|ls| - 1].ready
    ensures !WaitOrder.AlwaysInOrder(ss, ls, |ls|, WaitOrder.CvarLine(0))
  {
    FirstCollected();
    var s := CvarState(1, [0], {}, Parent(User, 2, []), [1], 3, TAKEN);
    StaleSignal(s);
    ss, ls :| Run(ss, ls) && ss[|ls|] == s;
    OneStepMore(ss, ls, Trap(CSignal(0)));
    ss, ls := ss + [Step(s, Trap(CSignal(0)))], ls + [Trap(CSignal(0))];
    assert ss[|ls| - 1] == s;
    WaitOrder.OrderedUnlessStale(ss, ls, |ls|, WaitOrder.CvarLine(0));
  }

  lemma SecondForked()
    ensures Reachable(CvarState(1, [3, 0], {}, SecondChild(User), [1], 4, TAKEN))
  {
    FirstCollected();
    var s := CvarState(1, [0], {}, Parent(User, 2, []), [1], 3, TAKEN);
    Onward(s, Trap(CFork(true)));
    assert s.procs[1].children + {3} == {2, 3};
    assert Step(s, Trap(CFork(true))).procs == SecondChild(User);
    Tick(CvarState(3, [0, 1], {}, SecondChild(User), [1], 4, TAKEN));
    Tick(CvarState(0, [1, 3], {}, SecondChild(User), [1], 4, TAKEN));
  }

  lemma SecondAwaited()
    ensures Reachable(CvarState(3, [0], {1}, SecondChild(InWait), [1], 4, TAKEN))
  {
    SecondForked();
    var s := CvarState(1, [3, 0], {}, SecondChild(User), [1], 4, TAKEN);
    Onward(s, Trap(CWait));
    assert s.blocked + {1} == {1};
    assert Step(s, Trap(CWait)).procs == SecondChild(InWait);
  }

  /** The child signals the condition variable, whose queue still holds init. */
  lemma WokenInWait()
    ensures Reachable(CvarState(3, [0, 1], {}, SecondChild(InWait), [], 4, TAKEN))
  {
    SecondAwaited();
    var s := CvarState(3, [0], {1}, SecondChild(InWait), [1], 4, TAKEN);
    Onward(s, Trap(CSignal(0)));
    assert s.blocked - {1} == {} && [1][1..] == [];
    assert Step(s, Trap(CSignal(0))).procs == SecondChild(InWait);
    assert Step(s, Trap(CSignal(0))).cvars == map[0 := []];
  }

  /** The running process's Wait returns ERROR although the process `child` that it forked is alive. */
  ghost predicate WaitFails(s: State, s': State, child: Pid) {
    && s.cur in s.procs && s.procs[s.cur].cont == InWait
    && Returns(s, Resume, s') && Code(s, s') == ERROR
    && child in s'.procs && s'.procs[child].parent == Some(s.cur)
  }

  lemma WaitIsCutShort() returns (ss: seq<State>, ls: seq<Label>)
    ensures Run(ss, ls) && ls != [] && ls[|ls| - 1] == Resume
    ensures WaitFails(ss[|ls| - 1], ss[|ls|], 3)
  {
    WokenInWait();
    Tick(CvarState(3, [0, 1], {}, SecondChild(InWait), [], 4, TAKEN));
    Tick(CvarState(0, [1, 3], {}, SecondChild(InWait), [], 4, TAKEN));
    var s := CvarState(1, [3, 0], {}, SecondChild(InWait), [], 4, TAKEN);
    ss, ls :| Run(ss, ls) && ss[|ls|] == s;
    OneStepMore(ss, ls, Resume);
    ss, ls := ss + [Step(s, Resume)], ls + [Resume];
    assert ss[|ls| - 1] == s && ss[|ls|] == Step(s, Resume);
  }
}
