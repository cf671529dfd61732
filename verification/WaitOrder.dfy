/**
 The order in which waiters are woken: of a lock, a condition variable, a terminal to write to and
 a terminal to read from.  Who lines up and who is woken is told by the calls and by who becomes ready.
 Terminals wake in arrival order whatever happens; locks and condition variables do exactly until
 one of them takes off its queue a process that is not blocked any more.
 */
module WaitOrder {
  import opened Basics
  import opened KernelState
  import opened KernelSteps
  import opened Footprint
  import opened Location
  import opened Agreement
  import opened Calls
  import opened Objects
  import Mutex
  import TtyWrites

  datatype Line = LockLine(lock: Id) | CvarLine(cvar: Id) | WriterLine(tty: nat) | ReaderLine(tty: nat)

  ghost function Queue(s: State, q: Line): seq<Pid> {
    match q
    case LockLine(m) => if m in s.locks then s.locks[m].waiting else []
    case CvarLine(v) => if v in s.cvars then s.cvars[v] else []
    case WriterLine(t) => if t < |s.ttys| then s.ttys[t].transmitting else []
    case ReaderLine(t) => if t < |s.ttys| then s.ttys[t].reading else []
  }

  // ------------------------------------------------------------ what the callers see

  /** The running process's call has not returned in this step. */
  predicate Suspends(s: State, l: Label, s': State) {
    (l.Trap? || l.Resume?) && s.cur in s'.procs && s'.procs[s.cur].cont != User
  }

  /** If it suspends, the call waits in this line; a writer that has sent something waits for the terminal to finish. */
  ghost predicate LinesUp(c: Call, s: State, l: Label, s': State, q: Line) {
    match q
    case LockLine(m) => c == CAcquire(m) || (l.Resume? && c.CCvarWait? && c.lock == m)
    case CvarLine(v) => l.Trap? && c.CCvarWait? && c.cvar == v
    case WriterLine(t) => c.CTtyWrite? && c.tty == t && TtyWrites.Sent(s'.log, t) == TtyWrites.Sent(s.log, t)
    case ReaderLine(t) => c.CTtyRead? && c.tty == t
  }

  ghost function JoinsNow(c: Option<Call>, s: State, l: Label, s': State, q: Line): seq<Pid> {
    if Suspends(s, l, s') && c.Some? && LinesUp(c.value, s, l, s', q) then [s.cur] else []
  }

  /** A step that may wake somebody out of this line */
  predicate Serves(c: Option<Call>, s: State, l: Label, s': State, q: Line) {
    match q
    case LockLine(m) => l.Trap? && (l.call.CRelease? || l.call.CCvarWait?) && l.call.lock == m
    case CvarLine(v) => l.Trap? && (l.call.CSignal? || l.call.CBroadcast?) && l.call.cvar == v
    case WriterLine(t) => c.Some? && c.value.CTtyWrite? && c.value.tty == t && Returns(s, l, s')
    case ReaderLine(t) =>
      (l.Receive? && l.tty == t) || (c.Some? && c.value.CTtyRead? && c.value.tty == t && Returns(s, l, s'))
  }

  /** Whom the step puts behind those who were ready, in order */
  function Readied(s: State, l: Label, s': State): seq<Pid> {
    var line := (if Suspends(s, l, s') then [s'.cur] else []) + s'.ready;
    if |s.ready| <= |line| then line[|s.ready|..] else []
  }

  function WakesNow(c: Option<Call>, s: State, l: Label, s': State, q: Line): seq<Pid> {
    if Serves(c, s, l, s', q) then Readied(s, l, s') else []
  }

  /** Who has lined up in the first `i` steps, in order */
  ghost function Joined(ss: seq<State>, ls: seq<Label>, i: nat, q: Line): seq<Pid>
    requires Traces(ss, ls, i)
  {
    if i == 0 then []
    else Joined(ss, ls, i - 1, q) + JoinsNow(LastCall(ss, ls, i, ss[i - 1].cur), ss[i - 1], ls[i - 1], ss[i], q)
  }

  /** Who has been woken, in order */
  ghost function Woken(ss: seq<State>, ls: seq<Label>, i: nat, q: Line): seq<Pid>
    requires Traces(ss, ls, i)
  {
    if i == 0 then []
    else Woken(ss, ls, i - 1, q) + WakesNow(LastCall(ss, ls, i, ss[i - 1].cur), ss[i - 1], ls[i - 1], ss[i], q)
  }

  // ------------------------------------------------------------ one step

  /** The line gains at its tail who joins and loses at its head who is woken. */
  ghost predicate Moves(c: Option<Call>, s: State, l: Label, s': State, q: Line) {
    Queue(s, q) + JoinsNow(c, s, l, s', q) == WakesNow(c, s, l, s', q) + Queue(s', q)
  }

  /** The head of the queue is not blocked (any more). */
  predicate StaleHead(s: State, q: seq<Pid>) {
    q != [] && q[0] !in s.blocked
  }

  /** Everybody in the queue is blocked, and once in it. */
  ghost predicate AllWait(s: State, q: seq<Pid>) {
    NoDup(q) && forall p | p in q :: p in s.blocked
  }

  /** The step takes somebody off the line who is not blocked. */
  ghost predicate PopsStale(s: State, l: Label, q: Line) {
    match q
    case LockLine(m) =>
      && l.Trap? && MayRelease(s, m) && StaleHead(s, s.locks[m].waiting)
      && (l.call == CRelease(m) || (l.call.CCvarWait? && l.call.lock == m && l.call.cvar in s.cvars))
    case CvarLine(v) =>
      && v in s.cvars
      && ((l == Trap(CSignal(v)) && StaleHead(s, s.cvars[v])) || (l == Trap(CBroadcast(v)) && !AllWait(s, s.cvars[v])))
    case _ => false
  }

  /** The kinds of steps that a line sees */
  predicate Sees(q: Line, k: Kind) {
    match q
    case LockLine(_) => k == KLock
    case CvarLine(_) => k == KLock || k == KCvar
    case WriterLine(_) => k == KTty
    case ReaderLine(_) => k == KTty
  }

  /** A call of a kind that the line does not see has nothing to do with it. */
  lemma NotAsked(c: Call, k: Kind, s: State, l: Label, s': State, q: Line)
    requires !Sees(q, k) && (if l.Trap? then c == l.call && CallKind(c) == k
                             else s.cur in s.procs && ContKind(s.procs[s.cur].cont) == k
                                  && s.procs[s.cur].cont != User && ParkedIn(s.procs[s.cur].cont, c))
    ensures !LinesUp(c, s, l, s', q) && (l.Trap? || l.Resume? ==> !Serves(Some(c), s, l, s', q))
  {
  }

  lemma ElsewhereQuiet(c: Option<Call>, s: State, l: Label, s': State, q: Line)
    requires Enabled(s, l) && Asks(c, s, l) && !Sees(q, StepKind(s, l))
    ensures JoinsNow(c, s, l, s', q) == [] && WakesNow(c, s, l, s', q) == [] && !PopsStale(s, l, q)
  {
    if l.Trap? || l.Resume? {
      NotAsked(c.value, StepKind(s, l), s, l, s', q);
    }
  }

  lemma ElsewhereMoves(c: Option<Call>, s: State, l: Label, q: Line)
    requires s.nextPid !in s.procs && Enabled(s, l) && Asks(c, s, l) && !Sees(q, StepKind(s, l))
    ensures Moves(c, s, l, Step(s, l), q) && !PopsStale(s, l, q)
  {
    StepTouches(s, l);
    ElsewhereQuiet(c, s, l, Step(s, l), q);
  }

  /** A step that readies `w` and suspends no call */
  lemma ReturnReadies(c: Option<Call>, s: State, l: Label, s': State, q: Line, w: seq<Pid>)
    requires !Suspends(s, l, s') && s'.ready == s.ready + w
    ensures JoinsNow(c, s, l, s', q) == [] && WakesNow(c, s, l, s', q) == if Serves(c, s, l, s', q) then w else []
  {
  }

  /** A call that readies `w` and suspends */
  lemma SuspendReadies(c: Option<Call>, s: State, l: Label, s': State, q: Line, w: seq<Pid>)
    requires (l.Trap? || l.Resume?) && s.cur in s'.procs && s'.procs[s.cur].cont != User
    requires [s'.cur] + s'.ready == s.ready + w
    ensures WakesNow(c, s, l, s', q) == if Serves(c, s, l, s', q) then w else []
  {
    assert Readied(s, l, s') == (s.ready + w)[|s.ready|..] == w;
  }

  // ------------------------------------------------------------ locks

  lemma AcquireEffect(s: State, m: Id)
    requires s.cur in s.procs && s.cur !in s.blocked
    ensures var s' := Acquire(s, m); var held := m in s.locks && s.locks[m].owner != None;
      && s.cur in s'.procs && s'.procs[s.cur].cont == (if held then InAcquire(m) else User)
      && (!held ==> s'.ready == s.ready) && s'.cvars == s.cvars && s'.locks.Keys == s.locks.Keys
      && forall k | k in s.locks ::
           s'.locks[k].waiting == s.locks[k].waiting + if held && k == m then [s.cur] else []
  {
  }

  lemma AcquireMoves(c: Call, s: State, l: Label, m: Id, s': State, q: Line)
    requires s.cur in s.procs && s.cur !in s.blocked && Sees(q, KLock) && s' == Acquire(s, m)
    requires (l == Trap(CAcquire(m)) && c == l.call) || (l == Resume && Mutex.AsksFor(Some(c), m))
    ensures Moves(Some(c), s, l, s', q)
  {
    AcquireEffect(s, m);
  }

  /** The first of the queue, if there is one */
  function Head(q: seq<Pid>): seq<Pid> {
    if q == [] then [] else [q[0]]
  }

  function Tail(q: seq<Pid>): seq<Pid> {
    if q == [] then [] else q[1..]
  }

  /** What a release does to the queue and to those who are ready */
  lemma ReleaseEffect(s: State, m: Id)
    ensures var s' := DoRelease(s, m); var stale := MayRelease(s, m) && StaleHead(s, s.locks[m].waiting);
      && s'.ready == s.ready + (if MayRelease(s, m) && !stale then Head(s.locks[m].waiting) else [])
      && s'.locks == if MayRelease(s, m) then s.locks[m := Lock(None, Tail(s.locks[m].waiting))] else s.locks
  {
  }

  /** A queue that loses its head to those who are ready, unless it is stale */
  lemma HeadMoves(s: State, q: seq<Pid>)
    ensures q == (if StaleHead(s, q) then [] else Head(q)) + Tail(q) <==> !StaleHead(s, q)
  {
  }

  lemma ReleaseMoves(s: State, m: Id, q: Line)
    requires InUserMode(s) && Sees(q, KLock)
    ensures var l := Trap(CRelease(m)); Moves(Some(CRelease(m)), s, l, Release(s, m), q) <==> !PopsStale(s, l, q)
  {
    var waiting := if MayRelease(s, m) then s.locks[m].waiting else [];
    ReleaseEffect(s, m);
    ReturnReadies(Some(CRelease(m)), s, Trap(CRelease(m)), Release(s, m), q,
      if StaleHead(s, waiting) then [] else Head(waiting));
    HeadMoves(s, waiting);
  }

  lemma CvarWaitEffect(s: State, v: Id, m: Id)
    requires s.cur in s.procs && s.cur !in s.blocked && s.ready != [] && v in s.cvars
    ensures var s' := CvarWait(s, v, m); var waiting := if MayRelease(s, m) then s.locks[m].waiting else [];
      && s.cur in s'.procs && s'.procs[s.cur].cont == InCvarWait(v, m)
      && [s'.cur] + s'.ready == s.ready + (if StaleHead(s, waiting) then [] else Head(waiting))
      && s'.cvars == s.cvars[v := s.cvars[v] + [s.cur]]
      && s'.locks == if MayRelease(s, m) then s.locks[m := Lock(None, Tail(waiting))] else s.locks
  {
    ReleaseEffect(s.(cvars := s.cvars[v := s.cvars[v] + [s.cur]]), m);
  }

  lemma CvarWaitSleeps(s: State, v: Id, m: Id, s': State, q: Line)
    requires InUserMode(s) && s.cur !in s.blocked && s.ready != [] && Sees(q, KLock) && s' == CvarWait(s, v, m)
    requires v in s.cvars
    ensures var l := Trap(CCvarWait(v, m)); Moves(Some(l.call), s, l, s', q) <==> !PopsStale(s, l, q)
  {
    var l := Trap(CCvarWait(v, m));
    var waiting := if MayRelease(s, m) then s.locks[m].waiting else [];
    CvarWaitEffect(s, v, m);
    SuspendReadies(Some(l.call), s, l, s', q, if StaleHead(s, waiting) then [] else Head(waiting));
    HeadMoves(s, waiting);
  }

  lemma CvarWaitMoves(s: State, v: Id, m: Id, s': State, q: Line)
    requires InUserMode(s) && s.cur !in s.blocked && s.ready != [] && Sees(q, KLock) && s' == CvarWait(s, v, m)
    ensures var l := Trap(CCvarWait(v, m)); Moves(Some(l.call), s, l, s', q) <==> !PopsStale(s, l, q)
  {
    if v in s.cvars {
      CvarWaitSleeps(s, v, m, s', q);
    } else {
      ReturnReadies(Some(CCvarWait(v, m)), s, Trap(CCvarWait(v, m)), s', q, []);
    }
  }

  // ------------------------------------------------------------ condition variables

  lemma SignalEffect(s: State, v: Id)
    requires s.cur in s.procs
    ensures var s' := Signal(s, v); var waiting := if v in s.cvars then s.cvars[v] else [];
      && s.cur in s'.procs && s'.procs[s.cur].cont == User
      && s'.ready == s.ready + (if StaleHead(s, waiting) then [] else Head(waiting))
      && s'.cvars == if v in s.cvars then s.cvars[v := Tail(waiting)] else s.cvars
  {
  }

  lemma SignalMoves(s: State, v: Id, s': State, q: Line)
    requires InUserMode(s) && Sees(q, KCvar) && s' == Signal(s, v)
    ensures var l := Trap(CSignal(v)); Moves(Some(l.call), s, l, s', q) <==> !PopsStale(s, l, q)
  {
    var waiting := if v in s.cvars then s.cvars[v] else [];
    SignalEffect(s, v);
    ReturnReadies(Some(CSignal(v)), s, Trap(CSignal(v)), s', q, if StaleHead(s, waiting) then [] else Head(waiting));
    HeadMoves(s, waiting);
  }

  lemma {:induction false} PopAllEffect(s: State, v: Id)
    requires v in s.cvars
    ensures var s' := PopAllCvar(s, v);
      && s.ready <= s'.ready && |s'.ready| <= |s.ready| + |s.cvars[v]|
      && (s'.ready == s.ready + s.cvars[v] <==> AllWait(s, s.cvars[v]))
      && s'.cvars == s.cvars[v := []]
    decreases |s.cvars[v]|
  {
    var q := s.cvars[v];
    if q != [] {
      var s1 := PopCvar(s, v);
      PopAllEffect(s1, v);
      assert q == [q[0]] + q[1..] && s1.cvars[v] == q[1..];
      if q[0] in s.blocked {
        assert s.ready + q == s1.ready + q[1..];
        AllWaitStep(s, s1, q);
      }
    }
  }

  lemma AllWaitStep(s: State, s1: State, q: seq<Pid>)
    requires q != [] && q[0] in s.blocked && s1.blocked == s.blocked - {q[0]}
    ensures AllWait(s, q) <==> AllWait(s1, q[1..])
  {
    if AllWait(s1, q[1..]) {
      assert forall i | 1 <= i < |q| :: q[i] == q[1..][i - 1];
      forall p | p in q ensures p in s.blocked {
        assert p == q[0] || p in q[1..];
      }
    }
  }

  lemma BroadcastEffect(s: State, v: Id) returns (w: seq<Pid>)
    requires s.cur in s.procs
    ensures var s' := Broadcast(s, v); var waiting := if v in s.cvars then s.cvars[v] else [];
      && s.cur in s'.procs && s'.procs[s.cur].cont == User && s'.ready == s.ready + w
      && (w == waiting <==> AllWait(s, waiting))
      && s'.cvars == if v in s.cvars then s.cvars[v := []] else s.cvars
  {
    w := [];
    if v in s.cvars {
      PopAllEffect(s, v);
      w := PopAllCvar(s, v).ready[|s.ready|..];
      assert PopAllCvar(s, v).ready == s.ready + w;
      SamePrefix(s.ready, w, s.cvars[v]);
    }
  }

  lemma SamePrefix(a: seq<Pid>, x: seq<Pid>, y: seq<Pid>)
    ensures a + x == a + y <==> x == y
  {
    assert (a + x)[|a|..] == x && (a + y)[|a|..] == y;
  }

  lemma BroadcastMoves(s: State, v: Id, s': State, q: Line)
    requires InUserMode(s) && Sees(q, KCvar) && s' == Broadcast(s, v)
    ensures var l := Trap(CBroadcast(v)); Moves(Some(l.call), s, l, s', q) <==> !PopsStale(s, l, q)
  {
    var w := BroadcastEffect(s, v);
    ReturnReadies(Some(CBroadcast(v)), s, Trap(CBroadcast(v)), s', q, w);
    var waiting := if v in s.cvars then s.cvars[v] else [];
    assert waiting + [] == waiting && w + [] == w;
  }

  lemma InitMoves(s: State, c: Call, q: Line)
    requires InUserMode(s) && IsInit(Trap(c)) && s.nextSyncId !in s.locks && s.nextSyncId !in s.cvars
    ensures Moves(Some(c), s, Trap(c), DoCall(s, c), q)
  {
  }

  // ------------------------------------------------------------ terminals

  lemma PartReadies(s: State, t: nat, len: int)
    requires s.cur in s.procs && t < |s.ttys| && 0 < len < |s.ttys[t].line| && s.ttys[t].lineReady
    ensures var s' := TtyReadLoop(s, t, len); var tty := s.ttys[t];
      && s.cur in s'.procs && s'.procs[s.cur].cont == User && s'.ready == s.ready + Head(tty.reading)
      && s'.ttys == s.ttys[t := tty.(line := tty.line[len..], reading := Tail(tty.reading))]
  {
  }

  lemma PartMoves(c: Option<Call>, s: State, l: Label, t: nat, len: int, s': State, q: Line)
    requires s.cur in s.procs && t < |s.ttys| && c == Some(CTtyRead(t, len)) && (l.Trap? || l.Resume?)
    requires 0 < len < |s.ttys[t].line| && s.ttys[t].lineReady && s' == TtyReadLoop(s, t, len) && Sees(q, KTty)
    ensures Moves(c, s, l, s', q)
  {
    PartReadies(s, t, len);
    ReturnReadies(c, s, l, s', q, Head(s.ttys[t].reading));
  }

  lemma TtyReadMoves(c: Option<Call>, s: State, l: Label, t: nat, len: int, s': State, q: Line)
    requires s.cur in s.procs && t < |s.ttys| && c == Some(CTtyRead(t, len)) && (l.Trap? || l.Resume?)
    requires Sees(q, KTty) && s' == TtyRead(s, t, len)
    ensures Moves(c, s, l, s', q)
  {
    if len <= 0 {
      ReturnReadies(c, s, l, s', q, []);
    } else if !s.ttys[t].lineReady {
      WaitMoves(c, s, l, t, len, s', q);
    } else if len < |s.ttys[t].line| {
      PartMoves(c, s, l, t, len, s', q);
    } else {
      ReturnReadies(c, s, l, s', q, []);
    }
  }

  lemma WaitMoves(c: Option<Call>, s: State, l: Label, t: nat, len: int, s': State, q: Line)
    requires s.cur in s.procs && t < |s.ttys| && c == Some(CTtyRead(t, len)) && (l.Trap? || l.Resume?) && len > 0
    requires !s.ttys[t].lineReady && s' == TtyReadLoop(s, t, len) && Sees(q, KTty)
    ensures Moves(c, s, l, s', q)
  {
    assert s'.procs[s.cur].cont == InTtyRead(t, len);
  }

  lemma ReceiveReadies(s: State, t: nat, line: Option<Bytes>)
    requires t < |s.ttys|
    ensures var s' := TtyReceive(s, t, line); var tty := s.ttys[t];
      && |s'.ttys| == |s.ttys| && s'.ready == s.ready + (if line.Some? then Head(tty.reading) else [])
      && s'.ttys[t].reading == (if line.Some? then Tail(tty.reading) else tty.reading)
      && s'.ttys[t].transmitting == tty.transmitting
      && forall u | 0 <= u < |s.ttys| && u != t :: s'.ttys[u] == s.ttys[u]
  {
  }

  lemma ReceiveMoves(c: Option<Call>, s: State, t: nat, line: Option<Bytes>, s': State, q: Line)
    requires t < |s.ttys| && Sees(q, KTty) && s' == TtyReceive(s, t, line)
    ensures Moves(c, s, Receive(t, line), s', q)
  {
    ReceiveReadies(s, t, line);
    ReturnReadies(c, s, Receive(t, line), s', q, if line.Some? then Head(s.ttys[t].reading) else []);
  }

  lemma SendMoves(c: Option<Call>, s: State, l: Label, t: nat, buf: Bytes, sent: nat, q: Line)
    requires s.cur in s.procs && t < |s.ttys| && sent < |buf| && s.maxLine >= 1
    requires c.Some? && Writes(c.value, t, buf) && (l.Trap? || l.Resume?) && Sees(q, KTty)
    ensures Moves(c, s, l, SendBatch(s, t, buf, sent), q)
  {
    SendParks(s, t, buf, sent);
    TtyWrites.SentNow(s, t, buf, sent);
  }

  lemma WriteLoopMoves(c: Option<Call>, s: State, l: Label, t: nat, buf: Bytes, q: Line)
    requires s.cur in s.procs && t < |s.ttys| && buf != [] && s.maxLine >= 1
    requires c.Some? && Writes(c.value, t, buf) && (l.Trap? || l.Resume?) && Sees(q, KTty)
    ensures Moves(c, s, l, TtyWriteLoop(s, t, buf), q)
  {
    if s.ttys[t].transmitter == None {
      SendMoves(c, s, l, t, buf, 0, q);
    } else {
      assert TtyWriteLoop(s, t, buf).procs[s.cur].cont == InTtyWrite(t, buf);
    }
  }

  lemma DoneReadies(s: State, t: nat, buf: Bytes)
    requires s.cur in s.procs && t < |s.ttys|
    ensures var s' := BatchLoop(s, t, buf, |buf|); var tty := s.ttys[t];
      && s.cur in s'.procs && s'.procs[s.cur].cont == User && s'.ready == s.ready + Head(tty.transmitting)
      && s'.ttys == s.ttys[t := tty.(transmitter := None, transmitting := Tail(tty.transmitting))]
  {
  }

  lemma DoneMoves(c: Option<Call>, s: State, t: nat, buf: Bytes, s': State, q: Line)
    requires s.cur in s.procs && t < |s.ttys| && c.Some? && Writes(c.value, t, buf) && Sees(q, KTty)
    requires s' == BatchLoop(s, t, buf, |buf|)
    ensures Moves(c, s, Resume, s', q)
  {
    DoneReadies(s, t, buf);
    ReturnReadies(c, s, Resume, s', q, Head(s.ttys[t].transmitting));
  }

  // ------------------------------------------------------------ runs

  lemma SyncMoves(s: State, c: Call, q: Line)
    requires InUserMode(s) && s.cur !in s.blocked && s.ready != [] && GoodCall(s, c) && Sees(q, CallKind(c))
    requires CallKind(c) in {KLock, KCvar} && s.nextSyncId !in s.locks && s.nextSyncId !in s.cvars
    ensures Moves(Some(c), s, Trap(c), DoCall(s, c), q) <==> !PopsStale(s, Trap(c), q)
  {
    match c
    case CAcquire(m) => AcquireMoves(c, s, Trap(c), m, DoCall(s, c), q);
    case CRelease(m) => ReleaseMoves(s, m, q);
    case CCvarWait(v, m) => CvarWaitMoves(s, v, m, DoCall(s, c), q);
    case CSignal(v) => SignalMoves(s, v, DoCall(s, c), q);
    case CBroadcast(v) => BroadcastMoves(s, v, DoCall(s, c), q);
    case CLockInit => InitMoves(s, c, q);
    case CCvarInit => InitMoves(s, c, q);
  }

  lemma TtyCallMoves(s: State, c: Call, q: Line)
    requires InUserMode(s) && GoodCall(s, c) && CallKind(c) == KTty && Sees(q, KTty) && s.maxLine >= 1
    ensures Moves(Some(c), s, Trap(c), DoCall(s, c), q)
  {
    if c.CTtyRead? {
      TtyReadMoves(Some(c), s, Trap(c), c.tty, c.len, DoCall(s, c), q);
    } else if c.len > 0 {
      WriteLoopMoves(Some(c), s, Trap(c), c.tty, c.buf[..c.len], q);
    } else {
      ReturnReadies(Some(c), s, Trap(c), DoCall(s, c), q, []);
    }
  }

  lemma ResumeMoves(c: Call, s: State, q: Line)
    requires Enabled(s, Resume) && s.cur !in s.blocked && ParkedIn(s.procs[s.cur].cont, c) && s.maxLine >= 1
    requires Sees(q, ContKind(s.procs[s.cur].cont)) && ContKind(s.procs[s.cur].cont) in {KLock, KTty}
    ensures Moves(Some(c), s, Resume, Continue(s), q)
  {
    match s.procs[s.cur].cont
    case InAcquire(m) => AcquireMoves(c, s, Resume, m, Continue(s), q);
    case InCvarWait(_, m) => AcquireMoves(c, s, Resume, m, Continue(s), q);
    case InTtyRead(t, len) => TtyReadMoves(Some(c), s, Resume, t, len, Continue(s), q);
    case InTtyWrite(t, buf) => WriteLoopMoves(Some(c), s, Resume, t, buf, q);
    case InTtyBatch(t, buf, sent) =>
      if sent < |buf| {
        SendMoves(Some(c), s, Resume, t, buf, sent, q);
      } else {
        DoneMoves(Some(c), s, t, buf, Continue(s), q);
      }
  }

  /** A step moves a line as it should if and only if it does not take somebody off it who is not blocked. */
  lemma StepMoves(c: Option<Call>, s: State, l: Label, q: Line)
    requires Inv(s) && Enabled(s, l) && Asks(c, s, l) && s.nextSyncId !in s.locks && s.nextSyncId !in s.cvars
    ensures Moves(c, s, l, Step(s, l), q) <==> !PopsStale(s, l, q)
  {
    InvFresh(s);
    CurRuns(s);
    if !Sees(q, StepKind(s, l)) {
      ElsewhereMoves(c, s, l, q);
    } else {
      SeenMoves(c, s, l, q);
    }
  }

  lemma SeenMoves(c: Option<Call>, s: State, l: Label, q: Line)
    requires Enabled(s, l) && Asks(c, s, l) && s.nextSyncId !in s.locks && s.nextSyncId !in s.cvars && s.maxLine >= 1
    requires s.cur in s.procs && s.cur !in s.blocked && (s.cur != IDLE ==> s.ready != []) && Sees(q, StepKind(s, l))
    ensures Moves(c, s, l, Step(s, l), q) <==> !PopsStale(s, l, q)
  {
    match l
    case Trap(call) => if CallKind(call) == KTty { TtyCallMoves(s, call, q); } else { SyncMoves(s, call, q); }
    case Resume => ResumeMoves(c.value, s, q);
    case Receive(t, line) => ReceiveMoves(c, s, t, line, Step(s, l), q);
    case Transmitted(t) =>
  }

  lemma CurRuns(s: State)
    requires Inv(s)
    ensures s.cur in s.procs && s.cur !in s.blocked && (s.cur != IDLE ==> s.ready != [])
  {
    var h: Home :| Located(s, h);
    CurView(s, h);
  }

  /** Whoever has lined up has been woken, in that order, or is still in the line. */
  ghost predicate InOrder(ss: seq<State>, ls: seq<Label>, i: nat, q: Line)
    requires Traces(ss, ls, i) && i < |ss|
  {
    Joined(ss, ls, i, q) == Woken(ss, ls, i, q) + Queue(ss[i], q)
  }

  lemma Shift(woken: seq<Pid>, queue: seq<Pid>, joins: seq<Pid>, wakes: seq<Pid>, queue': seq<Pid>)
    ensures (woken + queue) + joins == (woken + wakes) + queue' <==> queue + joins == wakes + queue'
  {
    assert (woken + queue) + joins == woken + (queue + joins) && (woken + wakes) + queue' == woken + (wakes + queue');
    SamePrefix(woken, queue + joins, wakes + queue');
  }

  /** What step `i` of the run does to the line */
  ghost predicate MovesAt(ss: seq<State>, ls: seq<Label>, i: nat, q: Line)
    requires Traces(ss, ls, i + 1)
  {
    Moves(LastCall(ss, ls, i + 1, ss[i].cur), ss[i], ls[i], ss[i + 1], q)
  }

  lemma RunMoves(ss: seq<State>, ls: seq<Label>, i: nat, q: Line)
    requires Run(ss, ls) && Traces(ss, ls, i + 1)
    ensures MovesAt(ss, ls, i, q) <==> !PopsStale(ss[i], ls[i], q)
  {
    RunInv(ss, ls, i);
    RunAsks(ss, ls, i);
    NextIsFree(ss, ls, i);
    StepMoves(LastCall(ss, ls, i + 1, ss[i].cur), ss[i], ls[i], q);
  }

  lemma InOrderMore(ss: seq<State>, ls: seq<Label>, i: nat, n: nat, q: Line)
    requires n == i + 1 && Traces(ss, ls, n) && InOrder(ss, ls, i, q)
    ensures InOrder(ss, ls, n, q) <==> MovesAt(ss, ls, i, q)
  {
    var c := LastCall(ss, ls, n, ss[i].cur);
    Shift(Woken(ss, ls, i, q), Queue(ss[i], q), JoinsNow(c, ss[i], ls[i], ss[n], q),
          WakesNow(c, ss[i], ls[i], ss[n], q), Queue(ss[n], q));
  }

  ghost predicate AlwaysInOrder(ss: seq<State>, ls: seq<Label>, i: nat, q: Line)
    requires Traces(ss, ls, i)
  {
    forall j: nat | j <= i :: InOrder(ss, ls, j, q)
  }

  ghost predicate NoneStale(ss: seq<State>, ls: seq<Label>, i: nat, q: Line)
    requires Traces(ss, ls, i)
  {
    forall j | 0 <= j < i :: !PopsStale(ss[j], ls[j], q)
  }

  lemma OneMoreStep(ss: seq<State>, ls: seq<Label>, i: nat, n: nat, q: Line)
    requires n == i + 1 && Traces(ss, ls, n)
    ensures AlwaysInOrder(ss, ls, n, q) <==> AlwaysInOrder(ss, ls, i, q) && InOrder(ss, ls, n, q)
    ensures NoneStale(ss, ls, n, q) <==> NoneStale(ss, ls, i, q) && !PopsStale(ss[i], ls[i], q)
  {
  }

  /** Over any run: a line is woken in arrival order, all the way, if and only if no step took a stale entry off it. */
  lemma {:induction false} OrderedUnlessStale(ss: seq<State>, ls: seq<Label>, i: nat, q: Line)
    requires Run(ss, ls) && Traces(ss, ls, i)
    ensures AlwaysInOrder(ss, ls, i, q) <==> NoneStale(ss, ls, i, q)
  {
    if i == 0 {
      assert InOrder(ss, ls, 0, q);
    } else {
      OrderedUnlessStale(ss, ls, i - 1, q);
      OrderedOn(ss, ls, i - 1, i, q);
    }
  }

  lemma OrderedOn(ss: seq<State>, ls: seq<Label>, i: nat, n: nat, q: Line)
    requires n == i + 1 && Run(ss, ls) && Traces(ss, ls, n)
    requires AlwaysInOrder(ss, ls, i, q) <==> NoneStale(ss, ls, i, q)
    ensures AlwaysInOrder(ss, ls, n, q) <==> NoneStale(ss, ls, n, q)
  {
    OneMoreStep(ss, ls, i, n, q);
    if AlwaysInOrder(ss, ls, i, q) {
      InOrderMore(ss, ls, i, n, q);
      RunMoves(ss, ls, i, q);
    }
  }

  /** Every terminal wakes its writers, and its readers, in the order in which they lined up. */
  lemma TerminalsInOrder(ss: seq<State>, ls: seq<Label>, i: nat, q: Line)
    requires Run(ss, ls) && Traces(ss, ls, i) && (q.WriterLine? || q.ReaderLine?)
    ensures InOrder(ss, ls, i, q)
  {
    OrderedUnlessStale(ss, ls, i, q);
    assert NoneStale(ss, ls, i, q);
  }

  /** While the wait queues agree with the blocked map, whoever is in a queue waits. */
  lemma AgreedLine(s: State, l: Label, q: Line)
    requires Agree(s)
    ensures !PopsStale(s, l, q)
  {
    match q
    case LockLine(m) => if m in s.locks { AgreedQueue(s, m, s.locks[m].waiting); }
    case CvarLine(v) => if v in s.cvars { AgreedQueue(s, v, s.cvars[v]); }
    case _ =>
  }

  lemma AgreedQueue(s: State, id: Id, q: seq<Pid>)
    requires LockQ(s, id, q) || CvarQ(s, id, q)
    ensures AllWait(s, q) && !StaleHead(s, q)
  {
    forall p | p in q ensures p in s.blocked {
      assert V(s, p) == OnLock(id) || V(s, p) == OnCvar(id);
    }
    assert q != [] ==> q[0] in q;
  }

  /**
   In a run without harmful exits every lock and every condition variable wakes its waiters in the
   order in which they lined up: those woken, followed by those in the queue, are all of them.
   */
  lemma FirstComeFirstServed(ss: seq<State>, ls: seq<Label>, i: nat, q: Line)
    requires Run(ss, ls) && Traces(ss, ls, i) && Calm(ss, ls, i)
    ensures InOrder(ss, ls, i, q)
  {
    forall j | 0 <= j < i ensures !PopsStale(ss[j], ls[j], q) {
      RunAgrees(ss, ls, j);
      AgreedLine(ss[j], ls[j], q);
    }
    OrderedUnlessStale(ss, ls, i, q);
  }

  // ------------------------------------------------------------ how many a step wakes

  /** `w` are those of the blocked whom the step unblocks. */
  ghost predicate Unblocks(s: State, s': State, w: seq<Pid>) {
    forall p :: p in w <==> p in s.blocked && p !in s'.blocked
  }

  lemma {:induction false} PopAllUnblocks(s: State, v: Id)
    requires v in s.cvars
    ensures var s' := PopAllCvar(s, v);
      s.ready <= s'.ready && s'.blocked <= s.blocked && Unblocks(s, s', s'.ready[|s.ready|..])
    decreases |s.cvars[v]|
  {
    if s.cvars[v] != [] {
      var s1 := PopCvar(s, v);
      var s' := PopAllCvar(s, v);
      PopAllUnblocks(s1, v);
      assert s'.ready[|s.ready|..] == s1.ready[|s.ready|..] + s'.ready[|s1.ready|..];
    }
  }

  lemma ReleaseUnblocks(s: State, m: Id)
    ensures var waiting := if MayRelease(s, m) then s.locks[m].waiting else [];
      Unblocks(s, DoRelease(s, m), if StaleHead(s, waiting) then [] else Head(waiting))
  {
  }

  /** Whom the call is to wake: all of the line, the first of it, or nobody */
  ghost function Due(s: State, c: Call, q: Line): seq<Pid> {
    match c
    case CBroadcast(_) => Queue(s, q)
    case CSignal(_) => Head(Queue(s, q))
    case CRelease(m) => if MayRelease(s, m) then Head(Queue(s, q)) else []
    case CCvarWait(v, m) => if v in s.cvars && MayRelease(s, m) then Head(Queue(s, q)) else []
    case _ => []
  }

  /** The call takes them off the line, wakes just those whom it readies, and wakes all of them if nobody is stale. */
  ghost predicate WakesDue(s: State, c: Call, s': State, q: Line) {
    var w := Readied(s, Trap(c), s');
    && Queue(s, q) == Due(s, c, q) + Queue(s', q)
    && Unblocks(s, s', w) && (!PopsStale(s, Trap(c), q) ==> w == Due(s, c, q))
  }

  lemma ReleaseWakes(s: State, m: Id)
    requires InUserMode(s)
    ensures WakesDue(s, CRelease(m), Release(s, m), LockLine(m))
  {
    var waiting := if MayRelease(s, m) then s.locks[m].waiting else [];
    ReleaseEffect(s, m);
    ReleaseUnblocks(s, m);
    ReturnReadies(None, s, Trap(CRelease(m)), Release(s, m), LockLine(m),
      if StaleHead(s, waiting) then [] else Head(waiting));
  }

  lemma CvarWaitUnblocks(s: State, v: Id, m: Id)
    requires s.cur in s.procs && s.cur !in s.blocked && s.ready != [] && v in s.cvars
    ensures var waiting := if MayRelease(s, m) then s.locks[m].waiting else [];
      Unblocks(s, CvarWait(s, v, m), if StaleHead(s, waiting) then [] else Head(waiting))
  {
    ReleaseUnblocks(s.(cvars := s.cvars[v := s.cvars[v] + [s.cur]]), m);
  }

  lemma CvarWaitWakes(s: State, v: Id, m: Id, s': State)
    requires InUserMode(s) && s.cur !in s.blocked && s.ready != [] && s' == CvarWait(s, v, m)
    ensures WakesDue(s, CCvarWait(v, m), s', LockLine(m))
  {
    var l := Trap(CCvarWait(v, m));
    if v in s.cvars {
      var waiting := if MayRelease(s, m) then s.locks[m].waiting else [];
      CvarWaitEffect(s, v, m);
      CvarWaitUnblocks(s, v, m);
      SuspendReadies(None, s, l, s', LockLine(m), if StaleHead(s, waiting) then [] else Head(waiting));
    } else {
      ReturnReadies(None, s, l, s', LockLine(m), []);
    }
  }

  lemma SignalWakes(s: State, v: Id)
    requires InUserMode(s)
    ensures WakesDue(s, CSignal(v), Signal(s, v), CvarLine(v))
  {
    var waiting := if v in s.cvars then s.cvars[v] else [];
    SignalEffect(s, v);
    ReturnReadies(None, s, Trap(CSignal(v)), Signal(s, v), CvarLine(v),
      if StaleHead(s, waiting) then [] else Head(waiting));
  }

  lemma BroadcastWakes(s: State, v: Id, s': State)
    requires InUserMode(s) && s' == Broadcast(s, v)
    ensures WakesDue(s, CBroadcast(v), s', CvarLine(v))
  {
    if v in s.cvars {
      PopAllEffect(s, v);
      PopAllUnblocks(s, v);
      assert (s.ready + s.cvars[v])[|s.ready|..] == s.cvars[v];
    }
    assert Readied(s, Trap(CBroadcast(v)), s') == s'.ready[|s.ready|..];
  }

  /** A call that wakes out of the queue of a lock or a condition variable, and that queue */
  predicate WakesOut(c: Call, q: Line) {
    match q
    case LockLine(m) => c == CRelease(m) || (c.CCvarWait? && c.lock == m)
    case CvarLine(v) => c == CSignal(v) || c == CBroadcast(v)
    case _ => false
  }

  /**
   A Release by the holder and a Signal take the first off the line, a Broadcast all; who waits
   of them, and nobody else, stops being blocked and becomes ready.
   */
  lemma CallsWakeDue(ss: seq<State>, ls: seq<Label>, i: nat, q: Line)
    requires Run(ss, ls) && Traces(ss, ls, i + 1) && ls[i].Trap? && WakesOut(ls[i].call, q)
    ensures WakesDue(ss[i], ls[i].call, ss[i + 1], q)
  {
    RunInv(ss, ls, i);
    CurRuns(ss[i]);
    match ls[i].call
    case CRelease(m) => ReleaseWakes(ss[i], m);
    case CCvarWait(v, m) => CvarWaitWakes(ss[i], v, m, ss[i + 1]);
    case CSignal(v) => SignalWakes(ss[i], v);
    case CBroadcast(v) => BroadcastWakes(ss[i], v, ss[i + 1]);
  }
}
