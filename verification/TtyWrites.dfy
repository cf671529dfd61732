/**
 Terminal output over runs: what a terminal has been sent is whole write buffers one after
 the other, then a prefix of the one in progress; and no wake-up of a waiting writer is
 lost.  Holds for the code as it is.
 */
module TtyWrites {
  import opened Basics
  import opened KernelState
  import opened KernelSteps
  import opened Footprint
  import opened Location
  import opened Agreement
  import opened Calls

  /** All bytes handed to the hardware of terminal `t`, in order. */
  ghost function Sent(log: Log, t: nat): Bytes {
    match log
    case Empty => []
    case Snoc(prev, e) => if e.TtySent? && e.t == t then Sent(prev, t) + e.bytes else Sent(prev, t)
  }

  /** The kernel's notes: the buffers of the completed writes to terminal `t`, one after the other. */
  ghost function Whole(log: Log, t: nat): Bytes {
    match log
    case Empty => []
    case Snoc(prev, e) => if e.TtyWritten? && e.t == t then Whole(prev, t) + e.bytes else Whole(prev, t)
  }

  /** Every batch has between 1 and TERMINAL_MAX_LINE bytes. */
  ghost predicate GoodBatches(log: Log, maxLine: nat) {
    match log
    case Empty => true
    case Snoc(prev, e) => GoodBatches(prev, maxLine) && (e.TtySent? ==> 1 <= |e.bytes| <= maxLine)
  }

  /** The part of the write in progress that the hardware has been given. */
  ghost function InFlight(s: State, t: nat): Bytes
    requires t < |s.ttys|
  {
    match s.ttys[t].transmitter
    case None => []
    case Some(p) =>
      if p in s.procs && s.procs[p].cont.InTtyBatch? && s.procs[p].cont.sent <= |s.procs[p].cont.bbuf|
      then s.procs[p].cont.bbuf[..s.procs[p].cont.sent] else []
  }

  ghost predicate StreamOk(s: State, t: nat)
    requires t < |s.ttys|
  {
    Sent(s.log, t) == Whole(s.log, t) + InFlight(s, t)
  }

  ghost predicate Streams(s: State) {
    && GoodBatches(s.log, s.maxLine)
    && forall t | 0 <= t < |s.ttys| :: StreamOk(s, t)
  }

  /** A writer taken off the queue of terminal `t` and about to retry. */
  ghost predicate Retrying(s: State, p: Pid, t: nat)
    requires t < |s.ttys|
  {
    p in s.procs && s.procs[p].cont.InTtyWrite? && s.procs[p].cont.wtty == t && p !in s.ttys[t].transmitting
  }

  ghost predicate Alert(s: State, t: nat)
    requires t < |s.ttys|
  {
    s.ttys[t].transmitter == None && s.ttys[t].transmitting != [] ==> exists p :: Retrying(s, p, t)
  }

  ghost predicate AllAlert(s: State) {
    forall t | 0 <= t < |s.ttys| :: Alert(s, t)
  }

  lemma {:induction false} OtherEvents(log: Log, log': Log, kind: Kind, t: nat, maxLine: nat)
    requires Grows(log, log', kind) && kind != KTty
    ensures Sent(log', t) == Sent(log, t) && Whole(log', t) == Whole(log, t)
    ensures GoodBatches(log', maxLine) == GoodBatches(log, maxLine)
  {
    if log' != log {
      OtherEvents(log, log'.prev, kind, t, maxLine);
    }
  }

  /** The running process is not the transmitter, so its step leaves what is in flight. */
  lemma SameFlight(s: State, h: Home, s': State, t: nat)
    requires Located(s, h) && t < |s.ttys| && t < |s'.ttys| && OthersUntouched(s, s')
    requires s'.ttys[t].transmitter == s.ttys[t].transmitter && s.ttys[t].transmitter != Some(s.cur)
    ensures InFlight(s', t) == InFlight(s, t)
  {
    assert Sender(s.ttys[t], s.procs, h, t);
  }

  lemma ElsewhereKeeps(s: State, h: Home, l: Label)
    requires Located(s, h) && Enabled(s, l) && StepKind(s, l) != KTty && Streams(s) && AllAlert(s)
    ensures Streams(Step(s, l)) && AllAlert(Step(s, l))
  {
    var s' := Step(s, l);
    assert Inv(s);
    InvFresh(s);
    StepTouches(s, l);
    OtherEvents(s.log, s'.log, StepKind(s, l), 0, s.maxLine);
    assert OthersUntouched(s, s') && s'.ttys == s.ttys;
    assert !s.procs[s.cur].cont.InTtyBatch? && !s.procs[s.cur].cont.InTtyWrite?;
    forall t | 0 <= t < |s'.ttys| ensures StreamOk(s', t) && Alert(s', t) {
      assert StreamOk(s, t) && Alert(s, t);
      assert Sender(s.ttys[t], s.procs, h, t);
      OtherEvents(s.log, s'.log, StepKind(s, l), t, s.maxLine);
      SameFlight(s, h, s', t);
      StillAlert(s, s', t);
    }
  }

  lemma StillAlert(s: State, s': State, t: nat)
    requires t < |s.ttys| && t < |s'.ttys| && Alert(s, t) && OthersUntouched(s, s')
    requires s'.ttys[t].transmitter == s.ttys[t].transmitter && s'.ttys[t].transmitting == s.ttys[t].transmitting
    requires s.cur in s.procs && !(s.procs[s.cur].cont.InTtyWrite? && s.procs[s.cur].cont.wtty == t)
    ensures Alert(s', t)
  {
    if s.ttys[t].transmitter == None && s.ttys[t].transmitting != [] {
      var p :| Retrying(s, p, t);
      assert Retrying(s', p, t);
    }
  }

  // ------------------------------------------------------------ steps at terminal `t`

  /** What a step at terminal `t` does to the others: nothing. */
  ghost predicate OnlyTty(s: State, s': State, t: nat) {
    && t < |s.ttys| && |s'.ttys| == |s.ttys| && s'.maxLine == s.maxLine && OthersUntouched(s, s')
    && forall u | 0 <= u < |s.ttys| && u != t :: s'.ttys[u] == s.ttys[u]
  }

  lemma OthersKeep(s: State, h: Home, s': State, t: nat, u: nat)
    requires Located(s, h) && OnlyTty(s, s', t) && u < |s.ttys| && u != t
    requires s.procs[s.cur].cont.InTtyBatch? ==> s.procs[s.cur].cont.btty == t
    requires s.procs[s.cur].cont.InTtyWrite? ==> s.procs[s.cur].cont.wtty == t
    requires Sent(s'.log, u) == Sent(s.log, u) && Whole(s'.log, u) == Whole(s.log, u)
    requires StreamOk(s, u) && Alert(s, u)
    ensures StreamOk(s', u) && Alert(s', u)
  {
    assert Sender(s.ttys[u], s.procs, h, u);
    SameFlight(s, h, s', u);
    StillAlert(s, s', u);
  }

  lemma SendKeeps(s: State, h: Home, t: nat, buf: Bytes, sent: nat)
    requires Located(s, h) && Streams(s) && AllAlert(s) && t < |s.ttys| && sent < |buf|
    requires if s.procs[s.cur].cont.InTtyBatch? then s.procs[s.cur].cont == InTtyBatch(t, buf, sent)
             else s.ttys[t].transmitter == None && sent == 0
    requires s.procs[s.cur].cont.InTtyWrite? ==> s.procs[s.cur].cont.wtty == t
    ensures Streams(SendBatch(s, t, buf, sent)) && AllAlert(SendBatch(s, t, buf, sent))
  {
    var n := Min(s.maxLine, |buf| - sent);
    var s' := SendBatch(s, t, buf, sent);
    assert s'.log == Snoc(s.log, TtySent(s.cur, t, buf[sent..sent + n]));
    assert s'.procs[s.cur].cont == InTtyBatch(t, buf, sent + n) && s'.ttys[t].transmitter == Some(s.cur);
    forall u | 0 <= u < |s'.ttys| ensures StreamOk(s', u) && Alert(s', u) {
      assert StreamOk(s, u) && Alert(s, u);
      if u == t {
        SentHere(s, h, t, buf, sent);
      } else {
        OthersKeep(s, h, s', t, u);
      }
    }
  }

  /** The terminal that the batch goes to */
  lemma SentHere(s: State, h: Home, t: nat, buf: Bytes, sent: nat)
    requires Located(s, h) && t < |s.ttys| && sent < |buf| && StreamOk(s, t)
    requires if s.procs[s.cur].cont.InTtyBatch? then s.procs[s.cur].cont == InTtyBatch(t, buf, sent)
             else s.ttys[t].transmitter == None && sent == 0
    ensures StreamOk(SendBatch(s, t, buf, sent), t) && Alert(SendBatch(s, t, buf, sent), t)
  {
    var n := Min(s.maxLine, |buf| - sent);
    FlightBefore(s, h, t, buf, sent);
    SentNow(s, t, buf, sent);
    NextBytes(Whole(s.log, t), buf, sent, sent + n);
  }

  lemma FlightBefore(s: State, h: Home, t: nat, buf: Bytes, sent: nat)
    requires Located(s, h) && t < |s.ttys| && sent < |buf|
    requires if s.procs[s.cur].cont.InTtyBatch? then s.procs[s.cur].cont == InTtyBatch(t, buf, sent)
             else s.ttys[t].transmitter == None && sent == 0
    ensures InFlight(s, t) == buf[..sent]
  {
    assert Fits(s.procs[s.cur].cont, s.cur, Running, s.ttys);
  }

  lemma SentNow(s: State, t: nat, buf: Bytes, sent: nat)
    requires s.cur in s.procs && t < |s.ttys| && sent < |buf|
    ensures var s' := SendBatch(s, t, buf, sent); var next := sent + Min(s.maxLine, |buf| - sent);
      && |s'.ttys| == |s.ttys| && s'.ttys[t].transmitter == Some(s.cur) && InFlight(s', t) == buf[..next]
      && Sent(s'.log, t) == Sent(s.log, t) + buf[sent..next] && Whole(s'.log, t) == Whole(s.log, t)
  {
  }

  lemma NextBytes(done: Bytes, buf: Bytes, sent: nat, next: nat)
    requires sent <= next <= |buf|
    ensures (done + buf[..sent]) + buf[sent..next] == done + buf[..next]
  {
    assert buf[..next] == buf[..sent] + buf[sent..next];
  }

  lemma DoneKeeps(s: State, h: Home, t: nat, buf: Bytes)
    requires Located(s, h) && Streams(s) && AllAlert(s) && t < |s.ttys|
    requires s.procs[s.cur].cont == InTtyBatch(t, buf, |buf|)
    ensures Streams(BatchLoop(s, t, buf, |buf|)) && AllAlert(BatchLoop(s, t, buf, |buf|))
  {
    var s' := BatchLoop(s, t, buf, |buf|);
    assert s'.log == Snoc(s.log, TtyWritten(s.cur, t, buf));
    assert s'.procs == s.procs[s.cur := s.procs[s.cur].(cont := User, ret := |buf|)];
    forall u | 0 <= u < |s'.ttys| ensures StreamOk(s', u) && Alert(s', u) {
      assert StreamOk(s, u) && Alert(s, u);
      if u == t {
        assert Fits(s.procs[s.cur].cont, s.cur, Running, s.ttys);
        assert buf[..|buf|] == buf;
        PopAlert(s, h, s', t);
      } else {
        OthersKeep(s, h, s', t, u);
      }
    }
  }

  /** The writer that unblockTransmitter takes off the queue retries. */
  lemma PopAlert(s: State, h: Home, s': State, t: nat)
    requires Located(s, h) && t < |s.ttys| && t < |s'.ttys| && OthersUntouched(s, s')
    requires var q := s.ttys[t].transmitting; s'.ttys[t].transmitting == if q == [] then [] else q[1..]
    ensures Alert(s', t)
  {
    var q := s.ttys[t].transmitting;
    assert TtyQueues(s.ttys[t], h, t);
    if q != [] {
      assert h[q[0]] == TxWait(t) && Fits(s.procs[q[0]].cont, q[0], h[q[0]], s.ttys);
      assert q[0] !in q[1..];
      assert Retrying(s', q[0], t);
    }
  }

  lemma WriteLoopKeeps(s: State, h: Home, t: nat, buf: Bytes)
    requires CanCall(s, h) && Streams(s) && AllAlert(s) && t < |s.ttys| && buf != []
    requires s.procs[s.cur].cont.InTtyWrite? ==> s.procs[s.cur].cont.wtty == t
    ensures Streams(TtyWriteLoop(s, t, buf)) && AllAlert(TtyWriteLoop(s, t, buf))
  {
    if s.ttys[t].transmitter == None {
      SendKeeps(s, h, t, buf, 0);
    } else {
      WaitKeeps(s, h, t, buf);
    }
  }

  lemma WaitKeeps(s: State, h: Home, t: nat, buf: Bytes)
    requires CanCall(s, h) && Streams(s) && AllAlert(s) && t < |s.ttys| && buf != []
    requires s.procs[s.cur].cont.InTtyWrite? ==> s.procs[s.cur].cont.wtty == t
    requires s.ttys[t].transmitter != None
    ensures Streams(TtyWriteLoop(s, t, buf)) && AllAlert(TtyWriteLoop(s, t, buf))
  {
    var s' := TtyWriteLoop(s, t, buf);
    assert s'.log == s.log && OnlyTty(s, s', t) && s'.ttys[t].transmitter == s.ttys[t].transmitter;
    forall u | 0 <= u < |s'.ttys| ensures StreamOk(s', u) && Alert(s', u) {
      assert StreamOk(s, u) && Alert(s, u);
      assert Sender(s.ttys[u], s.procs, h, u);
      if u == t {
        SameFlight(s, h, s', t);
      } else {
        OthersKeep(s, h, s', t, u);
      }
    }
  }

  /** What the steps of terminal input have in common */
  ghost predicate Inputs(s: State, s': State) {
    && |s'.ttys| == |s.ttys| && s'.maxLine == s.maxLine
    && (s'.log == s.log || (s'.log.Snoc? && s'.log.prev == s.log && !s'.log.ev.TtySent? && !s'.log.ev.TtyWritten?))
    && forall u | 0 <= u < |s.ttys| ::
         s'.ttys[u].transmitter == s.ttys[u].transmitter && s'.ttys[u].transmitting == s.ttys[u].transmitting
  }

  /** Steps of terminal input, and the transmit trap, leave output alone. */
  lemma InputKeeps(s: State, h: Home, s': State)
    requires Located(s, h) && Streams(s) && AllAlert(s) && OthersUntouched(s, s')
    requires !s.procs[s.cur].cont.InTtyBatch? && !s.procs[s.cur].cont.InTtyWrite? && Inputs(s, s')
    ensures Streams(s') && AllAlert(s')
  {
    forall t | 0 <= t < |s'.ttys| ensures StreamOk(s', t) && Alert(s', t) {
      assert StreamOk(s, t) && Alert(s, t);
      assert Sender(s.ttys[t], s.procs, h, t);
      SameFlight(s, h, s', t);
      StillAlert(s, s', t);
    }
  }

  lemma ReadEffect(s: State, t: nat, len: int)
    requires s.cur in s.procs && t < |s.ttys|
    ensures Inputs(s, TtyRead(s, t, len)) && OthersUntouched(s, TtyRead(s, t, len))
  {
    if len > 0 {
      TtyReadLoopTouches(s, t, len);
      ReadLoopEffect(s, t, len);
    }
  }

  lemma ReadLoopEffect(s: State, t: nat, len: int)
    requires s.cur in s.procs && t < |s.ttys| && len > 0
    ensures Inputs(s, TtyReadLoop(s, t, len))
  {
    var tty := s.ttys[t];
    if tty.lineReady && len < |tty.line| {
      var s1 := Note(SetTty(s, t, tty.(line := tty.line[len..])), TtyTaken(s.cur, t, tty.line[..len]));
      assert Inputs(s, s1);
    }
  }

  lemma ReceiveKeeps(s: State, h: Home, l: Label)
    requires Located(s, h) && Enabled(s, l) && (l.Receive? || l.Transmitted?) && Streams(s) && AllAlert(s)
    ensures Streams(Step(s, l)) && AllAlert(Step(s, l))
  {
    assert Inv(s);
    InvFresh(s);
    StepTouches(s, l);
    InputEffect(s, l);
    InputKeeps(s, h, Step(s, l));
  }

  lemma ReceiveEffect(s: State, t: nat, line: Option<Bytes>)
    requires t < |s.ttys|
    ensures Inputs(s, TtyReceive(s, t, line))
  {
    if line.Some? {
      var s1 := Note(SetTty(s, t, s.ttys[t].(line := line.value, lineReady := true)), TtyReceived(t, line));
      assert Inputs(s, s1);
    }
  }

  lemma InputEffect(s: State, l: Label)
    requires Enabled(s, l) && (l.Receive? || l.Transmitted?)
    ensures Inputs(s, Step(s, l))
  {
    if l.Receive? {
      ReceiveEffect(s, l.tty, l.line);
    }
  }

  lemma ReadKeeps(s: State, h: Home, t: nat, len: int)
    requires CanCall(s, h) && Streams(s) && AllAlert(s) && t < |s.ttys| && !s.procs[s.cur].cont.InTtyWrite?
    ensures Streams(TtyRead(s, t, len)) && AllAlert(TtyRead(s, t, len))
  {
    ReadEffect(s, t, len);
    InputKeeps(s, h, TtyRead(s, t, len));
  }

  lemma CallKeeps(s: State, h: Home, c: Call)
    requires CanCall(s, h) && InUserMode(s) && GoodCall(s, c) && CallKind(c) == KTty && Streams(s) && AllAlert(s)
    ensures Streams(DoCall(s, c)) && AllAlert(DoCall(s, c))
  {
    match c
    case CTtyRead(t, len) => ReadKeeps(s, h, t, len);
    case CTtyWrite(t, len, buf) =>
      if len > 0 {
        WriteLoopKeeps(s, h, t, buf[..len]);
      } else {
        InputKeeps(s, h, DoCall(s, c));
      }
  }

  lemma ContinueKeeps(s: State, h: Home)
    requires Located(s, h) && s.mode == Up && ContKind(s.procs[s.cur].cont) == KTty && Streams(s) && AllAlert(s)
    requires GoodCont(s, s.procs[s.cur].cont)
    ensures Streams(Continue(s)) && AllAlert(Continue(s))
  {
    match s.procs[s.cur].cont
    case InTtyRead(t, len) => ReadKeeps(s, h, t, len);
    case InTtyWrite(t, buf) => WriteLoopKeeps(s, h, t, buf);
    case InTtyBatch(t, buf, sent) =>
      if sent < |buf| {
        SendKeeps(s, h, t, buf, sent);
      } else {
        DoneKeeps(s, h, t, buf);
      }
  }

  lemma TtyStepKeeps(s: State, h: Home, l: Label)
    requires Located(s, h) && Enabled(s, l) && StepKind(s, l) == KTty && Streams(s) && AllAlert(s)
    ensures Streams(Step(s, l)) && AllAlert(Step(s, l))
  {
    match l
    case Trap(c) => CallKeeps(s, h, c);
    case Resume => ContinueKeeps(s, h);
    case Receive(t, line) => ReceiveKeeps(s, h, l);
    case Transmitted(t) => ReceiveKeeps(s, h, l);
  }

  lemma StepKeeps(s: State, l: Label)
    requires Inv(s) && Enabled(s, l) && Streams(s) && AllAlert(s)
    ensures Streams(Step(s, l)) && AllAlert(Step(s, l))
  {
    var h: Home :| Located(s, h);
    if StepKind(s, l) == KTty {
      TtyStepKeeps(s, h, l);
    } else {
      ElsewhereKeeps(s, h, l);
    }
  }

  lemma {:induction false} RunStreams(ss: seq<State>, ls: seq<Label>, i: nat)
    requires Run(ss, ls) && i < |ss|
    ensures Streams(ss[i]) && AllAlert(ss[i])
  {
    if i > 0 {
      RunStreams(ss, ls, i - 1);
      RunInv(ss, ls, i - 1);
      StepKeeps(ss[i - 1], ls[i - 1]);
    }
  }

  // ------------------------------------------------------------ what the callers did

  /** What the running process, whose last call is `c`, has written to terminal `t` by a call that returns now */
  ghost function WroteNow(c: Option<Call>, s: State, l: Label, s': State, t: nat): Bytes {
    if Returns(s, l, s') && Code(s, s') > 0 && c.Some? && c.value.CTtyWrite? && c.value.tty == t
       && 0 <= c.value.len <= |c.value.buf|
    then c.value.buf[..c.value.len] else []
  }

  /** The bytes of the writes to terminal `t` that have returned in the first `i` steps, in order */
  ghost function WrittenTo(ss: seq<State>, ls: seq<Label>, i: nat, t: nat): Bytes
    requires Traces(ss, ls, i)
  {
    if i == 0 then []
    else WrittenTo(ss, ls, i - 1, t) + WroteNow(LastCall(ss, ls, i, ss[i - 1].cur), ss[i - 1], ls[i - 1], ss[i], t)
  }

  /** The kernel's note of completed writes grows by what the step's call has written. */
  ghost predicate Noted(c: Option<Call>, s: State, l: Label, s': State, t: nat) {
    Whole(s'.log, t) == Whole(s.log, t) + WroteNow(c, s, l, s', t)
  }

  lemma OtherNoted(c: Option<Call>, s: State, l: Label, t: nat)
    requires s.nextPid !in s.procs && Enabled(s, l) && Asks(c, s, l) && StepKind(s, l) != KTty
    ensures Noted(c, s, l, Step(s, l), t)
  {
    StepTouches(s, l);
    OtherEvents(s.log, Step(s, l).log, StepKind(s, l), t, 0);
  }

  lemma ReadNoted(c: Option<Call>, s: State, l: Label, u: nat, len: int, t: nat)
    requires s.cur in s.procs && u < |s.ttys| && (c.Some? ==> c.value.CTtyRead?)
    ensures Noted(c, s, l, TtyRead(s, u, len), t)
  {
    ReadEffect(s, u, len);
  }

  lemma WriteLoopNoted(c: Option<Call>, s: State, l: Label, u: nat, buf: Bytes, t: nat)
    requires s.cur in s.procs && u < |s.ttys| && buf != []
    ensures Noted(c, s, l, TtyWriteLoop(s, u, buf), t)
  {
    TtyWriteParks(s, u, buf, 0);
  }

  lemma BatchNoted(c: Call, s: State, u: nat, buf: Bytes, sent: nat, t: nat)
    requires s.cur in s.procs && u < |s.ttys| && Writes(c, u, buf)
    ensures Noted(Some(c), s, Resume, BatchLoop(s, u, buf, sent), t)
  {
    var s' := BatchLoop(s, u, buf, sent);
    if sent < |buf| {
      assert s'.procs[s.cur].cont.InTtyBatch?;
    } else {
      assert s'.log == Snoc(s.log, TtyWritten(s.cur, u, buf)) && Code(s, s') == |buf|;
    }
  }

  lemma StepNoted(c: Option<Call>, s: State, l: Label, t: nat)
    requires Inv(s) && Enabled(s, l) && Asks(c, s, l)
    ensures Noted(c, s, l, Step(s, l), t)
  {
    InvFresh(s);
    if StepKind(s, l) != KTty {
      OtherNoted(c, s, l, t);
    } else if l.Resume? {
      ResumeNoted(c.value, s, t);
    } else if l.Trap? {
      CallNoted(s, l.call, t);
    } else {
      InputNoted(c, s, l, t);
    }
  }

  lemma InputNoted(c: Option<Call>, s: State, l: Label, t: nat)
    requires Enabled(s, l) && (l.Receive? || l.Transmitted?)
    ensures Noted(c, s, l, Step(s, l), t)
  {
    InputEffect(s, l);
  }

  lemma ResumeNoted(c: Call, s: State, t: nat)
    requires Enabled(s, Resume) && ContKind(s.procs[s.cur].cont) == KTty && ParkedIn(s.procs[s.cur].cont, c)
    ensures Noted(Some(c), s, Resume, Continue(s), t)
  {
    match s.procs[s.cur].cont
    case InTtyRead(u, len) => ReadNoted(Some(c), s, Resume, u, len, t);
    case InTtyWrite(u, buf) => WriteLoopNoted(Some(c), s, Resume, u, buf, t);
    case InTtyBatch(u, buf, sent) => BatchNoted(c, s, u, buf, sent, t);
  }

  lemma CallNoted(s: State, c: Call, t: nat)
    requires InUserMode(s) && GoodCall(s, c) && CallKind(c) == KTty
    ensures Noted(Some(c), s, Trap(c), DoCall(s, c), t)
  {
    if c.CTtyRead? {
      ReadNoted(Some(c), s, Trap(c), c.tty, c.len, t);
    } else if c.len > 0 {
      WriteLoopNoted(Some(c), s, Trap(c), c.tty, c.buf[..c.len], t);
    }
  }

  /** What the kernel has noted is what the calls say. */
  lemma {:induction false} RunNoted(ss: seq<State>, ls: seq<Label>, i: nat, t: nat)
    requires Run(ss, ls) && Traces(ss, ls, i)
    ensures Whole(ss[i].log, t) == WrittenTo(ss, ls, i, t)
  {
    if i > 0 {
      RunNoted(ss, ls, i - 1, t);
      RunInv(ss, ls, i - 1);
      RunAsks(ss, ls, i - 1);
      StepNoted(LastCall(ss, ls, i, ss[i - 1].cur), ss[i - 1], ls[i - 1], t);
    }
  }

  /** `p`, transmitting `c.bbuf` to terminal `t`, has had the first `c.sent` bytes taken. */
  ghost predicate Transmitting(s: State, t: nat, p: Pid, last: Option<Call>)
    requires t < |s.ttys| && p in s.procs && s.procs[p].cont.InTtyBatch?
  {
    var c := s.procs[p].cont;
    && last.Some? && Writes(last.value, t, c.bbuf)
    && s.ttys[t].transmitter == Some(p)
    && 0 < c.sent <= |c.bbuf| && InFlight(s, t) == c.bbuf[..c.sent]
  }

  /**
   In every state of every run: a terminal's output is the bytes of the writes that have
   returned, one call after the other, followed by a prefix of the write in progress, in
   batches of 1 to TERMINAL_MAX_LINE bytes; and the writer in progress is the terminal's
   current transmitter until its last byte, its bytes those of its call.
   */
  lemma NeverInterleaved(ss: seq<State>, ls: seq<Label>, i: nat, t: nat, p: Pid)
    requires Run(ss, ls) && i < |ss| && t < |ss[i].ttys|
    ensures Sent(ss[i].log, t) == WrittenTo(ss, ls, i, t) + InFlight(ss[i], t)
    ensures GoodBatches(ss[i].log, ss[i].maxLine)
    ensures p in ss[i].procs && ss[i].procs[p].cont.InTtyBatch? && ss[i].procs[p].cont.btty == t ==>
      Transmitting(ss[i], t, p, LastCall(ss, ls, i, p))
  {
    RunStreams(ss, ls, i);
    RunNoted(ss, ls, i, t);
    RunInv(ss, ls, i);
    var h: Home :| Located(ss[i], h);
    assert StreamOk(ss[i], t);
    if p in ss[i].procs {
      RunParks(ss, ls, i, p);
      assert Fits(ss[i].procs[p].cont, p, h[p], ss[i].ttys);
      assert GoodCont(ss[i], ss[i].procs[p].cont);
    }
  }

  /** A free terminal with waiting writers has one that is ready or running, about to retry. */
  lemma NoLostWriter(ss: seq<State>, ls: seq<Label>, i: nat, t: nat) returns (p: Pid)
    requires Run(ss, ls) && i < |ss| && t < |ss[i].ttys|
    requires ss[i].ttys[t].transmitter == None && ss[i].ttys[t].transmitting != []
    ensures p in ss[i].procs && ss[i].procs[p].cont.InTtyWrite? && ss[i].procs[p].cont.wtty == t
    ensures p in ss[i].ready || p == ss[i].cur
  {
    RunStreams(ss, ls, i);
    RunInv(ss, ls, i);
    var h: Home :| Located(ss[i], h);
    assert Alert(ss[i], t) && TtyQueues(ss[i].ttys[t], h, t);
    p :| Retrying(ss[i], p, t);
    assert Fits(ss[i].procs[p].cont, p, h[p], ss[i].ttys);
  }

  // ------------------------------------------------------------ batches

  /** If the step gives terminal `t` bytes, it is a full batch, or the rest of the caller's bytes. */
  ghost predicate FullBatch(c: Option<Call>, s: State, s': State, t: nat)
    requires t < |s'.ttys|
  {
    var n := |Sent(s'.log, t)| - |Sent(s.log, t)|;
    n == 0 || n == s.maxLine || (0 < n < s.maxLine && c.Some? && Writes(c.value, t, InFlight(s', t)))
  }

  lemma SendFull(c: Call, s: State, u: nat, buf: Bytes, sent: nat, t: nat)
    requires s.cur in s.procs && u < |s.ttys| && t < |s.ttys| && sent < |buf| && Writes(c, u, buf)
    ensures t < |SendBatch(s, u, buf, sent).ttys| && FullBatch(Some(c), s, SendBatch(s, u, buf, sent), t)
  {
    SentNow(s, u, buf, sent);
    if t == u {
      assert buf[..|buf|] == buf;
    } else {
      assert SendBatch(s, u, buf, sent).log.prev == s.log;
    }
  }

  lemma ResumeFull(c: Call, s: State, t: nat)
    requires Enabled(s, Resume) && ContKind(s.procs[s.cur].cont) == KTty && ParkedIn(s.procs[s.cur].cont, c)
    requires t < |s.ttys|
    ensures t < |Continue(s).ttys| && FullBatch(Some(c), s, Continue(s), t)
  {
    match s.procs[s.cur].cont
    case InTtyRead(u, len) => ReadEffect(s, u, len);
    case InTtyWrite(u, buf) => if s.ttys[u].transmitter == None { SendFull(c, s, u, buf, 0, t); }
    case InTtyBatch(u, buf, sent) => if sent < |buf| { SendFull(c, s, u, buf, sent, t); }
  }

  lemma CallFull(c: Call, s: State, t: nat)
    requires InUserMode(s) && GoodCall(s, c) && CallKind(c) == KTty && t < |s.ttys|
    ensures t < |DoCall(s, c).ttys| && FullBatch(Some(c), s, DoCall(s, c), t)
  {
    if c.CTtyRead? {
      ReadEffect(s, c.tty, c.len);
    } else if c.len > 0 && s.ttys[c.tty].transmitter == None {
      SendFull(c, s, c.tty, c.buf[..c.len], 0, t);
    }
  }

  /** Over any run the hardware is given TERMINAL_MAX_LINE bytes at a time, except for the rest of a call's bytes. */
  lemma BatchesAreFull(ss: seq<State>, ls: seq<Label>, i: nat, t: nat)
    requires Run(ss, ls) && Traces(ss, ls, i + 1) && t < |ss[i].ttys|
    ensures t < |ss[i + 1].ttys| && FullBatch(LastCall(ss, ls, i + 1, ss[i].cur), ss[i], ss[i + 1], t)
  {
    var s, l := ss[i], ls[i];
    RunInv(ss, ls, i);
    RunAsks(ss, ls, i);
    InvFresh(s);
    if StepKind(s, l) != KTty {
      StepTouches(s, l);
      OtherEvents(s.log, ss[i + 1].log, StepKind(s, l), t, 0);
    } else if l.Trap? {
      CallFull(l.call, s, t);
    } else if l.Resume? {
      ResumeFull(LastCall(ss, ls, i + 1, s.cur).value, s, t);
    } else {
      InputEffect(s, l);
    }
  }

  /**
   A process suspended in the middle of a write has a transmit trap to come, and that trap lets it
   go on at once; the process that was interrupted is last in line.
   */
  lemma TransmitGoesOn(ss: seq<State>, ls: seq<Label>, i: nat, t: nat, p: Pid)
    requires Run(ss, ls) && Traces(ss, ls, i + 1) && p in ss[i].procs
    requires ss[i].procs[p].cont.InTtyBatch? && ss[i].procs[p].cont.btty == t && p != ss[i].cur
    ensures t < |ss[i].ttys| && ss[i].ttys[t].busy
    ensures ls[i] == Transmitted(t) ==> ss[i + 1].cur == p && ss[i + 1].ready == ss[i].ready + [ss[i].cur]
  {
    RunInv(ss, ls, i);
    var h: Home :| Located(ss[i], h);
    assert Fits(ss[i].procs[p].cont, p, h[p], ss[i].ttys);
  }

  /** A terminal at work has such a process. */
  lemma SomebodySends(ss: seq<State>, ls: seq<Label>, i: nat, t: nat) returns (p: Pid)
    requires Run(ss, ls) && i < |ss| && t < |ss[i].ttys| && ss[i].ttys[t].busy
    ensures p in ss[i].procs && p != ss[i].cur && ss[i].procs[p].cont.InTtyBatch? && ss[i].procs[p].cont.btty == t
  {
    RunInv(ss, ls, i);
    var h: Home :| Located(ss[i], h);
    assert Sender(ss[i].ttys[t], ss[i].procs, h, t);
    p := ss[i].ttys[t].transmitter.value;
  }
}
