/**
 Terminal input over runs.  Between two receives the successive reads return the received
 line piece by piece; a ready line with queued readers has a woken reader.  Holds for the
 code as it is.
 */
module TtyReads {
  import opened Basics
  import opened KernelState
  import opened KernelSteps
  import opened Footprint
  import opened Location
  import opened Calls

  /** The kernel's notes: the line last received on terminal `t` (`None`: nothing yet, or end of file). */
  ghost function LastLine(log: Log, t: nat): Option<Bytes> {
    match log
    case Empty => None
    case Snoc(prev, e) => if e.TtyReceived? && e.t == t then e.line else LastLine(prev, t)
  }

  /** What reads of terminal `t` have returned since the last receive, in order. */
  ghost function TakenSince(log: Log, t: nat): Bytes {
    match log
    case Empty => []
    case Snoc(prev, e) =>
      if e.TtyReceived? && e.t == t then []
      else if e.TtyTaken? && e.t == t then TakenSince(prev, t) + e.bytes
      else TakenSince(prev, t)
  }

  /** How many reads of terminal `t` have returned since the last receive. */
  ghost function ReadsSince(log: Log, t: nat): nat {
    match log
    case Empty => 0
    case Snoc(prev, e) =>
      if e.TtyReceived? && e.t == t then 0
      else if e.TtyTaken? && e.t == t then ReadsSince(prev, t) + 1
      else ReadsSince(prev, t)
  }

  ghost predicate LineOk(tty: Tty, log: Log, t: nat) {
    && (!tty.lineReady ==> tty.line == [])
    && match LastLine(log, t)
       case None => !tty.lineReady && TakenSince(log, t) == []
       case Some(line) =>
         && line == TakenSince(log, t) + tty.line
         && (tty.lineReady <==> ReadsSince(log, t) == 0 || tty.line != [])
  }

  ghost predicate Lines(s: State) {
    forall t | 0 <= t < |s.ttys| :: LineOk(s.ttys[t], s.log, t)
  }

  /** A reader taken off the queue of terminal `t` and about to retry. */
  ghost predicate Retrying(s: State, p: Pid, t: nat)
    requires t < |s.ttys|
  {
    p in s.procs && s.procs[p].cont.InTtyRead? && s.procs[p].cont.rtty == t && p !in s.ttys[t].reading
  }

  ghost predicate Alert(s: State, t: nat)
    requires t < |s.ttys|
  {
    s.ttys[t].lineReady && s.ttys[t].reading != [] ==> exists p :: Retrying(s, p, t)
  }

  ghost predicate AllAlert(s: State) {
    forall t | 0 <= t < |s.ttys| :: Alert(s, t)
  }

  ghost predicate Good(s: State) {
    Lines(s) && AllAlert(s)
  }

  /** Events that the input side of terminal `t` does not see. */
  ghost predicate Unseen(e: Event, t: nat) {
    !(e.TtyReceived? && e.t == t) && !(e.TtyTaken? && e.t == t)
  }

  lemma {:induction false} OtherKinds(log: Log, log': Log, kind: Kind, t: nat)
    requires Grows(log, log', kind) && kind != KTty
    ensures LastLine(log', t) == LastLine(log, t) && TakenSince(log', t) == TakenSince(log, t)
    ensures ReadsSince(log', t) == ReadsSince(log, t)
  {
    if log' != log {
      OtherKinds(log, log'.prev, kind, t);
    }
  }

  lemma StillAlert(s: State, s': State, t: nat)
    requires t < |s.ttys| && t < |s'.ttys| && Alert(s, t) && OthersUntouched(s, s')
    requires s'.ttys[t].lineReady == s.ttys[t].lineReady && s'.ttys[t].reading == s.ttys[t].reading
    requires s.cur in s.procs && !(s.procs[s.cur].cont.InTtyRead? && s.procs[s.cur].cont.rtty == t)
    ensures Alert(s', t)
  {
    if s.ttys[t].lineReady && s.ttys[t].reading != [] {
      var p :| Retrying(s, p, t);
      assert Retrying(s', p, t);
    }
  }

  lemma ElsewhereKeeps(s: State, l: Label)
    requires Inv(s) && Enabled(s, l) && StepKind(s, l) != KTty && Good(s)
    ensures Good(Step(s, l))
  {
    var s' := Step(s, l);
    InvFresh(s);
    StepTouches(s, l);
    assert OthersUntouched(s, s') && s'.ttys == s.ttys;
    assert !s.procs[s.cur].cont.InTtyRead?;
    forall t | 0 <= t < |s'.ttys| ensures LineOk(s'.ttys[t], s'.log, t) && Alert(s', t) {
      assert LineOk(s.ttys[t], s.log, t) && Alert(s, t);
      OtherKinds(s.log, s'.log, StepKind(s, l), t);
      StillAlert(s, s', t);
    }
  }

  // ------------------------------------------------------------ steps at terminal `t`

  /** A step at terminal `t` seen from terminal `u`, or an output step seen from any. */
  lemma OtherTtyKeeps(s: State, s': State, u: nat)
    requires Good(s) && u < |s.ttys| && u < |s'.ttys| && OthersUntouched(s, s')
    requires s.cur in s.procs && !(s.procs[s.cur].cont.InTtyRead? && s.procs[s.cur].cont.rtty == u)
    requires var a := s.ttys[u]; var b := s'.ttys[u];
      (b.line, b.lineReady, b.reading) == (a.line, a.lineReady, a.reading)
    requires s'.log == s.log || (s'.log.Snoc? && s'.log.prev == s.log && Unseen(s'.log.ev, u))
    ensures LineOk(s'.ttys[u], s'.log, u) && Alert(s', u)
  {
    assert LineOk(s.ttys[u], s.log, u) && Alert(s, u);
    StillAlert(s, s', u);
  }

  lemma OutputKeeps(s: State, s': State)
    requires Good(s) && OthersUntouched(s, s') && |s'.ttys| == |s.ttys|
    requires s.cur in s.procs && !s.procs[s.cur].cont.InTtyRead?
    requires forall u | 0 <= u < |s.ttys| ::
      s'.ttys[u].line == s.ttys[u].line && s'.ttys[u].lineReady == s.ttys[u].lineReady
        && s'.ttys[u].reading == s.ttys[u].reading
    requires s'.log == s.log || (s'.log.Snoc? && s'.log.prev == s.log && (s'.log.ev.TtySent? || s'.log.ev.TtyWritten?))
    ensures Good(s')
  {
    forall u | 0 <= u < |s'.ttys| ensures LineOk(s'.ttys[u], s'.log, u) && Alert(s', u) {
      OtherTtyKeeps(s, s', u);
    }
  }

  /** The reader that unblockReader takes off the queue retries. */
  lemma PopAlert(s: State, h: Home, s': State, t: nat)
    requires Located(s, h) && t < |s.ttys| && t < |s'.ttys| && OthersUntouched(s, s')
    requires var q := s.ttys[t].reading; s'.ttys[t].reading == if q == [] then [] else q[1..]
    ensures Alert(s', t)
  {
    var q := s.ttys[t].reading;
    assert TtyQueues(s.ttys[t], h, t);
    if q != [] {
      assert h[q[0]] == RdWait(t) && Fits(s.procs[q[0]].cont, q[0], h[q[0]], s.ttys);
      assert q[0] !in q[1..];
      assert Retrying(s', q[0], t);
    }
  }

  /** What a step at terminal `t` does there, and to nobody else. */
  ghost predicate At(s: State, s': State, t: nat) {
    && t < |s.ttys| && |s'.ttys| == |s.ttys| && OthersUntouched(s, s')
    && forall u | 0 <= u < |s.ttys| && u != t :: s'.ttys[u] == s.ttys[u]
  }

  lemma QueueEffect(s: State, t: nat, len: int)
    requires s.cur in s.procs && t < |s.ttys| && len > 0 && !s.ttys[t].lineReady
    ensures var s' := TtyReadLoop(s, t, len);
      At(s, s', t) && s'.log == s.log && s'.ttys[t] == s.ttys[t].(reading := s.ttys[t].reading + [s.cur])
  {
  }

  lemma PartEffect(s: State, t: nat, len: int)
    requires s.cur in s.procs && t < |s.ttys| && 0 < len < |s.ttys[t].line| && s.ttys[t].lineReady
    ensures var s' := TtyReadLoop(s, t, len); var tty := s.ttys[t]; var q := tty.reading;
      At(s, s', t) && s'.log == Snoc(s.log, TtyTaken(s.cur, t, tty.line[..len]))
      && s'.ttys[t] == tty.(line := tty.line[len..], reading := if q == [] then [] else q[1..])
  {
    var tty := s.ttys[t];
    var s1 := Note(SetTty(s, t, tty.(line := tty.line[len..])), TtyTaken(s.cur, t, tty.line[..len]));
    assert At(s, UnblockReader(s1, t), t);
  }

  lemma AllEffect(s: State, t: nat, len: int)
    requires s.cur in s.procs && t < |s.ttys| && len > 0 && |s.ttys[t].line| <= len && s.ttys[t].lineReady
    ensures var s' := TtyReadLoop(s, t, len); var tty := s.ttys[t];
      At(s, s', t) && s'.log == Snoc(s.log, TtyTaken(s.cur, t, tty.line))
      && s'.ttys[t] == tty.(line := [], lineReady := false)
  {
  }

  lemma RestKeep(s: State, s': State, t: nat)
    requires Good(s) && At(s, s', t) && t < |s'.ttys| && LineOk(s'.ttys[t], s'.log, t) && Alert(s', t)
    requires s.cur in s.procs && (s.procs[s.cur].cont.InTtyRead? ==> s.procs[s.cur].cont.rtty == t)
    requires s'.log == s.log
      || (s'.log.Snoc? && s'.log.prev == s.log && (s'.log.ev.TtyTaken? || s'.log.ev.TtyReceived?) && s'.log.ev.t == t)
    ensures Good(s')
  {
    forall u | 0 <= u < |s'.ttys| && u != t ensures LineOk(s'.ttys[u], s'.log, u) && Alert(s', u) {
      OtherTtyKeeps(s, s', u);
    }
  }

  lemma ReadLoopKeeps(s: State, h: Home, t: nat, len: int)
    requires CanCall(s, h) && Good(s) && t < |s.ttys| && len > 0
    requires s.procs[s.cur].cont.InTtyRead? ==> s.procs[s.cur].cont.rtty == t
    ensures Good(TtyReadLoop(s, t, len))
  {
    var tty := s.ttys[t];
    var s' := TtyReadLoop(s, t, len);
    if !tty.lineReady {
      QueueEffect(s, t, len);
    } else if len < |tty.line| {
      PartEffect(s, t, len);
      PopAlert(s, h, s', t);
    } else {
      AllEffect(s, t, len);
    }
    ReadLineOk(tty, s'.ttys[t], s.log, s'.log, t, s.cur, len);
    RestKeep(s, s', t);
  }

  /** A read takes the front of the line, all of it if it asked for enough. */
  lemma ReadLineOk(tty: Tty, tty': Tty, log: Log, log': Log, t: nat, p: Pid, len: int)
    requires LineOk(tty, log, t) && len > 0
    requires
      if !tty.lineReady then (log', tty'.line, tty'.lineReady) == (log, tty.line, false)
      else if len < |tty.line| then
        (log', tty'.line, tty'.lineReady) == (Snoc(log, TtyTaken(p, t, tty.line[..len])), tty.line[len..], true)
      else (log', tty'.line, tty'.lineReady) == (Snoc(log, TtyTaken(p, t, tty.line)), [], false)
    ensures LineOk(tty', log', t)
  {
    if tty.lineReady && len < |tty.line| {
      assert tty.line == tty.line[..len] + tty.line[len..];
    }
  }

  lemma ReceiveKeeps(s: State, h: Home, t: nat, line: Option<Bytes>)
    requires Located(s, h) && InUserMode(s) && Good(s) && t < |s.ttys|
    ensures Good(TtyReceive(s, t, line))
  {
    var s' := TtyReceive(s, t, line);
    assert s'.procs == s.procs && s'.log == Snoc(s.log, TtyReceived(t, line));
    assert At(s, s', t);
    if line.Some? {
      PopAlert(s, h, s', t);
    }
    RestKeep(s, s', t);
  }

  lemma SendEffect(s: State, t: nat, buf: Bytes, sent: nat)
    requires s.cur in s.procs && t < |s.ttys| && sent < |buf|
    ensures OutputOnly(s, SendBatch(s, t, buf, sent))
  {
  }

  lemma BatchEffect(s: State, t: nat, buf: Bytes, sent: nat)
    requires s.cur in s.procs && t < |s.ttys|
    ensures OutputOnly(s, BatchLoop(s, t, buf, sent))
  {
    if sent < |buf| {
      SendEffect(s, t, buf, sent);
    }
  }

  lemma WriteEffect(s: State, t: nat, buf: Bytes)
    requires s.cur in s.procs && t < |s.ttys| && buf != []
    ensures OutputOnly(s, TtyWriteLoop(s, t, buf))
  {
    if s.ttys[t].transmitter == None {
      SendEffect(s, t, buf, 0);
    }
  }

  ghost predicate OutputOnly(s: State, s': State) {
    && OthersUntouched(s, s') && |s'.ttys| == |s.ttys|
    && (forall u | 0 <= u < |s.ttys| ::
      s'.ttys[u].line == s.ttys[u].line && s'.ttys[u].lineReady == s.ttys[u].lineReady
        && s'.ttys[u].reading == s.ttys[u].reading)
    && (s'.log == s.log || (s'.log.Snoc? && s'.log.prev == s.log && (s'.log.ev.TtySent? || s'.log.ev.TtyWritten?)))
  }

  lemma CallKeeps(s: State, h: Home, c: Call)
    requires CanCall(s, h) && InUserMode(s) && GoodCall(s, c) && CallKind(c) == KTty && Good(s)
    ensures Good(DoCall(s, c))
  {
    match c
    case CTtyRead(t, len) =>
      if len > 0 {
        ReadLoopKeeps(s, h, t, len);
      } else {
        OutputKeeps(s, DoCall(s, c));
      }
    case CTtyWrite(t, len, buf) =>
      if len > 0 {
        WriteEffect(s, t, buf[..len]);
      }
      OutputKeeps(s, DoCall(s, c));
  }

  lemma ContinueKeeps(s: State, h: Home)
    requires Located(s, h) && s.mode == Up && ContKind(s.procs[s.cur].cont) == KTty && Good(s)
    requires GoodCont(s, s.procs[s.cur].cont)
    ensures Good(Continue(s))
  {
    match s.procs[s.cur].cont
    case InTtyRead(t, len) => ReadLoopKeeps(s, h, t, len);
    case InTtyWrite(t, buf) => WriteEffect(s, t, buf); OutputKeeps(s, Continue(s));
    case InTtyBatch(t, buf, sent) => BatchEffect(s, t, buf, sent); OutputKeeps(s, Continue(s));
  }

  lemma StepKeeps(s: State, l: Label)
    requires Inv(s) && Enabled(s, l) && Good(s)
    ensures Good(Step(s, l))
  {
    var h: Home :| Located(s, h);
    if StepKind(s, l) != KTty {
      ElsewhereKeeps(s, l);
    } else {
      TtyStepKeeps(s, h, l);
    }
  }

  lemma TtyStepKeeps(s: State, h: Home, l: Label)
    requires Located(s, h) && Enabled(s, l) && Good(s) && StepKind(s, l) == KTty
    ensures Good(Step(s, l))
  {
    match l
    case Trap(c) => CallKeeps(s, h, c);
    case Resume => ContinueKeeps(s, h);
    case Receive(t, line) => ReceiveKeeps(s, h, t, line);
    case Transmitted(t) => OutputKeeps(s, Step(s, l));
  }

  lemma {:induction false} RunGood(ss: seq<State>, ls: seq<Label>, i: nat)
    requires Run(ss, ls) && i < |ss|
    ensures Good(ss[i])
  {
    if i > 0 {
      RunGood(ss, ls, i - 1);
      RunInv(ss, ls, i - 1);
      StepKeeps(ss[i - 1], ls[i - 1]);
    }
  }

  // ------------------------------------------------------------ what the callers did

  /** A read of terminal `t` that has to ask for bytes returns now. */
  ghost predicate ReadsNow(c: Option<Call>, s: State, l: Label, s': State, t: nat) {
    Returns(s, l, s') && c.Some? && c.value.CTtyRead? && c.value.tty == t && c.value.len > 0
  }

  predicate ComesNow(l: Label, t: nat) {
    l.Receive? && l.tty == t
  }

  /** The line that terminal `t` delivered last in the first `i` steps (`None`: nothing yet, or end of file) */
  ghost function LineOf(ss: seq<State>, ls: seq<Label>, i: nat, t: nat): Option<Bytes>
    requires Traces(ss, ls, i)
  {
    if i == 0 then None else if ComesNow(ls[i - 1], t) then ls[i - 1].line else LineOf(ss, ls, i - 1, t)
  }

  /** How many bytes the reads of terminal `t` have returned since, by their return codes */
  ghost function BytesRead(ss: seq<State>, ls: seq<Label>, i: nat, t: nat): int
    requires Traces(ss, ls, i)
  {
    if i == 0 || ComesNow(ls[i - 1], t) then 0
    else
      BytesRead(ss, ls, i - 1, t)
      + if ReadsNow(LastCall(ss, ls, i, ss[i - 1].cur), ss[i - 1], ls[i - 1], ss[i], t) then Code(ss[i - 1], ss[i])
        else 0
  }

  /** How many reads that is */
  ghost function ReadsDone(ss: seq<State>, ls: seq<Label>, i: nat, t: nat): nat
    requires Traces(ss, ls, i)
  {
    if i == 0 || ComesNow(ls[i - 1], t) then 0
    else
      ReadsDone(ss, ls, i - 1, t)
      + if ReadsNow(LastCall(ss, ls, i, ss[i - 1].cur), ss[i - 1], ls[i - 1], ss[i], t) then 1 else 0
  }

  /**
   A read that returns now is noted with as many bytes as its return code says, the shorter of what
   it asked for and the line.
   */
  ghost predicate ReadOk(c: Option<Call>, s: State, l: Label, s': State, t: nat) {
    ReadsNow(c, s, l, s', t) ==>
      && t < |s.ttys| && s.ttys[t].lineReady && Code(s, s') == Min(c.value.len, |s.ttys[t].line|)
      && TakenSince(s'.log, t) == TakenSince(s.log, t) + s.ttys[t].line[..Code(s, s')]
  }

  /** The notes agree with the calls and the deliveries. */
  ghost predicate Noted(c: Option<Call>, s: State, l: Label, s': State, t: nat) {
    && ReadOk(c, s, l, s', t)
    && LastLine(s'.log, t) == (if ComesNow(l, t) then l.line else LastLine(s.log, t))
    && (if ComesNow(l, t) then TakenSince(s'.log, t) == [] && ReadsSince(s'.log, t) == 0
        else if ReadsNow(c, s, l, s', t) then ReadsSince(s'.log, t) == ReadsSince(s.log, t) + 1
        else TakenSince(s'.log, t) == TakenSince(s.log, t) && ReadsSince(s'.log, t) == ReadsSince(s.log, t))
  }

  lemma ReadLoopNoted(s: State, l: Label, u: nat, len: int, t: nat)
    requires s.cur in s.procs && u < |s.ttys| && len > 0 && (l.Trap? || l.Resume?)
    ensures Noted(Some(CTtyRead(u, len)), s, l, TtyReadLoop(s, u, len), t)
  {
    var tty := s.ttys[u];
    var s' := TtyReadLoop(s, u, len);
    if !tty.lineReady {
      assert s'.log == s.log && s'.procs[s.cur].cont == InTtyRead(u, len);
    } else if len < |tty.line| {
      assert s'.log == Snoc(s.log, TtyTaken(s.cur, u, tty.line[..len])) && Code(s, s') == len;
    } else {
      assert s'.log == Snoc(s.log, TtyTaken(s.cur, u, tty.line)) && Code(s, s') == |tty.line|;
      assert tty.line[..|tty.line|] == tty.line;
    }
  }

  /** Steps that neither read nor bring a line */
  lemma OutputNoted(c: Option<Call>, s: State, l: Label, s': State, t: nat)
    requires OutputOnly(s, s') && !l.Receive?
      && (c.Some? ==> !(c.value.CTtyRead? && c.value.len > 0) || !Returns(s, l, s'))
    ensures Noted(c, s, l, s', t)
  {
  }

  lemma OtherNoted(c: Option<Call>, s: State, l: Label, t: nat)
    requires s.nextPid !in s.procs && Enabled(s, l) && Asks(c, s, l) && StepKind(s, l) != KTty
    ensures Noted(c, s, l, Step(s, l), t)
  {
    StepTouches(s, l);
    OtherKinds(s.log, Step(s, l).log, StepKind(s, l), t);
  }

  lemma CallNoted(s: State, c: Call, t: nat)
    requires InUserMode(s) && GoodCall(s, c) && CallKind(c) == KTty
    ensures Noted(Some(c), s, Trap(c), DoCall(s, c), t)
  {
    if c.CTtyRead? && c.len > 0 {
      ReadLoopNoted(s, Trap(c), c.tty, c.len, t);
    } else {
      if c.CTtyWrite? && c.len > 0 { WriteEffect(s, c.tty, c.buf[..c.len]); }
      OutputNoted(Some(c), s, Trap(c), DoCall(s, c), t);
    }
  }

  lemma ResumeNoted(c: Call, s: State, t: nat)
    requires Enabled(s, Resume) && ContKind(s.procs[s.cur].cont) == KTty && ParkedIn(s.procs[s.cur].cont, c)
    ensures Noted(Some(c), s, Resume, Continue(s), t)
  {
    match s.procs[s.cur].cont
    case InTtyRead(u, len) => ReadLoopNoted(s, Resume, u, len, t);
    case InTtyWrite(u, buf) => WriteEffect(s, u, buf); OutputNoted(Some(c), s, Resume, Continue(s), t);
    case InTtyBatch(u, buf, sent) => BatchEffect(s, u, buf, sent); OutputNoted(Some(c), s, Resume, Continue(s), t);
  }

  lemma DeliveryNoted(c: Option<Call>, s: State, l: Label, t: nat)
    requires Enabled(s, l) && StepKind(s, l) == KTty && !l.Trap? && !l.Resume?
    ensures Noted(c, s, l, Step(s, l), t)
  {
    assert Step(s, l).log == if l.Receive? then Snoc(s.log, TtyReceived(l.tty, l.line)) else s.log;
  }

  lemma StepNoted(c: Option<Call>, s: State, l: Label, t: nat)
    requires Inv(s) && Enabled(s, l) && Asks(c, s, l)
    ensures Noted(c, s, l, Step(s, l), t)
  {
    InvFresh(s);
    if StepKind(s, l) != KTty {
      OtherNoted(c, s, l, t);
    } else if l.Trap? {
      CallNoted(s, l.call, t);
    } else if l.Resume? {
      ResumeNoted(c.value, s, t);
    } else {
      DeliveryNoted(c, s, l, t);
    }
  }

  /** What the kernel has noted is what the calls and the deliveries say. */
  lemma {:induction false} RunNoted(ss: seq<State>, ls: seq<Label>, i: nat, t: nat)
    requires Run(ss, ls) && Traces(ss, ls, i)
    ensures LastLine(ss[i].log, t) == LineOf(ss, ls, i, t)
    ensures |TakenSince(ss[i].log, t)| == BytesRead(ss, ls, i, t) && ReadsSince(ss[i].log, t) == ReadsDone(ss, ls, i, t)
  {
    if i > 0 {
      RunNoted(ss, ls, i - 1, t);
      RunInv(ss, ls, i - 1);
      RunAsks(ss, ls, i - 1);
      StepNoted(LastCall(ss, ls, i, ss[i - 1].cur), ss[i - 1], ls[i - 1], t);
    }
  }

  /**
   In every state of every run, `n` being the number of bytes that reads have returned since
   the last line came: they are the first `n` bytes of that line, the buffer holds the others,
   and the line has ceased to be ready exactly when it has been read to its end (a blank
   line: when it has been read once).
   */
  lemma ReadsArePrefixes(ss: seq<State>, ls: seq<Label>, i: nat, t: nat, line: Bytes)
    requires Run(ss, ls) && Traces(ss, ls, i) && t < |ss[i].ttys| && LineOf(ss, ls, i, t) == Some(line)
    ensures var n := BytesRead(ss, ls, i, t);
      && 0 <= n <= |line| && TakenSince(ss[i].log, t) == line[..n] && ss[i].ttys[t].line == line[n..]
      && (!ss[i].ttys[t].lineReady <==> ReadsDone(ss, ls, i, t) > 0 && n == |line|)
  {
    RunGood(ss, ls, i);
    RunNoted(ss, ls, i, t);
    assert LineOk(ss[i].ttys[t], ss[i].log, t);
  }

  /** What the read of `len` bytes that returns now takes and reports, `n` bytes of the line being gone */
  ghost predicate TakesNext(s: State, s': State, t: nat, len: int, line: Bytes, n: int)
    requires s.cur in s'.procs
  {
    var code := Code(s, s');
    && 0 <= n <= |line| && code == Min(len, |line| - n) && 0 <= code
    && TakenSince(s'.log, t) == TakenSince(s.log, t) + line[n..n + code]
  }

  lemma NextBytes(s: State, s': State, t: nat, len: int, line: Bytes, n: int)
    requires 0 <= n <= |line| && t < |s.ttys| && s.ttys[t].line == line[n..] && s.cur in s'.procs && len > 0
    requires Code(s, s') == Min(len, |line[n..]|)
      && TakenSince(s'.log, t) == TakenSince(s.log, t) + line[n..][..Code(s, s')]
    ensures TakesNext(s, s', t, len, line, n)
  {
    assert line[n..][..Code(s, s')] == line[n..n + Code(s, s')];
  }

  /**
   A read that returns takes and reports the next bytes of the line: as many as it asked for, or all
   that are left.
   */
  lemma ReadTakesNext(ss: seq<State>, ls: seq<Label>, i: nat, t: nat, len: int) returns (line: Bytes)
    requires Run(ss, ls) && Traces(ss, ls, i + 1)
    requires LastCall(ss, ls, i + 1, ss[i].cur) == Some(CTtyRead(t, len)) && len > 0 && Returns(ss[i], ls[i], ss[i + 1])
    ensures LineOf(ss, ls, i, t) == Some(line)
    ensures TakesNext(ss[i], ss[i + 1], t, len, line, BytesRead(ss, ls, i, t))
  {
    RunGood(ss, ls, i);
    RunNoted(ss, ls, i, t);
    RunInv(ss, ls, i);
    RunAsks(ss, ls, i);
    StepNoted(Some(CTtyRead(t, len)), ss[i], ls[i], t);
    assert LineOk(ss[i].ttys[t], ss[i].log, t);
    line := LineOf(ss, ls, i, t).value;
    ReadsArePrefixes(ss, ls, i, t, line);
    NextBytes(ss[i], ss[i + 1], t, len, line, BytesRead(ss, ls, i, t));
  }

  /** A ready line with queued readers has one that is ready or running, about to retry. */
  lemma NoLostReader(ss: seq<State>, ls: seq<Label>, i: nat, t: nat) returns (p: Pid)
    requires Run(ss, ls) && i < |ss| && t < |ss[i].ttys|
    requires ss[i].ttys[t].lineReady && ss[i].ttys[t].reading != []
    ensures p in ss[i].procs && ss[i].procs[p].cont.InTtyRead? && ss[i].procs[p].cont.rtty == t
    ensures p in ss[i].ready || p == ss[i].cur
  {
    RunGood(ss, ls, i);
    RunInv(ss, ls, i);
    var h: Home :| Located(ss[i], h);
    assert Alert(ss[i], t) && TtyQueues(ss[i].ttys[t], h, t);
    p :| Retrying(ss[i], p, t);
    assert Fits(ss[i].procs[p].cont, p, h[p], ss[i].ttys);
  }
}
