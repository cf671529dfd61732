/**
 Pipes over runs.  Bytes are conserved in the code as it is; readers are served strictly in
 the order in which they came as long as the wait queues agree with the blocked map.
 */
module Pipes {
  import opened Basics
  import opened KernelState
  import opened KernelSteps
  import opened Footprint
  import opened Location
  import opened Agreement
  import opened Calls

  /** The kernel's notes: all bytes ever put into pipe `id`, in order. */
  ghost function Written(log: Log, id: Id): Bytes {
    match log
    case Empty => []
    case Snoc(prev, e) => if e.PipeWritten? && e.id == id then Written(prev, id) + e.bytes else Written(prev, id)
  }

  /** All bytes ever returned by reads of pipe `id`, in order. */
  ghost function Taken(log: Log, id: Id): Bytes {
    match log
    case Empty => []
    case Snoc(prev, e) => if e.PipeTaken? && e.id == id then Taken(prev, id) + e.bytes else Taken(prev, id)
  }

  /** The kernel's notes: the readers of pipe `id` in the order in which they queued. */
  ghost function Arrived(log: Log, id: Id): seq<Pid> {
    match log
    case Empty => []
    case Snoc(prev, e) => if e.PipeQueued? && e.id == id then Arrived(prev, id) + [e.p] else Arrived(prev, id)
  }

  /** The kernel's notes: the readers of pipe `id` in the order in which they were served. */
  ghost function Served(log: Log, id: Id): seq<Pid> {
    match log
    case Empty => []
    case Snoc(prev, e) => if e.PipeTaken? && e.id == id then Served(prev, id) + [e.p] else Served(prev, id)
  }

  /** Every read took exactly as many bytes as it asked for. */
  ghost predicate FullReads(log: Log) {
    match log
    case Empty => true
    case Snoc(prev, e) => FullReads(prev) && (e.PipeTaken? ==> |e.bytes| == e.len)
  }

  ghost function BufferOf(s: State, id: Id): Bytes {
    if id in s.pipes then s.pipes[id].buffer else []
  }

  ghost function WaitingOf(s: State, id: Id): seq<Pid> {
    if id in s.pipes then s.pipes[id].waiting else []
  }

  ghost predicate Conserved(s: State, id: Id) {
    && Written(s.log, id) == Taken(s.log, id) + BufferOf(s, id)
    && |BufferOf(s, id)| <= PipeMax(s)
    && (id in s.pipes ==> id < s.nextSyncId)
  }

  ghost predicate Bytewise(s: State) {
    && FullReads(s.log)
    && forall id :: Conserved(s, id)
  }

  ghost predicate InOrder(s: State, id: Id) {
    Arrived(s.log, id) == Served(s.log, id) + WaitingOf(s, id)
  }

  ghost predicate AllInOrder(s: State) {
    forall id :: InOrder(s, id)
  }

  lemma {:induction false} OtherEvents(log: Log, log': Log, kind: Kind, id: Id)
    requires Grows(log, log', kind) && kind != KPipe
    ensures Written(log', id) == Written(log, id) && Taken(log', id) == Taken(log, id)
    ensures Arrived(log', id) == Arrived(log, id) && Served(log', id) == Served(log, id)
    ensures FullReads(log') == FullReads(log)
  {
    if log' != log {
      OtherEvents(log, log'.prev, kind, id);
    }
  }

  lemma SamePipesKeep(s: State, s': State, kind: Kind)
    requires Touches(s, s', kind) && kind != KPipe
    ensures Bytewise(s) ==> Bytewise(s')
    ensures forall id :: InOrder(s, id) ==> InOrder(s', id)
  {
    forall id ensures Conserved(s, id) ==> Conserved(s', id) {
      OtherEvents(s.log, s'.log, kind, id);
    }
    forall id ensures InOrder(s, id) ==> InOrder(s', id) {
      OtherEvents(s.log, s'.log, kind, id);
    }
    OtherEvents(s.log, s'.log, kind, 0);
  }

  /** The pipe state changes only as the scheduler sees it. */
  ghost predicate SamePipes(s: State, s': State) {
    s'.log == s.log && s'.pipes == s.pipes && s'.maxLine == s.maxLine && s'.nextSyncId == s.nextSyncId
  }

  lemma LoopKeeps(s: State, id: Id, len: int)
    requires Bytewise(s) && s.cur in s.procs && id in s.pipes && len > 0
    ensures Bytewise(PipeLoop(s, id, len))
  {
    var pipe := s.pipes[id];
    var s' := PipeLoop(s, id, len);
    if |pipe.buffer| < len || pipe.waiting == [] {
      assert SamePipes(s, s');
      forall k ensures Conserved(s', k) {
        assert Conserved(s, k);
      }
    } else {
      assert s'.log == Snoc(s.log, PipeTaken(s.cur, id, len, pipe.buffer[..len]));
      assert s'.pipes == s.pipes[id := Pipe(pipe.buffer[len..], pipe.waiting[1..])];
      forall k ensures Conserved(s', k) {
        assert Conserved(s, k);
        if k == id {
          assert pipe.buffer == pipe.buffer[..len] + pipe.buffer[len..];
        }
      }
    }
  }

  lemma ReadKeeps(s: State, id: Id, len: int)
    requires Bytewise(s) && s.cur in s.procs
    ensures Bytewise(PipeRead(s, id, len))
  {
    if len <= 0 || id !in s.pipes {
      forall k ensures Conserved(PipeRead(s, id, len), k) {
        assert Conserved(s, k);
      }
    } else {
      var pipe := s.pipes[id];
      var s1 := Note(s.(pipes := s.pipes[id := pipe.(waiting := pipe.waiting + [s.cur])]), PipeQueued(s.cur, id));
      forall k ensures Conserved(s1, k) {
        assert Conserved(s, k);
      }
      if s1.pipes[id].waiting[0] != s.cur {
        var s' := Block(s1, InPipeRead(id, len));
        forall k ensures Conserved(s', k) {
          assert Conserved(s1, k);
        }
      } else {
        LoopKeeps(s1, id, len);
      }
    }
  }

  lemma WriteEffect(s: State, id: Id, len: int, buf: Bytes)
    requires s.cur in s.procs && len <= |buf|
    ensures var s' := PipeWrite(s, id, len, buf);
      || SamePipes(s, s')
      || (&& 0 < len && id in s.pipes && |s.pipes[id].buffer| + len <= PipeMax(s)
          && s'.log == Snoc(s.log, PipeWritten(s.cur, id, buf[..len]))
          && s'.pipes == s.pipes[id := s.pipes[id].(buffer := s.pipes[id].buffer + buf[..len])]
          && s'.maxLine == s.maxLine && s'.nextSyncId == s.nextSyncId)
  {
  }

  lemma WriteKeeps(s: State, s': State, id: Id, more: Bytes)
    requires Bytewise(s) && id in s.pipes && |s.pipes[id].buffer| + |more| <= PipeMax(s)
    requires s'.log == Snoc(s.log, PipeWritten(s.cur, id, more))
    requires s'.pipes == s.pipes[id := s.pipes[id].(buffer := s.pipes[id].buffer + more)]
    requires s'.maxLine == s.maxLine && s'.nextSyncId == s.nextSyncId
    ensures Bytewise(s')
    ensures AllInOrder(s) ==> AllInOrder(s')
  {
    forall k ensures Conserved(s', k) {
      assert Conserved(s, k);
    }
    forall k ensures InOrder(s, k) ==> InOrder(s', k) {
    }
  }

  lemma SameKeep(s: State, s': State)
    requires SamePipes(s, s')
    ensures Bytewise(s) ==> Bytewise(s')
    ensures AllInOrder(s) ==> AllInOrder(s')
  {
    forall k ensures (Conserved(s, k) ==> Conserved(s', k)) && (InOrder(s, k) ==> InOrder(s', k)) {
    }
  }

  lemma PipeInitKeeps(s: State)
    requires s.cur in s.procs
    ensures Bytewise(s) ==> Bytewise(DoCall(s, CPipeInit))
    ensures forall id :: InOrder(s, id) && id < s.nextSyncId ==> InOrder(DoCall(s, CPipeInit), id)
  {
    var s' := DoCall(s, CPipeInit);
    forall k ensures Conserved(s, k) && Conserved(s, s.nextSyncId) ==> Conserved(s', k) {
    }
  }

  lemma StepBytes(s: State, l: Label)
    requires Inv(s) && Bytewise(s) && Enabled(s, l)
    ensures Bytewise(Step(s, l))
  {
    InvFresh(s);
    if StepKind(s, l) != KPipe {
      StepTouches(s, l);
      SamePipesKeep(s, Step(s, l), StepKind(s, l));
    } else {
      match l
      case Resume => LoopKeeps(s, s.procs[s.cur].cont.pipe, s.procs[s.cur].cont.len);
      case Trap(CPipeRead(id, len)) => ReadKeeps(s, id, len);
      case Trap(CPipeWrite(id, len, buf)) =>
        WriteEffect(s, id, len, buf);
        if SamePipes(s, Step(s, l)) {
          SameKeep(s, Step(s, l));
        } else {
          WriteKeeps(s, Step(s, l), id, buf[..len]);
        }
      case Trap(CPipeInit) => PipeInitKeeps(s);
    }
  }

  lemma {:induction false} RunBytes(ss: seq<State>, ls: seq<Label>, i: nat)
    requires Run(ss, ls) && i < |ss|
    ensures Bytewise(ss[i])
  {
    if i == 0 {
      forall id ensures Conserved(ss[0], id) {}
    } else {
      RunBytes(ss, ls, i - 1);
      RunInv(ss, ls, i - 1);
      StepBytes(ss[i - 1], ls[i - 1]);
    }
  }

  // ------------------------------------------------------------ what the callers did

  /** The bytes that the running process, whose last call is `c`, has written to pipe `id` by a call that returns now */
  ghost function WroteNow(c: Option<Call>, s: State, l: Label, s': State, id: Id): Bytes {
    if Returns(s, l, s') && Code(s, s') > 0 && c.Some? && c.value.CPipeWrite? && c.value.pipe == id
       && 0 <= c.value.len <= |c.value.buf|
    then c.value.buf[..c.value.len] else []
  }

  /** All bytes of the successful writes to pipe `id` in the first `i` steps, in order */
  ghost function WrittenTo(ss: seq<State>, ls: seq<Label>, i: nat, id: Id): Bytes
    requires Traces(ss, ls, i)
  {
    if i == 0 then []
    else WrittenTo(ss, ls, i - 1, id) + WroteNow(LastCall(ss, ls, i, ss[i - 1].cur), ss[i - 1], ls[i - 1], ss[i], id)
  }

  /** A read of pipe `id` that has to be queued */
  ghost function AskedNow(s: State, l: Label, id: Id): seq<Pid> {
    if l.Trap? && l.call.CPipeRead? && l.call.pipe == id && l.call.len > 0 && id in s.pipes then [s.cur] else []
  }

  /** A successful read of pipe `id` that returns now */
  ghost function GotNow(c: Option<Call>, s: State, l: Label, s': State, id: Id): seq<Pid> {
    if Returns(s, l, s') && Code(s, s') > 0 && c.Some? && c.value.CPipeRead? && c.value.pipe == id then [s.cur] else []
  }

  /** Who has asked pipe `id` for bytes in the first `i` steps, in order */
  ghost function Asked(ss: seq<State>, ls: seq<Label>, i: nat, id: Id): seq<Pid>
    requires Traces(ss, ls, i)
  {
    if i == 0 then [] else Asked(ss, ls, i - 1, id) + AskedNow(ss[i - 1], ls[i - 1], id)
  }

  /** Who has got them, in order */
  ghost function Got(ss: seq<State>, ls: seq<Label>, i: nat, id: Id): seq<Pid>
    requires Traces(ss, ls, i)
  {
    if i == 0 then []
    else Got(ss, ls, i - 1, id) + GotNow(LastCall(ss, ls, i, ss[i - 1].cur), ss[i - 1], ls[i - 1], ss[i], id)
  }

  /** The notes agree with the calls: what the step writes, who queues, who is served and with how much. */
  ghost predicate Noted(c: Option<Call>, s: State, l: Label, s': State, id: Id) {
    && Written(s'.log, id) == Written(s.log, id) + WroteNow(c, s, l, s', id)
    && Arrived(s'.log, id) == Arrived(s.log, id) + AskedNow(s, l, id)
    && Served(s'.log, id) == Served(s.log, id) + GotNow(c, s, l, s', id)
    && (GotNow(c, s, l, s', id) != [] ==>
          c.value.len == Code(s, s') && |Taken(s'.log, id)| == |Taken(s.log, id)| + Code(s, s'))
  }

  lemma LoopNoted(s: State, id: Id, len: int, k: Id)
    requires s.cur in s.procs && id in s.pipes && len > 0 && s.procs[s.cur].cont == InPipeRead(id, len)
    ensures Noted(Some(CPipeRead(id, len)), s, Resume, PipeLoop(s, id, len), k)
  {
    var s' := PipeLoop(s, id, len);
    var pipe := s.pipes[id];
    PipeParks(s, id, len);
    if |pipe.buffer| >= len && pipe.waiting != [] {
      assert s'.log == Snoc(s.log, PipeTaken(s.cur, id, len, pipe.buffer[..len]));
    } else {
      assert s'.log == s.log;
    }
  }

  lemma ReadNoted(s: State, id: Id, len: int, k: Id)
    requires InUserMode(s) && s.cur !in s.blocked
    ensures Noted(Some(CPipeRead(id, len)), s, Trap(CPipeRead(id, len)), PipeRead(s, id, len), k)
  {
    var s' := PipeRead(s, id, len);
    if len > 0 && id in s.pipes {
      var pipe := s.pipes[id];
      var log1 := Snoc(s.log, PipeQueued(s.cur, id));
      if (pipe.waiting + [s.cur])[0] == s.cur && |pipe.buffer| >= len {
        assert s'.log == Snoc(log1, PipeTaken(s.cur, id, len, pipe.buffer[..len]));
      } else {
        assert s'.log == log1;
        assert s'.procs[s.cur].cont == InPipeRead(id, len);
      }
    }
  }

  lemma WriteNoted(s: State, id: Id, len: int, buf: Bytes, k: Id)
    requires InUserMode(s) && len <= |buf|
    ensures Noted(Some(CPipeWrite(id, len, buf)), s, Trap(CPipeWrite(id, len, buf)), PipeWrite(s, id, len, buf), k)
  {
  }

  lemma OtherNoted(c: Option<Call>, s: State, l: Label, id: Id)
    requires s.nextPid !in s.procs && Enabled(s, l) && Asks(c, s, l) && StepKind(s, l) != KPipe
    ensures Noted(c, s, l, Step(s, l), id)
  {
    StepTouches(s, l);
    OtherEvents(s.log, Step(s, l).log, StepKind(s, l), id);
  }

  lemma StepNoted(c: Option<Call>, s: State, l: Label, id: Id)
    requires Inv(s) && Enabled(s, l) && Asks(c, s, l)
    ensures Noted(c, s, l, Step(s, l), id)
  {
    InvFresh(s);
    var h: Home :| Located(s, h);
    CurView(s, h);
    if StepKind(s, l) != KPipe {
      OtherNoted(c, s, l, id);
    } else if l.Resume? {
      LoopNoted(s, s.procs[s.cur].cont.pipe, s.procs[s.cur].cont.len, id);
    } else if l.call.CPipeRead? {
      ReadNoted(s, l.call.pipe, l.call.len, id);
    } else if l.call.CPipeWrite? {
      WriteNoted(s, l.call.pipe, l.call.len, l.call.buf, id);
    }
  }

  /** What the kernel has noted is what the calls say. */
  lemma {:induction false} RunNoted(ss: seq<State>, ls: seq<Label>, i: nat, id: Id)
    requires Run(ss, ls) && Traces(ss, ls, i)
    ensures Written(ss[i].log, id) == WrittenTo(ss, ls, i, id)
    ensures Arrived(ss[i].log, id) == Asked(ss, ls, i, id) && Served(ss[i].log, id) == Got(ss, ls, i, id)
  {
    if i > 0 {
      RunNoted(ss, ls, i - 1, id);
      RunInv(ss, ls, i - 1);
      RunAsks(ss, ls, i - 1);
      StepNoted(LastCall(ss, ls, i, ss[i - 1].cur), ss[i - 1], ls[i - 1], id);
    }
  }

  /**
   Over any run: the bytes of the successful writes to a pipe are those read from it
   followed by those it still holds, and the pipe never overflows.
   */
  lemma ByteConservation(ss: seq<State>, ls: seq<Label>, i: nat, id: Id)
    requires Run(ss, ls) && i < |ss|
    ensures WrittenTo(ss, ls, i, id) == Taken(ss[i].log, id) + BufferOf(ss[i], id)
    ensures |BufferOf(ss[i], id)| <= PipeMax(ss[i])
  {
    RunBytes(ss, ls, i);
    RunNoted(ss, ls, i, id);
    assert Conserved(ss[i], id);
  }

  /** A read that succeeds returns the length it asked for and takes that many bytes. */
  lemma ReadsAreFull(ss: seq<State>, ls: seq<Label>, i: nat, id: Id, len: int)
    requires Run(ss, ls) && i < |ls| && LastCall(ss, ls, i + 1, ss[i].cur) == Some(CPipeRead(id, len))
    requires Returns(ss[i], ls[i], ss[i + 1]) && Code(ss[i], ss[i + 1]) > 0
    ensures Code(ss[i], ss[i + 1]) == len && |Taken(ss[i + 1].log, id)| == |Taken(ss[i].log, id)| + len
  {
    RunInv(ss, ls, i);
    RunAsks(ss, ls, i);
    StepNoted(LastCall(ss, ls, i + 1, ss[i].cur), ss[i], ls[i], id);
  }

  // ------------------------------------------------------------ order

  lemma LoopOrder(s: State, id: Id, len: int)
    requires AllInOrder(s) && s.cur in s.procs && id in s.pipes && len > 0
    requires s.pipes[id].waiting != [] && s.pipes[id].waiting[0] == s.cur
    ensures AllInOrder(PipeLoop(s, id, len))
  {
    var pipe := s.pipes[id];
    var s' := PipeLoop(s, id, len);
    if |pipe.buffer| >= len {
      assert s'.log == Snoc(s.log, PipeTaken(s.cur, id, len, pipe.buffer[..len]));
      assert s'.pipes == s.pipes[id := Pipe(pipe.buffer[len..], pipe.waiting[1..])];
      assert pipe.waiting == [s.cur] + pipe.waiting[1..];
    }
    forall k ensures InOrder(s', k) {
      assert InOrder(s, k);
    }
  }

  lemma ReadOrder(s: State, id: Id, len: int)
    requires AllInOrder(s) && s.cur in s.procs
    ensures AllInOrder(PipeRead(s, id, len))
  {
    if len <= 0 || id !in s.pipes {
      forall k ensures InOrder(PipeRead(s, id, len), k) {
        assert InOrder(s, k);
      }
    } else {
      var pipe := s.pipes[id];
      var s1 := Note(s.(pipes := s.pipes[id := pipe.(waiting := pipe.waiting + [s.cur])]), PipeQueued(s.cur, id));
      forall k ensures InOrder(s1, k) {
        assert InOrder(s, k);
      }
      if s1.pipes[id].waiting[0] != s.cur {
        forall k ensures InOrder(Block(s1, InPipeRead(id, len)), k) {
          assert InOrder(s1, k);
        }
      } else {
        LoopOrder(s1, id, len);
      }
    }
  }

  /** A woken reader that is not the head of its queue finds enough bytes, and takes them. */
  ghost predicate OutOfTurn(s: State, l: Label) {
    && l.Resume? && s.cur in s.procs && s.procs[s.cur].cont.InPipeRead?
    && var c := s.procs[s.cur].cont;
    && c.pipe in s.pipes && c.len <= |s.pipes[c.pipe].buffer|
    && s.pipes[c.pipe].waiting != [] && s.pipes[c.pipe].waiting[0] != s.cur
  }

  lemma ResumeOrder(s: State, id: Id, len: int)
    requires AllInOrder(s) && s.cur in s.procs && s.procs[s.cur].cont == InPipeRead(id, len) && id in s.pipes && len > 0
    ensures AllInOrder(PipeLoop(s, id, len)) <==> !OutOfTurn(s, Resume)
  {
    var s' := PipeLoop(s, id, len);
    var pipe := s.pipes[id];
    if |pipe.buffer| < len || pipe.waiting == [] {
      assert SamePipes(s, s');
      SameKeep(s, s');
    } else if pipe.waiting[0] == s.cur {
      LoopOrder(s, id, len);
    } else {
      assert InOrder(s, id);
      var n := |Served(s.log, id)|;
      assert Arrived(s'.log, id)[n] == pipe.waiting[0] && (Served(s'.log, id) + WaitingOf(s', id))[n] == s.cur;
      assert !InOrder(s', id);
    }
  }

  lemma WriteOrder(s: State, id: Id, len: int, buf: Bytes)
    requires Bytewise(s) && AllInOrder(s) && s.cur in s.procs && len <= |buf|
    ensures AllInOrder(PipeWrite(s, id, len, buf))
  {
    var s' := PipeWrite(s, id, len, buf);
    WriteEffect(s, id, len, buf);
    if SamePipes(s, s') {
      SameKeep(s, s');
    } else {
      WriteKeeps(s, s', id, buf[..len]);
    }
  }

  lemma InitOrder(s: State)
    requires Bytewise(s) && AllInOrder(s) && s.cur in s.procs
    ensures AllInOrder(DoCall(s, CPipeInit))
  {
    PipeInitKeeps(s);
    forall k ensures InOrder(DoCall(s, CPipeInit), k) {
      assert InOrder(s, k) && Conserved(s, s.nextSyncId);
    }
  }

  /** A step breaks the order of service if and only if it is a reader's turn out of turn. */
  lemma StepOrder(s: State, l: Label)
    requires Inv(s) && Bytewise(s) && AllInOrder(s) && Enabled(s, l)
    ensures AllInOrder(Step(s, l)) <==> !OutOfTurn(s, l)
  {
    InvFresh(s);
    if StepKind(s, l) != KPipe {
      StepTouches(s, l);
      SamePipesKeep(s, Step(s, l), StepKind(s, l));
    } else if l.Resume? {
      ResumeOrder(s, s.procs[s.cur].cont.pipe, s.procs[s.cur].cont.len);
    } else if l.call.CPipeRead? {
      ReadOrder(s, l.call.pipe, l.call.len);
    } else if l.call.CPipeWrite? {
      WriteOrder(s, l.call.pipe, l.call.len, l.call.buf);
    } else {
      InitOrder(s);
    }
  }

  ghost predicate Ordered(ss: seq<State>, i: nat)
    requires i < |ss|
  {
    forall j | 0 <= j <= i :: AllInOrder(ss[j])
  }

  ghost predicate AllInTurn(ss: seq<State>, ls: seq<Label>, i: nat)
    requires Traces(ss, ls, i)
  {
    forall j | 0 <= j < i :: !OutOfTurn(ss[j], ls[j])
  }

  lemma OneMoreStep(ss: seq<State>, ls: seq<Label>, i: nat, n: nat)
    requires n == i + 1 && Traces(ss, ls, n)
    ensures Ordered(ss, n) <==> Ordered(ss, i) && AllInOrder(ss[n])
    ensures AllInTurn(ss, ls, n) <==> AllInTurn(ss, ls, i) && !OutOfTurn(ss[i], ls[i])
  {
  }

  /** Over any run: readers are served in order all the way if and only if none had its turn out of turn. */
  lemma {:induction false} OrderedUnlessOutOfTurn(ss: seq<State>, ls: seq<Label>, i: nat)
    requires Run(ss, ls) && Traces(ss, ls, i)
    ensures Ordered(ss, i) <==> AllInTurn(ss, ls, i)
  {
    if i == 0 {
      forall k ensures InOrder(ss[0], k) {}
    } else {
      OrderedUnlessOutOfTurn(ss, ls, i - 1);
      OneMoreStep(ss, ls, i - 1, i);
      if AllInOrder(ss[i - 1]) {
        RunInv(ss, ls, i - 1);
        RunBytes(ss, ls, i - 1);
        StepOrder(ss[i - 1], ls[i - 1]);
      }
    }
  }

  /** While the wait queues agree with the blocked map, a reader that is awake is the head. */
  lemma AgreedTurn(s: State, l: Label)
    requires Inv(s) && Agree(s)
    ensures !OutOfTurn(s, l)
  {
    var h: Home :| Located(s, h);
    CurView(s, h);
    var c := s.procs[s.cur].cont;
    if c.InPipeRead? && c.pipe in s.pipes {
      assert PipeQ(s, c.pipe, s.pipes[c.pipe]);
      assert V(s, s.cur) == OnPipe(c.pipe, c.len, false);
      assert s.cur in s.pipes[c.pipe].waiting;
    }
  }

  lemma RunOrder(ss: seq<State>, ls: seq<Label>, i: nat)
    requires Run(ss, ls) && i < |ss| && Calm(ss, ls, i)
    ensures AllInOrder(ss[i])
  {
    forall j | 0 <= j < i ensures !OutOfTurn(ss[j], ls[j]) {
      RunInv(ss, ls, j);
      RunAgrees(ss, ls, j);
      AgreedTurn(ss[j], ls[j]);
    }
    OrderedUnlessOutOfTurn(ss, ls, i);
  }

  /**
   In a run without harmful exits: readers get their bytes in the order in which they asked,
   those not yet served are the queue; everyone behind the head is blocked, and a blocked head asks for more than
   the pipe holds, so no wake-up was lost.
   */
  lemma FirstComeFirstServed(ss: seq<State>, ls: seq<Label>, i: nat, id: Id)
    requires Run(ss, ls) && i < |ss| && Calm(ss, ls, i)
    ensures Asked(ss, ls, i, id) == Got(ss, ls, i, id) + WaitingOf(ss[i], id)
    ensures var q := WaitingOf(ss[i], id);
      && (forall k | 1 <= k < |q| :: q[k] in ss[i].blocked)
      && (q != [] && q[0] in ss[i].blocked ==>
            q[0] in ss[i].procs && ss[i].procs[q[0]].cont.InPipeRead?
            && |BufferOf(ss[i], id)| < ss[i].procs[q[0]].cont.len)
  {
    RunOrder(ss, ls, i);
    RunNoted(ss, ls, i, id);
    RunAgrees(ss, ls, i);
    assert InOrder(ss[i], id);
    if id in ss[i].pipes && ss[i].pipes[id].waiting != [] {
      var pipe := ss[i].pipes[id];
      assert PipeQ(ss[i], id, pipe);
      assert pipe.waiting[0] in pipe.waiting;
    }
  }
}
