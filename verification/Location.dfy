/**
 Every live process is in exactly one place, the ready queue is never found empty, and a
 parked call always finds the objects it needs.  Holds for the code as it is, including
 exitProcess's wake-up of a parent that is not in Wait.
 */
module Location {
  import opened Basics
  import opened KernelState
  import opened KernelSteps

  datatype Place = Running | InReady | Blocked | Asleep | TxWait(t: nat) | RdWait(t: nat) | Sending(t: nat)

  type Home = map<Pid, Place>

  /** `q` lists exactly the processes at home in `pl`, each once. */
  ghost predicate Holds(q: seq<Pid>, h: Home, pl: Place) {
    && NoDup(q)
    && (forall i | 0 <= i < |q| :: q[i] in h && h[q[i]] == pl)
    && (forall p | p in h && h[p] == pl :: p in q)
  }

  /** Where a process is limits what its kernel call can be doing. */
  ghost predicate Fits(c: Cont, p: Pid, pl: Place, ttys: seq<Tty>) {
    && (c.InTtyBatch? ==> c.btty < |ttys| && ttys[c.btty].transmitter == Some(p))
    && match pl
       case Running => c.InTtyBatch? ==> !ttys[c.btty].busy
       case InReady => !c.InTtyBatch?
       case Blocked => c.InAcquire? || c.InCvarWait? || c.InPipeRead? || c.InWait?
       case Asleep => c.User?
       case TxWait(t) => c.InTtyWrite? && c.wtty == t
       case RdWait(t) => c.InTtyRead? && c.rtty == t
       case Sending(t) => c.InTtyBatch? && c.btty == t && ttys[t].busy
  }

  /** The terminal's queues, and the process that is transmitting. */
  ghost predicate TtyQueues(tty: Tty, h: Home, t: nat) {
    && Holds(tty.transmitting, h, TxWait(t))
    && Holds(tty.reading, h, RdWait(t))
  }

  ghost predicate Sender(tty: Tty, procs: map<Pid, Proc>, h: Home, t: nat) {
    && (tty.busy ==> tty.transmitter.Some?)
    && (tty.transmitter.Some? ==>
          var p := tty.transmitter.value;
          && p in h && p in procs
          && procs[p].cont.InTtyBatch? && procs[p].cont.btty == t
          && h[p] == if tty.busy then Sending(t) else Running)
  }

  ghost predicate Queues(ready: seq<Pid>, blocked: set<Pid>, sleeping: set<Pid>, ttys: seq<Tty>, h: Home) {
    && Holds(ready, h, InReady)
    && (forall p :: p in blocked <==> p in h && h[p] == Blocked)
    && (forall p :: p in sleeping <==> p in h && h[p] == Asleep)
    && (forall t | 0 <= t < |ttys| :: TtyQueues(ttys[t], h, t))
  }

  ghost predicate Tags(procs: map<Pid, Proc>, ttys: seq<Tty>, nextPid: Pid, h: Home) {
    && h.Keys == procs.Keys
    && (forall p | p in h :: p < nextPid && Fits(procs[p].cont, p, h[p], ttys))
    && (forall t | 0 <= t < |ttys| :: Sender(ttys[t], procs, h, t))
    && IDLE in h && procs[IDLE].cont == User && (h[IDLE] == Running || h[IDLE] == InReady)
  }

  /** A parked call can always go on. */
  ghost predicate Resumable(procs: map<Pid, Proc>, locks: set<Id>, cvars: set<Id>, pipes: set<Id>, terminals: nat) {
    forall p | p in procs :: Finds(procs[p].cont, locks, cvars, pipes, terminals)
  }

  /** The containers agree with `h`, whoever is running. */
  ghost predicate Placed(s: State, h: Home) {
    && Queues(s.ready, s.blocked, s.sleeping.Keys, s.ttys, h)
    && Tags(s.procs, s.ttys, s.nextPid, h)
    && Resumable(s.procs, s.locks.Keys, s.cvars.Keys, s.pipes.Keys, |s.ttys|)
    && s.maxLine >= 1
  }

  ghost predicate OnlyRuns(s: State, h: Home) {
    forall p | p in h :: h[p] == Running <==> p == s.cur
  }

  ghost predicate Located(s: State, h: Home) {
    && Placed(s, h)
    && s.cur in h && OnlyRuns(s, h)
    && s.mode != Stuck
  }

  ghost predicate NoneRuns(h: Home) {
    forall p | p in h :: h[p] != Running
  }

  // ------------------------------------------------------------- moves

  /** `q'` is `q` after `p`, at home where `h` says, moves to `to`: joins at the tail, leaves from the head. */
  ghost predicate Shifted(q: seq<Pid>, q': seq<Pid>, pl: Place, h: Home, p: Pid, to: Place) {
    if to == pl then q' == q + [p]
    else if p in h && h[p] == pl then q == [p] + q'
    else q' == q
  }

  ghost predicate TtysShifted(ttys: seq<Tty>, ttys': seq<Tty>, h: Home, p: Pid, to: Place) {
    || (ttys' == ttys && !to.TxWait? && !to.RdWait? && p in h && !h[p].TxWait? && !h[p].RdWait?)
    || (&& |ttys'| == |ttys|
        && forall t | 0 <= t < |ttys| ::
          && Shifted(ttys[t].transmitting, ttys'[t].transmitting, TxWait(t), h, p, to)
          && Shifted(ttys[t].reading, ttys'[t].reading, RdWait(t), h, p, to))
  }

  ghost predicate SetShifted(q: set<Pid>, q': set<Pid>, pl: Place, h: Home, p: Pid, to: Place) {
    if to == pl then q' == q + {p}
    else if p in h && h[p] == pl then q' == q - {p}
    else q' == q
  }

  lemma ShiftHolds(q: seq<Pid>, q': seq<Pid>, pl: Place, h: Home, p: Pid, to: Place)
    requires Holds(q, h, pl) && Shifted(q, q', pl, h, p, to) && (p in h ==> h[p] != to)
    ensures Holds(q', h[p := to], pl)
  {
    if to == pl {
      assert forall i | 0 <= i < |q| :: q[i] != p;
    } else if p in h && h[p] == pl {
      assert forall i | 0 <= i < |q'| :: q'[i] == q[i + 1];
      assert q[0] == p;
      forall x | x in h && x != p && h[x] == pl
        ensures x in q'
      {
        var i :| 0 <= i < |q| && q[i] == x;
        assert q'[i - 1] == x;
      }
    }
  }

  lemma ShiftQueues(s: State, s': State, h: Home, p: Pid, to: Place)
    requires Queues(s.ready, s.blocked, s.sleeping.Keys, s.ttys, h) && (p in h ==> h[p] != to)
    requires Shifted(s.ready, s'.ready, InReady, h, p, to)
    requires SetShifted(s.blocked, s'.blocked, Blocked, h, p, to)
    requires SetShifted(s.sleeping.Keys, s'.sleeping.Keys, Asleep, h, p, to)
    requires TtysShifted(s.ttys, s'.ttys, h, p, to)
    ensures Queues(s'.ready, s'.blocked, s'.sleeping.Keys, s'.ttys, h[p := to])
  {
    ShiftHolds(s.ready, s'.ready, InReady, h, p, to);
    forall t | 0 <= t < |s'.ttys|
      ensures TtyQueues(s'.ttys[t], h[p := to], t)
    {
      ShiftHolds(s.ttys[t].transmitting, s'.ttys[t].transmitting, TxWait(t), h, p, to);
      ShiftHolds(s.ttys[t].reading, s'.ttys[t].reading, RdWait(t), h, p, to);
    }
  }

  /** `p`'s call is now at `c`; every other process's is where it was. */
  ghost predicate Retagged(procs: map<Pid, Proc>, procs': map<Pid, Proc>, p: Pid, c: Cont) {
    && procs'.Keys == procs.Keys
    && forall q | q in procs :: procs'[q].cont == if q == p then c else procs[q].cont
  }

  /** `p` moves to `to`, its call now at `c`; nobody else's tag changes. */
  lemma ShiftTags(s: State, s': State, h: Home, p: Pid, c: Cont, to: Place)
    requires Tags(s.procs, s.ttys, s.nextPid, h) && p in h
    requires Retagged(s.procs, s'.procs, p, c) && s'.nextPid == s.nextPid
    requires SameSenders(s.ttys, s'.ttys)
    requires !s.procs[p].cont.InTtyBatch? && Fits(c, p, to, s.ttys) && !c.InTtyBatch?
    requires p == IDLE ==> c == User && (to == Running || to == InReady)
    ensures Tags(s'.procs, s'.ttys, s'.nextPid, h[p := to])
  {
    forall q | q in h[p := to]
      ensures q < s'.nextPid && Fits(s'.procs[q].cont, q, h[p := to][q], s'.ttys)
    {
      FitsStill(s.procs[q].cont, q, h[q], s.ttys, s'.ttys);
      FitsStill(c, p, to, s.ttys, s'.ttys);
    }
  }

  lemma FitsStill(c: Cont, p: Pid, pl: Place, ttys: seq<Tty>, ttys': seq<Tty>)
    requires SameSenders(ttys, ttys')
    ensures Fits(c, p, pl, ttys) == Fits(c, p, pl, ttys')
  {
  }

  ghost predicate SameSenders(ttys: seq<Tty>, ttys': seq<Tty>) {
    && |ttys'| == |ttys|
    && forall t | 0 <= t < |ttys| :: ttys'[t].transmitter == ttys[t].transmitter && ttys'[t].busy == ttys[t].busy
  }

  /** `s'` differs from `s` in what no place depends on, and drops no object. */
  ghost predicate KeepsObjects(s: State, s': State) {
    && s.locks.Keys <= s'.locks.Keys && s.cvars.Keys <= s'.cvars.Keys && s.pipes.Keys <= s'.pipes.Keys
    && s'.maxLine == s.maxLine && |s'.ttys| == |s.ttys|
  }

  lemma KeepsResumable(s: State, s': State, p: Pid, c: Cont)
    requires Resumable(s.procs, s.locks.Keys, s.cvars.Keys, s.pipes.Keys, |s.ttys|) && KeepsObjects(s, s')
      && GoodCont(s', c)
    requires Retagged(s.procs, s'.procs, p, c)
    ensures Resumable(s'.procs, s'.locks.Keys, s'.cvars.Keys, s'.pipes.Keys, |s'.ttys|)
  {
  }

  lemma DispatchLocated(s: State, h: Home) returns (h': Home)
    requires Placed(s, h) && NoneRuns(h) && s.mode == Up
    ensures s.ready != [] && h' == h[s.ready[0] := Running]
    ensures Located(Dispatch(s), h')
  {
    assert IDLE in s.ready;
    var p := s.ready[0];
    h' := h[p := Running];
    ShiftQueues(s, Dispatch(s), h, p, Running);
    ShiftTags(s, Dispatch(s), h, p, s.procs[p].cont, Running);
  }

  lemma UnblockPlaced(s: State, h: Home, p: Pid) returns (h': Home)
    requires Placed(s, h)
    ensures Placed(Unblock(s, p), h')
    ensures h' == if p in s.blocked then h[p := InReady] else h
  {
    h' := h;
    if p in s.blocked {
      h' := h[p := InReady];
      ShiftQueues(s, Unblock(s, p), h, p, InReady);
      ShiftTags(s, Unblock(s, p), h, p, s.procs[p].cont, InReady);
    }
  }

  lemma UnblockLocated(s: State, h: Home, p: Pid) returns (h': Home)
    requires Located(s, h)
    ensures Located(Unblock(s, p), h')
  {
    h' := UnblockPlaced(s, h, p);
  }

  lemma ReturnLocated(s: State, h: Home, v: int)
    requires Located(s, h) && !s.procs[s.cur].cont.InTtyBatch?
    ensures Located(Return(s, v), h)
  {
    ShiftTags(s, Return(s, v), h, s.cur, User, Running);
    KeepsResumable(s, Return(s, v), s.cur, User);
    assert h[s.cur := Running] == h;
  }

  /** Changing objects and the log, without dropping an object, moves nobody. */
  lemma FrameLocated(s: State, h: Home, s': State)
    requires Located(s, h) && KeepsObjects(s, s')
    requires s' == s.(locks := s'.locks, cvars := s'.cvars, pipes := s'.pipes, log := s'.log,
      nextSyncId := s'.nextSyncId)
    ensures Located(s', h)
  {
  }

  /** In user mode or at a call that is not transmitting, with something to suspend. */
  ghost predicate CanCall(s: State, h: Home) {
    Located(s, h) && s.mode == Up && s.cur != IDLE && !s.procs[s.cur].cont.InTtyBatch?
  }

  /** The running process parks at `c` in place `to`. */
  lemma ParkPlaced(s: State, h: Home, s': State, c: Cont, to: Place)
    requires CanCall(s, h)
    requires Retagged(s.procs, s'.procs, s.cur, c) && s'.mode == s.mode && s'.nextPid == s.nextPid
    requires s'.ready == s.ready && KeepsObjects(s, s') && SameSenders(s.ttys, s'.ttys)
    requires TtysShifted(s.ttys, s'.ttys, h, s.cur, to)
    requires to != Running && to != InReady && !to.Sending?
    requires Fits(c, s.cur, to, s.ttys) && GoodCont(s', c)
    requires SetShifted(s.blocked, s'.blocked, Blocked, h, s.cur, to)
    requires SetShifted(s.sleeping.Keys, s'.sleeping.Keys, Asleep, h, s.cur, to)
    ensures Placed(s', h[s.cur := to]) && NoneRuns(h[s.cur := to])
  {
    ShiftQueues(s, s', h, s.cur, to);
    ShiftTags(s, s', h, s.cur, c, to);
    KeepsResumable(s, s', s.cur, c);
  }

  lemma ParkLocated(s: State, h: Home, s': State, c: Cont, to: Place) returns (h': Home)
    requires CanCall(s, h)
    requires Retagged(s.procs, s'.procs, s.cur, c) && s'.mode == s.mode && s'.nextPid == s.nextPid
    requires s'.ready == s.ready && KeepsObjects(s, s') && SameSenders(s.ttys, s'.ttys)
    requires TtysShifted(s.ttys, s'.ttys, h, s.cur, to)
    requires to != Running && to != InReady && !to.Sending?
    requires Fits(c, s.cur, to, s.ttys) && GoodCont(s', c)
    requires SetShifted(s.blocked, s'.blocked, Blocked, h, s.cur, to)
    requires SetShifted(s.sleeping.Keys, s'.sleeping.Keys, Asleep, h, s.cur, to)
    ensures Located(Dispatch(s'), h')
  {
    ParkPlaced(s, h, s', c, to);
    h' := DispatchLocated(s', h[s.cur := to]);
  }

  // ------------------------------------------------------------ the kernel's steps

  lemma BlockLocated(s: State, h: Home, c: Cont) returns (h': Home)
    requires CanCall(s, h)
    requires GoodCont(s, c) && (c.InAcquire? || c.InCvarWait? || c.InPipeRead? || c.InWait?)
    ensures Located(Block(s, c), h')
  {
    h' := ParkLocated(s, h, SetCont(s, s.cur, c).(blocked := s.blocked + {s.cur}), c, Blocked);
  }

  lemma DelayLocated(s: State, h: Home, ticks: int) returns (h': Home)
    requires CanCall(s, h)
    ensures Located(Delay(s, ticks), h')
  {
    if ticks <= 0 {
      h' := h;
      ReturnLocated(s, h, if ticks < 0 then ERROR else SUCCESS);
    } else {
      h' := ParkLocated(s, h, Return(s, SUCCESS).(sleeping := s.sleeping[s.cur := ticks]), User, Asleep);
    }
  }

  lemma KickLocated(s: State, h: Home) returns (h': Home)
    requires Located(s, h) && s.mode == Up && InUserMode(s)
    ensures Located(Kick(s), h')
  {
    h' := h;
    if s.ready != [] {
      var s1 := MakeReady(s, s.cur);
      ShiftQueues(s, s1, h, s.cur, InReady);
      ShiftTags(s, s1, h, s.cur, User, InReady);
      h' := DispatchLocated(s1, h[s.cur := InReady]);
    }
  }

  lemma TickOneLocated(s: State, h: Home, p: Pid) returns (h': Home)
    requires Located(s, h)
    ensures Located(TickOne(s, p), h')
  {
    h' := h;
    if p in s.sleeping && s.sleeping[p] - 1 <= 0 {
      h' := h[p := InReady];
      ShiftQueues(s, TickOne(s, p), h, p, InReady);
      ShiftTags(s, TickOne(s, p), h, p, s.procs[p].cont, InReady);
    } else if p in s.sleeping {
      assert TickOne(s, p).sleeping.Keys == s.sleeping.Keys;
    }
  }

  lemma TickAllLocated(s: State, h: Home, order: seq<Pid>) returns (h': Home)
    requires Located(s, h)
    ensures Located(TickAll(s, order), h')
    decreases |order|
  {
    h' := h;
    if order != [] {
      h' := TickOneLocated(s, h, order[0]);
      h' := TickAllLocated(TickOne(s, order[0]), h', order[1..]);
    }
  }

  lemma AcquireLocated(s: State, h: Home, l: Id) returns (h': Home)
    requires CanCall(s, h)
    ensures Located(Acquire(s, l), h')
  {
    h' := h;
    if l !in s.locks {
      ReturnLocated(s, h, ERROR);
    } else if s.locks[l].owner == None {
      var s1 := Note(s.(locks := s.locks[l := s.locks[l].(owner := Some(s.cur))]), Acquired(s.cur, l));
      FrameLocated(s, h, s1);
      ReturnLocated(s1, h, SUCCESS);
    } else {
      var s1 := s.(locks := s.locks[l := s.locks[l].(waiting := s.locks[l].waiting + [s.cur])]);
      FrameLocated(s, h, s1);
      h' := BlockLocated(s1, h, InAcquire(l));
    }
  }

  lemma DoReleaseLocated(s: State, h: Home, l: Id) returns (h': Home)
    requires CanCall(s, h)
    ensures CanCall(DoRelease(s, l), h')
  {
    h' := h;
    if MayRelease(s, l) {
      var waiting := s.locks[l].waiting;
      var rest := if waiting == [] then [] else waiting[1..];
      var s1 := Note(s, Released(s.cur, l)).(locks := s.locks[l := Lock(None, rest)]);
      FrameLocated(s, h, s1);
      if waiting != [] {
        h' := UnblockLocated(s1, h, waiting[0]);
      }
    }
  }

  lemma CvarWaitLocated(s: State, h: Home, c: Id, l: Id) returns (h': Home)
    requires CanCall(s, h)
    ensures Located(CvarWait(s, c, l), h')
  {
    h' := h;
    if c !in s.cvars {
      ReturnLocated(s, h, ERROR);
    } else {
      var s1 := s.(cvars := s.cvars[c := s.cvars[c] + [s.cur]]);
      FrameLocated(s, h, s1);
      h' := DoReleaseLocated(s1, h, l);
      h' := BlockLocated(DoRelease(s1, l), h', InCvarWait(c, l));
    }
  }

  lemma PopCvarLocated(s: State, h: Home, c: Id) returns (h': Home)
    requires CanCall(s, h) && c in s.cvars && s.cvars[c] != []
    ensures CanCall(PopCvar(s, c), h')
  {
    var s1 := s.(cvars := s.cvars[c := s.cvars[c][1..]]);
    FrameLocated(s, h, s1);
    h' := UnblockLocated(s1, h, s.cvars[c][0]);
  }

  lemma PopAllCvarLocated(s: State, h: Home, c: Id) returns (h': Home)
    requires CanCall(s, h) && c in s.cvars
    ensures CanCall(PopAllCvar(s, c), h')
    decreases |s.cvars[c]|
  {
    h' := h;
    if s.cvars[c] != [] {
      h' := PopCvarLocated(s, h, c);
      h' := PopAllCvarLocated(PopCvar(s, c), h', c);
    }
  }

  lemma SignalLocated(s: State, h: Home, c: Id) returns (h': Home)
    requires CanCall(s, h)
    ensures Located(Signal(s, c), h')
  {
    h' := h;
    if c in s.cvars && s.cvars[c] != [] {
      h' := PopCvarLocated(s, h, c);
      ReturnLocated(PopCvar(s, c), h', SUCCESS);
    } else {
      ReturnLocated(s, h, if c in s.cvars then SUCCESS else ERROR);
    }
  }

  lemma BroadcastLocated(s: State, h: Home, c: Id) returns (h': Home)
    requires CanCall(s, h)
    ensures Located(Broadcast(s, c), h')
  {
    h' := h;
    if c in s.cvars {
      h' := PopAllCvarLocated(s, h, c);
      ReturnLocated(PopAllCvar(s, c), h', SUCCESS);
    } else {
      ReturnLocated(s, h, ERROR);
    }
  }

  lemma PipeLoopLocated(s: State, h: Home, id: Id, len: int) returns (h': Home)
    requires CanCall(s, h) && id in s.pipes && len > 0
    ensures Located(PipeLoop(s, id, len), h')
  {
    h' := h;
    var pipe := s.pipes[id];
    if |pipe.buffer| < len {
      h' := BlockLocated(s, h, InPipeRead(id, len));
    } else if pipe.waiting == [] {
      ReturnLocated(s, h, ERROR);
    } else {
      var rest := Pipe(pipe.buffer[len..], pipe.waiting[1..]);
      var s1 := Note(s.(pipes := s.pipes[id := rest]), PipeTaken(s.cur, id, len, pipe.buffer[..len]));
      FrameLocated(s, h, s1);
      if rest.buffer != [] && rest.waiting != [] {
        h' := UnblockLocated(s1, h, rest.waiting[0]);
        ReturnLocated(Unblock(s1, rest.waiting[0]), h', len);
      } else {
        ReturnLocated(s1, h, len);
      }
    }
  }

  lemma PipeReadLocated(s: State, h: Home, id: Id, len: int) returns (h': Home)
    requires CanCall(s, h)
    ensures Located(PipeRead(s, id, len), h')
  {
    h' := h;
    if len <= 0 || id !in s.pipes {
      ReturnLocated(s, h, if len == 0 then SUCCESS else ERROR);
    } else {
      var pipe := s.pipes[id];
      var s1 := Note(s.(pipes := s.pipes[id := pipe.(waiting := pipe.waiting + [s.cur])]), PipeQueued(s.cur, id));
      FrameLocated(s, h, s1);
      if s1.pipes[id].waiting[0] != s.cur {
        h' := BlockLocated(s1, h, InPipeRead(id, len));
      } else {
        h' := PipeLoopLocated(s1, h, id, len);
      }
    }
  }

  lemma PipeWriteLocated(s: State, h: Home, id: Id, len: int, buf: Bytes) returns (h': Home)
    requires CanCall(s, h) && len <= |buf|
    ensures Located(PipeWrite(s, id, len, buf), h')
  {
    h' := h;
    if len <= 0 || id !in s.pipes || |s.pipes[id].buffer| + len > PipeMax(s) {
      ReturnLocated(s, h, if len == 0 then SUCCESS else ERROR);
    } else {
      var pipe := s.pipes[id];
      var s1 := Note(s.(pipes := s.pipes[id := pipe.(buffer := pipe.buffer + buf[..len])]),
        PipeWritten(s.cur, id, buf[..len]));
      FrameLocated(s, h, s1);
      if pipe.waiting != [] {
        h' := UnblockLocated(s1, h, pipe.waiting[0]);
        ReturnLocated(Unblock(s1, pipe.waiting[0]), h', len);
      } else {
        ReturnLocated(s1, h, len);
      }
    }
  }

  // ------------------------------------------------------------ terminals

  /** What a terminal has received, and the log, place nobody. */
  lemma LineLocated(s: State, h: Home, t: nat, line: Bytes, ready: bool, e: Event)
    requires Located(s, h) && t < |s.ttys|
    ensures Located(Note(SetTty(s, t, s.ttys[t].(line := line, lineReady := ready)), e), h)
  {
    var s' := Note(SetTty(s, t, s.ttys[t].(line := line, lineReady := ready)), e);
    forall p | p in h
      ensures p < s'.nextPid && Fits(s'.procs[p].cont, p, h[p], s'.ttys)
    {
      FitsStill(s.procs[p].cont, p, h[p], s.ttys, s'.ttys);
    }
  }

  lemma UnblockReaderLocated(s: State, h: Home, t: nat) returns (h': Home)
    requires Located(s, h) && t < |s.ttys|
    ensures Located(UnblockReader(s, t), h')
  {
    h' := h;
    var q := s.ttys[t].reading;
    if q != [] {
      assert q == [q[0]] + q[1..];
      h' := h[q[0] := InReady];
      var s' := UnblockReader(s, t);
      assert TtysShifted(s.ttys, s'.ttys, h, q[0], InReady) && SameSenders(s.ttys, s'.ttys);
      ShiftQueues(s, s', h, q[0], InReady);
      ShiftTags(s, s', h, q[0], s.procs[q[0]].cont, InReady);
    }
  }

  lemma TtyReadLocated(s: State, h: Home, t: nat, len: int) returns (h': Home)
    requires CanCall(s, h) && t < |s.ttys|
    ensures Located(TtyRead(s, t, len), h')
  {
    h' := h;
    if len <= 0 {
      ReturnLocated(s, h, if len == 0 then SUCCESS else ERROR);
    } else {
      h' := TtyReadLoopLocated(s, h, t, len);
    }
  }

  lemma TtyReadLoopLocated(s: State, h: Home, t: nat, len: int) returns (h': Home)
    requires CanCall(s, h) && t < |s.ttys| && len > 0
    ensures Located(TtyReadLoop(s, t, len), h')
  {
    var tty := s.ttys[t];
    if !tty.lineReady {
      var s1 := SetCont(SetTty(s, t, tty.(reading := tty.reading + [s.cur])), s.cur, InTtyRead(t, len));
      h' := ParkLocated(s, h, s1, InTtyRead(t, len), RdWait(t));
    } else {
      h' := TakeLocated(s, h, t, len);
    }
  }

  lemma TakeLocated(s: State, h: Home, t: nat, len: int) returns (h': Home)
    requires CanCall(s, h) && t < |s.ttys| && len > 0 && s.ttys[t].lineReady
    ensures Located(TtyReadLoop(s, t, len), h')
  {
    h' := h;
    var tty := s.ttys[t];
    var more := len < |tty.line|;
    var e := TtyTaken(s.cur, t, if more then tty.line[..len] else tty.line);
    var s1 := Note(SetTty(s, t, tty.(line := if more then tty.line[len..] else [], lineReady := more)), e);
    LineLocated(s, h, t, if more then tty.line[len..] else [], more, e);
    if more {
      h' := UnblockReaderLocated(s1, h, t);
      ReturnLocated(UnblockReader(s1, t), h', len);
    } else {
      ReturnLocated(s1, h, |tty.line|);
    }
  }

  lemma TtyReceiveLocated(s: State, h: Home, t: nat, line: Option<Bytes>) returns (h': Home)
    requires Located(s, h) && t < |s.ttys|
    ensures Located(TtyReceive(s, t, line), h')
  {
    h' := h;
    match line
    case None => LineLocated(s, h, t, [], false, TtyReceived(t, line));
    case Some(bytes) =>
      LineLocated(s, h, t, bytes, true, TtyReceived(t, line));
      h' := UnblockReaderLocated(Note(SetTty(s, t, s.ttys[t].(line := bytes, lineReady := true)),
        TtyReceived(t, line)), h, t);
  }

  /** The running process becomes, or already is, the sender of terminal `t`. */
  lemma SendBatchLocated(s: State, h: Home, t: nat, buf: Bytes, sent: nat) returns (h': Home)
    requires Located(s, h) && s.mode == Up && s.cur != IDLE && t < |s.ttys| && sent < |buf|
    requires if s.procs[s.cur].cont.InTtyBatch? then s.procs[s.cur].cont.btty == t else s.ttys[t].transmitter == None
    ensures Located(SendBatch(s, t, buf, sent), h')
  {
    var n := Min(s.maxLine, |buf| - sent);
    var c := InTtyBatch(t, buf, sent + n);
    var s' := BatchGiven(s, t, buf, sent, n);
    assert GoodCont(s', c);
    SendPlaced(s, s', h, t, c);
    h' := DispatchLocated(s', h[s.cur := Sending(t)]);
  }

  /** SendBatch up to its context switch */
  function BatchGiven(s: State, t: nat, buf: Bytes, sent: nat, n: nat): (r: State)
    requires s.cur in s.procs && t < |s.ttys| && sent < |buf| && n == Min(s.maxLine, |buf| - sent)
    ensures SendBatch(s, t, buf, sent) == Dispatch(r)
    ensures r == SetCont(s, s.cur, InTtyBatch(t, buf, sent + n)).(ttys := r.ttys, log := r.log)
    ensures r.ttys == s.ttys[t := s.ttys[t].(transmitter := Some(s.cur), busy := true)]
  {
    var s1 := Note(s, TtySent(s.cur, t, buf[sent..sent + n]));
    SetCont(SetTty(s1, t, s.ttys[t].(transmitter := Some(s.cur), busy := true)), s.cur, InTtyBatch(t, buf, sent + n))
  }

  lemma SendPlaced(s: State, s': State, h: Home, t: nat, c: Cont)
    requires Located(s, h) && s.cur != IDLE && t < |s.ttys|
    requires if s.procs[s.cur].cont.InTtyBatch? then s.procs[s.cur].cont.btty == t else s.ttys[t].transmitter == None
    requires s'.ttys == s.ttys[t := s.ttys[t].(transmitter := Some(s.cur), busy := true)]
    requires s' == SetCont(s, s.cur, c).(ttys := s'.ttys, log := s'.log)
    requires c.InTtyBatch? && c.btty == t && GoodCont(s', c)
    ensures Placed(s', h[s.cur := Sending(t)]) && NoneRuns(h[s.cur := Sending(t)])
  {
    ShiftQueues(s, s', h, s.cur, Sending(t));
    SendBatchTags(s, s', h, t, c);
    KeepsResumable(s, s', s.cur, c);
  }

  lemma SendBatchTags(s: State, s': State, h: Home, t: nat, c: Cont)
    requires Tags(s.procs, s.ttys, s.nextPid, h) && s.cur in h && s.cur != IDLE && t < |s.ttys| && h[s.cur] == Running
    requires if s.procs[s.cur].cont.InTtyBatch? then s.procs[s.cur].cont.btty == t else s.ttys[t].transmitter == None
    requires s'.ttys == s.ttys[t := s.ttys[t].(transmitter := Some(s.cur), busy := true)]
    requires s'.nextPid == s.nextPid && Retagged(s.procs, s'.procs, s.cur, c) && c.InTtyBatch? && c.btty == t
    ensures Tags(s'.procs, s'.ttys, s'.nextPid, h[s.cur := Sending(t)])
  {
    var h' := h[s.cur := Sending(t)];
    forall q | q in h'
      ensures q < s'.nextPid && Fits(s'.procs[q].cont, q, h'[q], s'.ttys)
    {
      assert Fits(s.procs[q].cont, q, h[q], s.ttys);
    }
    forall u | 0 <= u < |s'.ttys|
      ensures Sender(s'.ttys[u], s'.procs, h', u)
    {
      assert Sender(s.ttys[u], s.procs, h, u);
    }
  }

  lemma TtyWriteLoopLocated(s: State, h: Home, t: nat, buf: Bytes) returns (h': Home)
    requires CanCall(s, h) && t < |s.ttys| && buf != []
    ensures Located(TtyWriteLoop(s, t, buf), h')
  {
    var tty := s.ttys[t];
    if tty.transmitter != None {
      var s1 := SetCont(SetTty(s, t, tty.(transmitting := tty.transmitting + [s.cur])), s.cur, InTtyWrite(t, buf));
      h' := ParkLocated(s, h, s1, InTtyWrite(t, buf), TxWait(t));
    } else {
      h' := SendBatchLocated(s, h, t, buf, 0);
    }
  }

  lemma TtyWriteLocated(s: State, h: Home, t: nat, len: int, buf: Bytes) returns (h': Home)
    requires CanCall(s, h) && t < |s.ttys| && len <= |buf|
    ensures Located(TtyWrite(s, t, len, buf), h')
  {
    h' := h;
    if len <= 0 {
      ReturnLocated(s, h, if len == 0 then SUCCESS else ERROR);
    } else {
      h' := TtyWriteLoopLocated(s, h, t, buf[..len]);
    }
  }

  /** The sender is done: the terminal is free and one waiting writer is ready. */
  lemma WriteDoneLocated(s: State, h: Home, t: nat, e: Event, v: int) returns (h': Home)
    requires Located(s, h) && t < |s.ttys| && s.procs[s.cur].cont.InTtyBatch? && s.procs[s.cur].cont.btty == t
    ensures Located(Return(UnblockTransmitter(Note(s, e), t), v), h')
  {
    var s1 := Return(SetTty(Note(s, e), t, s.ttys[t].(transmitter := None)), v);
    WriteDoneTags(s, s1, h, t);
    KeepsResumable(s, s1, s.cur, User);
    h' := NextWriterLocated(s1, h, t);
    assert SetTty(Note(s, e), t, s.ttys[t].(transmitter := None)).ttys == s1.ttys;
  }

  lemma NextWriterLocated(s: State, h: Home, t: nat) returns (h': Home)
    requires Located(s, h) && t < |s.ttys|
    ensures var q := s.ttys[t].transmitting;
      Located(if q == [] then s else MakeReady(SetTty(s, t, s.ttys[t].(transmitting := q[1..])), q[0]), h')
  {
    h' := h;
    var q := s.ttys[t].transmitting;
    if q != [] {
      assert q == [q[0]] + q[1..];
      var s' := MakeReady(SetTty(s, t, s.ttys[t].(transmitting := q[1..])), q[0]);
      h' := h[q[0] := InReady];
      ShiftQueues(s, s', h, q[0], InReady);
      ShiftTags(s, s', h, q[0], s.procs[q[0]].cont, InReady);
    }
  }

  lemma WriteDoneTags(s: State, s': State, h: Home, t: nat)
    requires Tags(s.procs, s.ttys, s.nextPid, h) && s.cur in h && h[s.cur] == Running
    requires t < |s.ttys| && s.procs[s.cur].cont.InTtyBatch? && s.procs[s.cur].cont.btty == t
    requires s'.ttys == s.ttys[t := s.ttys[t].(transmitter := None)]
    requires s'.nextPid == s.nextPid && Retagged(s.procs, s'.procs, s.cur, User)
    ensures Tags(s'.procs, s'.ttys, s'.nextPid, h)
  {
    forall q | q in h
      ensures q < s'.nextPid && Fits(s'.procs[q].cont, q, h[q], s'.ttys)
    {
      assert Fits(s.procs[q].cont, q, h[q], s.ttys) && Fits(s.procs[s.cur].cont, s.cur, Running, s.ttys);
    }
  }

  lemma BatchLoopLocated(s: State, h: Home, t: nat, buf: Bytes, sent: nat) returns (h': Home)
    requires Located(s, h) && s.mode == Up && t < |s.ttys|
    requires s.procs[s.cur].cont == InTtyBatch(t, buf, sent)
    ensures Located(BatchLoop(s, t, buf, sent), h')
  {
    if sent < |buf| {
      h' := SendBatchLocated(s, h, t, buf, sent);
    } else {
      h' := WriteDoneLocated(s, h, t, TtyWritten(s.cur, t, buf), |buf|);
    }
  }

  lemma InterruptedPlaced(s: State, h: Home)
    requires Located(s, h) && InUserMode(s)
    ensures Placed(MakeReady(s, s.cur), h[s.cur := InReady]) && NoneRuns(h[s.cur := InReady])
  {
    ShiftQueues(s, MakeReady(s, s.cur), h, s.cur, InReady);
    ShiftTags(s, MakeReady(s, s.cur), h, s.cur, User, InReady);
  }

  /** The transmit trap: the interrupted process is ready and the sender runs. */
  lemma TransmittedLocated(s: State, h: Home, t: nat) returns (h': Home)
    requires Located(s, h) && InUserMode(s) && t < |s.ttys| && s.ttys[t].busy
    ensures Located(TtyTransmitted(s, t), h')
  {
    assert Sender(s.ttys[t], s.procs, h, t);
    var p := s.ttys[t].transmitter.value;
    var s1 := MakeReady(s, s.cur);
    var h1 := h[s.cur := InReady];
    InterruptedPlaced(s, h);
    var s2 := TtyTransmitted(s, t);
    h' := h1[p := Running];
    ShiftQueues(s1, s2, h1, p, Running);
    TransmittedTags(s1, s2, h1, t, p);
  }

  lemma TransmittedTags(s: State, s': State, h: Home, t: nat, p: Pid)
    requires Tags(s.procs, s.ttys, s.nextPid, h) && t < |s.ttys| && s.ttys[t].busy && s.ttys[t].transmitter == Some(p)
    requires s'.ttys == s.ttys[t := s.ttys[t].(busy := false)] && s'.nextPid == s.nextPid && s'.procs == s.procs
    ensures p in h && Tags(s'.procs, s'.ttys, s'.nextPid, h[p := Running])
  {
    assert Sender(s.ttys[t], s.procs, h, t);
    var h' := h[p := Running];
    forall q | q in h'
      ensures q < s'.nextPid && Fits(s'.procs[q].cont, q, h'[q], s'.ttys)
    {
      assert Fits(s.procs[q].cont, q, h[q], s.ttys);
    }
    forall u | 0 <= u < |s'.ttys|
      ensures Sender(s'.ttys[u], s'.procs, h', u)
    {
      assert Sender(s.ttys[u], s.procs, h, u);
    }
  }

  // ------------------------------------------------------------ fork, exit, wait

  /** Nobody's tag changes. */
  lemma RetagLocated(s: State, h: Home, s': State)
    requires Located(s, h) && s' == s.(procs := s'.procs, log := s'.log)
    requires Retagged(s.procs, s'.procs, s.cur, s.procs[s.cur].cont)
    ensures Located(s', h)
  {
  }

  lemma ReapLocated(s: State, h: Home) returns (h': Home)
    requires CanCall(s, h)
    ensures Located(Reap(s), h')
  {
    h' := h;
    var me := s.procs[s.cur];
    if me.zombies == [] {
      ReturnLocated(s, h, ERROR);
    } else {
      var s1 := Note(s.(procs := s.procs[s.cur := me.(zombies := me.zombies[1..])]), Reaped(s.cur, me.zombies[0]));
      RetagLocated(s, h, s1);
      ReturnLocated(s1, h, me.zombies[0].pid);
    }
  }

  lemma WaitLocated(s: State, h: Home) returns (h': Home)
    requires CanCall(s, h)
    ensures Located(Wait(s), h')
  {
    h' := h;
    if s.procs[s.cur].numChildren <= 0 {
      ReturnLocated(s, h, ERROR);
    } else if s.procs[s.cur].zombies == [] {
      h' := BlockLocated(s, h, InWait);
    } else {
      h' := ReapLocated(s, h);
    }
  }

  lemma ForkLocated(s: State, h: Home, frames: bool) returns (h': Home)
    requires CanCall(s, h) && InUserMode(s)
    ensures Located(Fork(s, frames), h')
  {
    var child := s.nextPid;
    var s0 := s.(nextPid := child + 1);
    if !frames {
      h' := h;
      ReturnLocated(s0, h, ERROR);
    } else {
      var me := s.procs[s.cur];
      var parent := me.(ret := child, children := me.children + {child}, numChildren := me.numChildren + 1);
      var s1 := MakeReady(s0.(procs := s.procs[s.cur := parent]), s.cur);
      var h1 := h[s.cur := InReady];
      assert Fork(s, frames) == s1.(procs := s1.procs[child := FRESH_PROC.(parent := Some(s.cur))], cur := child);
      ParentReady(s0, h, s1);
      h' := h1[child := Running];
      BirthLocated(s1, h1, child, FRESH_PROC.(parent := Some(s.cur)));
    }
  }

  lemma ParentReady(s: State, h: Home, s': State)
    requires CanCall(s, h) && s' == s.(procs := s'.procs, ready := s.ready + [s.cur])
    requires Retagged(s.procs, s'.procs, s.cur, User)
    ensures Placed(s', h[s.cur := InReady]) && NoneRuns(h[s.cur := InReady])
  {
    ShiftQueues(s, s', h, s.cur, InReady);
    ShiftTags(s, s', h, s.cur, User, InReady);
    KeepsResumable(s, s', s.cur, User);
  }

  lemma BirthLocated(s: State, h: Home, child: Pid, proc: Proc)
    requires Placed(s, h) && NoneRuns(h) && s.mode == Up && child !in h && child < s.nextPid && proc.cont == User
    ensures Located(s.(procs := s.procs[child := proc], cur := child), h[child := Running])
  {
    var s' := s.(procs := s.procs[child := proc], cur := child);
    ShiftQueues(s, s', h, child, Running);
  }

  /** exitProcess reports to the parent: at most the parent becomes ready. */
  lemma ReportLocated(s: State, h: Home, status: int) returns (h': Home)
    requires Located(s, h)
    ensures Located(ReportExit(s, status), h')
    ensures ReportExit(s, status).mode == s.mode && ReportExit(s, status).cur == s.cur
    ensures ReportExit(s, status).procs[s.cur].cont == s.procs[s.cur].cont
  {
    h' := h;
    var parent := s.procs[s.cur].parent;
    if parent.Some? && parent.value in s.procs {
      var q := parent.value;
      var z := Zombie(s.cur, status);
      var s1 := Note(s.(procs := s.procs[q := s.procs[q].(zombies := s.procs[q].zombies + [z])]), Exited(q, z));
      RetagLocated(s, h, s1);
      h' := UnblockLocated(s1, h, q);
    }
  }

  lemma BuryPlaced(s: State, h: Home) returns (h': Home)
    requires Located(s, h) && s.cur != IDLE && InUserMode(s)
    ensures Placed(Bury(s), h') && NoneRuns(h')
  {
    h' := map p | p in h && p != s.cur :: h[p];
    var s' := Bury(s);
    DropHolds(s.ready, InReady, h, s.cur, h');
    forall t | 0 <= t < |s.ttys|
      ensures TtyQueues(s.ttys[t], h', t) && Sender(s.ttys[t], s'.procs, h', t)
    {
      DropHolds(s.ttys[t].transmitting, TxWait(t), h, s.cur, h');
      DropHolds(s.ttys[t].reading, RdWait(t), h, s.cur, h');
      assert Sender(s.ttys[t], s.procs, h, t);
    }
    forall p | p in h'
      ensures s'.procs[p].cont == s.procs[p].cont
    {
    }
  }

  lemma DropHolds(q: seq<Pid>, pl: Place, h: Home, p: Pid, h': Home)
    requires Holds(q, h, pl) && (p in h ==> h[p] != pl)
    requires h' == map x | x in h && x != p :: h[x]
    ensures Holds(q, h', pl)
  {
  }

  lemma ExitLocated(s: State, h: Home, status: int) returns (h': Home)
    requires CanCall(s, h) && InUserMode(s)
    ensures Located(Exit(s, status), h')
  {
    h' := h;
    if s.cur != INIT {
      h' := ReportLocated(s, h, status);
      h' := BuryPlaced(ReportExit(s, status), h');
      h' := DispatchLocated(Bury(ReportExit(s, status)), h');
    }
  }

  lemma InitLocated(s: State, h: Home, c: Call)
    requires CanCall(s, h) && (c == CLockInit || c == CCvarInit || c == CPipeInit)
    ensures Located(DoCall(s, c), h)
  {
    var id := s.nextSyncId;
    var s1 := s.(nextSyncId := id + 1);
    match c {
      case CLockInit => s1 := s1.(locks := s.locks[id := Lock(None, [])]);
      case CCvarInit => s1 := s1.(cvars := s.cvars[id := []]);
      case CPipeInit => s1 := s1.(pipes := s.pipes[id := Pipe([], [])]);
    }
    FrameLocated(s, h, s1);
    ReturnLocated(s1, h, SUCCESS);
  }

  lemma CallLocated(s: State, h: Home, c: Call) returns (h': Home)
    requires CanCall(s, h) && InUserMode(s) && GoodCall(s, c)
    ensures Located(DoCall(s, c), h')
  {
    match c
    case CFork(frames) => h' := ForkLocated(s, h, frames);
    case CExit(status) => h' := ExitLocated(s, h, status);
    case CWait => h' := WaitLocated(s, h);
    case CDelay(ticks) => h' := DelayLocated(s, h, ticks);
    case CAcquire(l) => h' := AcquireLocated(s, h, l);
    case CRelease(l) =>
      h' := DoReleaseLocated(s, h, l);
      ReturnLocated(DoRelease(s, l), h', if MayRelease(s, l) then SUCCESS else ERROR);
    case CCvarWait(c, l) => h' := CvarWaitLocated(s, h, c, l);
    case CSignal(c) => h' := SignalLocated(s, h, c);
    case CBroadcast(c) => h' := BroadcastLocated(s, h, c);
    case CPipeRead(id, len) => h' := PipeReadLocated(s, h, id, len);
    case CPipeWrite(id, len, buf) => h' := PipeWriteLocated(s, h, id, len, buf);
    case CTtyWrite(t, len, buf) => h' := TtyWriteLocated(s, h, t, len, buf);
    case CTtyRead(t, len) => h' := TtyReadLocated(s, h, t, len);
    case CLockInit => h' := h; InitLocated(s, h, c);
    case CCvarInit => h' := h; InitLocated(s, h, c);
    case CPipeInit => h' := h; InitLocated(s, h, c);
  }

  lemma ContinueLocated(s: State, h: Home) returns (h': Home)
    requires Located(s, h) && s.mode == Up && s.procs[s.cur].cont != User && GoodCont(s, s.procs[s.cur].cont)
    ensures Located(Continue(s), h')
  {
    match s.procs[s.cur].cont
    case InAcquire(l) => h' := AcquireLocated(s, h, l);
    case InCvarWait(_, l) => h' := AcquireLocated(s, h, l);
    case InPipeRead(id, len) => h' := PipeLoopLocated(s, h, id, len);
    case InWait => h' := ReapLocated(s, h);
    case InTtyRead(t, len) => h' := TtyReadLoopLocated(s, h, t, len);
    case InTtyWrite(t, buf) => h' := TtyWriteLoopLocated(s, h, t, buf);
    case InTtyBatch(t, buf, sent) => h' := BatchLoopLocated(s, h, t, buf, sent);
  }

  lemma StepLocated(s: State, h: Home, l: Label) returns (h': Home)
    requires Located(s, h) && Enabled(s, l)
    ensures Located(Step(s, l), h')
  {
    match l
    case Trap(c) => h' := CallLocated(s, h, c);
    case Resume => h' := ContinueLocated(s, h);
    case Clock(order) =>
      h' := TickAllLocated(s, h, order);
      h' := KickLocated(TickAll(s, order), h');
    case Receive(t, line) => h' := TtyReceiveLocated(s, h, t, line);
    case Transmitted(t) => h' := TransmittedLocated(s, h, t);
  }

  ghost predicate Inv(s: State) {
    exists h :: Located(s, h)
  }

  lemma InvFresh(s: State)
    requires Inv(s)
    ensures s.cur in s.procs && s.nextPid !in s.procs && s.maxLine >= 1
    ensures forall p | p in s.procs :: p < s.nextPid
  {
  }

  lemma BootInv(s: State)
    requires Boot(s)
    ensures Inv(s)
  {
    assert Located(s, map[IDLE := InReady, INIT := Running]);
  }

  lemma StepInv(s: State, l: Label)
    requires Inv(s) && Enabled(s, l)
    ensures Inv(Step(s, l))
  {
    var h: Home :| Located(s, h);
    var h' := StepLocated(s, h, l);
  }

  /** Every state of every run satisfies the location invariant. */
  lemma {:induction false} RunInv(ss: seq<State>, ls: seq<Label>, i: nat)
    requires Run(ss, ls) && i < |ss|
    ensures Inv(ss[i])
  {
    if i == 0 {
      BootInv(ss[0]);
    } else {
      RunInv(ss, ls, i - 1);
      StepInv(ss[i - 1], ls[i - 1]);
    }
  }

  // ------------------------------------------------------------ what it means

  /** How many terminal places of `ttys` hold `p`. */
  ghost function TtyPlaces(ttys: seq<Tty>, cur: Pid, p: Pid): nat {
    if ttys == [] then 0
    else
      var tty := ttys[|ttys| - 1];
      TtyPlaces(ttys[..|ttys| - 1], cur, p) + multiset(tty.transmitting)[p] + multiset(tty.reading)[p]
      + if tty.transmitter == Some(p) && p != cur then 1 else 0
  }

  /** How many of the scheduler's containers hold `p`, repetitions counted. */
  ghost function Places(s: State, p: Pid): nat {
    (if s.cur == p then 1 else 0) + multiset(s.ready)[p]
    + (if p in s.blocked then 1 else 0) + (if p in s.sleeping then 1 else 0)
    + TtyPlaces(s.ttys, s.cur, p)
  }

  lemma {:induction false} CountOnce<T>(q: seq<T>, x: T)
    requires NoDup(q)
    ensures multiset(q)[x] == if x in q then 1 else 0
  {
    if q != [] {
      var r := q[..|q| - 1];
      CountOnce(r, x);
      assert q == r + [q[|q| - 1]];
    }
  }

  lemma CountTty(s: State, h: Home, p: Pid, t: nat)
    requires Located(s, h) && t < |s.ttys|
    ensures var tty := s.ttys[t];
      multiset(tty.transmitting)[p] + multiset(tty.reading)[p] + (if tty.transmitter == Some(p) && p != s.cur then 1
        else 0)
      == if p in h && (h[p].TxWait? || h[p].RdWait? || h[p].Sending?) && h[p].t == t then 1 else 0
  {
    assert TtyQueues(s.ttys[t], h, t) && Sender(s.ttys[t], s.procs, h, t);
    CountOnce(s.ttys[t].transmitting, p);
    CountOnce(s.ttys[t].reading, p);
    assert p in h ==> Fits(s.procs[p].cont, p, h[p], s.ttys);
  }

  lemma {:induction false} CountTtys(s: State, h: Home, p: Pid, n: nat)
    requires Located(s, h) && n <= |s.ttys|
    ensures TtyPlaces(s.ttys[..n], s.cur, p) ==
      if p in h && (h[p].TxWait? || h[p].RdWait? || h[p].Sending?) && h[p].t < n then 1 else 0
  {
    if n > 0 {
      CountTtys(s, h, p, n - 1);
      assert s.ttys[..n][..n - 1] == s.ttys[..n - 1];
      CountTty(s, h, p, n - 1);
    }
  }

  lemma TtyInRange(s: State, h: Home, p: Pid)
    requires Located(s, h) && p in h && (h[p].TxWait? || h[p].RdWait? || h[p].Sending?)
    ensures h[p].t < |s.ttys|
  {
    assert Fits(s.procs[p].cont, p, h[p], s.ttys);
    assert GoodCont(s, s.procs[p].cont);
  }

  lemma OnePlace(s: State, p: Pid)
    requires Inv(s)
    ensures Places(s, p) == if p in s.procs then 1 else 0
  {
    var h: Home :| Located(s, h);
    CountOnce(s.ready, p);
    CountTtys(s, h, p, |s.ttys|);
    assert s.ttys[..|s.ttys|] == s.ttys;
    if p in h && (h[p].TxWait? || h[p].RdWait? || h[p].Sending?) {
      TtyInRange(s, h, p);
    }
  }

  /** In every state of every run a live process is in exactly one place, and nobody else is anywhere. */
  lemma ExactlyOnePlace(ss: seq<State>, ls: seq<Label>, i: nat, p: Pid)
    requires Run(ss, ls) && i < |ss|
    ensures Places(ss[i], p) == if p in ss[i].procs then 1 else 0
  {
    RunInv(ss, ls, i);
    OnePlace(ss[i], p);
  }

  /** Idle is always running or ready, so no suspension or exit finds the ready queue empty. */
  lemma IdleNeverLeaves(ss: seq<State>, ls: seq<Label>, i: nat)
    requires Run(ss, ls) && i < |ss|
    ensures ss[i].cur == IDLE || IDLE in ss[i].ready
    ensures ss[i].mode != Stuck
  {
    RunInv(ss, ls, i);
  }

  /** A process that a context switch picks in the middle of a call can always go on with it. */
  lemma CallsResume(ss: seq<State>, ls: seq<Label>, i: nat)
    requires Run(ss, ls) && i < |ss| && ss[i].mode == Up
    ensures InUserMode(ss[i]) || Enabled(ss[i], Resume)
  {
    RunInv(ss, ls, i);
  }
}
