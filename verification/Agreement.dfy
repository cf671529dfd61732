/**
 The blocked map and the wait queues agree.  The one step that can break the agreement is
 an exit that wakes its parent while the parent is blocked on something else than Wait
 (exitProcess calls unblockProcess on the parent without asking why it is blocked), and it
 breaks it exactly when `Harmful` says.
 */
module Agreement {
  import opened Basics
  import opened KernelState
  import opened KernelSteps
  import opened Footprint
  import opened Location

  /** What a process waits for among the synchronisation objects. */
  datatype View = Off | OnLock(l: Id) | OnCvar(c: Id) | OnPipe(id: Id, len: int, asleep: bool)

  ghost function ViewOf(c: Cont, blocked: bool): View {
    match c
    case InAcquire(l) => if blocked then OnLock(l) else Off
    case InCvarWait(c, _) => if blocked then OnCvar(c) else Off
    case InPipeRead(id, len) => OnPipe(id, len, blocked)
    case _ => Off
  }

  ghost function V(s: State, p: Pid): View {
    if p in s.procs then ViewOf(s.procs[p].cont, p in s.blocked) else Off
  }

  ghost function Awake(v: View): View {
    if v.OnPipe? then v.(asleep := false) else Off
  }

  /** `V` changes at `p` only, to `v`. */
  ghost predicate Turns(s: State, s': State, p: Pid, v: View) {
    forall q :: V(s', q) == if q == p then v else V(s, q)
  }

  ghost predicate LockQ(s: State, l: Id, q: seq<Pid>) {
    && NoDup(q)
    && forall p :: p in q <==> V(s, p) == OnLock(l)
  }

  ghost predicate CvarQ(s: State, c: Id, q: seq<Pid>) {
    && NoDup(q)
    && forall p :: p in q <==> V(s, p) == OnCvar(c)
  }

  /** Everyone behind the head is asleep; a sleeping head asks for more than there is. */
  ghost predicate PipeQ(s: State, id: Id, pipe: Pipe) {
    && NoDup(pipe.waiting)
    && (forall p :: p in pipe.waiting <==> V(s, p).OnPipe? && V(s, p).id == id)
    && (forall i | 1 <= i < |pipe.waiting| :: V(s, pipe.waiting[i]).OnPipe? && V(s, pipe.waiting[i]).asleep)
    && (pipe.waiting != [] && V(s, pipe.waiting[0]).OnPipe? && V(s, pipe.waiting[0]).asleep
        ==> |pipe.buffer| < V(s, pipe.waiting[0]).len)
  }

  ghost predicate Agree(s: State) {
    && (forall l | l in s.locks :: LockQ(s, l, s.locks[l].waiting) && l < s.nextSyncId)
    && (forall c | c in s.cvars :: CvarQ(s, c, s.cvars[c]) && c < s.nextSyncId)
    && (forall id | id in s.pipes :: PipeQ(s, id, s.pipes[id]) && id < s.nextSyncId)
  }

  /** An exit that wakes a parent out of a lock or condition queue, or from behind a pipe's head. */
  ghost predicate Harmful(s: State, l: Label) {
    && l.Trap? && l.call.CExit? && s.cur != INIT && s.cur in s.procs
    && var parent := s.procs[s.cur].parent;
    && parent.Some? && parent.value in s.procs && parent.value in s.blocked
    && var c := s.procs[parent.value].cont;
    && (|| c.InAcquire? || c.InCvarWait?
        || (c.InPipeRead? && c.pipe in s.pipes
            && (s.pipes[c.pipe].waiting == [] || s.pipes[c.pipe].waiting[0] != parent.value)))
  }

  // ------------------------------------------------------------ how views turn

  lemma Unchanged(s: State, s': State)
    requires Agree(s) && s.nextSyncId <= s'.nextSyncId
    requires s'.locks.Keys == s.locks.Keys && s'.cvars == s.cvars && s'.pipes == s.pipes
    requires forall l | l in s.locks :: s'.locks[l].waiting == s.locks[l].waiting
    requires forall p :: V(s', p) == V(s, p)
    ensures Agree(s')
  {
  }

  lemma CurView(s: State, h: Home)
    requires Located(s, h)
    ensures s.cur !in s.blocked && s.cur in s.procs
    ensures V(s, s.cur) == Off || s.procs[s.cur].cont.InPipeRead?
    ensures forall p | p in s.blocked :: p in s.procs
  {
  }

  lemma BlockTurns(s: State, h: Home, c: Cont)
    requires Located(s, h) && s.cur != IDLE
    ensures Turns(s, Block(s, c), s.cur, ViewOf(c, true))
  {
    CurView(s, h);
    var s1 := SetCont(s, s.cur, c).(blocked := s.blocked + {s.cur});
    assert Turns(s, s1, s.cur, ViewOf(c, true));
  }

  lemma ReturnTurns(s: State, v: int)
    requires s.cur in s.procs && s.cur !in s.blocked
    ensures Turns(s, Return(s, v), s.cur, Off)
  {
  }

  lemma UnblockTurns(s: State, p: Pid)
    requires p in s.blocked ==> p in s.procs
    ensures Turns(s, Unblock(s, p), p, if p in s.blocked then Awake(V(s, p)) else V(s, p))
  {
  }

  // ------------------------------------------------------------ one process moves

  /** `p`, waiting for nothing, joins the queue of lock `l`. */
  lemma JoinLock(s: State, s': State, p: Pid, l: Id)
    requires Agree(s) && V(s, p) == Off && l in s.locks && s'.nextSyncId == s.nextSyncId
    requires s'.locks == s.locks[l := s.locks[l].(waiting := s.locks[l].waiting + [p])]
    requires s'.cvars == s.cvars && s'.pipes == s.pipes && Turns(s, s', p, OnLock(l))
    ensures Agree(s')
  {
    assert LockQ(s, l, s.locks[l].waiting);
    forall c | c in s'.cvars ensures CvarQ(s', c, s'.cvars[c]) {
      assert CvarQ(s, c, s.cvars[c]);
    }
    forall id | id in s'.pipes ensures PipeQ(s', id, s'.pipes[id]) {
      assert PipeQ(s, id, s.pipes[id]);
    }
  }

  lemma LeaveLock(s: State, s': State, l: Id)
    requires Agree(s) && l in s.locks && s.locks[l].waiting != [] && s'.nextSyncId == s.nextSyncId
    requires l in s'.locks && s'.locks == s.locks[l := s'.locks[l]] && s'.locks[l].waiting == s.locks[l].waiting[1..]
    requires s'.cvars == s.cvars && s'.pipes == s.pipes && Turns(s, s', s.locks[l].waiting[0], Off)
    ensures Agree(s')
  {
    var q := s.locks[l].waiting;
    assert LockQ(s, l, q);
    assert q == [q[0]] + q[1..];
    assert q[0] in q;
    forall c | c in s'.cvars ensures CvarQ(s', c, s'.cvars[c]) {
      assert CvarQ(s, c, s.cvars[c]);
    }
    forall id | id in s'.pipes ensures PipeQ(s', id, s'.pipes[id]) {
      assert PipeQ(s, id, s.pipes[id]);
    }
  }

  lemma JoinCvar(s: State, s': State, p: Pid, c: Id)
    requires Agree(s) && V(s, p) == Off && c in s.cvars && s'.nextSyncId == s.nextSyncId
    requires s'.cvars == s.cvars[c := s.cvars[c] + [p]]
    requires s'.locks == s.locks && s'.pipes == s.pipes && Turns(s, s', p, OnCvar(c))
    ensures Agree(s')
  {
    assert CvarQ(s, c, s.cvars[c]);
    forall l | l in s'.locks ensures LockQ(s', l, s'.locks[l].waiting) {
      assert LockQ(s, l, s.locks[l].waiting);
    }
    forall id | id in s'.pipes ensures PipeQ(s', id, s'.pipes[id]) {
      assert PipeQ(s, id, s.pipes[id]);
    }
  }

  lemma LeaveCvar(s: State, s': State, c: Id)
    requires Agree(s) && c in s.cvars && s.cvars[c] != [] && s'.nextSyncId == s.nextSyncId
    requires s'.cvars == s.cvars[c := s.cvars[c][1..]]
    requires s'.locks == s.locks && s'.pipes == s.pipes && Turns(s, s', s.cvars[c][0], Off)
    ensures Agree(s')
  {
    var q := s.cvars[c];
    assert CvarQ(s, c, q);
    assert q == [q[0]] + q[1..];
    assert q[0] in q;
    forall l | l in s'.locks ensures LockQ(s', l, s'.locks[l].waiting) {
      assert LockQ(s, l, s.locks[l].waiting);
    }
    forall id | id in s'.pipes ensures PipeQ(s', id, s'.pipes[id]) {
      assert PipeQ(s, id, s.pipes[id]);
    }
  }

  ghost predicate OffOrOn(v: View, id: Id) {
    v == Off || (v.OnPipe? && v.id == id)
  }

  /** Pipe `id` changes and nobody outside it is affected. */
  lemma OnlyPipe(s: State, s': State, id: Id)
    requires Agree(s) && id in s.pipes && s'.nextSyncId == s.nextSyncId && s'.locks == s.locks && s'.cvars == s.cvars
    requires id in s'.pipes && s'.pipes == s.pipes[id := s'.pipes[id]]
    requires forall p :: V(s', p) == V(s, p) || (OffOrOn(V(s, p), id) && OffOrOn(V(s', p), id))
    requires PipeQ(s', id, s'.pipes[id])
    ensures Agree(s')
  {
    forall l | l in s'.locks ensures LockQ(s', l, s'.locks[l].waiting) {
      assert LockQ(s, l, s.locks[l].waiting);
    }
    forall c | c in s'.cvars ensures CvarQ(s', c, s'.cvars[c]) {
      assert CvarQ(s, c, s.cvars[c]);
    }
    forall k | k in s'.pipes ensures PipeQ(s', k, s'.pipes[k]) {
      assert PipeQ(s, k, s.pipes[k]);
      if k != id {
        assert forall p | p in s.pipes[k].waiting :: V(s', p) == V(s, p);
      }
    }
  }

  // ------------------------------------------------------------ the kernel's steps

  lemma AcquireAgrees(s: State, h: Home, l: Id)
    requires CanCall(s, h) && Agree(s) && V(s, s.cur) == Off
    ensures Agree(Acquire(s, l))
  {
    CurView(s, h);
    if l in s.locks && s.locks[l].owner != None {
      var s1 := s.(locks := s.locks[l := s.locks[l].(waiting := s.locks[l].waiting + [s.cur])]);
      FrameLocated(s, h, s1);
      BlockTurns(s1, h, InAcquire(l));
      assert forall p :: V(s1, p) == V(s, p);
      JoinLock(s, Acquire(s, l), s.cur, l);
    } else {
      Unchanged(s, Acquire(s, l));
    }
  }

  lemma ReleaseAgrees(s: State, h: Home, l: Id)
    requires CanCall(s, h) && Agree(s)
    ensures Agree(DoRelease(s, l)) && V(DoRelease(s, l), s.cur) == V(s, s.cur)
  {
    CurView(s, h);
    var s' := DoRelease(s, l);
    if MayRelease(s, l) && s.locks[l].waiting != [] {
      var w := s.locks[l].waiting[0];
      assert LockQ(s, l, s.locks[l].waiting);
      assert w in s.locks[l].waiting;
      var s1 := Note(s, Released(s.cur, l)).(locks := s.locks[l := Lock(None, s.locks[l].waiting[1..])]);
      UnblockTurns(s1, w);
      assert Turns(s, s', w, Off);
      LeaveLock(s, s', l);
    } else {
      Unchanged(s, s');
    }
  }

  lemma ReturnAgrees(s: State, v: int)
    requires Agree(s) && s.cur in s.procs && s.cur !in s.blocked && V(s, s.cur) == Off
    ensures Agree(Return(s, v))
  {
    Unchanged(s, Return(s, v));
  }

  lemma CvarWaitAgrees(s: State, h: Home, c: Id, l: Id)
    requires CanCall(s, h) && Agree(s) && InUserMode(s)
    ensures Agree(CvarWait(s, c, l))
  {
    CurView(s, h);
    if c in s.cvars {
      // queueing first and releasing first come to the same
      var q := s.cvars[c := s.cvars[c] + [s.cur]];
      var s1 := DoRelease(s, l);
      ReleaseAgrees(s, h, l);
      var h1 := DoReleaseLocated(s, h, l);
      var s2 := s1.(cvars := q);
      assert DoRelease(s.(cvars := q), l) == s2;
      FrameLocated(s1, h1, s2);
      BlockTurns(s2, h1, InCvarWait(c, l));
      assert forall p :: V(s2, p) == V(s1, p);
      JoinCvar(s1, CvarWait(s, c, l), s.cur, c);
    } else {
      ReturnAgrees(s, ERROR);
    }
  }

  lemma PopCvarAgrees(s: State, h: Home, c: Id)
    requires CanCall(s, h) && Agree(s) && c in s.cvars && s.cvars[c] != []
    ensures Agree(PopCvar(s, c))
  {
    CurView(s, h);
    var w := s.cvars[c][0];
    assert CvarQ(s, c, s.cvars[c]);
    assert w in s.cvars[c];
    UnblockTurns(s.(cvars := s.cvars[c := s.cvars[c][1..]]), w);
    assert Turns(s, PopCvar(s, c), w, Off);
    LeaveCvar(s, PopCvar(s, c), c);
  }

  lemma PopAllCvarAgrees(s: State, h: Home, c: Id)
    requires CanCall(s, h) && Agree(s) && c in s.cvars
    ensures Agree(PopAllCvar(s, c))
    decreases |s.cvars[c]|
  {
    if s.cvars[c] != [] {
      PopCvarAgrees(s, h, c);
      var h' := PopCvarLocated(s, h, c);
      PopAllCvarAgrees(PopCvar(s, c), h', c);
    }
  }

  lemma SignalAgrees(s: State, h: Home, c: Id)
    requires CanCall(s, h) && Agree(s) && InUserMode(s)
    ensures Agree(Signal(s, c)) && Agree(Broadcast(s, c))
  {
    CurView(s, h);
    if c in s.cvars {
      PopAllCvarAgrees(s, h, c);
      var h1 := PopAllCvarLocated(s, h, c);
      CurView(PopAllCvar(s, c), h1);
      ReturnAgrees(PopAllCvar(s, c), SUCCESS);
      if s.cvars[c] != [] {
        PopCvarAgrees(s, h, c);
        var h2 := PopCvarLocated(s, h, c);
        CurView(PopCvar(s, c), h2);
        ReturnAgrees(PopCvar(s, c), SUCCESS);
      } else {
        ReturnAgrees(s, SUCCESS);
      }
    } else {
      ReturnAgrees(s, ERROR);
    }
  }

  /** The head of the pipe's queue, running, finds enough bytes and leaves. */
  lemma TakeAgrees(s: State, h: Home, id: Id, len: int)
    requires CanCall(s, h) && Agree(s) && id in s.pipes && 0 < len <= |s.pipes[id].buffer|
    requires s.pipes[id].waiting != [] && s.pipes[id].waiting[0] == s.cur
    ensures Agree(PipeLoop(s, id, len))
  {
    CurView(s, h);
    TakeTurns(s, id, len);
    forall p | V(s, p).OnPipe? ensures V(s, p).len > 0 {
      assert GoodCont(s, s.procs[p].cont);
    }
    TakenQueue(s, PipeLoop(s, id, len), id, len);
    OnlyPipe(s, PipeLoop(s, id, len), id);
  }

  /** How `p` stands when the head of the pipe's queue has taken `len` bytes and left */
  ghost function TakenView(s: State, pipe: Pipe, len: int, p: Pid): View {
    if p == s.cur then Off
    else if |pipe.waiting| > 1 && p == pipe.waiting[1] && |pipe.buffer| > len then Awake(V(s, p))
    else V(s, p)
  }

  ghost predicate Taken(s: State, s': State, pipe: Pipe, len: int) {
    forall p :: V(s', p) == TakenView(s, pipe, len, p)
  }

  lemma TakenQueue(s: State, s': State, id: Id, len: int)
    requires id in s.pipes && id in s'.pipes && 0 < len <= |s.pipes[id].buffer| && PipeQ(s, id, s.pipes[id])
    requires s.pipes[id].waiting != [] && s.pipes[id].waiting[0] == s.cur
    requires s'.pipes[id] == Pipe(s.pipes[id].buffer[len..], s.pipes[id].waiting[1..])
    requires Taken(s, s', s.pipes[id], len)
    requires forall p | V(s, p).OnPipe? :: V(s, p).len > 0
    ensures PipeQ(s', id, s'.pipes[id])
    ensures forall p :: V(s', p) == V(s, p) || (OffOrOn(V(s, p), id) && OffOrOn(V(s', p), id))
  {
    var pipe := s.pipes[id];
    var q, r := pipe.waiting, pipe.waiting[1..];
    assert q == [q[0]] + r && q[0] in q;
    assert |q| > 1 ==> q[1] in q;
    forall p ensures V(s', p) == V(s, p) || (OffOrOn(V(s, p), id) && OffOrOn(V(s', p), id)) {
    }
    forall i | 0 <= i < |r|
      ensures V(s', r[i]) == if i == 0 && |pipe.buffer| > len then Awake(V(s, r[i])) else V(s, r[i])
    {
      assert r[i] == q[i + 1] && q[i + 1] != q[0] && (i > 0 ==> q[i + 1] != q[1]);
    }
    forall p ensures p in r <==> V(s', p).OnPipe? && V(s', p).id == id {
      assert p in q <==> p == q[0] || p in r;
      assert q[0] !in r;
    }
    forall i | 1 <= i < |r| ensures V(s', r[i]).OnPipe? && V(s', r[i]).asleep {
      assert r[i] == q[i + 1];
    }
  }

  lemma TakeTurns(s: State, id: Id, len: int)
    requires s.cur in s.procs && s.cur !in s.blocked && id in s.pipes && 0 < len <= |s.pipes[id].buffer|
    requires forall p | p in s.blocked :: p in s.procs
    requires Agree(s) && s.pipes[id].waiting != [] && s.pipes[id].waiting[0] == s.cur
    ensures var s' := PipeLoop(s, id, len); var pipe := s.pipes[id];
      && s' == s.(ready := s'.ready, blocked := s'.blocked, procs := s'.procs, pipes := s'.pipes, log := s'.log)
      && s'.pipes == s.pipes[id := Pipe(pipe.buffer[len..], pipe.waiting[1..])]
      && Taken(s, s', pipe, len)
  {
    var pipe := s.pipes[id];
    assert PipeQ(s, id, pipe);
    var rest := Pipe(pipe.buffer[len..], pipe.waiting[1..]);
    var s1 := Note(s.(pipes := s.pipes[id := rest]), PipeTaken(s.cur, id, len, pipe.buffer[..len]));
    assert forall p :: V(s1, p) == V(s, p);
    if rest.buffer != [] && rest.waiting != [] {
      assert rest.waiting[0] == pipe.waiting[1];
      UnblockTurns(s1, rest.waiting[0]);
      ReturnTurns(Unblock(s1, rest.waiting[0]), len);
    } else {
      ReturnTurns(s1, len);
    }
  }

  lemma PipeLoopAgrees(s: State, h: Home, id: Id, len: int)
    requires CanCall(s, h) && Agree(s) && id in s.pipes && len > 0
    requires V(s, s.cur) == OnPipe(id, len, false)
    ensures s.pipes[id].waiting != [] && s.pipes[id].waiting[0] == s.cur
    ensures Agree(PipeLoop(s, id, len))
  {
    CurView(s, h);
    var q := s.pipes[id].waiting;
    assert PipeQ(s, id, s.pipes[id]);
    assert s.cur in q;
    if |s.pipes[id].buffer| < len {
      BlockTurns(s, h, InPipeRead(id, len));
      OnlyPipe(s, PipeLoop(s, id, len), id);
    } else {
      TakeAgrees(s, h, id, len);
    }
  }

  /** The running process joins the pipe's queue and falls asleep. */
  lemma JoinPipe(s: State, s': State, id: Id, len: int)
    requires Agree(s) && id in s.pipes && s'.nextSyncId == s.nextSyncId && s'.locks == s.locks && s'.cvars == s.cvars
    requires id in s'.pipes && s'.pipes == s.pipes[id := s'.pipes[id]]
    requires s'.pipes[id] == s.pipes[id].(waiting := s.pipes[id].waiting + [s.cur])
    requires V(s, s.cur) == Off && Turns(s, s', s.cur, OnPipe(id, len, true))
    requires s.pipes[id].waiting != [] || |s.pipes[id].buffer| < len
    ensures Agree(s')
  {
    var pipe := s.pipes[id];
    assert PipeQ(s, id, pipe);
    forall i | 0 <= i < |pipe.waiting| ensures V(s', s'.pipes[id].waiting[i]) == V(s, pipe.waiting[i]) {
      assert pipe.waiting[i] in pipe.waiting;
    }
    OnlyPipe(s, s', id);
  }

  lemma PipeReadAgrees(s: State, h: Home, id: Id, len: int)
    requires CanCall(s, h) && Agree(s) && InUserMode(s)
    ensures Agree(PipeRead(s, id, len))
  {
    CurView(s, h);
    if len <= 0 || id !in s.pipes {
      ReturnAgrees(s, if len == 0 then SUCCESS else ERROR);
    } else {
      ReadQueuedAgrees(s, h, id, len);
    }
  }

  lemma ReadQueuedAgrees(s: State, h: Home, id: Id, len: int)
    requires CanCall(s, h) && Agree(s) && InUserMode(s) && len > 0 && id in s.pipes
    ensures Agree(PipeRead(s, id, len))
  {
    CurView(s, h);
    var pipe := s.pipes[id];
    var q := pipe.waiting + [s.cur];
    var s1 := Note(s.(pipes := s.pipes[id := pipe.(waiting := q)]), PipeQueued(s.cur, id));
    var s' := PipeRead(s, id, len);
    assert forall p :: V(s1, p) == V(s, p);
    if pipe.waiting == [] && len <= |pipe.buffer| {
      ServedAtOnce(s, id, len);
    } else {
      assert PipeQ(s, id, pipe) && (pipe.waiting != [] ==> q[0] in pipe.waiting);
      FrameLocated(s, h, s1);
      BlockTurns(s1, h, InPipeRead(id, len));
      JoinPipe(s, s', id, len);
    }
  }

  /** A reader that finds nobody waiting and enough bytes */
  lemma ServedAtOnce(s: State, id: Id, len: int)
    requires Agree(s) && InUserMode(s) && s.cur !in s.blocked && len > 0 && id in s.pipes
    requires s.pipes[id].waiting == [] && len <= |s.pipes[id].buffer|
    ensures Agree(PipeRead(s, id, len))
  {
    var pipe := s.pipes[id];
    var s1 := Note(s.(pipes := s.pipes[id := pipe.(waiting := [s.cur])]), PipeQueued(s.cur, id));
    assert PipeQ(s, id, pipe) && pipe.waiting + [s.cur] == [s.cur] && [s.cur][1..] == [];
    assert forall p :: V(s1, p) == V(s, p);
    ReturnTurns(Note(s1.(pipes := s1.pipes[id := Pipe(pipe.buffer[len..], [])]),
                     PipeTaken(s.cur, id, len, pipe.buffer[..len])), len);
    OnlyPipe(s, PipeRead(s, id, len), id);
  }

  lemma PipeWriteAgrees(s: State, h: Home, id: Id, len: int, buf: Bytes)
    requires CanCall(s, h) && Agree(s) && InUserMode(s) && len <= |buf|
    ensures Agree(PipeWrite(s, id, len, buf))
  {
    CurView(s, h);
    if len <= 0 || id !in s.pipes || |s.pipes[id].buffer| + len > PipeMax(s) {
      ReturnAgrees(s, if len == 0 then SUCCESS else ERROR);
    } else {
      var pipe := s.pipes[id];
      assert PipeQ(s, id, pipe);
      var s1 := Note(s.(pipes := s.pipes[id := pipe.(buffer := pipe.buffer + buf[..len])]),
        PipeWritten(s.cur, id, buf[..len]));
      assert forall p :: V(s1, p) == V(s, p);
      if pipe.waiting != [] {
        var w := pipe.waiting[0];
        assert w in pipe.waiting;
        UnblockTurns(s1, w);
        ReturnTurns(Unblock(s1, w), len);
        HeadWoken(s, PipeWrite(s, id, len, buf), id);
      } else {
        ReturnTurns(s1, len);
      }
      OnlyPipe(s, PipeWrite(s, id, len, buf), id);
    }
  }

  /** A pipe whose buffer has grown and whose head is awake is in agreement. */
  lemma HeadWoken(s: State, s': State, id: Id)
    requires id in s.pipes && id in s'.pipes && PipeQ(s, id, s.pipes[id]) && s.pipes[id].waiting != []
    requires s'.pipes[id].waiting == s.pipes[id].waiting
    requires var w := s.pipes[id].waiting[0];
      Turns(s, s', w, if V(s, w).OnPipe? then V(s, w).(asleep := false) else V(s, w))
    ensures PipeQ(s', id, s'.pipes[id])
  {
    var q := s.pipes[id].waiting;
    assert q[0] in q && forall i | 1 <= i < |q| :: q[i] != q[0];
  }

  /** A view of no object with this identifier */
  ghost predicate Elsewhere(v: View, id: Id) {
    v != OnLock(id) && v != OnCvar(id) && !(v.OnPipe? && v.id == id)
  }

  /** Nobody waits for the object that is made next. */
  lemma NobodyAt(s: State, h: Home, p: Pid)
    requires Located(s, h) && Agree(s)
    ensures Elsewhere(V(s, p), s.nextSyncId)
  {
    assert p in s.procs ==> GoodCont(s, s.procs[p].cont);
  }

  lemma InitAgrees(s: State, h: Home, c: Call)
    requires CanCall(s, h) && Agree(s) && InUserMode(s) && (c == CLockInit || c == CCvarInit || c == CPipeInit)
    ensures Agree(DoCall(s, c))
  {
    CurView(s, h);
    var s' := DoCall(s, c);
    assert forall p :: V(s', p) == V(s, p);
    forall p ensures Elsewhere(V(s, p), s.nextSyncId) {
      NobodyAt(s, h, p);
    }
    MadeAgrees(s, s', s.nextSyncId);
  }

  /** At most the object `id`, for which nobody waits, is new. */
  lemma MadeAgrees(s: State, s': State, id: Id)
    requires Agree(s) && s'.nextSyncId == id + 1 && id == s.nextSyncId
    requires forall p :: V(s', p) == V(s, p) && Elsewhere(V(s, p), id)
    requires s'.locks == s.locks || s'.locks == s.locks[id := Lock(None, [])]
    requires s'.cvars == s.cvars || s'.cvars == s.cvars[id := []]
    requires s'.pipes == s.pipes || s'.pipes == s.pipes[id := Pipe([], [])]
    ensures Agree(s')
  {
    forall l | l in s'.locks ensures LockQ(s', l, s'.locks[l].waiting) {
      assert l in s.locks ==> LockQ(s, l, s.locks[l].waiting);
    }
    forall k | k in s'.cvars ensures CvarQ(s', k, s'.cvars[k]) {
      assert k in s.cvars ==> CvarQ(s, k, s.cvars[k]);
    }
    forall k | k in s'.pipes ensures PipeQ(s', k, s'.pipes[k]) {
      assert k in s.pipes ==> PipeQ(s, k, s.pipes[k]);
    }
  }

  /** Steps that leave the blocked map alone and run calls that wait for no object. */
  lemma ElsewhereAgrees(s: State, s': State)
    requires Agree(s) && s.nextSyncId <= s'.nextSyncId && s.cur in s.procs
    requires s'.locks == s.locks && s'.cvars == s.cvars && s'.pipes == s.pipes && s'.blocked == s.blocked
    requires Tagged(s.procs, s'.procs, s.cur)
    requires ViewOf(s.procs[s.cur].cont, true) == Off && ViewOf(s'.procs[s.cur].cont, true) == Off
    ensures Agree(s')
  {
    Unchanged(s, s');
  }

  lemma ReapAgrees(s: State, h: Home)
    requires CanCall(s, h) && Agree(s) && (InUserMode(s) || s.procs[s.cur].cont == InWait)
    ensures Agree(Reap(s))
  {
    CurView(s, h);
    Unchanged(s, Reap(s));
  }

  lemma WaitAgrees(s: State, h: Home)
    requires CanCall(s, h) && Agree(s) && InUserMode(s)
    ensures Agree(Wait(s))
  {
    CurView(s, h);
    if s.procs[s.cur].numChildren <= 0 {
      ReturnAgrees(s, ERROR);
    } else if s.procs[s.cur].zombies == [] {
      BlockTurns(s, h, InWait);
      Unchanged(s, Wait(s));
    } else {
      ReapAgrees(s, h);
    }
  }

  lemma ForkAgrees(s: State, h: Home, frames: bool)
    requires CanCall(s, h) && Agree(s) && InUserMode(s)
    ensures Agree(Fork(s, frames))
  {
    CurView(s, h);
    Unchanged(s, Fork(s, frames));
  }

  /** After the report the parent's view has turned if it was blocked; the rest of exit turns nothing. */
  lemma ExitTurns(s: State, h: Home, status: int)
    requires CanCall(s, h) && InUserMode(s) && s.cur != INIT
    ensures var s' := Exit(s, status); var parent := s.procs[s.cur].parent;
      if parent.Some? && parent.value in s.procs && parent.value in s.blocked
      then Turns(s, s', parent.value, Awake(V(s, parent.value)))
      else forall p :: V(s', p) == V(s, p)
    ensures var s' := Exit(s, status);
      (s'.locks, s'.cvars, s'.pipes, s'.nextSyncId) == (s.locks, s.cvars, s.pipes, s.nextSyncId)
  {
    CurView(s, h);
    ReportTurns(s, status);
    BuryTurns(ReportExit(s, status));
    var s2 := Bury(ReportExit(s, status));
    assert forall p :: V(Dispatch(s2), p) == V(s2, p);
  }

  lemma ReportTurns(s: State, status: int)
    requires InUserMode(s)
    ensures var s' := ReportExit(s, status); var parent := s.procs[s.cur].parent;
      if parent.Some? && parent.value in s.procs && parent.value in s.blocked
      then Turns(s, s', parent.value, Awake(V(s, parent.value)))
      else forall p :: V(s', p) == V(s, p)
    ensures var s' := ReportExit(s, status);
      s' == s.(ready := s'.ready, blocked := s'.blocked, procs := s'.procs, log := s'.log) && InUserMode(s')
  {
    var parent := s.procs[s.cur].parent;
    if parent.Some? && parent.value in s.procs {
      var q := parent.value;
      var z := Zombie(s.cur, status);
      var s1 := Note(s.(procs := s.procs[q := s.procs[q].(zombies := s.procs[q].zombies + [z])]), Exited(q, z));
      assert forall p :: V(s1, p) == V(s, p);
      UnblockTurns(s1, q);
    }
  }

  lemma BuryTurns(s: State)
    requires InUserMode(s)
    ensures forall p :: V(Bury(s), p) == V(s, p)
  {
  }

  lemma ExitAgrees(s: State, h: Home, status: int)
    requires CanCall(s, h) && Agree(s) && InUserMode(s)
    ensures Agree(Exit(s, status)) <==> !Harmful(s, Trap(CExit(status)))
  {
    if s.cur == INIT {
      Unchanged(s, Exit(s, status));
    } else {
      ExitTurns(s, h, status);
      var s' := Exit(s, status);
      var parent := s.procs[s.cur].parent;
      if parent.None? || parent.value !in s.procs || parent.value !in s.blocked {
        Unchanged(s, s');
      } else {
        WokenParent(s, s', parent.value, Trap(CExit(status)));
      }
    }
  }

  lemma WokenParent(s: State, s': State, q: Pid, l: Label)
    requires Agree(s) && q in s.procs && q in s.blocked && Turns(s, s', q, Awake(V(s, q)))
    requires (s'.locks, s'.cvars, s'.pipes, s'.nextSyncId) == (s.locks, s.cvars, s.pipes, s.nextSyncId)
    requires l.Trap? && l.call.CExit? && s.cur != INIT && s.cur in s.procs && s.procs[s.cur].parent == Some(q)
    requires GoodCont(s, s.procs[q].cont)
    ensures Agree(s') <==> !Harmful(s, l)
  {
    match V(s, q)
    case Off => Unchanged(s, s');
    case OnLock(k) => assert LockQ(s, k, s.locks[k].waiting); assert !LockQ(s', k, s.locks[k].waiting);
    case OnCvar(k) => assert CvarQ(s, k, s.cvars[k]); assert !CvarQ(s', k, s.cvars[k]);
    case OnPipe(id, _, _) =>
      var w := s.pipes[id].waiting;
      assert PipeQ(s, id, s.pipes[id]);
      if w[0] == q {
        assert forall i | 1 <= i < |w| :: w[i] != q;
        OnlyPipe(s, s', id);
      } else {
        var i :| 0 <= i < |w| && w[i] == q;
        assert !PipeQ(s', id, s'.pipes[id]);
      }
  }

  lemma ReleaseCallAgrees(s: State, h: Home, l: Id)
    requires CanCall(s, h) && Agree(s) && InUserMode(s)
    ensures Agree(Release(s, l))
  {
    ReleaseAgrees(s, h, l);
    var h' := DoReleaseLocated(s, h, l);
    CurView(DoRelease(s, l), h');
    ReturnAgrees(DoRelease(s, l), if MayRelease(s, l) then SUCCESS else ERROR);
  }

  /** The calls on locks, condition variables and pipes */
  lemma SyncCallAgrees(s: State, h: Home, c: Call)
    requires CanCall(s, h) && Agree(s) && InUserMode(s) && GoodCall(s, c)
    requires !(c.CFork? || c.CExit? || c.CWait? || c.CDelay? || c.CTtyWrite? || c.CTtyRead?)
    ensures Agree(DoCall(s, c))
  {
    match c {
      case CAcquire(l) => CurView(s, h); AcquireAgrees(s, h, l);
      case CRelease(l) => ReleaseCallAgrees(s, h, l);
      case CCvarWait(c, l) => CvarWaitAgrees(s, h, c, l);
      case CSignal(c) => SignalAgrees(s, h, c);
      case CBroadcast(c) => SignalAgrees(s, h, c);
      case CPipeRead(id, len) => PipeReadAgrees(s, h, id, len);
      case CPipeWrite(id, len, buf) => PipeWriteAgrees(s, h, id, len, buf);
      case CLockInit => InitAgrees(s, h, c);
      case CCvarInit => InitAgrees(s, h, c);
      case CPipeInit => InitAgrees(s, h, c);
    }
  }

  lemma CallAgrees(s: State, h: Home, c: Call)
    requires CanCall(s, h) && Agree(s) && InUserMode(s) && GoodCall(s, c)
    ensures Agree(DoCall(s, c)) <==> !Harmful(s, Trap(c))
  {
    CurView(s, h);
    if c.CFork? {
      ForkAgrees(s, h, c.frames);
    } else if c.CExit? {
      ExitAgrees(s, h, c.status);
    } else if c.CWait? {
      WaitAgrees(s, h);
    } else if c.CDelay? || c.CTtyWrite? || c.CTtyRead? {
      OtherCallAgrees(s, c);
    } else {
      SyncCallAgrees(s, h, c);
    }
  }

  lemma OtherCallAgrees(s: State, c: Call)
    requires Agree(s) && InUserMode(s) && s.nextPid !in s.procs && GoodCall(s, c)
      && (c.CDelay? || c.CTtyWrite? || c.CTtyRead?)
    ensures Agree(DoCall(s, c))
  {
    CallTouches(s, c);
    ElsewhereAgrees(s, DoCall(s, c));
  }

  lemma ContinueAgrees(s: State, h: Home)
    requires Located(s, h) && s.mode == Up && s.procs[s.cur].cont != User && Agree(s)
    ensures GoodCont(s, s.procs[s.cur].cont) && Agree(Continue(s))
  {
    CurView(s, h);
    var c := s.procs[s.cur].cont;
    if c.InAcquire? || c.InCvarWait? {
      AcquireAgrees(s, h, if c.InAcquire? then c.lock else c.relock);
    } else if c.InPipeRead? {
      PipeLoopAgrees(s, h, c.pipe, c.len);
    } else if c.InWait? {
      ReapAgrees(s, h);
    } else {
      ContinueTouches(s);
      ElsewhereAgrees(s, Continue(s));
    }
  }

  /** A step keeps the agreement if and only if it is not a harmful exit. */
  lemma StepAgrees(s: State, l: Label)
    requires Inv(s) && Agree(s) && Enabled(s, l)
    ensures Agree(Step(s, l)) <==> !Harmful(s, l)
  {
    var h: Home :| Located(s, h);
    if l.Trap? {
      CallAgrees(s, h, l.call);
    } else if l.Resume? {
      ContinueAgrees(s, h);
    } else {
      InterruptAgrees(s, l);
    }
  }

  lemma InterruptAgrees(s: State, l: Label)
    requires Inv(s) && Agree(s) && Enabled(s, l) && !l.Trap? && !l.Resume?
    ensures Agree(Step(s, l))
  {
    InvFresh(s);
    StepTouches(s, l);
    ElsewhereAgrees(s, Step(s, l));
  }

  /** No exit of the run, up to state `n`, is harmful. */
  ghost predicate Calm(ss: seq<State>, ls: seq<Label>, n: nat) {
    forall i | 0 <= i < n && i < |ls| && i < |ss| :: !Harmful(ss[i], ls[i])
  }

  lemma {:induction false} RunAgrees(ss: seq<State>, ls: seq<Label>, i: nat)
    requires Run(ss, ls) && i < |ss| && Calm(ss, ls, i)
    ensures Agree(ss[i])
  {
    if i > 0 {
      RunAgrees(ss, ls, i - 1);
      RunInv(ss, ls, i - 1);
      StepAgrees(ss[i - 1], ls[i - 1]);
    }
  }

  // ------------------------------------------------------------ what it means

  ghost function Count(q: seq<Pid>, p: Pid): nat {
    multiset(q)[p]
  }

  /** The queue that a blocked process's reason names (none for Wait). */
  ghost function ReasonQueue(s: State, c: Cont): Option<seq<Pid>> {
    match c
    case InAcquire(l) => if l in s.locks then Some(s.locks[l].waiting) else None
    case InCvarWait(c, _) => if c in s.cvars then Some(s.cvars[c]) else None
    case InPipeRead(id, _) => if id in s.pipes then Some(s.pipes[id].waiting) else None
    case _ => None
  }

  /** `p` is in Wait or once in the queue its reason names, and in no other. */
  ghost predicate WaitsOnce(s: State, p: Pid) {
    p in s.procs &&
    var c := s.procs[p].cont;
    var q := ReasonQueue(s, c);
    && (c == InWait || (q.Some? && Count(q.value, p) == 1))
    && (forall l | l in s.locks && c != InAcquire(l) :: p !in s.locks[l].waiting)
    && (forall k | k in s.cvars && !(c.InCvarWait? && c.cvar == k) :: p !in s.cvars[k])
    && (forall id | id in s.pipes && !(c.InPipeRead? && c.pipe == id) :: p !in s.pipes[id].waiting)
  }

  /**
   In a run without harmful exits: a blocked process is in Wait or stands exactly once in the
   queue its reason names and in no other lock, condition or pipe queue; and whatever a
   Release or Signal pops is blocked, so it really is woken.
   */
  lemma BlockedAndQueued(ss: seq<State>, ls: seq<Label>, i: nat, p: Pid)
    requires Run(ss, ls) && i < |ss| && Calm(ss, ls, i)
    ensures p in ss[i].blocked ==> WaitsOnce(ss[i], p)
    ensures forall l | l in ss[i].locks && p in ss[i].locks[l].waiting :: p in ss[i].blocked
    ensures forall k | k in ss[i].cvars && p in ss[i].cvars[k] :: p in ss[i].blocked
  {
    RunAgrees(ss, ls, i);
    RunInv(ss, ls, i);
    var s := ss[i];
    var h: Home :| Located(s, h);
    CurView(s, h);
    forall l | l in s.locks ensures LockQ(s, l, s.locks[l].waiting) {}
    forall k | k in s.cvars ensures CvarQ(s, k, s.cvars[k]) {}
    forall id | id in s.pipes ensures PipeQ(s, id, s.pipes[id]) {}
    if p in s.blocked {
      var c := s.procs[p].cont;
      assert GoodCont(s, c) && Fits(c, p, Blocked, s.ttys);
      var q := ReasonQueue(s, c);
      if q.Some? {
        CountOnce(q.value, p);
      }
    }
  }
}
