/**
 Exit and Wait step by step: no exit that the kernel reports to a parent is lost, repeated
 or reordered before its Wait, and a parent pointer never dangles.
 */
module Families {
  import opened Basics
  import opened KernelState
  import opened KernelSteps
  import opened Footprint
  import opened Location
  import opened Agreement

  /** The exits of `p`'s children (while `p` lives), in order. */
  ghost function Exits(log: Log, p: Pid): seq<Zombie> {
    match log
    case Empty => []
    case Snoc(prev, e) => if e.Exited? && e.parent == p then Exits(prev, p) + [e.zombie] else Exits(prev, p)
  }

  /** What `p`'s calls of Wait have returned, in order. */
  ghost function Reaps(log: Log, p: Pid): seq<Zombie> {
    match log
    case Empty => []
    case Snoc(prev, e) => if e.Reaped? && e.parent == p then Reaps(prev, p) + [e.zombie] else Reaps(prev, p)
  }

  ghost predicate Linked(procs: map<Pid, Proc>) {
    forall p | p in procs && procs[p].parent.Some? ::
      procs[p].parent.value in procs && p in procs[procs[p].parent.value].children
  }

  ghost predicate Owed(s: State, p: Pid) {
    Exits(s.log, p) == Reaps(s.log, p) + if p in s.procs then s.procs[p].zombies else []
  }

  ghost predicate Accounts(s: State) {
    && (forall p | p in s.procs :: Owed(s, p))
    && (forall p | p >= s.nextPid :: Exits(s.log, p) == [] && Reaps(s.log, p) == [])
  }

  /** Whoever is blocked in Wait has nothing to collect. */
  ghost predicate Patient(s: State) {
    forall p | p in s.procs && p in s.blocked && s.procs[p].cont == InWait :: s.procs[p].zombies == []
  }

  /** Whoever has been woken in Wait has something to collect. */
  ghost predicate Fed(s: State) {
    forall p | p in s.procs && p !in s.blocked && s.procs[p].cont == InWait :: s.procs[p].zombies != []
  }

  ghost predicate Related(s: State) {
    Linked(s.procs) && Accounts(s) && Patient(s)
  }

  lemma {:induction false} OtherEvents(log: Log, log': Log, kind: Kind, p: Pid)
    requires Grows(log, log', kind) && kind != KFamily
    ensures Exits(log', p) == Exits(log, p) && Reaps(log', p) == Reaps(log, p)
  {
    if log' != log {
      OtherEvents(log, log'.prev, kind, p);
    }
  }

  /** Steps that change no kinship and note no exit. */
  lemma ElsewhereKeeps(s: State, s': State, kind: Kind)
    requires Related(s) && Touches(s, s', kind) && kind != KFamily && s.cur in s.procs
    requires s.procs[s.cur].cont != InWait
    ensures Related(s')
  {
    forall p | p in s'.procs ensures Owed(s', p) {
      assert Owed(s, p);
      OtherEvents(s.log, s'.log, kind, p);
    }
    forall p | p >= s'.nextPid ensures Exits(s'.log, p) == [] && Reaps(s'.log, p) == [] {
      OtherEvents(s.log, s'.log, kind, p);
    }
  }

  /** The running process's call moves on without touching kinship or the log. */
  lemma TagKeeps(s: State, s': State)
    requires Related(s) && s.cur in s.procs && Tagged(s.procs, s'.procs, s.cur)
    requires s'.log == s.log && s'.nextPid >= s.nextPid && s'.blocked <= s.blocked + {s.cur}
    requires s.cur in s'.blocked && s'.procs[s.cur].cont == InWait ==> s.procs[s.cur].zombies == []
    ensures Related(s')
  {
    forall p | p in s'.procs ensures Owed(s', p) {
      assert Owed(s, p);
    }
  }

  lemma ReapKeeps(s: State)
    requires Related(s) && s.cur in s.procs && s.cur !in s.blocked
    ensures Related(Reap(s))
  {
    var me := s.procs[s.cur];
    if me.zombies == [] {
      TagKeeps(s, Reap(s));
    } else {
      var s1 := Note(s.(procs := s.procs[s.cur := me.(zombies := me.zombies[1..])]), Reaped(s.cur, me.zombies[0]));
      assert Owed(s, s.cur);
      assert |Exits(s.log, s.cur)| > 0 && s.cur < s.nextPid;
      forall p | p in s1.procs ensures Owed(s1, p) {
        assert Owed(s, p);
        OneMore(Exits(s.log, s.cur), Reaps(s.log, s.cur), me.zombies);
      }
      forall p | p >= s1.nextPid ensures Exits(s1.log, p) == [] && Reaps(s1.log, p) == [] {
        assert p != s.cur && s1.log.prev == s.log;
      }
      assert Linked(s1.procs);
      assert Accounts(s1);
      assert Patient(s1);
      TagKeeps(s1, Reap(s));
    }
  }

  lemma OneMore(all: seq<Zombie>, done: seq<Zombie>, rest: seq<Zombie>)
    requires rest != []
    ensures all == done + rest <==> all == (done + [rest[0]]) + rest[1..]
  {
    assert rest == [rest[0]] + rest[1..];
  }

  lemma WaitKeeps(s: State)
    requires Related(s) && s.cur in s.procs && s.cur !in s.blocked && InUserMode(s)
    ensures Related(Wait(s))
  {
    if s.procs[s.cur].numChildren > 0 && s.procs[s.cur].zombies != [] {
      ReapKeeps(s);
    } else {
      TagKeeps(s, Wait(s));
    }
  }

  lemma ForkKeeps(s: State, frames: bool)
    requires Related(s) && InUserMode(s) && s.nextPid !in s.procs && s.cur < s.nextPid && s.nextPid !in s.blocked
    ensures Related(Fork(s, frames))
  {
    var s' := Fork(s, frames);
    if !frames {
      TagKeeps(s, s');
    } else {
      var child := s.nextPid;
      assert s'.log == s.log && s'.blocked == s.blocked;
      assert s'.procs[child] == FRESH_PROC.(parent := Some(s.cur));
      assert forall q | q in s.procs ::
        && s'.procs[q].zombies == s.procs[q].zombies && s'.procs[q].parent == s.procs[q].parent
        && s'.procs[q].cont == s.procs[q].cont && s.procs[q].children <= s'.procs[q].children;
      forall p | p in s'.procs ensures Owed(s', p) {
        assert p != child ==> Owed(s, p);
      }
    }
  }

  lemma ReportKeeps(s: State, status: int)
    requires Related(s) && InUserMode(s) && s.cur < s.nextPid && s.cur !in s.blocked
    requires forall p | p in s.procs :: p < s.nextPid
    ensures Related(ReportExit(s, status)) && InUserMode(ReportExit(s, status))
  {
    var parent := s.procs[s.cur].parent;
    if parent.Some? && parent.value in s.procs {
      var q := parent.value;
      var z := Zombie(s.cur, status);
      var s' := ReportExit(s, status);
      assert s'.log == Snoc(s.log, Exited(q, z)) && s'.blocked == s.blocked - {q} && s'.nextPid == s.nextPid;
      assert s'.procs == s.procs[q := s.procs[q].(zombies := s.procs[q].zombies + [z])];
      forall p | p in s'.procs ensures Owed(s', p) {
        assert Owed(s, p);
      }
    }
  }

  lemma BuryKeeps(s: State)
    requires Related(s) && InUserMode(s)
    ensures Related(Bury(s))
  {
    var s' := Bury(s);
    forall p | p in s'.procs ensures Owed(s', p) {
      assert Owed(s, p);
    }
  }

  lemma ExitKeeps(s: State, status: int)
    requires Related(s) && InUserMode(s) && s.cur < s.nextPid && s.cur !in s.blocked
    requires forall p | p in s.procs :: p < s.nextPid
    ensures Related(Exit(s, status))
  {
    ReportKeeps(s, status);
    var s1 := ReportExit(s, status);
    BuryKeeps(s1);
    var s2, s' := Bury(s1), Exit(s, status);
    var same := if s.cur == INIT then s else s2;
    assert s' == same.(cur := s'.cur, ready := s'.ready, mode := s'.mode);
    forall p | p in s'.procs ensures Owed(s', p) {
      assert Owed(same, p);
    }
  }

  lemma StepKeeps(s: State, l: Label)
    requires Inv(s) && Related(s) && Enabled(s, l)
    ensures Related(Step(s, l))
  {
    InvFresh(s);
    var h: Home :| Located(s, h);
    CurView(s, h);
    if StepKind(s, l) != KFamily {
      StepTouches(s, l);
      ElsewhereKeeps(s, Step(s, l), StepKind(s, l));
    } else if l.Resume? {
      ReapKeeps(s);
    } else {
      FamilyCallKeeps(s, l.call);
    }
  }

  lemma FamilyCallKeeps(s: State, c: Call)
    requires Inv(s) && Related(s) && InUserMode(s) && s.cur !in s.blocked && CallKind(c) == KFamily
    ensures GoodCall(s, c) && Related(DoCall(s, c))
  {
    InvFresh(s);
    if c.CFork? {
      ForkKeeps(s, c.frames);
    } else if c.CExit? {
      ExitKeeps(s, c.status);
    } else {
      WaitKeeps(s);
    }
  }

  lemma {:induction false} RunFamilies(ss: seq<State>, ls: seq<Label>, i: nat)
    requires Run(ss, ls) && i < |ss|
    ensures Related(ss[i])
  {
    if i == 0 {
      forall p | p in ss[0].procs ensures Owed(ss[0], p) {}
    } else {
      RunFamilies(ss, ls, i - 1);
      RunInv(ss, ls, i - 1);
      StepKeeps(ss[i - 1], ls[i - 1]);
    }
  }

  // ------------------------------------------------------------ woken for a reason

  /** The reader behind the head, if the head takes `len` bytes and leaves some */
  function NextReader(pipe: Pipe, len: int): set<Pid> {
    if |pipe.buffer| > len && |pipe.waiting| > 1 then {pipe.waiting[1]} else {}
  }

  function Head(q: seq<Pid>): set<Pid> {
    if q == [] then {} else {q[0]}
  }

  /** Whom a call takes off the queue of a lock, a condition variable or a pipe and hands to unblockProcess */
  function PoppedBy(s: State, c: Call): set<Pid> {
    match c
    case CRelease(m) => if MayRelease(s, m) then Head(s.locks[m].waiting) else {}
    case CCvarWait(v, m) => if v in s.cvars && MayRelease(s, m) then Head(s.locks[m].waiting) else {}
    case CSignal(v) => if v in s.cvars then Head(s.cvars[v]) else {}
    case CBroadcast(v) => if v in s.cvars then (set p | p in s.cvars[v]) else {}
    case CPipeWrite(id, len, _) =>
      if len > 0 && id in s.pipes && |s.pipes[id].buffer| + len <= PipeMax(s) then Head(s.pipes[id].waiting) else {}
    case CPipeRead(id, len) =>
      if len > 0 && id in s.pipes && (s.pipes[id].waiting + [s.cur])[0] == s.cur
      then NextReader(Pipe(s.pipes[id].buffer, s.pipes[id].waiting + [s.cur]), len) else {}
    case _ => {}
  }

  /** ... whom a step does */
  function Popped(s: State, l: Label): set<Pid> {
    if l.Trap? then PoppedBy(s, l.call)
    else if l.Resume? && s.cur in s.procs && s.procs[s.cur].cont.InPipeRead? && s.procs[s.cur].cont.pipe in s.pipes
    then NextReader(s.pipes[s.procs[s.cur].cont.pipe], s.procs[s.cur].cont.len)
    else {}
  }

  /** Of the blocked, the step wakes exactly the popped. */
  ghost predicate Wakes(s: State, s': State, popped: set<Pid>) {
    forall p | p in s.blocked :: p in s'.blocked <==> p !in popped
  }

  lemma ReleaseWakes(s: State, m: Id)
    ensures Wakes(s, DoRelease(s, m), if MayRelease(s, m) then Head(s.locks[m].waiting) else {})
  {
  }

  lemma {:induction false} BroadcastWakes(s: State, v: Id)
    requires v in s.cvars
    ensures Wakes(s, PopAllCvar(s, v), set p | p in s.cvars[v])
    decreases |s.cvars[v]|
  {
    if s.cvars[v] != [] {
      var s1 := PopCvar(s, v);
      BroadcastWakes(s1, v);
      assert s.cvars[v] == [s.cvars[v][0]] + s1.cvars[v];
    }
  }

  lemma CvarWakes(s: State, v: Id)
    requires s.cur in s.procs
    ensures Wakes(s, Signal(s, v), PoppedBy(s, CSignal(v)))
    ensures Wakes(s, Broadcast(s, v), PoppedBy(s, CBroadcast(v)))
  {
    if v in s.cvars {
      BroadcastWakes(s, v);
    }
  }

  lemma CvarWaitWakes(s: State, v: Id, m: Id)
    requires s.cur in s.procs && s.cur !in s.blocked
    ensures Wakes(s, CvarWait(s, v, m), PoppedBy(s, CCvarWait(v, m)))
  {
    if v in s.cvars {
      var s1 := s.(cvars := s.cvars[v := s.cvars[v] + [s.cur]]);
      ReleaseWakes(s1, m);
      assert s.cur !in DoRelease(s1, m).blocked;
    }
  }

  lemma LoopWakes(s: State, id: Id, len: int)
    requires s.cur in s.procs && s.cur !in s.blocked && id in s.pipes && len > 0
    ensures Wakes(s, PipeLoop(s, id, len), NextReader(s.pipes[id], len))
  {
  }

  lemma ReadWakes(s: State, id: Id, len: int)
    requires s.cur in s.procs && s.cur !in s.blocked
    ensures Wakes(s, PipeRead(s, id, len), PoppedBy(s, CPipeRead(id, len)))
  {
    if len > 0 && id in s.pipes {
      var pipe := s.pipes[id];
      var s1 := Note(s.(pipes := s.pipes[id := pipe.(waiting := pipe.waiting + [s.cur])]), PipeQueued(s.cur, id));
      LoopWakes(s1, id, len);
    }
  }

  lemma WriteWakes(s: State, id: Id, len: int, buf: Bytes)
    requires s.cur in s.procs && len <= |buf|
    ensures Wakes(s, PipeWrite(s, id, len, buf), PoppedBy(s, CPipeWrite(id, len, buf)))
  {
  }

  lemma CallWakes(s: State, c: Call)
    requires s.cur in s.procs && s.cur !in s.blocked && GoodCall(s, c) && CallKind(c) in {KLock, KCvar, KPipe}
    ensures Wakes(s, DoCall(s, c), PoppedBy(s, c))
  {
    match c
    case CRelease(m) => ReleaseWakes(s, m);
    case CCvarWait(v, m) => CvarWaitWakes(s, v, m);
    case CSignal(v) => CvarWakes(s, v);
    case CBroadcast(v) => CvarWakes(s, v);
    case CPipeRead(id, len) => ReadWakes(s, id, len);
    case CPipeWrite(id, len, buf) => WriteWakes(s, id, len, buf);
    case CAcquire(m) =>
    case CLockInit =>
    case CCvarInit =>
    case CPipeInit =>
  }

  lemma QuietWakes(s: State, l: Label)
    requires s.nextPid !in s.procs && Enabled(s, l) && StepKind(s, l) in {KSleep, KTty}
    ensures Wakes(s, Step(s, l), Popped(s, l))
  {
    StepTouches(s, l);
  }

  lemma ResumeWakes(s: State)
    requires Enabled(s, Resume) && s.cur !in s.blocked && StepKind(s, Resume) in {KLock, KPipe}
    ensures Wakes(s, Continue(s), Popped(s, Resume))
  {
    if s.procs[s.cur].cont.InPipeRead? {
      LoopWakes(s, s.procs[s.cur].cont.pipe, s.procs[s.cur].cont.len);
    }
  }

  lemma StepWakes(s: State, l: Label)
    requires Inv(s) && Enabled(s, l) && StepKind(s, l) != KFamily
    ensures Wakes(s, Step(s, l), Popped(s, l))
  {
    InvFresh(s);
    var h: Home :| Located(s, h);
    CurView(s, h);
    if StepKind(s, l) in {KSleep, KTty} {
      QuietWakes(s, l);
    } else if l.Trap? {
      CallWakes(s, l.call);
    } else {
      ResumeWakes(s);
    }
  }

  /** The step pops a process that has gone on from that queue and is blocked in Wait by now. */
  ghost predicate WakesInVain(s: State, l: Label) {
    exists p :: p in Popped(s, l) && p in s.blocked && p in s.procs && s.procs[p].cont == InWait
  }

  lemma ElsewhereFeeds(s: State, s': State, kind: Kind)
    requires Fed(s) && Patient(s) && s.cur in s.procs && Touches(s, s', kind) && kind != KFamily
    requires s.procs[s.cur].cont != InWait && s.cur !in s.blocked
    ensures Fed(s') <==> forall p | p in s.blocked && p in s.procs && s.procs[p].cont == InWait :: p in s'.blocked
  {
    forall p | p in s.procs && p != s.cur
      ensures p in s'.procs && s'.procs[p].cont == s.procs[p].cont && s'.procs[p].zombies == s.procs[p].zombies {
    }
    if p :| p in s.blocked && p in s.procs && s.procs[p].cont == InWait && p !in s'.blocked {
      assert s'.procs[p].cont == InWait && s'.procs[p].zombies == [];
    }
  }

  /** A step wakes a process in Wait with nothing to collect if and only if it pops one from a queue it has left. */
  lemma StepFeeds(s: State, l: Label)
    requires Inv(s) && Related(s) && Fed(s) && Enabled(s, l)
    ensures Fed(Step(s, l)) <==> !WakesInVain(s, l)
  {
    InvFresh(s);
    var h: Home :| Located(s, h);
    CurView(s, h);
    if StepKind(s, l) != KFamily {
      StepTouches(s, l);
      StepWakes(s, l);
      ElsewhereFeeds(s, Step(s, l), StepKind(s, l));
    } else {
      FamilyFeeds(s, l);
    }
  }

  lemma FamilyFeeds(s: State, l: Label)
    requires Fed(s) && Enabled(s, l) && StepKind(s, l) == KFamily && s.cur in s.procs
    ensures Fed(Step(s, l)) && !WakesInVain(s, l)
  {
    match l
    case Resume => WaitFeeds(s);
    case Trap(CFork(frames)) => ForkFeeds(s, frames);
    case Trap(CExit(status)) => ExitFeeds(s, status);
    case Trap(CWait) => WaitFeeds(s);
  }

  lemma WaitFeeds(s: State)
    requires Fed(s) && s.cur in s.procs
    ensures Fed(Reap(s)) && Fed(Wait(s))
  {
    var me := s.procs[s.cur];
    if me.zombies != [] {
      var s1 := Note(s.(procs := s.procs[s.cur := me.(zombies := me.zombies[1..])]), Reaped(s.cur, me.zombies[0]));
      assert forall p | p in s.procs && p != s.cur :: s1.procs[p] == s.procs[p];
    }
  }

  lemma ForkFeeds(s: State, frames: bool)
    requires Fed(s) && InUserMode(s)
    ensures Fed(Fork(s, frames))
  {
  }

  lemma ExitFeeds(s: State, status: int)
    requires Fed(s) && InUserMode(s)
    ensures Fed(Exit(s, status))
  {
    if s.cur != INIT {
      var s1 := ReportExit(s, status);
      assert Fed(s1);
      var s2 := Bury(s1);
      assert s2.blocked == s1.blocked;
      assert forall p | p in s2.procs ::
        s2.procs[p].cont == s1.procs[p].cont && s2.procs[p].zombies == s1.procs[p].zombies;
      assert Fed(s2);
    }
  }

  ghost predicate AllFed(ss: seq<State>, i: nat)
    requires i < |ss|
  {
    forall j | 0 <= j <= i :: Fed(ss[j])
  }

  ghost predicate NoneInVain(ss: seq<State>, ls: seq<Label>, i: nat)
    requires Traces(ss, ls, i)
  {
    forall j | 0 <= j < i :: !WakesInVain(ss[j], ls[j])
  }

  lemma OneMoreStep(ss: seq<State>, ls: seq<Label>, i: nat, n: nat)
    requires n == i + 1 && Traces(ss, ls, n)
    ensures AllFed(ss, n) <==> AllFed(ss, i) && Fed(ss[n])
    ensures NoneInVain(ss, ls, n) <==> NoneInVain(ss, ls, i) && !WakesInVain(ss[i], ls[i])
  {
  }

  /**
   Over any run: whoever is awake in Wait has something to collect, all the way, if and only if no
   step woke one in vain.
   */
  lemma {:induction false} FedUnlessInVain(ss: seq<State>, ls: seq<Label>, i: nat)
    requires Run(ss, ls) && Traces(ss, ls, i)
    ensures AllFed(ss, i) <==> NoneInVain(ss, ls, i)
  {
    if i > 0 {
      FedUnlessInVain(ss, ls, i - 1);
      OneMoreStep(ss, ls, i - 1, i);
      if Fed(ss[i - 1]) {
        RunInv(ss, ls, i - 1);
        RunFamilies(ss, ls, i - 1);
        StepFeeds(ss[i - 1], ls[i - 1]);
      }
    }
  }

  /** While the wait queues agree with the blocked map, whatever is popped waits in that queue. */
  lemma AgreedPop(s: State, l: Label)
    requires Inv(s) && Agree(s) && Enabled(s, l)
    ensures !WakesInVain(s, l)
  {
    forall p | p in Popped(s, l) && p in s.procs ensures s.procs[p].cont != InWait {
      if l.Trap? {
        AgreedCall(s, l.call, p);
      } else {
        AgreedReader(s, s.procs[s.cur].cont.pipe, p);
      }
    }
  }

  lemma AgreedReader(s: State, id: Id, p: Pid)
    requires Agree(s) && id in s.pipes && p in s.pipes[id].waiting
    ensures V(s, p) != Off
  {
    assert PipeQ(s, id, s.pipes[id]);
  }

  lemma AgreedCall(s: State, c: Call, p: Pid)
    requires Agree(s) && p in PoppedBy(s, c) && InUserMode(s) && p in s.procs
    ensures s.procs[p].cont != InWait
  {
    match c
    case CRelease(m) => assert LockQ(s, m, s.locks[m].waiting) && p in s.locks[m].waiting;
    case CCvarWait(_, m) => assert LockQ(s, m, s.locks[m].waiting) && p in s.locks[m].waiting;
    case CSignal(v) => assert CvarQ(s, v, s.cvars[v]) && p in s.cvars[v];
    case CBroadcast(v) => assert CvarQ(s, v, s.cvars[v]) && p in s.cvars[v];
    case CPipeWrite(id, _, _) => AgreedReader(s, id, p);
    case CPipeRead(id, _) => if p != s.cur { AgreedReader(s, id, p); }
  }

  /** In a run without harmful exits nobody in Wait is woken in vain. */
  lemma CalmWakes(ss: seq<State>, ls: seq<Label>, i: nat)
    requires Run(ss, ls) && Traces(ss, ls, i) && Calm(ss, ls, i)
    ensures NoneInVain(ss, ls, i)
  {
    forall j | 0 <= j < i ensures !WakesInVain(ss[j], ls[j]) {
      RunInv(ss, ls, j);
      RunAgrees(ss, ls, j);
      AgreedPop(ss[j], ls[j]);
    }
  }

  /** As long as nobody in Wait has been woken in vain, a Wait that had to block finds a zombie. */
  lemma WaitFindsAZombie(ss: seq<State>, ls: seq<Label>, i: nat)
    requires Run(ss, ls) && i < |ls| && NoneInVain(ss, ls, i)
    requires ls[i] == Resume && ss[i].cur in ss[i].procs && ss[i].procs[ss[i].cur].cont == InWait
    ensures ss[i].procs[ss[i].cur].zombies != []
    ensures ss[i + 1].procs[ss[i].cur].ret == ss[i].procs[ss[i].cur].zombies[0].pid
  {
    FedUnlessInVain(ss, ls, i);
    assert Fed(ss[i]);
    RunInv(ss, ls, i);
    var h: Home :| Located(ss[i], h);
    CurView(ss[i], h);
  }
}
