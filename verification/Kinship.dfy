/**
 Parents and children over whole runs, told by what the processes do: who forked whom and
 who exited with what.  Nothing here is read off the kernel's own notes of an exit.
 */
module Kinship {
  import opened Basics
  import opened KernelState
  import opened KernelSteps
  import opened Footprint
  import opened Location
  import opened Agreement
  import opened Calls
  import opened Families

  ghost function ForkedNow(s: State, l: Label, p: Pid): set<Pid> {
    if l == Trap(CFork(true)) && s.cur == p then {s.nextPid} else {}
  }

  /** The children that `p` forks in the first `i` steps of the run */
  ghost function Forked(ss: seq<State>, ls: seq<Label>, i: nat, p: Pid): set<Pid>
    requires Traces(ss, ls, i)
  {
    if i == 0 then {} else Forked(ss, ls, i - 1, p) + ForkedNow(ss[i - 1], ls[i - 1], p)
  }

  /** Process `s.cur` exits (init's exit halts the machine). */
  predicate ExitsNow(s: State, l: Label) {
    l.Trap? && l.call.CExit? && s.cur != INIT
  }

  /** Which of its children exit in the first `i` steps, with what status, in order */
  ghost function Deaths(ss: seq<State>, ls: seq<Label>, i: nat, p: Pid): seq<Zombie>
    requires Traces(ss, ls, i)
  {
    if i == 0 then []
    else
      var s, l := ss[i - 1], ls[i - 1];
      Deaths(ss, ls, i - 1, p)
      + if ExitsNow(s, l) && s.cur in Forked(ss, ls, i - 1, p) then [Zombie(s.cur, l.call.status)] else []
  }

  /** Process `p` is in KernelWait, and the step brings it back to user mode with a pid. */
  predicate WaitEnds(s: State, l: Label, s': State, p: Pid) {
    && s.cur == p && p in s.procs && p in s'.procs
    && (l == Trap(CWait) || (l == Resume && s.procs[p].cont == InWait))
    && s'.procs[p].cont == User && s'.procs[p].ret != ERROR
  }

  /** The pids that its Waits return in the first `i` steps */
  ghost function Returned(ss: seq<State>, ls: seq<Label>, i: nat, p: Pid): seq<Pid>
    requires Traces(ss, ls, i)
  {
    if i == 0 then []
    else
      Returned(ss, ls, i - 1, p)
      + if WaitEnds(ss[i - 1], ls[i - 1], ss[i], p) then [ss[i].procs[p].ret] else []
  }

  function Pids(zs: seq<Zombie>): seq<Pid> {
    if zs == [] then [] else Pids(zs[..|zs| - 1]) + [zs[|zs| - 1].pid]
  }

  lemma {:induction false} PidsOfSum(a: seq<Zombie>, b: seq<Zombie>)
    ensures Pids(a + b) == Pids(a) + Pids(b)
    decreases |b|
  {
    if b == [] {
      assert a + b == a;
    } else {
      var n := |b| - 1;
      assert (a + b)[..|a + b| - 1] == a + b[..n];
      PidsOfSum(a, b[..n]);
    }
  }

  // ------------------------------------------------------------ states

  ghost predicate Numbered(zs: seq<Zombie>) {
    forall i | 0 <= i < |zs| :: zs[i].pid >= 0
  }

  /** A live process has every live child pointing at it. */
  ghost predicate Pointed(procs: map<Pid, Proc>) {
    forall p, q | p in procs && q in procs && q in procs[p].children :: procs[q].parent == Some(p)
  }

  ghost predicate Past(procs: map<Pid, Proc>, nextPid: Pid) {
    forall p, q | p in procs && q in procs[p].children :: q < nextPid
  }

  ghost predicate Natural(procs: map<Pid, Proc>) {
    forall p | p in procs :: p >= 0 && Numbered(procs[p].zombies)
  }

  ghost predicate Kin(s: State) {
    Pointed(s.procs) && Past(s.procs, s.nextPid) && Natural(s.procs) && s.nextPid >= 0
  }

  lemma TaggedKin(procs: map<Pid, Proc>, procs': map<Pid, Proc>, cur: Pid)
    requires Tagged(procs, procs', cur)
    ensures procs'.Keys == procs.Keys
    ensures forall p | p in procs :: procs'[p] == procs[p].(cont := procs'[p].cont, ret := procs'[p].ret)
  {
  }

  lemma ForkKin(s: State, frames: bool)
    requires Kin(s) && Related(s) && InUserMode(s) && s.nextPid !in s.procs
    ensures Kin(Fork(s, frames))
  {
    var s' := Fork(s, frames);
    if frames {
      var child := s.nextPid;
      assert s'.procs[child] == FRESH_PROC.(parent := Some(s.cur))
        && s'.procs[s.cur].children == s.procs[s.cur].children + {child};
      assert forall q | q in s.procs && q != s.cur :: s'.procs[q] == s.procs[q];
    }
  }

  lemma ReportKin(s: State, status: int)
    requires Kin(s) && s.cur in s.procs
    ensures Kin(ReportExit(s, status)) && s.cur in ReportExit(s, status).procs
  {
    var parent := s.procs[s.cur].parent;
    if parent.Some? && parent.value in s.procs {
      var q := parent.value;
      var zs := s.procs[q].zombies + [Zombie(s.cur, status)];
      assert Numbered(zs);
      assert ReportExit(s, status).procs == s.procs[q := s.procs[q].(zombies := zs)];
    }
  }

  /** removeParent reaches the exiting process's children only, and no other process's. */
  lemma BuryKin(s: State)
    requires Kin(s) && s.cur in s.procs
    ensures Kin(Bury(s))
  {
    var s' := Bury(s);
    forall p, q | p in s'.procs && q in s'.procs && q in s'.procs[p].children ensures s'.procs[q].parent == Some(p) {
      assert s.procs[q].parent == Some(p);
      assert q !in s.procs[s.cur].children;
    }
  }

  lemma ReapKin(s: State)
    requires Kin(s) && s.cur in s.procs
    ensures Kin(Reap(s))
  {
    var me := s.procs[s.cur];
    if me.zombies != [] {
      assert Numbered(me.zombies[1..]);
      assert Reap(s).procs == s.procs[s.cur := me.(zombies := me.zombies[1..], cont := User, ret := me.zombies[0].pid)];
    }
  }

  lemma ExitKin(s: State, status: int)
    requires Kin(s) && s.cur in s.procs
    ensures Kin(Exit(s, status))
  {
    if s.cur != INIT {
      ReportKin(s, status);
      var s2 := Bury(ReportExit(s, status));
      BuryKin(ReportExit(s, status));
      assert Exit(s, status).procs == s2.procs;
    }
  }

  lemma StepKin(s: State, l: Label)
    requires Inv(s) && Related(s) && Kin(s) && Enabled(s, l)
    ensures Kin(Step(s, l))
  {
    InvFresh(s);
    if StepKind(s, l) != KFamily {
      StepTouches(s, l);
      TaggedKin(s.procs, Step(s, l).procs, s.cur);
    } else if l.Resume? {
      ReapKin(s);
    } else if l.call.CFork? {
      ForkKin(s, l.call.frames);
    } else if l.call.CExit? {
      ExitKin(s, l.call.status);
    } else {
      WaitKin(s);
    }
  }

  lemma WaitKin(s: State)
    requires Kin(s) && s.cur in s.procs
    ensures Kin(Wait(s))
  {
    if s.procs[s.cur].numChildren > 0 && s.procs[s.cur].zombies != [] {
      ReapKin(s);
    } else {
      var procs' := Wait(s).procs;
      assert Tagged(s.procs, procs', s.cur);
      TaggedKin(s.procs, procs', s.cur);
    }
  }

  /** What a step other than Fork and Exit leaves of the processes */
  lemma SameChildren(s: State, l: Label, p: Pid)
    requires Inv(s) && Enabled(s, l) && !(l.Trap? && (l.call.CFork? || l.call.CExit?))
    ensures Step(s, l).procs.Keys == s.procs.Keys && Step(s, l).nextPid == s.nextPid
    ensures p in s.procs ==> Step(s, l).procs[p].children == s.procs[p].children
  {
    InvFresh(s);
    if StepKind(s, l) != KFamily {
      StepTouches(s, l);
      TaggedKin(s.procs, Step(s, l).procs, s.cur);
    } else {
      ReapChildren(s, p);
    }
  }

  lemma ReapChildren(s: State, p: Pid)
    requires s.cur in s.procs
    ensures Reap(s).procs.Keys == s.procs.Keys && Wait(s).procs.Keys == s.procs.Keys
    ensures p in s.procs ==> Reap(s).procs[p].children == s.procs[p].children
    ensures p in s.procs ==> Wait(s).procs[p].children == s.procs[p].children
  {
    assert Reap(s).procs == s.procs[s.cur := Reap(s).procs[s.cur]];
  }

  lemma ExitChildren(s: State, status: int, p: Pid)
    requires s.cur in s.procs && p in Exit(s, status).procs
    ensures p in s.procs && Exit(s, status).procs[p].children == s.procs[p].children
    ensures Exit(s, status).nextPid == s.nextPid
  {
    if s.cur != INIT {
      var s1 := ReportExit(s, status);
      assert s1.procs.Keys == s.procs.Keys && (p in s.procs ==> s1.procs[p].children == s.procs[p].children);
      assert Bury(s1).procs.Keys == s1.procs.Keys - {s.cur};
    }
  }

  lemma ForkChildren(s: State, frames: bool, p: Pid)
    requires s.cur in s.procs && s.nextPid !in s.procs && p in Fork(s, frames).procs
    ensures p in s.procs || (p == s.nextPid && frames)
    ensures Fork(s, frames).procs[p].children
      == (if p in s.procs then s.procs[p].children else {}) + if frames && p == s.cur then {s.nextPid} else {}
    ensures Fork(s, frames).nextPid == s.nextPid + 1
  {
  }

  /** What one step adds to a live process's children */
  lemma StepChildren(s: State, l: Label, p: Pid)
    requires Inv(s) && Enabled(s, l) && p in Step(s, l).procs
    ensures p in s.procs || (p == s.nextPid && l == Trap(CFork(true)))
    ensures Step(s, l).procs[p].children == (if p in s.procs then s.procs[p].children else {}) + ForkedNow(s, l, p)
    ensures s.nextPid <= Step(s, l).nextPid
  {
    InvFresh(s);
    if l.Trap? && l.call.CExit? {
      ExitChildren(s, l.call.status, p);
    } else if l.Trap? && l.call.CFork? {
      ForkChildren(s, l.call.frames, p);
    } else {
      SameChildren(s, l, p);
    }
  }

  lemma ExitExits(s: State, status: int, p: Pid)
    requires s.cur in s.procs && s.cur != INIT && p in s.procs
    ensures Exits(Exit(s, status).log, p) == Exits(s.log, p)
      + if s.procs[s.cur].parent == Some(p) then [Zombie(s.cur, status)] else []
  {
  }

  /** What one step adds to the exits that a live process is told of */
  lemma StepExits(s: State, l: Label, p: Pid)
    requires Inv(s) && Enabled(s, l) && p in s.procs
    ensures Exits(Step(s, l).log, p) == Exits(s.log, p)
      + if ExitsNow(s, l) && s.cur in s.procs && s.procs[s.cur].parent == Some(p) then [Zombie(s.cur, l.call.status)]
        else []
  {
    InvFresh(s);
    if StepKind(s, l) != KFamily {
      StepTouches(s, l);
      OtherEvents(s.log, Step(s, l).log, StepKind(s, l), p);
    } else if ExitsNow(s, l) {
      ExitExits(s, l.call.status, p);
    } else if l.Resume? || l == Trap(CWait) {
      ReapExits(s, p);
    }
  }

  lemma ReapExits(s: State, p: Pid)
    requires s.cur in s.procs
    ensures Exits(Reap(s).log, p) == Exits(s.log, p) && Exits(Wait(s).log, p) == Exits(s.log, p)
  {
  }

  /** The step notes for `p` just the pid, if any, that its Wait returns. */
  ghost predicate ReapsNoted(s: State, l: Label, s': State, p: Pid) {
    Pids(Reaps(s'.log, p)) == Pids(Reaps(s.log, p)) + if WaitEnds(s, l, s', p) then [s'.procs[p].ret] else []
  }

  /** What one step adds to what its Waits have returned */
  lemma StepReaps(s: State, l: Label, p: Pid)
    requires Inv(s) && Kin(s) && Enabled(s, l) && p in s.procs && p in Step(s, l).procs
    ensures ReapsNoted(s, l, Step(s, l), p)
  {
    InvFresh(s);
    if StepKind(s, l) != KFamily {
      QuietReaps(s, l, p);
    } else if l.Resume? {
      ResumeReaps(s, p);
    } else if l.call.CWait? {
      var h: Home :| Located(s, h);
      CurView(s, h);
      WaitReaps(s, p);
    } else {
      OtherReaps(s, l.call, p);
    }
  }

  lemma QuietReaps(s: State, l: Label, p: Pid)
    requires s.nextPid !in s.procs && Enabled(s, l) && StepKind(s, l) != KFamily
    ensures ReapsNoted(s, l, Step(s, l), p)
  {
    StepTouches(s, l);
    OtherEvents(s.log, Step(s, l).log, StepKind(s, l), p);
  }

  lemma OtherReaps(s: State, c: Call, p: Pid)
    requires s.cur in s.procs && InUserMode(s) && (c.CFork? || c.CExit?)
    ensures ReapsNoted(s, Trap(c), DoCall(s, c), p)
  {
  }

  lemma ResumeReaps(s: State, p: Pid)
    requires Kin(s) && s.cur in s.procs && p in s.procs && s.procs[s.cur].cont == InWait
    ensures ReapsNoted(s, Resume, Reap(s), p)
  {
    ReapReaps(s, p);
  }

  lemma WaitReaps(s: State, p: Pid)
    requires Kin(s) && InUserMode(s) && p in s.procs && s.cur !in s.blocked
    ensures ReapsNoted(s, Trap(CWait), Wait(s), p)
  {
    if s.procs[s.cur].numChildren > 0 && s.procs[s.cur].zombies != [] {
      ReapReaps(s, p);
    } else {
      assert Wait(s).log == s.log;
    }
  }

  lemma ReapReaps(s: State, p: Pid)
    requires Kin(s) && s.cur in s.procs && p in s.procs
    ensures Pids(Reaps(Reap(s).log, p)) == Pids(Reaps(s.log, p))
      + if p == s.cur && s.procs[p].zombies != [] then [Reap(s).procs[p].ret] else []
    ensures Reap(s).procs[s.cur].cont == User
    ensures s.procs[s.cur].zombies != [] <==> Reap(s).procs[s.cur].ret != ERROR
  {
    var me := s.procs[s.cur];
    if me.zombies != [] {
      assert me.zombies[0].pid >= 0;
      PidsOfSum(Reaps(s.log, s.cur), [me.zombies[0]]);
    }
  }

  // ------------------------------------------------------------ runs

  ghost predicate Told(ss: seq<State>, ls: seq<Label>, i: nat, p: Pid)
    requires Traces(ss, ls, i)
  {
    && p in ss[i].procs
    && ss[i].procs[p].children == Forked(ss, ls, i, p)
    && Deaths(ss, ls, i, p) == Exits(ss[i].log, p)
    && Returned(ss, ls, i, p) == Pids(Reaps(ss[i].log, p))
  }

  ghost predicate Unborn(ss: seq<State>, ls: seq<Label>, i: nat, p: Pid)
    requires Traces(ss, ls, i)
  {
    Forked(ss, ls, i, p) == {} && Deaths(ss, ls, i, p) == [] && Returned(ss, ls, i, p) == []
  }

  ghost predicate AllTold(ss: seq<State>, ls: seq<Label>, i: nat)
    requires Traces(ss, ls, i)
  {
    && Kin(ss[i])
    && (forall p | p in ss[i].procs :: Told(ss, ls, i, p))
    && (forall p | p >= ss[i].nextPid :: Unborn(ss, ls, i, p))
  }

  lemma TellOn(ss: seq<State>, ls: seq<Label>, i: nat, p: Pid)
    requires Run(ss, ls) && Traces(ss, ls, i + 1) && AllTold(ss, ls, i) && Inv(ss[i]) && Related(ss[i])
    requires p in ss[i + 1].procs
    ensures Told(ss, ls, i + 1, p)
  {
    var s, l := ss[i], ls[i];
    StepChildren(s, l, p);
    InvFresh(s);
    if p in s.procs {
      StepExits(s, l, p);
      StepReaps(s, l, p);
      assert Told(ss, ls, i, p);
      assert ExitsNow(s, l) ==> (s.cur in Forked(ss, ls, i, p) <==> s.procs[s.cur].parent == Some(p));
    } else {
      assert Unborn(ss, ls, i, p);
      assert Exits(ss[i + 1].log, p) == Exits(s.log, p) == [] && Reaps(ss[i + 1].log, p) == Reaps(s.log, p) == [];
    }
  }

  lemma UnbornYet(ss: seq<State>, ls: seq<Label>, i: nat, p: Pid)
    requires Run(ss, ls) && Traces(ss, ls, i + 1) && AllTold(ss, ls, i) && Inv(ss[i])
    requires p >= ss[i + 1].nextPid >= ss[i].nextPid
    ensures Unborn(ss, ls, i + 1, p)
  {
    InvFresh(ss[i]);
    assert Unborn(ss, ls, i, p);
  }

  lemma {:induction false} RunTold(ss: seq<State>, ls: seq<Label>, i: nat)
    requires Run(ss, ls) && i < |ss|
    ensures AllTold(ss, ls, i)
  {
    if i > 0 {
      RunTold(ss, ls, i - 1);
      RunInv(ss, ls, i - 1);
      RunFamilies(ss, ls, i - 1);
      StepKin(ss[i - 1], ls[i - 1]);
      RunInv(ss, ls, i);
      InvFresh(ss[i]);
      StepChildren(ss[i - 1], ls[i - 1], ss[i].cur);
      TellAll(ss, ls, i - 1, i);
    }
  }

  lemma TellAll(ss: seq<State>, ls: seq<Label>, i: nat, n: nat)
    requires n == i + 1 && Run(ss, ls) && Traces(ss, ls, n) && AllTold(ss, ls, i) && Inv(ss[i]) && Related(ss[i])
    requires Kin(ss[n]) && ss[n].nextPid >= ss[i].nextPid
    ensures AllTold(ss, ls, n)
  {
    forall p | p in ss[n].procs ensures Told(ss, ls, n, p) {
      TellOn(ss, ls, i, p);
    }
    forall p | p >= ss[n].nextPid ensures Unborn(ss, ls, n, p) {
      UnbornYet(ss, ls, i, p);
    }
  }

  /**
   In every state of every run, for every live process: the pairs that its Waits have
   returned, followed by its zombie queue, are the exits of the children it forked, all of
   them and in order; the pids are those its calls returned; blocked in Wait it has an
   empty zombie queue; and the live processes that point to it are its live children.
   */
  lemma ExitWaitConservation(ss: seq<State>, ls: seq<Label>, i: nat, p: Pid)
    requires Run(ss, ls) && i < |ss| && p in ss[i].procs
    ensures Deaths(ss, ls, i, p) == Reaps(ss[i].log, p) + ss[i].procs[p].zombies
    ensures Returned(ss, ls, i, p) == Pids(Reaps(ss[i].log, p))
    ensures p in ss[i].blocked && ss[i].procs[p].cont == InWait ==> ss[i].procs[p].zombies == []
    ensures ss[i].procs[p].children == Forked(ss, ls, i, p)
    ensures forall q | q in ss[i].procs :: ss[i].procs[q].parent == Some(p) <==> q in Forked(ss, ls, i, p)
  {
    RunTold(ss, ls, i);
    RunFamilies(ss, ls, i);
    assert Told(ss, ls, i, p);
    assert Owed(ss[i], p);
  }

  lemma {:induction false} DeathsAreChildren(ss: seq<State>, ls: seq<Label>, i: nat, p: Pid)
    requires Traces(ss, ls, i)
    ensures forall z | z in Deaths(ss, ls, i, p) :: z.pid in Forked(ss, ls, i, p)
  {
    if i > 0 { DeathsAreChildren(ss, ls, i - 1, p); }
  }

  /**
   As long as nobody in Wait has been woken in vain, a Wait that had to block returns the pid of an
   exited child, the next in order.
   */
  lemma WaitReturnsAChild(ss: seq<State>, ls: seq<Label>, i: nat)
    requires Run(ss, ls) && i < |ls| && NoneInVain(ss, ls, i)
    requires ls[i] == Resume && ss[i].cur in ss[i].procs && ss[i].procs[ss[i].cur].cont == InWait
    ensures var p := ss[i].cur; var n := |Returned(ss, ls, i, p)|;
      && n < |Deaths(ss, ls, i, p)| && Deaths(ss, ls, i, p)[n].pid in Forked(ss, ls, i, p)
      && p in ss[i + 1].procs && ss[i + 1].procs[p].ret == Deaths(ss, ls, i, p)[n].pid
  {
    var p := ss[i].cur;
    WaitFindsAZombie(ss, ls, i);
    ExitWaitConservation(ss, ls, i, p);
    DeathsAreChildren(ss, ls, i, p);
    PidsLength(Reaps(ss[i].log, p));
    var zs := ss[i].procs[p].zombies;
    assert Deaths(ss, ls, i, p)[|Reaps(ss[i].log, p)|] == zs[0] && zs[0] in Deaths(ss, ls, i, p);
  }

  // ------------------------------------------------------------ when Wait gives up

  /** `numChildren` tells whether a process has ever forked; it is never counted down. */
  ghost predicate Counted(procs: map<Pid, Proc>) {
    forall p | p in procs :: procs[p].numChildren > 0 <==> procs[p].children != {}
  }

  lemma ReapCounted(s: State)
    requires Counted(s.procs) && s.cur in s.procs
    ensures Counted(Reap(s).procs)
  {
    assert Reap(s).procs == s.procs[s.cur := Reap(s).procs[s.cur]];
  }

  lemma ExitCounted(s: State, status: int)
    requires Counted(s.procs) && s.cur in s.procs
    ensures Counted(Exit(s, status).procs)
  {
    if s.cur != INIT {
      assert Counted(ReportExit(s, status).procs);
    }
  }

  lemma ForkCounted(s: State, frames: bool)
    requires Counted(s.procs) && s.cur in s.procs && s.nextPid !in s.procs
    ensures Counted(Fork(s, frames).procs)
  {
  }

  lemma StepCounted(s: State, l: Label)
    requires Inv(s) && Counted(s.procs) && Enabled(s, l)
    ensures Counted(Step(s, l).procs)
  {
    InvFresh(s);
    if StepKind(s, l) != KFamily {
      StepTouches(s, l);
      TaggedKin(s.procs, Step(s, l).procs, s.cur);
    } else if l.Resume? {
      ReapCounted(s);
    } else if l.call.CFork? {
      ForkCounted(s, l.call.frames);
    } else if l.call.CExit? {
      ExitCounted(s, l.call.status);
    } else if s.procs[s.cur].numChildren > 0 && s.procs[s.cur].zombies != [] {
      ReapCounted(s);
    } else {
      assert Tagged(s.procs, Wait(s).procs, s.cur);
      TaggedKin(s.procs, Wait(s).procs, s.cur);
    }
  }

  lemma {:induction false} RunCounted(ss: seq<State>, ls: seq<Label>, i: nat)
    requires Run(ss, ls) && i < |ss|
    ensures Counted(ss[i].procs)
  {
    if i > 0 {
      RunCounted(ss, ls, i - 1);
      RunInv(ss, ls, i - 1);
      StepCounted(ss[i - 1], ls[i - 1]);
    }
  }

  /**
   A call of Wait fails at once if and only if the caller has never forked; if it has, and
   has collected every child that has exited, it blocks, also when no child is left.
   */
  lemma WaitGivesUp(ss: seq<State>, ls: seq<Label>, i: nat)
    requires Run(ss, ls) && i < |ls| && ls[i] == Trap(CWait)
    ensures var s, s' := ss[i], ss[i + 1]; var forked := Forked(ss, ls, i, s.cur);
      && s.cur in s'.procs
      && (Returns(s, ls[i], s') && Code(s, s') == ERROR <==> forked == {})
      && (s.cur in s'.blocked <==> forked != {} && |Returned(ss, ls, i, s.cur)| == |Deaths(ss, ls, i, s.cur)|)
  {
    var s := ss[i];
    ExitWaitConservation(ss, ls, i, s.cur);
    RunCounted(ss, ls, i);
    RunTold(ss, ls, i);
    RunInv(ss, ls, i);
    var h: Home :| Located(s, h);
    CurView(s, h);
    PidsLength(Reaps(s.log, s.cur));
    WaitOutcome(s);
  }

  lemma WaitOutcome(s: State)
    requires InUserMode(s) && s.cur !in s.blocked && Natural(s.procs)
    ensures s.cur in Wait(s).procs
    ensures s.cur in Wait(s).blocked <==> s.procs[s.cur].numChildren > 0 && s.procs[s.cur].zombies == []
    ensures Returns(s, Trap(CWait), Wait(s)) && Code(s, Wait(s)) == ERROR <==> s.procs[s.cur].numChildren <= 0
  {
  }

  lemma {:induction false} PidsLength(zs: seq<Zombie>)
    ensures |Pids(zs)| == |zs|
  {
    if zs != [] { PidsLength(zs[..|zs| - 1]); }
  }
}
