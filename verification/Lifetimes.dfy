/** How the frames of a whole process are booked when it is made, given up or deleted. */
module Lifetimes {
  import opened Basics
  import opened Hardware
  import opened PageTables
  import opened Ownership
  import opened Layout

  function Elements<T>(s: seq<T>): set<T> {
    set x | x in s
  }

  ghost predicate NewPcb(tables: Tables, pcbs: map<Pid, Pcb>, p: Pid) {
    p !in pcbs && User(p) !in tables
  }

  /** `own` once process `p` has the frames `pfns` for its kernel stack */
  ghost function Adopt(own: map<int, Slot>, p: Pid, pfns: seq<int>): map<int, Slot> {
    if pfns == [] then own
    else Adopt(own, p, pfns[..|pfns| - 1])[pfns[|pfns| - 1] := KernelStack(p, |pfns| - 1)]
  }

  lemma EmptyProcess(own: map<int, Slot>, tables: Tables, pcbs: map<Pid, Pcb>, p: Pid, pcb: Pcb)
    requires Ledger(own, tables, pcbs) && NewPcb(tables, pcbs, p)
    ensures Ledger(own, tables[User(p) := FreshTable()], pcbs[p := pcb.(stackPfns := [])])
  {
    var tables', pcbs' := tables[User(p) := FreshTable()], pcbs[p := pcb.(stackPfns := [])];
    forall s ensures FrameAt(tables', pcbs', s) == FrameAt(tables, pcbs, s) {
    }
    forall s ensures Booked(own, s, FrameAt(tables', pcbs', s)) {
      assert Booked(own, s, FrameAt(tables, pcbs, s));
    }
  }

  lemma AdoptOne(own: map<int, Slot>, tables: Tables, pcbs: map<Pid, Pcb>, p: Pid, pcb: Pcb,
                 front: seq<int>, f: int)
    requires Ledger(own, tables, pcbs[p := pcb.(stackPfns := front)]) && f !in own
    ensures Ledger(own[f := KernelStack(p, |front|)], tables, pcbs[p := pcb.(stackPfns := front + [f])])
  {
    var pcbs0, pcbs1 := pcbs[p := pcb.(stackPfns := front)], pcbs[p := pcb.(stackPfns := front + [f])];
    var slot := KernelStack(p, |front|);
    forall s | s != slot ensures FrameAt(tables, pcbs1, s) == FrameAt(tables, pcbs0, s) {
    }
    TakeBooked(own, tables, pcbs0, tables, pcbs1, slot, f);
  }

  lemma {:induction false} AdoptKeys(own: map<int, Slot>, p: Pid, pfns: seq<int>)
    requires forall f :: f in pfns ==> f !in own
    ensures Adopt(own, p, pfns).Keys == own.Keys + Elements(pfns)
    ensures forall f :: f in own ==> Adopt(own, p, pfns)[f] == own[f]
    ensures forall f :: f in pfns ==> Adopt(own, p, pfns)[f].KernelStack?
  {
    if pfns != [] {
      var n := |pfns| - 1;
      AdoptKeys(own, p, pfns[..n]);
      ElementsSnoc(pfns, n);
      assert pfns[..n + 1] == pfns && pfns[n] in pfns;
    }
  }

  lemma {:induction false} AdoptLedger(own: map<int, Slot>, tables: Tables, pcbs: map<Pid, Pcb>, p: Pid, pcb: Pcb,
                                       pfns: seq<int>)
    requires Ledger(own, tables, pcbs) && NewPcb(tables, pcbs, p)
    requires NoDup(pfns) && forall f :: f in pfns ==> f !in own
    ensures Ledger(Adopt(own, p, pfns), tables[User(p) := FreshTable()], pcbs[p := pcb.(stackPfns := pfns)])
  {
    if pfns == [] {
      EmptyProcess(own, tables, pcbs, p, pcb);
    } else {
      var n := |pfns| - 1;
      var front, f := pfns[..n], pfns[n];
      assert pfns == front + [f] && f !in front;
      AdoptLedger(own, tables, pcbs, p, pcb, front);
      AdoptKeys(own, p, front);
      AdoptOne(Adopt(own, p, front), tables[User(p) := FreshTable()], pcbs, p, pcb, front, f);
    }
  }

  /** A process made of nothing but a kernel stack */
  lemma AdoptAccounted(own: map<int, Slot>, free: set<int>, all: set<int>, tables: Tables,
                       pcbs: map<Pid, Pcb>, p: Pid, pcb: Pcb)
    requires Accounted(own, free, all, tables, pcbs) && NewPcb(tables, pcbs, p)
    requires NoDup(pcb.stackPfns) && Elements(pcb.stackPfns) <= free
    ensures Accounted(Adopt(own, p, pcb.stackPfns), free - Elements(pcb.stackPfns), all,
                      tables[User(p) := FreshTable()], pcbs[p := pcb])
    ensures LeakedFrames(Adopt(own, p, pcb.stackPfns)) == LeakedFrames(own)
  {
    forall f | f in pcb.stackPfns ensures f !in own {
      assert f in Elements(pcb.stackPfns);
    }
    AdoptLedger(own, tables, pcbs, p, pcb, pcb.stackPfns);
    AdoptKeys(own, p, pcb.stackPfns);
    var own' := Adopt(own, p, pcb.stackPfns);
    forall f ensures f in LeakedFrames(own') <==> f in LeakedFrames(own) {
      assert f in own' <==> f in own || f in pcb.stackPfns;
    }
    assert pcb.(stackPfns := pcb.stackPfns) == pcb;
  }

  ghost predicate SlotOfProcess(slot: Slot, p: Pid) {
    (slot.Page? && slot.t == User(p)) || (slot.KernelStack? && slot.pid == p)
  }

  /** The slots of a process hold exactly its frames. */
  lemma ProcessSlots(own: map<int, Slot>, tables: Tables, pcbs: map<Pid, Pcb>, p: Pid, f: int)
    requires Ledger(own, tables, pcbs) && p in pcbs && User(p) in tables
    ensures f in FramesOf(tables, pcbs, p) <==> f in own && SlotOfProcess(own[f], p)
  {
    InFramesIn(tables[User(p)], 0, MAX_PT_LEN, f);
    if f in own && SlotOfProcess(own[f], p) {
      assert FrameAt(tables, pcbs, own[f]) == Some(f);
    }
    if f in FramesIn(tables[User(p)], 0, MAX_PT_LEN) {
      var i :| 0 <= i < MAX_PT_LEN && tables[User(p)][i].valid && tables[User(p)][i].pfn == f;
      assert Booked(own, Page(User(p), i), FrameAt(tables, pcbs, Page(User(p), i)));
    }
    if f in StackFrames(pcbs[p]) {
      var k :| 0 <= k < |pcbs[p].stackPfns| && pcbs[p].stackPfns[k] == f;
      assert Booked(own, KernelStack(p, k), FrameAt(tables, pcbs, KernelStack(p, k)));
    }
  }

  /** Without process `p`, every other slot holds what it held. */
  lemma WithoutProcess(tables: Tables, pcbs: map<Pid, Pcb>, p: Pid, s: Slot)
    ensures FrameAt(tables - {User(p)}, pcbs - {p}, s) == if SlotOfProcess(s, p) then None else FrameAt(tables, pcbs, s)
  {
  }

  /** delete_process, booked: what the process held is free again. */
  lemma BuryAccounted(own: map<int, Slot>, free: set<int>, all: set<int>, tables: Tables,
                      pcbs: map<Pid, Pcb>, p: Pid)
    requires Accounted(own, free, all, tables, pcbs) && p in pcbs && User(p) in tables
    ensures FramesOf(tables, pcbs, p) <= own.Keys
    ensures Accounted(own - FramesOf(tables, pcbs, p), free + FramesOf(tables, pcbs, p), all,
                      tables - {User(p)}, pcbs - {p})
    ensures LeakedFrames(own - FramesOf(tables, pcbs, p)) == LeakedFrames(own)
  {
    var freed := FramesOf(tables, pcbs, p);
    var own' := own - freed;
    forall f ensures f in freed <==> f in own && SlotOfProcess(own[f], p) {
      ProcessSlots(own, tables, pcbs, p, f);
    }
    forall s ensures Booked(own', s, FrameAt(tables - {User(p)}, pcbs - {p}, s)) {
      WithoutProcess(tables, pcbs, p, s);
      assert Booked(own, s, FrameAt(tables, pcbs, s));
    }
    forall f | f in own' ensures own'[f] == Leaked || FrameAt(tables - {User(p)}, pcbs - {p}, own'[f]) == Some(f) {
      WithoutProcess(tables, pcbs, p, own'[f]);
    }
    assert own'.Keys == own.Keys - freed;
  }

  /** A process that nobody remembers any more: its frames have leaked. */
  ghost function Abandon(own: map<int, Slot>, p: Pid): map<int, Slot> {
    map f | f in own :: if SlotOfProcess(own[f], p) then Leaked else own[f]
  }

  lemma AbandonAccounted(own: map<int, Slot>, free: set<int>, all: set<int>, tables: Tables,
                         pcbs: map<Pid, Pcb>, p: Pid)
    requires Accounted(own, free, all, tables, pcbs) && p in pcbs && User(p) in tables
    ensures Accounted(Abandon(own, p), free, all, tables - {User(p)}, pcbs - {p})
    ensures LeakedFrames(Abandon(own, p)) == LeakedFrames(own) + FramesOf(tables, pcbs, p)
  {
    var own' := Abandon(own, p);
    forall s ensures Booked(own', s, FrameAt(tables - {User(p)}, pcbs - {p}, s)) {
      WithoutProcess(tables, pcbs, p, s);
      assert Booked(own, s, FrameAt(tables, pcbs, s));
    }
    forall f | f in own' ensures own'[f] == Leaked || FrameAt(tables - {User(p)}, pcbs - {p}, own'[f]) == Some(f) {
      WithoutProcess(tables, pcbs, p, own'[f]);
    }
    forall f ensures f in FramesOf(tables, pcbs, p) <==> f in own && SlotOfProcess(own[f], p) {
      ProcessSlots(own, tables, pcbs, p, f);
    }
    assert own'.Keys == own.Keys;
  }

  /** Two processes never have a frame in common. */
  lemma Isolated(own: map<int, Slot>, tables: Tables, pcbs: map<Pid, Pcb>, p: Pid, q: Pid)
    requires Ledger(own, tables, pcbs) && p != q
    requires p in pcbs && User(p) in tables && q in pcbs && User(q) in tables
    ensures FramesOf(tables, pcbs, p) !! FramesOf(tables, pcbs, q)
  {
    forall f | f in FramesOf(tables, pcbs, p) ensures f !in FramesOf(tables, pcbs, q) {
      ProcessSlots(own, tables, pcbs, p, f);
      ProcessSlots(own, tables, pcbs, q, f);
    }
  }

  /** The frames of a kernel stack exist and are different. */
  lemma StackDistinct(own: map<int, Slot>, free: set<int>, all: set<int>, tables: Tables,
                      pcbs: map<Pid, Pcb>, p: Pid)
    requires Accounted(own, free, all, tables, pcbs) && p in pcbs
    ensures NoDup(pcbs[p].stackPfns)
    ensures forall k :: 0 <= k < |pcbs[p].stackPfns| ==> pcbs[p].stackPfns[k] in all && pcbs[p].stackPfns[k] !in free
  {
    var pfns := pcbs[p].stackPfns;
    forall k | 0 <= k < |pfns| ensures pfns[k] in own && own[pfns[k]] == KernelStack(p, k) {
      assert Booked(own, KernelStack(p, k), FrameAt(tables, pcbs, KernelStack(p, k)));
    }
  }

  lemma ElementsSnoc<T>(s: seq<T>, n: nat)
    requires n < |s|
    ensures Elements(s[..n + 1]) == Elements(s[..n]) + {s[n]}
  {
    assert s[..n + 1] == s[..n] + [s[n]];
  }

  lemma ElementsOfSum<T>(a: seq<T>, b: seq<T>)
    ensures Elements(a + b) == Elements(a) + Elements(b)
  {
  }

  lemma StackFramesAre(pcb: Pcb)
    ensures StackFrames(pcb) == Elements(pcb.stackPfns)
  {
  }

  lemma AllFreed(free: set<int>, a: set<int>, b: set<int>, all: set<int>)
    requires a + b <= all
    ensures free + a * all + b * all == free + (a + b)
  {
  }

  /** Deleting a process and switching to another leaves the remaining address spaces as they were. */
  lemma HeapsSurvive(tables: Tables, pcbs: map<Pid, Pcb>, tables': Tables, pcbs': map<Pid, Pcb>,
                     gone: set<Pid>)
    requires HeapsMapped(tables, pcbs, gone)
    requires forall p :: p in pcbs' ==> p in pcbs && p !in gone && pcbs'[p].brk == pcbs[p].brk
    requires forall p :: p in pcbs' && User(p) in tables ==> User(p) in tables' && tables'[User(p)] == tables[User(p)]
    ensures HeapsMapped(tables', pcbs', {})
  {
  }

  /** Giving back frame numbers that were never taken does no harm if and only if none of them is in use. */
  lemma JunkHarmless(own: map<int, Slot>, free: set<int>, all: set<int>, tables: Tables,
                     pcbs: map<Pid, Pcb>, junk: set<int>)
    requires Accounted(own, free, all, tables, pcbs)
    ensures Accounted(own, free + junk * all, all, tables, pcbs) <==> junk !! own.Keys
    ensures junk !! own.Keys ==> free + junk * all == free
  {
    if junk !! own.Keys {
      assert free + junk * all == free;
    }
    if Accounted(own, free + junk * all, all, tables, pcbs) {
      forall f | f in junk ensures f !in own.Keys {
        assert f in own.Keys ==> f in free + junk * all;
      }
    }
  }

  /** Giving back the number of any frame in use, whoever owns it, makes the frame free and in use at once. */
  lemma JunkInUse(own: map<int, Slot>, free: set<int>, all: set<int>, tables: Tables,
                  pcbs: map<Pid, Pcb>, f: int)
    requires Accounted(own, free, all, tables, pcbs) && f in own
    ensures f in free + {f} * all && !Accounted(own, free + {f} * all, all, tables, pcbs)
  {
    JunkHarmless(own, free, all, tables, pcbs, {f});
    assert f in own.Keys && f in all;
  }

  /** What a process writes to one of its pages no other process sees. */
  lemma OthersDoNotSee(own: map<int, Slot>, tables: Tables, pcbs: map<Pid, Pcb>, p: Pid, i: int,
                       ram: map<int, Bytes>, bytes: Bytes)
    requires Ledger(own, tables, pcbs) && p in pcbs && User(p) in tables && forall q :: q in pcbs ==> User(q) in tables
    requires 0 <= i < MAX_PT_LEN && tables[User(p)][i].valid
    ensures forall q :: q in pcbs && q != p ==>
      SameBytes(FramesOf(tables, pcbs, q), ram, ram[tables[User(p)][i].pfn := bytes])
  {
    var f := tables[User(p)][i].pfn;
    InFramesIn(tables[User(p)], 0, MAX_PT_LEN, f);
    forall q | q in pcbs && q != p ensures f !in FramesOf(tables, pcbs, q) {
      Isolated(own, tables, pcbs, p, q);
    }
  }

  /** What is written to one process's kernel stack no other process sees. */
  lemma OthersKeepBytes(own: map<int, Slot>, tables: Tables, pcbs: map<Pid, Pcb>, p: Pid,
                        ram: map<int, Bytes>, ram': map<int, Bytes>)
    requires Ledger(own, tables, pcbs) && p in pcbs && forall q :: q in pcbs ==> User(q) in tables
    requires ram'.Keys == ram.Keys && forall f :: f in ram && f !in pcbs[p].stackPfns ==> ram'[f] == ram[f]
    ensures forall q :: q in pcbs && q != p ==> SameBytes(FramesOf(tables, pcbs, q), ram, ram')
  {
    forall q | q in pcbs && q != p ensures SameBytes(FramesOf(tables, pcbs, q), ram, ram') {
      Isolated(own, tables, pcbs, p, q);
      StackFramesAre(pcbs[p]);
      assert Elements(pcbs[p].stackPfns) !! FramesOf(tables, pcbs, q);
    }
  }
}
