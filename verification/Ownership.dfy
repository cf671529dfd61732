/**
 Who holds each physical frame.  A frame is held by a slot: a page of region 0 below the
 spare page, a page of a process's region 1, or a page of its kernel stack.  (The entries
 of the spare page and of the kernel stack only borrow a process's frames.)  `own` names
 the slot of every frame that is not free; a frame no slot holds any more is `Leaked`.
 */
module Ownership {
  import opened Basics
  import opened Hardware
  import opened PageTables

  /** A page table by whose it is: a `struct pte *` is one of these and an index. */
  datatype Table = Kernel | User(pid: Pid)

  /** What a PCB says about memory; `base` is the address of its region 1 page table. */
  datatype Pcb = Pcb(base: int, brk: int, stackPfns: seq<int>, started: bool)

  type Tables = map<Table, PageTable>

  datatype Slot = Page(t: Table, i: int) | KernelStack(pid: Pid, k: int) | Leaked

  /** The slots of table `t` that hold frames */
  function Slots(t: Table): nat {
    if t.Kernel? then TEMP_VPN else MAX_PT_LEN
  }

  /** The pages of table `t` that a break can reach: in region 0 also the spare page, which is no slot */
  function Reach(t: Table): nat {
    if t.Kernel? then KERNEL_STACK_VPN else MAX_PT_LEN
  }

  ghost function FrameAt(tables: Tables, pcbs: map<Pid, Pcb>, slot: Slot): Option<int> {
    match slot
    case Page(t, i) =>
      if t in tables && 0 <= i < Slots(t) && tables[t][i].valid then Some(tables[t][i].pfn) else None
    case KernelStack(p, k) =>
      if p in pcbs && 0 <= k < |pcbs[p].stackPfns| then Some(pcbs[p].stackPfns[k]) else None
    case Leaked => None
  }

  ghost predicate Booked(own: map<int, Slot>, slot: Slot, held: Option<int>) {
    held.None? || (held.value in own && own[held.value] == slot)
  }

  /** `own` is right about every frame and every slot. */
  ghost predicate Ledger(own: map<int, Slot>, tables: Tables, pcbs: map<Pid, Pcb>) {
    && (forall f :: f in own ==> own[f] == Leaked || FrameAt(tables, pcbs, own[f]) == Some(f))
    && (forall slot :: Booked(own, slot, FrameAt(tables, pcbs, slot)))
  }

  ghost predicate Partition(own: map<int, Slot>, free: set<int>, all: set<int>) {
    own.Keys !! free && own.Keys + free == all
  }

  /** Every frame is free or has the one owner that `own` names. */
  ghost predicate Accounted(own: map<int, Slot>, free: set<int>, all: set<int>, tables: Tables, pcbs: map<Pid, Pcb>) {
    Ledger(own, tables, pcbs) && Partition(own, free, all)
  }

  ghost function LeakedFrames(own: map<int, Slot>): (s: set<int>)
    ensures forall f :: f in s <==> f in own && own[f] == Leaked
  {
    set f | f in own && own[f] == Leaked
  }

  ghost function HeldFrames(own: map<int, Slot>): (s: set<int>)
    ensures forall f :: f in s <==> f in own && own[f] != Leaked
  {
    set f | f in own && own[f] != Leaked
  }

  /** No frame has two owners, and an owned frame exists and is not free. */
  lemma OneOwner(own: map<int, Slot>, free: set<int>, all: set<int>,
                 tables: Tables, pcbs: map<Pid, Pcb>, a: Slot, b: Slot)
    requires Accounted(own, free, all, tables, pcbs)
    requires FrameAt(tables, pcbs, a).Some?
    ensures FrameAt(tables, pcbs, a).value in all && FrameAt(tables, pcbs, a).value !in free
    ensures FrameAt(tables, pcbs, a) == FrameAt(tables, pcbs, b) ==> a == b
  {
    assert Booked(own, a, FrameAt(tables, pcbs, a));
    assert Booked(own, b, FrameAt(tables, pcbs, b));
    assert FrameAt(tables, pcbs, a).value in own;
  }

  /** Free, held and leaked frames add up to the machine's; and a frame neither free nor leaked is some slot's. */
  lemma FramesConserved(own: map<int, Slot>, free: set<int>, all: set<int>,
                        tables: Tables, pcbs: map<Pid, Pcb>)
    requires Accounted(own, free, all, tables, pcbs)
    ensures |free| + |HeldFrames(own)| + |LeakedFrames(own)| == |all|
    ensures forall f :: f in all ==>
      (f in free || f in LeakedFrames(own) <==> forall slot :: FrameAt(tables, pcbs, slot) != Some(f))
  {
    assert all == free + HeldFrames(own) + LeakedFrames(own);
    forall f | f in all
      ensures f in free || f in LeakedFrames(own) <==> forall slot :: FrameAt(tables, pcbs, slot) != Some(f)
    {
      if f in free || f in LeakedFrames(own) {
        forall slot ensures FrameAt(tables, pcbs, slot) != Some(f) {
          assert Booked(own, slot, FrameAt(tables, pcbs, slot));
        }
      } else {
        assert FrameAt(tables, pcbs, own[f]) == Some(f);
      }
    }
  }

  // ------------------------------------------------------------ how a change is booked

  function SetEntry(tables: Tables, t: Table, i: int, pte: Pte): (r: Tables)
    requires t in tables && 0 <= i < MAX_PT_LEN
    ensures r.Keys == tables.Keys && r[t] == tables[t][i := pte]
    ensures forall u :: u in tables && u != t ==> r[u] == tables[u]
  {
    tables[t := tables[t][i := pte]]
  }

  ghost predicate SameElsewhere(tables: Tables, pcbs: map<Pid, Pcb>, tables': Tables, pcbs': map<Pid, Pcb>,
                                slot: Slot) {
    forall s :: s != slot ==> FrameAt(tables', pcbs', s) == FrameAt(tables, pcbs, s)
  }

  lemma OneEntry(tables: Tables, pcbs: map<Pid, Pcb>, t: Table, i: int, pte: Pte)
    requires t in tables && 0 <= i < MAX_PT_LEN
    ensures SameElsewhere(tables, pcbs, SetEntry(tables, t, i, pte), pcbs, Page(t, i))
    ensures i < Slots(t) ==>
      FrameAt(SetEntry(tables, t, i, pte), pcbs, Page(t, i)) == (if pte.valid then Some(pte.pfn) else None)
    ensures i >= Slots(t) ==> SameElsewhere(tables, pcbs, SetEntry(tables, t, i, pte), pcbs, Leaked)
  {
  }

  /** `slot` takes frame `f`; the frame that it held before, if any, has no owner left. */
  ghost function Take(own: map<int, Slot>, held: Option<int>, slot: Slot, f: int): map<int, Slot> {
    (if held.Some? then own[held.value := Leaked] else own)[f := slot]
  }

  lemma TakeBooked(own: map<int, Slot>, tables: Tables, pcbs: map<Pid, Pcb>,
                   tables': Tables, pcbs': map<Pid, Pcb>, slot: Slot, f: int)
    requires Ledger(own, tables, pcbs) && f !in own
    requires FrameAt(tables', pcbs', slot) == Some(f) && SameElsewhere(tables, pcbs, tables', pcbs', slot)
    ensures Ledger(Take(own, FrameAt(tables, pcbs, slot), slot, f), tables', pcbs')
  {
    var held := FrameAt(tables, pcbs, slot);
    var own' := Take(own, held, slot, f);
    assert Booked(own, slot, held);
    forall s ensures Booked(own', s, FrameAt(tables', pcbs', s)) {
      assert Booked(own, s, FrameAt(tables, pcbs, s));
    }
    forall g | g in own' ensures own'[g] == Leaked || FrameAt(tables', pcbs', own'[g]) == Some(g) {
      if g != f && own'[g] != Leaked {
        assert g in own && own[g] == own'[g];
        assert own[g] != slot;
      }
    }
  }

  lemma DropBooked(own: map<int, Slot>, tables: Tables, pcbs: map<Pid, Pcb>,
                   tables': Tables, pcbs': map<Pid, Pcb>, slot: Slot, f: int)
    requires Ledger(own, tables, pcbs) && FrameAt(tables, pcbs, slot) == Some(f)
    requires FrameAt(tables', pcbs', slot) == None && SameElsewhere(tables, pcbs, tables', pcbs', slot)
    ensures f in own && Ledger(own - {f}, tables', pcbs')
  {
    assert Booked(own, slot, FrameAt(tables, pcbs, slot));
    forall s ensures Booked(own - {f}, s, FrameAt(tables', pcbs', s)) {
      assert Booked(own, s, FrameAt(tables, pcbs, s));
    }
  }

  lemma SameBooked(own: map<int, Slot>, free: set<int>, all: set<int>, tables: Tables,
                   pcbs: map<Pid, Pcb>, tables': Tables, pcbs': map<Pid, Pcb>)
    requires Accounted(own, free, all, tables, pcbs) && SameElsewhere(tables, pcbs, tables', pcbs', Leaked)
    ensures Accounted(own, free, all, tables', pcbs')
  {
    forall s ensures Booked(own, s, FrameAt(tables', pcbs', s)) {
      assert Booked(own, s, FrameAt(tables, pcbs, s));
    }
  }

  /** Who owns frame `f` once it is in entry `i` of table `t` */
  ghost function BookEntry(own: map<int, Slot>, tables: Tables, pcbs: map<Pid, Pcb>, t: Table, i: int,
                           f: int): map<int, Slot> {
    if i < Slots(t) then Take(own, FrameAt(tables, pcbs, Page(t, i)), Page(t, i), f) else own[f := Leaked]
  }

  /** The frame that has no owner any more, or none, when entry `i` of table `t` gets frame `f` */
  ghost function LostBy(t: Table, i: int, e: Pte, f: int): set<int> {
    if i >= Slots(t) then {f} else if e.valid then {e.pfn} else {}
  }

  /** getFrame and setPageTableEntry, booked */
  lemma MapAccounted(own: map<int, Slot>, free: set<int>, all: set<int>, tables: Tables,
                     pcbs: map<Pid, Pcb>, t: Table, i: int, f: int, prot: set<Prot>)
    requires Accounted(own, free, all, tables, pcbs) && f in free
    requires t in tables && 0 <= i < Slots(t) && i < MAX_PT_LEN
    ensures var own' := Take(own, FrameAt(tables, pcbs, Page(t, i)), Page(t, i), f);
      && Accounted(own', free - {f}, all, SetEntry(tables, t, i, Pte(true, prot, f)), pcbs)
      && LeakedFrames(own') == LeakedFrames(own) + LostBy(t, i, tables[t][i], f)
  {
    var held := FrameAt(tables, pcbs, Page(t, i));
    assert Booked(own, Page(t, i), held);
    OneEntry(tables, pcbs, t, i, Pte(true, prot, f));
    TakeBooked(own, tables, pcbs, SetEntry(tables, t, i, Pte(true, prot, f)), pcbs, Page(t, i), f);
    assert Take(own, held, Page(t, i), f).Keys == own.Keys + {f};
  }

  /** The same for the spare page, whose frame belongs to no slot */
  lemma SpareAccounted(own: map<int, Slot>, free: set<int>, all: set<int>, tables: Tables,
                       pcbs: map<Pid, Pcb>, f: int, prot: set<Prot>)
    requires Accounted(own, free, all, tables, pcbs) && f in free && Kernel in tables
    ensures Accounted(own[f := Leaked], free - {f}, all, SetEntry(tables, Kernel, TEMP_VPN, Pte(true, prot, f)), pcbs)
    ensures LeakedFrames(own[f := Leaked]) == LeakedFrames(own) + {f}
  {
    var tables' := SetEntry(tables, Kernel, TEMP_VPN, Pte(true, prot, f));
    OneEntry(tables, pcbs, Kernel, TEMP_VPN, Pte(true, prot, f));
    SameBooked(own, free, all, tables, pcbs, tables', pcbs);
    forall s ensures Booked(own[f := Leaked], s, FrameAt(tables', pcbs, s)) {
      assert Booked(own, s, FrameAt(tables', pcbs, s));
    }
    assert own[f := Leaked].Keys == own.Keys + {f};
  }

  lemma EntryAccounted(own: map<int, Slot>, free: set<int>, all: set<int>, tables: Tables,
                       pcbs: map<Pid, Pcb>, t: Table, i: int, f: int, prot: set<Prot>)
    requires Accounted(own, free, all, tables, pcbs) && f in free && t in tables && 0 <= i < Reach(t)
    ensures var own' := BookEntry(own, tables, pcbs, t, i, f);
      && Accounted(own', free - {f}, all, SetEntry(tables, t, i, Pte(true, prot, f)), pcbs)
      && LeakedFrames(own') == LeakedFrames(own) + LostBy(t, i, tables[t][i], f)
  {
    if i < Slots(t) {
      MapAccounted(own, free, all, tables, pcbs, t, i, f, prot);
    } else {
      SpareAccounted(own, free, all, tables, pcbs, f, prot);
    }
  }

  /** freeFrame and invalidatePageTableEntry, booked */
  lemma UnmapAccounted(own: map<int, Slot>, free: set<int>, all: set<int>, tables: Tables,
                       pcbs: map<Pid, Pcb>, t: Table, i: int)
    requires Accounted(own, free, all, tables, pcbs)
    requires t in tables && 0 <= i < Slots(t) && i < MAX_PT_LEN && tables[t][i].valid
    ensures var f := tables[t][i].pfn;
      && f in own && f in all
      && Accounted(own - {f}, free + {f}, all, SetEntry(tables, t, i, tables[t][i].(valid := false)), pcbs)
      && LeakedFrames(own - {f}) == LeakedFrames(own)
  {
    var f := tables[t][i].pfn;
    assert Booked(own, Page(t, i), FrameAt(tables, pcbs, Page(t, i)));
    OneEntry(tables, pcbs, t, i, tables[t][i].(valid := false));
    DropBooked(own, tables, pcbs, SetEntry(tables, t, i, tables[t][i].(valid := false)), pcbs, Page(t, i), f);
    assert (own - {f}).Keys == own.Keys - {f};
  }
}
