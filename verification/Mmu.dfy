/** What the page tables, the MMU registers and the TLB have to agree on, as predicates on values. */
module Mmu {
  import opened Basics
  import opened Hardware
  import opened PageTables
  import opened Ownership

  /** Each process has a table of its own, and no two tables share memory. */
  ghost predicate TablesApart(ptbr0: int, tables: Tables, pcbs: map<Pid, Pcb>) {
    && Kernel in tables
    && (forall t :: t in tables <==> t == Kernel || t.pid in pcbs)
    && (forall p :: p in pcbs ==> Apart(ptbr0, pcbs[p].base) && |pcbs[p].stackPfns| == KERNEL_STACK_PAGES)
    && (forall p, q :: p in pcbs && q in pcbs && p != q ==> Apart(pcbs[p].base, pcbs[q].base))
  }

  /** A page table allocated at `base` overlaps none of the others. */
  ghost predicate RoomFor(ptbr0: int, pcbs: map<Pid, Pcb>, base: int) {
    Apart(ptbr0, base) && forall q :: q in pcbs ==> Apart(pcbs[q].base, base)
  }

  /** Every cached translation of a region 0 page is the page's entry. */
  ghost predicate Coherent0(tlb: map<int, Pte>, r0: PageTable) {
    forall v :: v in tlb && v < MAX_PT_LEN ==> 0 <= v && tlb[v] == r0[v] && tlb[v].valid
  }

  /** Every cached translation of a region 1 page is the page's entry in table `r1`. */
  ghost predicate Coherent1(tlb: map<int, Pte>, r1: PageTable) {
    forall v :: v in tlb && v >= MAX_PT_LEN ==>
      v - MAX_PT_LEN < MAX_PT_LEN && tlb[v] == r1[v - MAX_PT_LEN] && tlb[v].valid
  }

  /** The table in use, unless it has just been freed, is the one that the register and the TLB know. */
  ghost predicate InUse(tlb: map<int, Pte>, ptbr1: int, loaded: Pid, tables: Tables, pcbs: map<Pid, Pcb>) {
    loaded in pcbs ==>
      User(loaded) in tables && ptbr1 == pcbs[loaded].base && Coherent1(tlb, tables[User(loaded)])
  }

  /** What the page table code relies on, also in the middle of a context switch */
  ghost predicate Translating(tables: Tables, pcbs: map<Pid, Pcb>, tlb: map<int, Pte>,
                              ptbr0: int, ptbr1: int, loaded: Pid) {
    && TablesApart(ptbr0, tables, pcbs) && Apart(ptbr0, ptbr1)
    && Coherent0(tlb, tables[Kernel])
    && InUse(tlb, ptbr1, loaded, tables, pcbs)
  }

  /** The kernel stack in region 0 is this process's. */
  ghost predicate StackMapped(r0: PageTable, stackPfns: seq<int>) {
    && |stackPfns| == KERNEL_STACK_PAGES
    && forall v :: KERNEL_STACK_VPN <= v < MAX_PT_LEN ==>
         r0[v] == Pte(true, READ_WRITE, stackPfns[v - KERNEL_STACK_VPN])
  }

  /** Only the frames of a kernel stack have new contents. */
  ghost predicate StackWritten(n: int, stackPfns: seq<int>, contents: seq<Bytes>, ram: map<int, Bytes>,
                               ram': map<int, Bytes>) {
    && 0 <= n <= |stackPfns| == |contents| && ram'.Keys == ram.Keys
    && (forall k :: 0 <= k < n ==> stackPfns[k] in ram' && ram'[stackPfns[k]] == contents[k])
    && (forall f :: f in ram && f !in stackPfns ==> ram'[f] == ram[f])
  }

  lemma StackWrittenBy(n: int, stackPfns: seq<int>, contents: seq<Bytes>, ram: map<int, Bytes>, ram': map<int, Bytes>)
    requires StackWritten(n, stackPfns, contents, ram, ram') && n < |stackPfns| && NoDup(stackPfns)
    requires stackPfns[n] in ram
    ensures StackWritten(n + 1, stackPfns, contents, ram, ram'[stackPfns[n] := contents[n]])
  {
  }

  /** Loading another process's table and flushing region 1 */
  lemma LoadedTranslating(tables: Tables, pcbs: map<Pid, Pcb>, tlb: map<int, Pte>, ptbr0: int,
                          ptbr1: int, loaded: Pid, p: Pid, tlb': map<int, Pte>)
    requires Translating(tables, pcbs, tlb, ptbr0, ptbr1, loaded) && p in pcbs
    requires forall v :: v in tlb' ==> v in tlb && v < MAX_PT_LEN && tlb'[v] == tlb[v]
    ensures Translating(tables, pcbs, tlb', ptbr0, pcbs[p].base, p)
  {
    assert User(p) in tables;
    assert InUse(tlb', pcbs[p].base, p, tables, pcbs);
  }

  /** A new process with a table apart from the others' */
  lemma NewTranslating(tables: Tables, pcbs: map<Pid, Pcb>, tlb: map<int, Pte>, ptbr0: int,
                       ptbr1: int, loaded: Pid, p: Pid, pcb: Pcb)
    requires Translating(tables, pcbs, tlb, ptbr0, ptbr1, loaded) && loaded in pcbs && p !in pcbs
    requires |pcb.stackPfns| == KERNEL_STACK_PAGES && RoomFor(ptbr0, pcbs, pcb.base)
    ensures Translating(tables[User(p) := FreshTable()], pcbs[p := pcb], tlb, ptbr0, ptbr1, loaded)
  {
    var tables', pcbs' := tables[User(p) := FreshTable()], pcbs[p := pcb];
    assert InUse(tlb, ptbr1, loaded, tables', pcbs');
    assert TablesApart(ptbr0, tables', pcbs');
  }

  /** A process whose table is not in use may go. */
  lemma GoneTranslating(tables: Tables, pcbs: map<Pid, Pcb>, tlb: map<int, Pte>, ptbr0: int,
                        ptbr1: int, loaded: Pid, p: Pid)
    requires Translating(tables, pcbs, tlb, ptbr0, ptbr1, loaded) && p != loaded
    ensures Translating(tables - {User(p)}, pcbs - {p}, tlb, ptbr0, ptbr1, loaded)
  {
    assert InUse(tlb, ptbr1, loaded, tables - {User(p)}, pcbs - {p});
    assert TablesApart(ptbr0, tables - {User(p)}, pcbs - {p});
  }

  /** The running process may go; its table is in nobody's use then. */
  lemma EndedTranslating(tables: Tables, pcbs: map<Pid, Pcb>, tlb: map<int, Pte>, ptbr0: int,
                         ptbr1: int, loaded: Pid)
    requires Translating(tables, pcbs, tlb, ptbr0, ptbr1, loaded)
    ensures Translating(tables - {User(loaded)}, pcbs - {loaded}, tlb, ptbr0, ptbr1, loaded)
  {
    assert TablesApart(ptbr0, tables - {User(loaded)}, pcbs - {loaded});
  }

  function PageOf(t: Table, i: int): int {
    if t.Kernel? then i else MAX_PT_LEN + i
  }

  /** An entry of a table in use may change if the page is then flushed. */
  lemma FlushedTranslating(tables: Tables, pcbs: map<Pid, Pcb>, tlb: map<int, Pte>, ptbr0: int,
                           ptbr1: int, loaded: Pid, t: Table, i: int, pte: Pte)
    requires Translating(tables, pcbs, tlb, ptbr0, ptbr1, loaded)
    requires 0 <= i < MAX_PT_LEN && (t == Kernel || (t == User(loaded) && loaded in pcbs))
    ensures t in tables
    ensures Translating(SetEntry(tables, t, i, pte), pcbs, tlb - {PageOf(t, i)}, ptbr0, ptbr1, loaded)
  {
    assert t in tables;
    var tables' := SetEntry(tables, t, i, pte);
    assert InUse(tlb - {PageOf(t, i)}, ptbr1, loaded, tables', pcbs);
  }

  /** An entry of a table not in use may change without a flush. */
  lemma UnloadedTranslating(tables: Tables, pcbs: map<Pid, Pcb>, tlb: map<int, Pte>, ptbr0: int,
                            ptbr1: int, loaded: Pid, p: Pid, i: int, pte: Pte)
    requires Translating(tables, pcbs, tlb, ptbr0, ptbr1, loaded)
    requires 0 <= i < MAX_PT_LEN && p in pcbs && p != loaded
    ensures User(p) in tables
    ensures Translating(SetEntry(tables, User(p), i, pte), pcbs, tlb, ptbr0, ptbr1, loaded)
  {
    assert User(p) in tables;
  }

  /** What a TLB miss caches is the entry. */
  lemma CachedTranslating(tables: Tables, pcbs: map<Pid, Pcb>, tlb: map<int, Pte>, ptbr0: int,
                          ptbr1: int, loaded: Pid, t: Table, i: int)
    requires Translating(tables, pcbs, tlb, ptbr0, ptbr1, loaded)
    requires 0 <= i < MAX_PT_LEN && t in tables && (t == Kernel || t == User(loaded)) && tables[t][i].valid
    ensures Translating(tables, pcbs, tlb[PageOf(t, i) := tables[t][i]], ptbr0, ptbr1, loaded)
  {
    assert InUse(tlb[PageOf(t, i) := tables[t][i]], ptbr1, loaded, tables, pcbs);
  }
}
