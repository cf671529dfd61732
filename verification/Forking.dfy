/** What KernelFork has copied, on values. */
module Forking {
  import opened Basics
  import opened Hardware
  import opened PageTables
  import opened Ownership
  import opened Mmu
  import opened Layout
  import opened Lifetimes

  /** The child's page is like the parent's, in a frame that was free. */
  ghost predicate CopiedPage(e: Pte, e': Pte, free: set<int>, ram: map<int, Bytes>, ram': map<int, Bytes>) {
    if e.valid then
      && e'.valid && e'.prot == e.prot && e'.pfn in free
      && e.pfn in ram && e'.pfn in ram' && ram'[e'.pfn] == ram[e.pfn]
    else !e'.valid
  }

  ghost predicate CopiedPages(n: int, t: PageTable, t': PageTable, free: set<int>, ram: map<int, Bytes>,
                              ram': map<int, Bytes>) {
    forall i :: 0 <= i < n && i < MAX_PT_LEN ==> CopiedPage(t[i], t'[i], free, ram, ram')
  }

  /** No frame that was in use has changed. */
  ghost predicate OldFramesKeep(free: set<int>, ram: map<int, Bytes>, ram': map<int, Bytes>) {
    ram'.Keys == ram.Keys && forall f :: f in ram && f !in free ==> ram'[f] == ram[f]
  }

  /** Only the child's table and the entry of the spare page have changed. */
  ghost predicate OthersKeepTables(tables: Tables, tables': Tables, child: Pid) {
    && tables'.Keys == tables.Keys && Kernel in tables
    && (forall t :: t in tables && t != Kernel && t != User(child) ==> tables'[t] == tables[t])
    && SameOutside(tables[Kernel], tables'[Kernel], TEMP_VPN, TEMP_VPN + 1)
  }

  /** The first `n` pages of the parent have been copied, and the child has used what is gone from the free frames. */
  ghost predicate Forked(n: int, parent: Pid, child: Pid, tables: Tables, free: set<int>, ram: map<int, Bytes>,
                         leaked: set<int>, tables': Tables, free': set<int>, ram': map<int, Bytes>, leaked': set<int>) {
    && 0 <= n <= MAX_PT_LEN && parent != child && User(parent) in tables && User(child) in tables
    && OthersKeepTables(tables, tables', child)
    && CopiedPages(n, tables[User(parent)], tables'[User(child)], free, ram, ram')
    && UnmappedIn(tables'[User(child)], n, MAX_PT_LEN)
    && OldFramesKeep(free, ram, ram')
    && FramesIn(tables'[User(child)], 0, n) !! free'
    && free == free' + FramesIn(tables'[User(child)], 0, n)
    && leaked' == leaked
  }

  /** Both entries that one round of the copying loop sets */
  function SetForkEntries(tables: Tables, child: Pid, i: int, pte: Pte): Tables
    requires Kernel in tables && User(child) in tables && 0 <= i < MAX_PT_LEN
  {
    SetEntry(SetEntry(tables, Kernel, TEMP_VPN, Pte(true, {Write}, pte.pfn)), User(child), i, pte)
  }

  /** The kernel stack in place is not touched, nor is any table but the child's and the kernel's. */
  lemma ForkEntriesKeep(tables: Tables, child: Pid, i: int, pte: Pte, stackPfns: seq<int>, tables': Tables)
    requires Kernel in tables && User(child) in tables && 0 <= i < MAX_PT_LEN && StackMapped(tables[Kernel], stackPfns)
    requires tables' == SetForkEntries(tables, child, i, pte)
    ensures tables'.Keys == tables.Keys && StackMapped(tables'[Kernel], stackPfns) && tables'[User(child)][i] == pte
  {
  }

  lemma ForkPageAccounted(own: map<int, Slot>, free: set<int>, all: set<int>, tables: Tables,
                          pcbs: map<Pid, Pcb>, child: Pid, i: int, f: int, prot: set<Prot>,
                          own': map<int, Slot>, free': set<int>, tables': Tables)
    requires Accounted(own, free, all, tables, pcbs) && f in free && Kernel in tables
    requires User(child) in tables && 0 <= i < MAX_PT_LEN && !tables[User(child)][i].valid
    requires own' == Take(own, None, Page(User(child), i), f) && free' == free - {f}
    requires tables' == SetForkEntries(tables, child, i, Pte(true, prot, f))
    ensures Accounted(own', free', all, tables', pcbs) && LeakedFrames(own') == LeakedFrames(own)
  {
    var temp := Pte(true, {Write}, f);
    OneEntry(tables, pcbs, Kernel, TEMP_VPN, temp);
    SameBooked(own, free, all, tables, pcbs, SetEntry(tables, Kernel, TEMP_VPN, temp), pcbs);
    MapAccounted(own, free, all, SetEntry(tables, Kernel, TEMP_VPN, temp), pcbs, User(child), i, f, prot);
  }

  lemma ForkedBy(at: int, n: int, parent: Pid, child: Pid, tables: Tables, free: set<int>,
                 ram: map<int, Bytes>, leaked: set<int>, tables': Tables, free': set<int>,
                 ram': map<int, Bytes>, leaked': set<int>, f: int, tables'': Tables, free'': set<int>,
                 ram'': map<int, Bytes>, leaked'': set<int>)
    requires Forked(at, parent, child, tables, free, ram, leaked, tables', free', ram', leaked')
    requires n == at + 1 <= MAX_PT_LEN && User(parent) in tables && User(child) in tables' && Kernel in tables'
    requires var e := tables[User(parent)][at];
      && e.valid && f in free' && e.pfn in ram && e.pfn in ram' && e.pfn !in free && f in ram
      && tables'' == SetForkEntries(tables', child, at, Pte(true, e.prot, f))
      && free'' == free' - {f} && ram'' == ram'[f := ram'[e.pfn]] && leaked'' == leaked'
    ensures Forked(n, parent, child, tables, free, ram, leaked, tables'', free'', ram'', leaked'')
    ensures User(parent) in tables'' && tables''[User(parent)] == tables[User(parent)]
    ensures Mapped(tables[User(parent)], 0, n) == Mapped(tables[User(parent)], 0, at) + 1
  {
    var e := tables[User(parent)][at];
    var pte := Pte(true, e.prot, f);
    assert tables''[User(child)] == tables'[User(child)][at := pte];
    FramesInSame(tables'[User(child)], tables''[User(child)], 0, at);
    StillCopied(at, tables[User(parent)], tables'[User(child)], free, ram, ram', f, ram'[e.pfn], tables''[User(child)],
      free');
  }

  /** The parent's pages are in frames that exist and were not free. */
  ghost predicate OldPagesInUse(t: PageTable, free: set<int>, ram: map<int, Bytes>) {
    forall i :: 0 <= i < MAX_PT_LEN && t[i].valid ==> t[i].pfn in ram && t[i].pfn !in free
  }

  lemma PagesInUse(own: map<int, Slot>, free: set<int>, all: set<int>, tables: Tables, pcbs: map<Pid, Pcb>, p: Pid,
                   ram: map<int, Bytes>)
    requires Accounted(own, free, all, tables, pcbs) && User(p) in tables && ram.Keys == all
    ensures OldPagesInUse(tables[User(p)], free, ram)
  {
    forall i | 0 <= i < MAX_PT_LEN && tables[User(p)][i].valid
      ensures tables[User(p)][i].pfn in ram && tables[User(p)][i].pfn !in free
    {
      PageInUse(own, free, all, tables, pcbs, User(p), i);
    }
  }

  lemma ForkedOver(at: int, n: int, parent: Pid, child: Pid, tables: Tables, free: set<int>,
                   ram: map<int, Bytes>, leaked: set<int>, tables': Tables, free': set<int>,
                   ram': map<int, Bytes>, leaked': set<int>)
    requires Forked(at, parent, child, tables, free, ram, leaked, tables', free', ram', leaked')
    requires n == at + 1 <= MAX_PT_LEN && User(parent) in tables && !tables[User(parent)][at].valid
    ensures Forked(n, parent, child, tables, free, ram, leaked, tables', free', ram', leaked')
    ensures Mapped(tables[User(parent)], 0, n) == Mapped(tables[User(parent)], 0, at)
  {
  }

  lemma StillCopied(n: int, t: PageTable, t': PageTable, free: set<int>, ram: map<int, Bytes>,
                    ram': map<int, Bytes>, f: int, bytes: Bytes, t'': PageTable, free': set<int>)
    requires CopiedPages(n, t, t', free, ram, ram') && 0 <= n <= MAX_PT_LEN
    requires f in free' && FramesIn(t', 0, n) !! free'
    requires forall i :: 0 <= i < n ==> t''[i] == t'[i]
    ensures CopiedPages(n, t, t'', free, ram, ram'[f := bytes])
  {
    forall i | 0 <= i < n ensures CopiedPage(t[i], t''[i], free, ram, ram'[f := bytes]) {
      assert CopiedPage(t[i], t'[i], free, ram, ram');
      InFramesIn(t', 0, n, t'[i].pfn);
    }
  }

  /** Pages from `n` on that are not mapped hold no frames. */
  lemma {:induction false} FramesInPrefix(t: PageTable, n: int, m: int)
    requires 0 <= n <= m <= MAX_PT_LEN && UnmappedIn(t, n, MAX_PT_LEN)
    ensures FramesIn(t, 0, m) == FramesIn(t, 0, n)
    decreases m
  {
    if n < m { FramesInPrefix(t, n, m - 1); }
  }

  lemma NothingForked(parent: Pid, child: Pid, tables: Tables, free: set<int>, ram: map<int, Bytes>,
                      leaked: set<int>)
    requires Kernel in tables && User(parent) in tables && User(child) in tables && parent != child
    requires UnmappedIn(tables[User(child)], 0, MAX_PT_LEN)
    ensures Forked(0, parent, child, tables, free, ram, leaked, tables, free, ram, leaked)
  {
  }

  /** A page of a process is in a frame that is not free. */
  lemma PageInUse(own: map<int, Slot>, free: set<int>, all: set<int>, tables: Tables,
                  pcbs: map<Pid, Pcb>, t: Table, i: int)
    requires Accounted(own, free, all, tables, pcbs) && t in tables && 0 <= i < Slots(t) && i < MAX_PT_LEN
    requires tables[t][i].valid
    ensures tables[t][i].pfn in all && tables[t][i].pfn !in free
  {
    OneOwner(own, free, all, tables, pcbs, Page(t, i), Page(t, i));
  }

  /**
   The kernel table in the middle of forkTo: the first `n` stack pages are the child's, the spare
   page is anyone's.
   */
  ghost predicate ForkingStack(n: int, r0: PageTable, stackPfns: seq<int>, r0': PageTable) {
    && 0 <= n <= |stackPfns| == KERNEL_STACK_PAGES
    && forall v :: 0 <= v < MAX_PT_LEN && v != TEMP_VPN ==>
         r0'[v] == if KERNEL_STACK_VPN <= v < KERNEL_STACK_VPN + n
                   then Pte(true, READ_WRITE, stackPfns[v - KERNEL_STACK_VPN]) else r0[v]
  }

  ghost predicate ForkingTables(n: int, tables: Tables, stackPfns: seq<int>, tables': Tables) {
    Only(Kernel, tables, tables') && ForkingStack(n, tables[Kernel], stackPfns, tables'[Kernel])
  }

  lemma ForkingBy(n: int, tables: Tables, stackPfns: seq<int>, tables': Tables)
    requires ForkingTables(n, tables, stackPfns, tables') && n < KERNEL_STACK_PAGES
    ensures ForkingTables(n + 1, tables, stackPfns,
      SetEntry(SetEntry(tables', Kernel, TEMP_VPN, Pte(true, {Write}, stackPfns[n])),
               Kernel, KERNEL_STACK_VPN + n, Pte(true, READ_WRITE, stackPfns[n])))
  {
  }

  /** All of the stack copied and the spare page unmapped */
  lemma ForkedStack(n: int, tables: Tables, stackPfns: seq<int>, tables': Tables, tables'': Tables)
    requires n == KERNEL_STACK_PAGES && ForkingTables(n, tables, stackPfns, tables') && Kernel in tables'
    requires tables'' == SetEntry(tables', Kernel, TEMP_VPN, INVALID)
    ensures Only(Kernel, tables, tables'') && StackMapped(tables''[Kernel], stackPfns)
    ensures SameOutside(tables[Kernel], tables''[Kernel], TEMP_VPN, MAX_PT_LEN)
  {
  }

  /** Running the child on its stack leaves the heaps and the terminals' buffers where they are. */
  lemma RunKeeps(tables: Tables, tables': Tables, tables'': Tables, pcbs: map<Pid, Pcb>, kernelBrk: int, bufferPfn: int)
    requires HeapsMapped(tables, pcbs, {}) && Kernel in tables && KernelMapped(tables[Kernel], kernelBrk, bufferPfn)
    requires tables' == SetEntry(tables, Kernel, TEMP_VPN, INVALID) && Only(Kernel, tables', tables'')
    requires SameOutside(tables'[Kernel], tables''[Kernel], TEMP_VPN, MAX_PT_LEN)
    ensures Only(Kernel, tables, tables'') && HeapsMapped(tables'', pcbs, {})
    ensures KernelMapped(tables''[Kernel], kernelBrk, bufferPfn)
  {
  }

  /** The contents of a process's kernel stack */
  ghost function StackContents(stackPfns: seq<int>, ram: map<int, Bytes>): (r: seq<Bytes>)
    requires forall k :: 0 <= k < |stackPfns| ==> stackPfns[k] in ram
    ensures |r| == |stackPfns| && forall k :: 0 <= k < |stackPfns| ==> r[k] == ram[stackPfns[k]]
  {
    seq(|stackPfns|, k requires 0 <= k < |stackPfns| => ram[stackPfns[k]])
  }

  /** Two processes have no stack frame in common. */
  lemma StacksApart(own: map<int, Slot>, tables: Tables, pcbs: map<Pid, Pcb>, p: Pid, q: Pid, k: int)
    requires Ledger(own, tables, pcbs) && p in pcbs && q in pcbs && p != q && 0 <= k < |pcbs[p].stackPfns|
    ensures pcbs[p].stackPfns[k] !in pcbs[q].stackPfns
  {
    var f := pcbs[p].stackPfns[k];
    assert Booked(own, KernelStack(p, k), FrameAt(tables, pcbs, KernelStack(p, k)));
    forall j | 0 <= j < |pcbs[q].stackPfns| ensures pcbs[q].stackPfns[j] != f {
      assert Booked(own, KernelStack(q, j), FrameAt(tables, pcbs, KernelStack(q, j)));
    }
  }

  /** The child's memory below its break is mapped because the parent's is. */
  lemma ForkKeepsHeaps(parent: Pid, child: Pid, tables: Tables, free: set<int>, ram: map<int, Bytes>,
                       leaked: set<int>, tables': Tables, free': set<int>, ram': map<int, Bytes>,
                       leaked': set<int>, pcbs: map<Pid, Pcb>, pcb: Pcb)
    requires Forked(MAX_PT_LEN, parent, child, tables, free, ram, leaked, tables', free', ram', leaked')
    requires HeapsMapped(tables, pcbs, {child}) && parent in pcbs && pcb.brk == pcbs[parent].brk
    requires child in pcbs && pcbs[child] == pcb
    ensures HeapsMapped(tables', pcbs, {})
  {
    assert HeapMapped(tables[User(parent)], pcb.brk);
    forall i | 0 <= i < MAX_PT_LEN && tables[User(parent)][i].valid ensures tables'[User(child)][i].valid {
      assert CopiedPage(tables[User(parent)][i], tables'[User(child)][i], free, ram, ram');
    }
    assert HeapMapped(tables'[User(child)], pcb.brk);
  }

  /**
   When frames run out in the loop: without the child all is as before, and the child's frames are
   all that were free.
   */
  lemma ForkForgotten(n: int, parent: Pid, child: Pid, tables: Tables, free: set<int>, ram: map<int, Bytes>,
                      leaked: set<int>, tables': Tables, ram': map<int, Bytes>, leaked': set<int>,
                      pcbs: map<Pid, Pcb>, kernelBrk: int, bufferPfn: int)
    requires Forked(n, parent, child, tables, free, ram, leaked, tables', {}, ram', leaked')
    requires HeapsMapped(tables, pcbs, {child}) && child in pcbs
    requires Kernel in tables && KernelMapped(tables[Kernel], kernelBrk, bufferPfn)
    ensures HeapsMapped(tables' - {User(child)}, pcbs - {child}, {})
    ensures Kernel in tables' && KernelMapped(tables'[Kernel], kernelBrk, bufferPfn)
    ensures OthersKeepTables(tables - {User(child)}, tables' - {User(child)}, child) && OldFramesKeep(free, ram, ram')
    ensures User(child) in tables' && FramesOf(tables', pcbs, child) == free + StackFrames(pcbs[child])
  {
    FramesInPrefix(tables'[User(child)], n, MAX_PT_LEN);
  }

  /** What the copies hold does not change when the child gets the parent's kernel stack. */
  lemma CopiesSurvive(t: PageTable, t': PageTable, free: set<int>, ram: map<int, Bytes>,
                      ram': map<int, Bytes>, ram'': map<int, Bytes>)
    requires CopiedPages(MAX_PT_LEN, t, t', free, ram, ram')
    requires forall i :: 0 <= i < MAX_PT_LEN && t'[i].valid && t'[i].pfn in ram' ==>
               t'[i].pfn in ram'' && ram''[t'[i].pfn] == ram'[t'[i].pfn]
    ensures CopiedPages(MAX_PT_LEN, t, t', free, ram, ram'')
  {
    forall i | 0 <= i < MAX_PT_LEN ensures CopiedPage(t[i], t'[i], free, ram, ram'') {
      assert CopiedPage(t[i], t'[i], free, ram, ram');
    }
  }

  /** The child has the intervals of its parent. */
  lemma ForkIntervals(t: PageTable, t': PageTable, free: set<int>, ram: map<int, Bytes>, ram': map<int, Bytes>,
                      heap: int, stack: int)
    requires CopiedPages(MAX_PT_LEN, t, t', free, ram, ram')
    ensures TwoIntervals(t', heap, stack) <==> TwoIntervals(t, heap, stack)
  {
    forall i | 0 <= i < MAX_PT_LEN ensures t'[i].valid == t[i].valid {
      assert CopiedPage(t[i], t'[i], free, ram, ram');
    }
  }

  lemma MoreFree(n: int, t: PageTable, t': PageTable, free: set<int>, free': set<int>,
                 ram: map<int, Bytes>, ram': map<int, Bytes>)
    requires CopiedPages(n, t, t', free, ram, ram') && free <= free'
    ensures CopiedPages(n, t, t', free', ram, ram')
  {
    forall i | 0 <= i < n && i < MAX_PT_LEN ensures CopiedPage(t[i], t'[i], free', ram, ram') {
      assert CopiedPage(t[i], t'[i], free, ram, ram');
    }
  }

  /** What a fork gives: a copy of the parent in frames that were free, and nothing else in memory changed. */
  ghost predicate Copied(parent: Pid, child: Pid, tables: Tables, pcbs: map<Pid, Pcb>, free: set<int>,
                         ram: map<int, Bytes>,
                         tables': Tables, pcbs': map<Pid, Pcb>, ram': map<int, Bytes>) {
    && User(parent) in tables && User(child) in tables' && parent in pcbs && child in pcbs'
    && pcbs' == pcbs[child := pcbs'[child]] && pcbs'[child].brk == pcbs[parent].brk
    && CopiedPages(MAX_PT_LEN, tables[User(parent)], tables'[User(child)], free, ram, ram')
    && CopiedStack(pcbs[parent].stackPfns, pcbs'[child].stackPfns, free, ram, ram')
    && OldFramesKeep(free, ram, ram')
    && (forall q :: User(q) in tables ==> User(q) in tables' && tables'[User(q)] == tables[User(q)])
  }

  ghost predicate CopiedStack(stack: seq<int>, stack': seq<int>, free: set<int>, ram: map<int, Bytes>,
                              ram': map<int, Bytes>) {
    |stack'| == |stack| && forall k :: 0 <= k < |stack| ==>
      stack'[k] in free && stack'[k] in ram' && stack[k] in ram && ram'[stack'[k]] == ram[stack[k]]
  }

  /** The child has its kernel stack and an empty region 1. */
  ghost predicate MadeChild(parent: Pid, child: Pid, tables: Tables, pcbs: map<Pid, Pcb>, free: set<int>,
                            tables': Tables, pcbs': map<Pid, Pcb>, free': set<int>) {
    && NewPcb(tables, pcbs, child) && tables' == tables[User(child) := FreshTable()]
    && User(parent) in tables && parent in pcbs && child in pcbs' && pcbs' == pcbs[child := pcbs'[child]]
    && pcbs'[child].brk == pcbs[parent].brk
    && |pcbs[parent].stackPfns| == |pcbs'[child].stackPfns| == KERNEL_STACK_PAGES
    && Elements(pcbs'[child].stackPfns) <= free && free' == free - Elements(pcbs'[child].stackPfns)
  }

  /** Copying the pages and then the kernel stack makes a copy of the parent. */
  lemma CopiedByFork(parent: Pid, child: Pid, tables: Tables, pcbs: map<Pid, Pcb>, free: set<int>,
                     ram: map<int, Bytes>, leaked: set<int>, tables1: Tables, free1: set<int>,
                     tables2: Tables, free2: set<int>, ram2: map<int, Bytes>, leaked2: set<int>,
                     tables': Tables, pcbs': map<Pid, Pcb>, ram': map<int, Bytes>)
    requires MadeChild(parent, child, tables, pcbs, free, tables1, pcbs', free1)
    requires Forked(MAX_PT_LEN, parent, child, tables1, free1, ram, leaked, tables2, free2, ram2, leaked2)
    requires Only(Kernel, tables2, tables')
    requires forall k :: 0 <= k < |pcbs[parent].stackPfns| ==>
      pcbs[parent].stackPfns[k] in ram && pcbs[parent].stackPfns[k] in ram2 && pcbs[parent].stackPfns[k] !in free
    requires StackWritten(KERNEL_STACK_PAGES, pcbs'[child].stackPfns, StackContents(pcbs[parent].stackPfns, ram2),
      ram2, ram')
    ensures Copied(parent, child, tables, pcbs, free, ram, tables', pcbs', ram')
  {
    var stack := pcbs'[child].stackPfns;
    MoreFree(MAX_PT_LEN, tables1[User(parent)], tables2[User(child)], free1, free, ram, ram2);
    forall i | 0 <= i < MAX_PT_LEN && tables2[User(child)][i].valid ensures tables2[User(child)][i].pfn !in stack {
      assert CopiedPage(tables1[User(parent)][i], tables2[User(child)][i], free1, ram, ram2);
    }
    CopiesSurvive(tables[User(parent)], tables2[User(child)], free, ram, ram2, ram');
    forall k | 0 <= k < |stack|
      ensures stack[k] in free && stack[k] in ram' && ram'[stack[k]] == ram[pcbs[parent].stackPfns[k]]
    {
      assert stack[k] in Elements(stack);
      var f := pcbs[parent].stackPfns[k];
      assert f !in free1 && ram2[f] == ram[f];
      assert ram'[stack[k]] == StackContents(pcbs[parent].stackPfns, ram2)[k];
    }
    forall f | f in ram && f !in free ensures ram'[f] == ram[f] {
      assert f in stack ==> f in Elements(stack);
    }
  }

  /** Forgetting the child again undoes its making, but for the frames it had. */
  lemma ForgottenChild(parent: Pid, child: Pid, tables: Tables, pcbs: map<Pid, Pcb>, free: set<int>,
                       tables1: Tables, pcbs1: map<Pid, Pcb>, free1: set<int>)
    requires MadeChild(parent, child, tables, pcbs, free, tables1, pcbs1, free1)
    ensures tables1 - {User(child)} == tables && pcbs1 - {child} == pcbs
    ensures free1 + StackFrames(pcbs1[child]) == free
  {
    StackFramesAre(pcbs1[child]);
  }

  /**
   What a fork does to a kernel break that has reached the spare page: the kernel's topmost
   heap page becomes the child's page, and the frame it had is in no slot and no entry of
   the spare page any more.
   */
  lemma ForkOverHeap(own: map<int, Slot>, tables: Tables, pcbs: map<Pid, Pcb>, child: Pid, i: int, pte: Pte)
    requires Ledger(own, tables, pcbs) && Kernel in tables && User(child) in tables && 0 <= i < MAX_PT_LEN && pte.valid
    requires tables[Kernel][TEMP_VPN].pfn in own && own[tables[Kernel][TEMP_VPN].pfn] == Leaked
    requires pte.pfn != tables[Kernel][TEMP_VPN].pfn
    ensures var tables' := SetForkEntries(tables, child, i, pte); var f := tables[Kernel][TEMP_VPN].pfn;
      && tables'[Kernel][TEMP_VPN].pfn == tables'[User(child)][i].pfn
      && tables'[Kernel][TEMP_VPN].pfn != f
      && forall s :: FrameAt(tables', pcbs, s) != Some(f)
  {
    var f := tables[Kernel][TEMP_VPN].pfn;
    forall s ensures FrameAt(SetForkEntries(tables, child, i, pte), pcbs, s) != Some(f) {
      assert Booked(own, s, FrameAt(tables, pcbs, s));
      OneEntry(tables, pcbs, Kernel, TEMP_VPN, Pte(true, {Write}, pte.pfn));
      OneEntry(SetEntry(tables, Kernel, TEMP_VPN, Pte(true, {Write}, pte.pfn)), pcbs, User(child), i, pte);
    }
  }
}
