/** The shape of an address space: which pages of a table are mapped, and to which frames. */
module Layout {
  import opened Basics
  import opened Hardware
  import opened PageTables
  import opened Ownership
  import opened Mmu

  ghost predicate MappedIn(t: PageTable, lo: int, hi: int) {
    forall i :: lo <= i < hi && 0 <= i < MAX_PT_LEN ==> t[i].valid
  }

  ghost predicate UnmappedIn(t: PageTable, lo: int, hi: int) {
    forall i :: lo <= i < hi && 0 <= i < MAX_PT_LEN ==> !t[i].valid
  }

  ghost predicate SameOutside(t: PageTable, t': PageTable, lo: int, hi: int) {
    forall i :: 0 <= i < MAX_PT_LEN && !(lo <= i < hi) ==> t'[i] == t[i]
  }

  ghost predicate AllProt(t: PageTable, lo: int, hi: int, prot: set<Prot>) {
    forall i :: lo <= i < hi && 0 <= i < MAX_PT_LEN ==> t[i].valid && t[i].prot == prot
  }

  /** The pages from the bottom of region 1 up to a break */
  function HeapPages(brk: int): int {
    PagesBelow(brk) - MAX_PT_LEN
  }

  /** All of the memory below a process's break is mapped. */
  ghost predicate HeapMapped(r1: PageTable, brk: int) {
    0 <= HeapPages(brk) <= MAX_PT_LEN && MappedIn(r1, 0, HeapPages(brk))
  }

  ghost predicate HeapsMapped(tables: Tables, pcbs: map<Pid, Pcb>, except: set<Pid>) {
    forall p :: p in pcbs && p !in except ==> User(p) in tables && HeapMapped(tables[User(p)], pcbs[p].brk)
  }

  ghost predicate KernelHeapMapped(r0: PageTable, kernelBrk: int) {
    0 <= PagesBelow(kernelBrk) <= BUFFER_VPN && MappedIn(r0, 0, PagesBelow(kernelBrk))
  }

  /** The kernel's heap is mapped and ends below the terminals' buffers, which are in their frame. */
  ghost predicate KernelMapped(r0: PageTable, kernelBrk: int, bufferPfn: int) {
    KernelHeapMapped(r0, kernelBrk) && r0[BUFFER_VPN] == Pte(true, READ_WRITE, bufferPfn)
  }

  lemma BuffersMapped(r0: PageTable, r0': PageTable, kernelBrk: int, bufferPfn: int, lo: int)
    requires 0 <= PagesBelow(kernelBrk) <= BUFFER_VPN && r0' == r0[BUFFER_VPN := Pte(true, READ_WRITE, bufferPfn)]
    requires UnmappedIn(r0, lo, KERNEL_STACK_VPN)
    ensures KernelMapped(r0', kernelBrk, bufferPfn) <==> KernelHeapMapped(r0, kernelBrk)
    ensures UnmappedIn(r0', lo, BUFFER_VPN)
  {
    assert forall i :: 0 <= i < PagesBelow(kernelBrk) ==> r0'[i] == r0[i];
  }

  /** How many pages from `lo` to `hi` are mapped */
  ghost function Mapped(t: PageTable, lo: int, hi: int): nat
    requires 0 <= lo && hi <= MAX_PT_LEN
    decreases hi - lo
  {
    if hi <= lo then 0 else Mapped(t, lo, hi - 1) + (if t[hi - 1].valid then 1 else 0)
  }

  /** The frames that pages `lo` to `hi` of a table map */
  ghost function FramesIn(t: PageTable, lo: int, hi: int): set<int>
    requires 0 <= lo && hi <= MAX_PT_LEN
    decreases hi - lo
  {
    if hi <= lo then {}
    else FramesIn(t, lo, hi - 1) + (if t[hi - 1].valid then {t[hi - 1].pfn} else {})
  }

  lemma {:induction false} InFramesIn(t: PageTable, lo: int, hi: int, f: int)
    requires 0 <= lo && hi <= MAX_PT_LEN
    ensures f in FramesIn(t, lo, hi) <==> exists i :: lo <= i < hi && t[i].valid && t[i].pfn == f
    decreases hi - lo
  {
    if lo < hi { InFramesIn(t, lo, hi - 1, f); }
  }

  ghost function StackFrames(pcb: Pcb): set<int> {
    set k | 0 <= k < |pcb.stackPfns| :: pcb.stackPfns[k]
  }

  ghost function FramesOf(tables: Tables, pcbs: map<Pid, Pcb>, p: Pid): set<int>
    requires p in pcbs && User(p) in tables
  {
    FramesIn(tables[User(p)], 0, MAX_PT_LEN) + StackFrames(pcbs[p])
  }

  ghost predicate SameBytes(frames: set<int>, ram: map<int, Bytes>, ram': map<int, Bytes>) {
    forall f :: f in frames && f in ram ==> f in ram' && ram'[f] == ram[f]
  }

  /** Pages `lo` to `hi` of `t` each get a frame that was free. */
  ghost predicate Grown(t: PageTable, t': PageTable, lo: int, hi: int, free: set<int>, free': set<int>) {
    && 0 <= lo <= hi <= MAX_PT_LEN
    && SameOutside(t, t', lo, hi) && AllProt(t', lo, hi, READ_WRITE)
    && FramesIn(t', lo, hi) <= free && free' == free - FramesIn(t', lo, hi)
  }

  /** Pages `lo` to `hi` of `t` each give their frame back. */
  ghost predicate Shrunk(t: PageTable, t': PageTable, lo: int, hi: int, free: set<int>, free': set<int>) {
    && 0 <= lo <= hi <= MAX_PT_LEN
    && SameOutside(t, t', lo, hi) && UnmappedIn(t', lo, hi)
    && FramesIn(t, lo, hi) !! free && free' == free + FramesIn(t, lo, hi)
  }

  lemma GrownBy(t: PageTable, t': PageTable, lo: int, i: int, free: set<int>, free': set<int>, f: int)
    requires Grown(t, t', lo, i, free, free') && i < MAX_PT_LEN && f in free'
    ensures Grown(t, t'[i := Pte(true, READ_WRITE, f)], lo, i + 1, free, free' - {f})
  {
    FramesInSame(t', t'[i := Pte(true, READ_WRITE, f)], lo, i);
  }

  lemma {:induction false} FramesInSame(t: PageTable, t': PageTable, lo: int, hi: int)
    requires 0 <= lo && hi <= MAX_PT_LEN
    requires forall i :: lo <= i < hi ==> t'[i] == t[i]
    ensures FramesIn(t', lo, hi) == FramesIn(t, lo, hi)
    decreases hi - lo
  {
    if lo < hi { FramesInSame(t, t', lo, hi - 1); }
  }

  lemma ShrunkBy(t: PageTable, t': PageTable, lo: int, i: int, free: set<int>, free': set<int>)
    requires Shrunk(t, t', lo, i, free, free') && i < MAX_PT_LEN && t'[i].valid && t'[i].pfn !in free'
    ensures Shrunk(t, t'[i := t'[i].(valid := false)], lo, i + 1, free, free' + {t'[i].pfn})
  {
  }

  /** `tables'` differs from `tables` in table `t` only. */
  ghost predicate Only(t: Table, tables: Tables, tables': Tables) {
    t in tables && t in tables' && tables' == tables[t := tables'[t]]
  }

  /** The first `n` pages of the kernel stack in region 0 are this process's, the others those of `r0`. */
  ghost predicate StackMappedTo(n: int, r0: PageTable, stackPfns: seq<int>, r0': PageTable) {
    && 0 <= n <= |stackPfns| == KERNEL_STACK_PAGES
    && forall v :: 0 <= v < MAX_PT_LEN ==>
         r0'[v] == if KERNEL_STACK_VPN <= v < KERNEL_STACK_VPN + n
                   then Pte(true, READ_WRITE, stackPfns[v - KERNEL_STACK_VPN]) else r0[v]
  }

  ghost predicate SwitchedTables(n: int, tables: Tables, stackPfns: seq<int>, tables': Tables) {
    Only(Kernel, tables, tables') && StackMappedTo(n, tables[Kernel], stackPfns, tables'[Kernel])
  }

  lemma SwitchedBy(k: int, n: int, tables: Tables, stackPfns: seq<int>, tables': Tables, tables'': Tables)
    requires n == k + 1 <= KERNEL_STACK_PAGES && SwitchedTables(k, tables, stackPfns, tables') && Kernel in tables'
    requires tables'' == SetEntry(tables', Kernel, KERNEL_STACK_VPN + k, Pte(true, READ_WRITE, stackPfns[k]))
    ensures SwitchedTables(n, tables, stackPfns, tables'')
  {
  }

  lemma Switched(n: int, tables: Tables, stackPfns: seq<int>, tables': Tables)
    requires n == KERNEL_STACK_PAGES && SwitchedTables(n, tables, stackPfns, tables')
    ensures Only(Kernel, tables, tables') && SameOutside(tables[Kernel], tables'[Kernel], KERNEL_STACK_VPN, MAX_PT_LEN)
    ensures StackMapped(tables'[Kernel], stackPfns)
  {
  }

  lemma OnlyTwice(t: Table, tables: Tables, tables': Tables, tables'': Tables)
    requires Only(t, tables, tables') && Only(t, tables', tables'')
    ensures Only(t, tables, tables'')
  {
  }

  /** The frames that have no owner any more when pages `lo` to `hi` of table `t` have been given new ones */
  ghost function Lost(t: Table, e: PageTable, e': PageTable, lo: int, hi: int): set<int>
    requires 0 <= lo && hi <= MAX_PT_LEN
    decreases hi - lo
  {
    if hi <= lo then {} else Lost(t, e, e', lo, hi - 1) + LostBy(t, hi - 1, e[hi - 1], e'[hi - 1].pfn)
  }

  lemma {:induction false} LostSame(t: Table, e: PageTable, e': PageTable, e'': PageTable, lo: int, hi: int)
    requires 0 <= lo && hi <= MAX_PT_LEN && forall i :: lo <= i < hi ==> e''[i] == e'[i]
    ensures Lost(t, e, e'', lo, hi) == Lost(t, e, e', lo, hi)
    decreases hi - lo
  {
    if lo < hi { LostSame(t, e, e', e'', lo, hi - 1); }
  }

  /** Below the spare page, what is lost is what the pages mapped. */
  lemma {:induction false} LostAre(t: Table, e: PageTable, e': PageTable, lo: int, hi: int)
    requires 0 <= lo && hi <= MAX_PT_LEN && hi <= Slots(t)
    ensures Lost(t, e, e', lo, hi) == FramesIn(e, lo, hi)
    decreases hi - lo
  {
    if lo < hi { LostAre(t, e, e', lo, hi - 1); }
  }

  /** Table `t` has grown, and with it the leaked frames. */
  ghost predicate Growing(t: Table, lo: int, hi: int, tables: Tables, free: set<int>, leaked: set<int>,
                          tables': Tables, free': set<int>, leaked': set<int>) {
    && Only(t, tables, tables')
    && Grown(tables[t], tables'[t], lo, hi, free, free')
    && leaked' == leaked + Lost(t, tables[t], tables'[t], lo, hi)
  }

  ghost predicate Shrinking(t: Table, lo: int, hi: int, tables: Tables, free: set<int>, leaked: set<int>,
                            tables': Tables, free': set<int>, leaked': set<int>) {
    && Only(t, tables, tables')
    && Shrunk(tables[t], tables'[t], lo, hi, free, free')
    && leaked' == leaked
  }

  lemma GrowingBy(t: Table, lo: int, i: int, n: int, tables: Tables, free: set<int>, leaked: set<int>,
                  tables': Tables, free': set<int>, leaked': set<int>, f: int,
                  tables'': Tables, free'': set<int>, leaked'': set<int>)
    requires n == i + 1 && Growing(t, lo, i, tables, free, leaked, tables', free', leaked')
    requires i < MAX_PT_LEN && f in free' && t in tables'
      && tables'' == SetEntry(tables', t, i, Pte(true, READ_WRITE, f))
    requires free'' == free' - {f} && leaked'' == leaked' + LostBy(t, i, tables'[t][i], f)
    ensures Growing(t, lo, n, tables, free, leaked, tables'', free'', leaked'')
  {
    GrownBy(tables[t], tables'[t], lo, i, free, free', f);
    LostSame(t, tables[t], tables'[t], tables'[t][i := Pte(true, READ_WRITE, f)], lo, i);
    assert tables'[t][i] == tables[t][i];
  }

  lemma ShrinkingBy(t: Table, lo: int, i: int, n: int, tables: Tables, free: set<int>, leaked: set<int>,
                    tables': Tables, free': set<int>, leaked': set<int>,
                    tables'': Tables, free'': set<int>, leaked'': set<int>)
    requires n == i + 1 && leaked'' == leaked' && Shrinking(t, lo, i, tables, free, leaked, tables', free', leaked')
    requires i < MAX_PT_LEN && t in tables' && tables'[t][i].valid && tables'[t][i].pfn !in free'
    requires tables'' == SetEntry(tables', t, i, tables'[t][i].(valid := false))
      && free'' == free' + {tables'[t][i].pfn}
    ensures Shrinking(t, lo, n, tables, free, leaked, tables'', free'', leaked'')
  {
    ShrunkBy(tables[t], tables'[t], lo, i, free, free');
  }

  lemma NothingYet(t: Table, lo: int, tables: Tables, free: set<int>, leaked: set<int>)
    requires t in tables && 0 <= lo <= MAX_PT_LEN
    ensures Growing(t, lo, lo, tables, free, leaked, tables, free, leaked)
    ensures Shrinking(t, lo, lo, tables, free, leaked, tables, free, leaked)
  {
  }

  /** How far a break gets from page `from` to page `to` with so many free frames */
  function Reached(from: int, to: int, frames: nat): int {
    if to <= from then to else Min(to, from + frames)
  }

  /** The table after its region's break has moved from page `from` to page `to`, or as far as the free frames go */
  ghost predicate BreakMoved(t: Table, from: int, to: int, status: int,
                             tables: Tables, free: set<int>, frames: nat, leaked: set<int>,
                             tables': Tables, free': set<int>, frames': nat, leaked': set<int>) {
    && status == (if Reached(from, to, frames) == to then SUCCESS else ERROR)
    && frames' == frames - (Reached(from, to, frames) - from)
    && if to <= from then Shrinking(t, to, from, tables, free, leaked, tables', free', leaked')
       else Growing(t, from, Reached(from, to, frames), tables, free, leaked, tables', free', leaked')
  }

  lemma MovedDown(t: Table, from: int, to: int, tables: Tables, free: set<int>, frames: nat, leaked: set<int>,
                  tables': Tables, free': set<int>, frames': nat, leaked': set<int>)
    requires to <= from && Shrinking(t, to, from, tables, free, leaked, tables', free', leaked')
    requires frames' == frames + (from - to)
    ensures BreakMoved(t, from, to, SUCCESS, tables, free, frames, leaked, tables', free', frames', leaked')
  {
  }

  lemma MovedUp(t: Table, from: int, to: int, status: int,
                tables: Tables, free: set<int>, frames: nat, leaked: set<int>,
                tables': Tables, free': set<int>, frames': nat, leaked': set<int>)
    requires from <= to && Growing(t, from, Min(to, from + frames), tables, free, leaked, tables', free', leaked')
    requires status == (if from + frames >= to then SUCCESS else ERROR)
    requires frames' == frames - (Min(to, from + frames) - from)
    ensures BreakMoved(t, from, to, status, tables, free, frames, leaked, tables', free', frames', leaked')
  {
  }

  lemma NotMoved(t: Table, from: int, tables: Tables, free: set<int>, frames: nat, leaked: set<int>)
    requires t in tables && 0 <= from <= MAX_PT_LEN
    ensures BreakMoved(t, from, from, SUCCESS, tables, free, frames, leaked, tables, free, frames, leaked)
  {
  }

  /** Mapped from the bottom up to page `heap` and from page `stack` to the top, and nowhere between */
  ghost predicate TwoIntervals(t: PageTable, heap: int, stack: int) {
    && heap <= stack
    && forall i :: 0 <= i < MAX_PT_LEN ==> (t[i].valid <==> i < heap || stack <= i)
  }

  /** Each mapped page has a frame of its own. */
  lemma {:induction false} DistinctFrames(own: map<int, Slot>, tables: Tables, pcbs: map<Pid, Pcb>, t: Table, lo: int,
                                          hi: int)
    requires Ledger(own, tables, pcbs) && t in tables && 0 <= lo <= hi <= Slots(t)
    requires MappedIn(tables[t], lo, hi)
    ensures |FramesIn(tables[t], lo, hi)| == hi - lo
    ensures forall f :: f in FramesIn(tables[t], lo, hi) ==> f in own && own[f].Page? && own[f].t == t && own[f].i < hi
    decreases hi - lo
  {
    if lo < hi {
      DistinctFrames(own, tables, pcbs, t, lo, hi - 1);
      assert Booked(own, Page(t, hi - 1), FrameAt(tables, pcbs, Page(t, hi - 1)));
      assert tables[t][hi - 1].pfn !in FramesIn(tables[t], lo, hi - 1);
    }
  }

  /** A frame that a page still maps has not leaked. */
  lemma {:induction false} MappedNotLeaked(own: map<int, Slot>, tables: Tables, pcbs: map<Pid, Pcb>, t: Table, lo: int,
                                           hi: int)
    requires Ledger(own, tables, pcbs) && t in tables && 0 <= lo <= hi <= Slots(t)
    ensures FramesIn(tables[t], lo, hi) !! LeakedFrames(own)
    ensures FramesIn(tables[t], lo, hi) == {} <==> UnmappedIn(tables[t], lo, hi)
    decreases hi - lo
  {
    if lo < hi {
      MappedNotLeaked(own, tables, pcbs, t, lo, hi - 1);
      assert Booked(own, Page(t, hi - 1), FrameAt(tables, pcbs, Page(t, hi - 1)));
      if tables[t][hi - 1].valid {
        assert tables[t][hi - 1].pfn in FramesIn(tables[t], lo, hi);
      }
    }
  }

  /** Memory below a break stays mapped while the break moves, and the rest of the tables stays as it was. */
  lemma BreakKeepsHeap(t: Table, from: int, to: int, status: int,
                       tables: Tables, free: set<int>, frames: nat, leaked: set<int>,
                       tables': Tables, free': set<int>, frames': nat, leaked': set<int>)
    requires BreakMoved(t, from, to, status, tables, free, frames, leaked, tables', free', frames', leaked')
    requires 0 <= from && 0 <= to && t in tables && MappedIn(tables[t], 0, from)
    ensures t in tables' && MappedIn(tables'[t], 0, if status == SUCCESS then to else from)
  {
    if from < to { assert AllProt(tables'[t], from, Reached(from, to, frames), READ_WRITE); }
  }

  lemma HeapsKept(t: Table, tables: Tables, tables': Tables, pcbs: map<Pid, Pcb>,
                  pcbs': map<Pid, Pcb>, p: Pid)
    requires HeapsMapped(tables, pcbs, {p}) && Only(t, tables, tables') && t in {Kernel, User(p)}
    requires p in pcbs && p in pcbs' && pcbs' == pcbs[p := pcbs'[p]]
    ensures HeapsMapped(tables', pcbs', {p})
  {
  }

  /** Every page of `t` from `lo` up is mapped, those that were not yet to frames that were free. */
  ghost predicate Filled(t: PageTable, t': PageTable, lo: int, free: set<int>, free': set<int>) {
    && free' <= free
    && (forall i :: 0 <= i < MAX_PT_LEN && i < lo ==> t'[i] == t[i])
    && (forall i :: lo <= i < MAX_PT_LEN && 0 <= i ==> t'[i].valid && FilledEntry(t[i], t'[i], free, free'))
  }

  ghost predicate FilledEntry(e: Pte, e': Pte, free: set<int>, free': set<int>) {
    if e.valid then e' == e else e'.prot == READ_WRITE && e'.pfn in free && e'.pfn !in free'
  }

  /** Table `t` has been filled from page `lo` up, and no frame was lost. */
  ghost predicate Filling(t: Table, lo: int, tables: Tables, free: set<int>, leaked: set<int>,
                          tables': Tables, free': set<int>, leaked': set<int>) {
    Only(t, tables, tables') && Filled(tables[t], tables'[t], lo, free, free') && leaked' == leaked
  }

  /** One more page down, which was not mapped */
  lemma FillingBy(t: Table, at: int, n: int, tables: Tables, free: set<int>, leaked: set<int>,
                  tables': Tables, free': set<int>, leaked': set<int>, f: int,
                  tables'': Tables, free'': set<int>, leaked'': set<int>)
    requires Filling(t, at, tables, free, leaked, tables', free', leaked')
    requires 0 <= n == at - 1 < MAX_PT_LEN && !tables'[t][n].valid && f in free'
    requires tables'' == SetEntry(tables', t, n, Pte(true, READ_WRITE, f)) && free'' == free' - {f}
      && leaked'' == leaked'
    ensures Filling(t, n, tables, free, leaked, tables'', free'', leaked'')
    ensures Missing(tables[t], n) == Missing(tables[t], at) + 1
  {
  }

  /** ... which was */
  lemma FillingOver(t: Table, at: int, n: int, tables: Tables, free: set<int>, leaked: set<int>,
                    tables': Tables, free': set<int>, leaked': set<int>)
    requires Filling(t, at, tables, free, leaked, tables', free', leaked')
    requires 0 <= n == at - 1 < MAX_PT_LEN && tables'[t][n].valid
    ensures Filling(t, n, tables, free, leaked, tables', free', leaked')
    ensures Missing(tables[t], n) == Missing(tables[t], at)
  {
  }

  lemma NoneToFill(t: Table, at: int, n: int, lo: int, tables: Tables, free: set<int>, leaked: set<int>,
                   tables': Tables, free': set<int>, leaked': set<int>)
    requires Filling(t, at, tables, free, leaked, tables', free', leaked')
    requires 0 <= lo <= n == at - 1 < MAX_PT_LEN && !tables'[t][n].valid
    ensures Missing(tables[t], at) < Missing(tables[t], lo)
  {
    MissingMore(tables[t], lo, n);
  }

  lemma {:induction false} NoneMapped(t: PageTable, lo: int, hi: int)
    requires 0 <= lo && hi <= MAX_PT_LEN && UnmappedIn(t, lo, hi)
    ensures Mapped(t, lo, hi) == 0
    decreases hi - lo
  {
    if lo < hi { NoneMapped(t, lo, hi - 1); }
  }

  lemma {:induction false} MappedMore(t: PageTable, lo: int, hi: int, hi': int)
    requires 0 <= lo <= hi <= hi' <= MAX_PT_LEN
    ensures Mapped(t, lo, hi) <= Mapped(t, lo, hi')
    decreases hi'
  {
    if hi < hi' { MappedMore(t, lo, hi, hi' - 1); }
  }

  /** How many pages from `lo` up are not mapped */
  ghost function Missing(t: PageTable, lo: int): nat
    decreases MAX_PT_LEN - lo
  {
    if lo >= MAX_PT_LEN || lo < 0 then 0 else Missing(t, lo + 1) + (if t[lo].valid then 0 else 1)
  }

  lemma {:induction false} MissingMore(t: PageTable, lo: int, hi: int)
    requires 0 <= lo <= hi <= MAX_PT_LEN
    ensures Missing(t, hi) <= Missing(t, lo)
    decreases hi - lo
  {
    if lo < hi { MissingMore(t, lo + 1, hi); }
  }

  /** The first `n` pages of table `t` have been freed. */
  ghost predicate Cleared(t: Table, n: int, tables: Tables, free: set<int>, leaked: set<int>,
                          tables': Tables, free': set<int>, leaked': set<int>) {
    && 0 <= n <= MAX_PT_LEN && Only(t, tables, tables')
    && UnmappedIn(tables'[t], 0, n) && SameOutside(tables[t], tables'[t], 0, n)
    && free' == free + FramesIn(tables[t], 0, n) && leaked' == leaked
  }

  lemma ClearedBy(t: Table, at: int, n: int, tables: Tables, free: set<int>, leaked: set<int>,
                  tables': Tables, free': set<int>, leaked': set<int>,
                  tables'': Tables, free'': set<int>, leaked'': set<int>)
    requires Cleared(t, at, tables, free, leaked, tables', free', leaked')
    requires n == at + 1 <= MAX_PT_LEN && t in tables' && leaked'' == leaked'
    requires if tables'[t][at].valid
      then tables'' == SetEntry(tables', t, at, tables'[t][at].(valid := false))
        && free'' == free' + {tables'[t][at].pfn}
      else tables'' == tables' && free'' == free'
    ensures Cleared(t, n, tables, free, leaked, tables'', free'', leaked'')
    ensures Mapped(tables[t], 0, n) == Mapped(tables[t], 0, at) + (if tables'[t][at].valid then 1 else 0)
  {
  }

  /** The first `n` pages of table `t` have a new protection. */
  ghost predicate Protected(t: Table, n: int, prot: set<Prot>, tables: Tables, tables': Tables) {
    && Only(t, tables, tables') && SameOutside(tables[t], tables'[t], 0, n)
    && forall i :: 0 <= i < n && i < MAX_PT_LEN ==> tables'[t][i] == tables[t][i].(prot := prot)
  }

  /** Exec's address space: text and data from the bottom, the stack at the top */
  ghost predicate ProgramLayout(t: PageTable, text: int, data: int, stack: int) {
    && AllProt(t, 0, text, READ_EXEC) && AllProt(t, text, text + data, READ_WRITE)
    && UnmappedIn(t, text + data, MAX_PT_LEN - stack)
    && AllProt(t, MAX_PT_LEN - stack, MAX_PT_LEN, READ_WRITE)
  }

  /** The same before the text is made executable */
  ghost predicate ProgramMapped(t: PageTable, text: int, data: int, stack: int) {
    && AllProt(t, 0, text, READ_WRITE) && AllProt(t, text, text + data, READ_WRITE)
    && UnmappedIn(t, text + data, MAX_PT_LEN - stack)
    && AllProt(t, MAX_PT_LEN - stack, MAX_PT_LEN, READ_WRITE)
  }

  lemma ProgramPages(t: PageTable, t1: PageTable, t2: PageTable, t3: PageTable, text: nat, data: nat, stack: nat)
    requires stack + text + data < MAX_PT_LEN && UnmappedIn(t, 0, MAX_PT_LEN)
    requires SameOutside(t, t1, 0, text) && AllProt(t1, 0, text, READ_WRITE)
    requires SameOutside(t1, t2, text, text + data) && AllProt(t2, text, text + data, READ_WRITE)
    requires SameOutside(t2, t3, MAX_PT_LEN - stack, MAX_PT_LEN)
      && AllProt(t3, MAX_PT_LEN - stack, MAX_PT_LEN, READ_WRITE)
    ensures ProgramMapped(t3, text, data, stack)
  {
  }

  /** Making the text executable gives the program's address space. */
  lemma TextProtected(p: Pid, text: nat, data: nat, stack: nat, tables: Tables, tables': Tables, pcbs: map<Pid, Pcb>)
    requires Protected(User(p), text, READ_EXEC, tables, tables') && ProgramMapped(tables[User(p)], text, data, stack)
    requires stack + text + data < MAX_PT_LEN && HeapsMapped(tables, pcbs, {p}) && p in pcbs
      && HeapPages(pcbs[p].brk) == text + data
    ensures ProgramLayout(tables'[User(p)], text, data, stack) && HeapsMapped(tables', pcbs, {})
  {
    assert HeapMapped(tables'[User(p)], pcbs[p].brk);
    HeapsKept(User(p), tables, tables', pcbs, pcbs, p);
  }

  lemma {:induction false} NothingMapped(t: PageTable, lo: int, hi: int)
    requires 0 <= lo && hi <= MAX_PT_LEN && UnmappedIn(t, lo, hi)
    ensures FramesIn(t, lo, hi) == {}
    decreases hi - lo
  {
    if lo < hi { NothingMapped(t, lo, hi - 1); }
  }
}
