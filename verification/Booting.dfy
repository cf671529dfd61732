/** KernelStart's tables at the moment virtual memory is enabled, and who owns what then. */
module Booting {
  import opened Basics
  import opened Hardware
  import opened PageTables
  import opened FrameLists
  import opened Ownership
  import opened Mmu
  import opened Layout
  import opened Lifetimes

  /** Pages are mapped to the frames of the same number: heap pages and stack pages, but not those between. */
  ghost predicate OneToOne(t: PageTable, n: int, heapPages: int) {
    forall v :: 0 <= v < MAX_PT_LEN ==>
      if v < n && (v < heapPages || KERNEL_STACK_VPN <= v) then
        && t[v].valid && t[v].pfn == v
        && (KERNEL_STACK_VPN <= v ==> t[v] == Pte(true, READ_WRITE, v))
      else t[v] == INVALID
  }

  method BootTable(textPages: nat, heapPages: nat) returns (t: PageTable)
    requires heapPages <= BUFFER_VPN
    ensures OneToOne(t, MAX_PT_LEN, heapPages)
  {
    t := FreshTable();
    var v := 0;
    while v < MAX_PT_LEN
      invariant 0 <= v <= MAX_PT_LEN && OneToOne(t, v, heapPages)
    {
      if v < textPages && v < heapPages {
        t := t[v := Pte(true, READ_EXEC, v)];
      } else if v < heapPages || KERNEL_STACK_VPN <= v {
        t := t[v := Pte(true, READ_WRITE, v)];
      }
      v := v + 1;
    }
  }

  function BootTables(table: PageTable): Tables {
    map[Kernel := table, User(INIT) := FreshTable()]
  }

  /** A process with an empty region 1 that runs on the kernel's own stack */
  ghost predicate OnKernelStack(pcb: Pcb) {
    && |pcb.stackPfns| == KERNEL_STACK_PAGES && pcb.brk == MAX_PT_LEN * PAGESIZE
    && forall k :: 0 <= k < KERNEL_STACK_PAGES ==> pcb.stackPfns[k] == KERNEL_STACK_VPN + k
  }

  /** init's PCB */
  function InitAtBoot(base: int): (pcb: Pcb)
    ensures OnKernelStack(pcb) && pcb.base == base
  {
    Pcb(base, MAX_PT_LEN * PAGESIZE, seq(KERNEL_STACK_PAGES, (k: int) => KERNEL_STACK_VPN + k), true)
  }

  function BootPcbs(pcb: Pcb): map<Pid, Pcb> {
    map[INIT := pcb]
  }

  /** The frames that initFrameList marks as in use: those that begin below the kernel's break, and its stack's */
  function UsedAtBoot(used: nat): set<int> {
    Interval(0, used) + Interval(KERNEL_STACK_VPN, KERNEL_STACK_PAGES)
  }

  /** Of the `used` pages that begin below the kernel's break, KernelStart maps the `heap` whole ones. */
  ghost function BootOwners(heap: nat, used: nat): map<int, Slot> {
    map f | f in UsedAtBoot(used) ::
      if f < heap then Page(Kernel, f) else if f < used then Leaked else KernelStack(INIT, f - KERNEL_STACK_VPN)
  }

  lemma BootBooked(heap: nat, used: nat, table: PageTable, pcb: Pcb, slot: Slot)
    requires heap <= used <= BUFFER_VPN && OneToOne(table, MAX_PT_LEN, heap) && OnKernelStack(pcb)
    ensures Booked(BootOwners(heap, used), slot, FrameAt(BootTables(table), BootPcbs(pcb), slot))
  {
    var held := FrameAt(BootTables(table), BootPcbs(pcb), slot);
    if slot.Page? && held.Some? {
      assert slot.t == Kernel && held.value == slot.i < heap;
      assert held.value in UsedAtBoot(used);
    }
    if slot.KernelStack? && held.Some? {
      assert held.value == KERNEL_STACK_VPN + slot.k;
      assert held.value in UsedAtBoot(used);
    }
  }

  lemma BootHeld(heap: nat, used: nat, table: PageTable, pcb: Pcb, f: int)
    requires heap <= used <= BUFFER_VPN && OneToOne(table, MAX_PT_LEN, heap) && OnKernelStack(pcb)
    requires f in BootOwners(heap, used)
    ensures var slot := BootOwners(heap, used)[f];
      if heap <= f < used then slot == Leaked
      else slot != Leaked && FrameAt(BootTables(table), BootPcbs(pcb), slot) == Some(f)
  {
    assert f in UsedAtBoot(used);
    if f < heap { assert table[f].valid; }
  }

  lemma BootLedger(heap: nat, used: nat, table: PageTable, pcb: Pcb)
    requires heap <= used <= BUFFER_VPN && OneToOne(table, MAX_PT_LEN, heap) && OnKernelStack(pcb)
    ensures Ledger(BootOwners(heap, used), BootTables(table), BootPcbs(pcb))
    ensures LeakedFrames(BootOwners(heap, used)) == Interval(heap, used - heap)
  {
    var own, tables, pcbs := BootOwners(heap, used), BootTables(table), BootPcbs(pcb);
    forall slot ensures Booked(own, slot, FrameAt(tables, pcbs, slot)) {
      BootBooked(heap, used, table, pcb, slot);
    }
    forall f | f in own
      ensures own[f] == Leaked || FrameAt(tables, pcbs, own[f]) == Some(f)
      ensures own[f] == Leaked <==> heap <= f < used
    {
      BootHeld(heap, used, table, pcb, f);
    }
    forall f | heap <= f < used ensures f in own {
      assert f in UsedAtBoot(used);
    }
  }

  lemma BootPartition(heap: nat, used: nat, numFrames: nat, all: set<int>)
    requires used <= BUFFER_VPN && MAX_PT_LEN <= numFrames && all == Interval(0, numFrames)
    ensures Partition(BootOwners(heap, used), all - UsedAtBoot(used), all)
  {
    assert BootOwners(heap, used).Keys == UsedAtBoot(used);
    assert UsedAtBoot(used) <= all;
  }

  lemma BootTranslating(r0Base: int, table: PageTable, pcb: Pcb)
    requires Apart(r0Base, pcb.base) && |pcb.stackPfns| == KERNEL_STACK_PAGES
    ensures Translating(BootTables(table), BootPcbs(pcb), map[], r0Base, pcb.base, INIT)
  {
    var tables, pcbs := BootTables(table), BootPcbs(pcb);
    assert InUse(map[], pcb.base, INIT, tables, pcbs);
    assert TablesApart(r0Base, tables, pcbs);
  }

  /** The state in which KernelStart enables virtual memory: every frame is accounted for. */
  lemma BootState(heap: nat, used: nat, table: PageTable, numFrames: nat, r0Base: int, pcb: Pcb,
                  own: map<int, Slot>, free: set<int>, all: set<int>, tables: Tables, pcbs: map<Pid, Pcb>)
    requires heap <= used <= BUFFER_VPN && MAX_PT_LEN <= numFrames && Apart(r0Base, pcb.base) && OnKernelStack(pcb)
    requires all == Interval(0, numFrames) && free == all - UsedAtBoot(used) && OneToOne(table, MAX_PT_LEN, heap)
    requires own == BootOwners(heap, used) && tables == BootTables(table) && pcbs == BootPcbs(pcb)
    ensures Translating(tables, pcbs, map[], r0Base, pcb.base, INIT)
    ensures Accounted(own, free, all, tables, pcbs) && LeakedFrames(own) == Interval(heap, used - heap)
  {
    BootLedger(heap, used, table, pcb);
    BootPartition(heap, used, numFrames, all);
    BootTranslating(r0Base, table, pcb);
  }

  /** Lost is the frame in which the kernel's break is, unless it is at the start of a page. */
  lemma BootLost(kernelBrk: int)
    ensures Interval(Vpn(kernelBrk), PagesBelow(kernelBrk) - Vpn(kernelBrk)) == if Aligned(kernelBrk) then {}
      else {Vpn(kernelBrk)}
  {
  }

  /** The kernel's heap is mapped up to its break if and only if the break is at the start of a page. */
  lemma BootShape(kernelBrk: int, table: PageTable, pcb: Pcb, tables: Tables, pcbs: map<Pid, Pcb>)
    requires 0 <= kernelBrk && PagesBelow(kernelBrk) <= BUFFER_VPN
    requires OneToOne(table, MAX_PT_LEN, Vpn(kernelBrk)) && OnKernelStack(pcb)
    requires tables == BootTables(table) && pcbs == BootPcbs(pcb)
    ensures pcbs.Keys == {INIT} && Kernel in tables && StackMapped(tables[Kernel], pcbs[INIT].stackPfns)
    ensures HeapsMapped(tables, pcbs, {}) && UnmappedIn(tables[Kernel], Vpn(kernelBrk), KERNEL_STACK_VPN)
    ensures KernelHeapMapped(tables[Kernel], kernelBrk) <==> Aligned(kernelBrk)
    ensures 0 <= Vpn(kernelBrk) <= BUFFER_VPN
  {
    VpnOfPage(MAX_PT_LEN);
    PageReaches(kernelBrk, 0);
    if !Aligned(kernelBrk) {
      assert !table[Vpn(kernelBrk)].valid;
    }
  }

  lemma IdleIsNew(r0Base: int, pcb: Pcb, base: int, table: PageTable, tables: Tables, pcbs: map<Pid, Pcb>)
    requires Apart(r0Base, base) && Apart(pcb.base, base) && tables == BootTables(table) && pcbs == BootPcbs(pcb)
    ensures NewPcb(tables, pcbs, IDLE) && RoomFor(r0Base, pcbs, base)
  {
  }

  /** idle's one page: the top of its empty region 1 */
  lemma IdlePage(tables: Tables, pcbs: map<Pid, Pcb>, tables': Tables, f: int)
    requires HeapsMapped(tables, pcbs, {IDLE}) && IDLE in pcbs && pcbs[IDLE].brk == MAX_PT_LEN * PAGESIZE
    requires User(IDLE) in tables && UnmappedIn(tables[User(IDLE)], 0, MAX_PT_LEN)
    requires tables' == SetEntry(tables, User(IDLE), MAX_PT_LEN - 1, Pte(true, READ_WRITE, f))
    ensures HeapsMapped(tables', pcbs, {}) && Only(User(IDLE), tables, tables')
    ensures Kernel in tables ==> Kernel in tables' && tables'[Kernel] == tables[Kernel]
    ensures TwoIntervals(tables'[User(IDLE)], 0, MAX_PT_LEN - 1)
    ensures AllProt(tables'[User(IDLE)], MAX_PT_LEN - 1, MAX_PT_LEN, READ_WRITE)
  {
    VpnOfPage(MAX_PT_LEN);
    assert HeapMapped(tables'[User(IDLE)], pcbs[IDLE].brk);
    HeapsKept(User(IDLE), tables, tables', pcbs, pcbs, IDLE);
  }

  /** The frame with the number of the buffers' page is free at boot, so there is one to be had. */
  lemma BufferFrameFree(used: nat, numFrames: nat)
    requires used <= BUFFER_VPN && MAX_PT_LEN <= numFrames
    ensures BUFFER_VPN in Interval(0, numFrames) - UsedAtBoot(used)
  {
  }
}
