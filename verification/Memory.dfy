/**
 Physical memory, page tables and the TLB, with the kernel's operations on them.
 `ram` gives the contents of a frame, a whole page at a time.
 */
module PhysicalMemory {
  import opened Basics
  import opened Hardware
  import opened PageTables
  import opened FrameLists
  import opened Ownership
  import opened Mmu
  import opened Layout
  import opened Breaks
  import opened Lifetimes
  import opened Forking
  import opened Booting

  class Memory {
    const frames: FrameList
    const ptbr0: int
    const starterKernelStack: seq<Bytes>

    var ram: map<int, Bytes>
    var tables: Tables
    var pcbs: map<Pid, Pcb>
    var cur: Pid
    var kernelBrk: int

    /** The frame of the terminals' buffers */
    var bufferPfn: int

    /** REG_PTBR1, and whose table it points at */
    var ptbr1: int
    var loaded: Pid

    /** The translations that the MMU has cached */
    var tlb: map<int, Pte>

    ghost var own: map<int, Slot>

    ghost predicate TablesOk()
      reads this
    {
      Translating(tables, pcbs, tlb, ptbr0, ptbr1, loaded)
    }

    ghost predicate FramesOk()
      reads this, frames, frames.list
    {
      && frames.Valid()
      && Accounted(own, frames.free, frames.all, tables, pcbs)
      && ram.Keys == frames.all
      && |starterKernelStack| == KERNEL_STACK_PAGES
    }

    /** The running process's table and kernel stack are the ones in place. */
    ghost predicate Running()
      reads this, frames, frames.list
    {
      && TablesOk() && FramesOk()
      && cur in pcbs && loaded == cur
      && StackMapped(tables[Kernel], pcbs[cur].stackPfns)
    }

    /** What holds whenever a process runs in user mode */
    ghost predicate Valid()
      reads this, frames, frames.list
    {
      Running() && HeapsMapped(tables, pcbs, {}) && KernelMapped(tables[Kernel], kernelBrk, bufferPfn)
    }

    // ------------------------------------------------------------------ PageTable.c

    /** setPageTableEntryNoFlush, for a table that the MMU does not use */
    method SetPageTableEntryNoFlush(p: Pid, i: nat, pte: Pte)
      requires TablesOk() && p in pcbs && p != loaded && i < MAX_PT_LEN
      modifies this`tables
      ensures TablesOk()
      ensures User(p) in old(tables) && tables == SetEntry(old(tables), User(p), i, pte)
    {
      UnloadedTranslating(tables, pcbs, tlb, ptbr0, ptbr1, loaded, p, i, pte);
      tables := SetEntry(tables, User(p), i, pte);
    }

    /** setPageTableEntry */
    method SetPageTableEntry(t: Table, i: nat, pte: Pte)
      requires TablesOk() && i < MAX_PT_LEN
      requires t == Kernel || (t == User(loaded) && loaded in pcbs)
      modifies this`tables, this`tlb
      ensures TablesOk()
      ensures t in old(tables) && tables == SetEntry(old(tables), t, i, pte)
      ensures tlb == old(tlb) - {PageOf(t, i)}
    {
      FlushedTranslating(tables, pcbs, tlb, ptbr0, ptbr1, loaded, t, i, pte);
      tables := SetEntry(tables, t, i, pte);
      FlushEntry(PteAddress(if t.Kernel? then ptbr0 else ptbr1, i), t, i);
    }

    /** getVirtualAddr and WriteRegister(REG_TLB_FLUSH, ...) for the entry at `ptep` */
    method FlushEntry(ptep: int, ghost t: Table, ghost i: nat)
      requires i < MAX_PT_LEN && Apart(ptbr0, ptbr1)
      requires ptep == PteAddress(if t.Kernel? then ptbr0 else ptbr1, i)
      modifies this`tlb
      ensures tlb == old(tlb) - {PageOf(t, i)}
    {
      VirtualAddrInverts(if t.Kernel? then ptbr0 else ptbr1, i, Registers(ptbr0, ptbr1));
      var addr := GetVirtualAddr(ptep, Registers(ptbr0, ptbr1));
      assert addr != ERROR;
      tlb := tlb - {Vpn(addr)};
    }

    /** invalidatePageTableEntry: the entry keeps its stale frame number. */
    method InvalidatePageTableEntry(t: Table, i: nat)
      requires TablesOk() && i < MAX_PT_LEN
      requires t == Kernel || (t == User(loaded) && loaded in pcbs)
      modifies this`tables, this`tlb
      ensures TablesOk()
      ensures t in old(tables) && tables == SetEntry(old(tables), t, i, old(tables[t][i]).(valid := false))
      ensures tlb == old(tlb) - {PageOf(t, i)}
    {
      assert t in tables;
      SetPageTableEntry(t, i, tables[t][i].(valid := false));
    }

    // -------------------------------------------------------------- the MMU at work

    /** Translate a page of table `t`: from the TLB if it is cached, from the table (and cached) if not. */
    method Translate(t: Table, i: nat) returns (pte: Pte)
      requires TablesOk() && i < MAX_PT_LEN
      requires t == Kernel || (t == User(loaded) && loaded in pcbs)
      requires t in tables && tables[t][i].valid
      modifies this`tlb
      ensures TablesOk() && pte == tables[t][i]
      ensures tlb.Keys == old(tlb.Keys) + {PageOf(t, i)}
    {
      CachedTranslating(tables, pcbs, tlb, ptbr0, ptbr1, loaded, t, i);
      var v := PageOf(t, i);
      if v in tlb {
        pte := tlb[v];
      } else {
        pte := tables[t][i];
        tlb := tlb[v := pte];
      }
    }

    /** memmove of a page to the page of region 0 at `dst` */
    method CopyPage(dst: nat, t: Table, i: nat)
      requires TablesOk() && i < MAX_PT_LEN && dst < MAX_PT_LEN
      requires t == Kernel || (t == User(loaded) && loaded in pcbs)
      requires t in tables && tables[t][i].valid && tables[t][i].pfn in ram
      requires tables[Kernel][dst].valid && tables[Kernel][dst].pfn in ram
      modifies this`tlb, this`ram
      ensures TablesOk()
      ensures ram == old(ram)[tables[Kernel][dst].pfn := old(ram)[tables[t][i].pfn]]
      ensures ram.Keys == old(ram.Keys)
    {
      var from := Translate(t, i);
      var to := Translate(Kernel, dst);
      ram := ram[to.pfn := ram[from.pfn]];
    }

    /** Put `bytes` in a page of table `t` */
    method StorePage(t: Table, i: nat, bytes: Bytes)
      requires TablesOk() && i < MAX_PT_LEN
      requires t == Kernel || (t == User(loaded) && loaded in pcbs)
      requires t in tables && tables[t][i].valid && tables[t][i].pfn in ram
      modifies this`tlb, this`ram
      ensures TablesOk()
      ensures ram == old(ram)[tables[t][i].pfn := bytes]
      ensures ram.Keys == old(ram.Keys)
    {
      var to := Translate(t, i);
      ram := ram[to.pfn := bytes];
    }

    // ------------------------------------------------------ mapping and freeing pages

    ghost predicate Mappable(t: Table, i: int, limit: nat)
      reads this
    {
      (t == Kernel || t == User(cur)) && t in tables && 0 <= i < limit
    }

    /** getFrame and setPageTableEntry.  An entry that was valid loses its frame for good. */
    method MapPage(t: Table, i: nat) returns (status: int)
      requires Running() && Mappable(t, i, Reach(t))
      modifies this`tables, this`tlb, this`own, frames`free, frames`count, frames.list
      ensures Running()
      ensures status == if old(frames.count) == 0 then ERROR else SUCCESS
      ensures status == ERROR ==> frames.free == {} && frames.count == 0 && tables == old(tables) && own == old(own)
      ensures status == SUCCESS ==>
        var f := tables[t][i].pfn;
        && tables == SetEntry(old(tables), t, i, Pte(true, READ_WRITE, f))
        && f in old(frames.free) && frames.free == old(frames.free) - {f} && frames.count == old(frames.count) - 1
        && LeakedFrames(own) == old(LeakedFrames(own)) + LostBy(t, i, old(tables[t][i]), f)
    {
      var ok, f := frames.GetFrame();
      if ok == ERROR { return ERROR; }
      EntryAccounted(own, old(frames.free), frames.all, tables, pcbs, t, i, f, READ_WRITE);
      own := BookEntry(own, tables, pcbs, t, i, f);
      SetPageTableEntry(t, i, Pte(true, READ_WRITE, f));
      return SUCCESS;
    }

    /** freeFrame and invalidatePageTableEntry */
    method UnmapPage(t: Table, i: nat)
      requires Running() && Mappable(t, i, Slots(t)) && tables[t][i].valid
      modifies this`tables, this`tlb, this`own, frames`free, frames`count, frames.list
      ensures Running()
      ensures tables == SetEntry(old(tables), t, i, old(tables[t][i]).(valid := false))
      ensures old(tables[t][i].pfn) !in old(frames.free)
      ensures frames.free == old(frames.free) + {old(tables[t][i].pfn)} && frames.count == old(frames.count) + 1
      ensures LeakedFrames(own) == old(LeakedFrames(own))
    {
      UnmapAccounted(own, frames.free, frames.all, tables, pcbs, t, i);
      own := own - {tables[t][i].pfn};
      frames.FreeFrame(tables[t][i].pfn);
      InvalidatePageTableEntry(t, i);
    }

    /** Map pages `lo` to `hi` one by one, as far as the free frames go. */
    method MapPages(t: Table, lo: nat, hi: int) returns (status: int)
      requires Running() && (t == Kernel || t == User(cur)) && t in tables && lo <= hi <= Reach(t)
      modifies this`tables, this`tlb, this`own, frames`free, frames`count, frames.list
      ensures Running()
      ensures status == if lo + old(frames.count) >= hi then SUCCESS else ERROR
      ensures Growing(t, lo, Min(hi, lo + old(frames.count)), old(tables), old(frames.free), old(LeakedFrames(own)),
                      tables, frames.free, LeakedFrames(own))
      ensures frames.count == old(frames.count) - (Min(hi, lo + old(frames.count)) - lo)
    {
      var i := lo;
      NothingYet(t, lo, tables, frames.free, LeakedFrames(own));
      while i < hi
        invariant lo <= i <= hi && Running() && frames.count == old(frames.count) - (i - lo)
        invariant Growing(t, lo, i, old(tables), old(frames.free), old(LeakedFrames(own)),
                          tables, frames.free, LeakedFrames(own))
      {
        ghost var at, tables', free', leaked' := i, tables, frames.free, LeakedFrames(own);
        var ok := MapPage(t, i);
        if ok == ERROR {
          assert Min(hi, lo + old(frames.count)) == i;
          return ERROR;
        }
        ghost var f := tables[t][i].pfn;
        i := i + 1;
        GrowingBy(t, lo, at, i, old(tables), old(frames.free), old(LeakedFrames(own)), tables', free', leaked', f,
                  tables, frames.free, LeakedFrames(own));
      }
      assert Min(hi, lo + old(frames.count)) == i;
      return SUCCESS;
    }

    /** Free the frames of pages `lo` to `hi` one by one. */
    method UnmapPages(t: Table, lo: nat, hi: int)
      requires Running() && (t == Kernel || t == User(cur)) && lo <= hi <= Slots(t)
      requires t in tables && MappedIn(tables[t], lo, hi)
      modifies this`tables, this`tlb, this`own, frames`free, frames`count, frames.list
      ensures Running()
      ensures Shrinking(t, lo, hi, old(tables), old(frames.free), old(LeakedFrames(own)),
                        tables, frames.free, LeakedFrames(own))
      ensures frames.count == old(frames.count) + (hi - lo)
    {
      var i := lo;
      NothingYet(t, lo, tables, frames.free, LeakedFrames(own));
      while i < hi
        invariant lo <= i <= hi && Running() && frames.count == old(frames.count) + (i - lo)
        invariant Shrinking(t, lo, i, old(tables), old(frames.free), old(LeakedFrames(own)),
                            tables, frames.free, LeakedFrames(own))
      {
        ghost var at, tables', free', leaked' := i, tables, frames.free, LeakedFrames(own);
        UnmapPage(t, i);
        i := i + 1;
        ShrinkingBy(t, lo, at, i, old(tables), old(frames.free), old(LeakedFrames(own)), tables', free', leaked',
                    tables, frames.free, LeakedFrames(own));
      }
    }

    /** Take the break down from page `hi` to page `lo`. */
    method LowerBreak(t: Table, lo: nat, hi: int, ghost from: nat, ghost to: nat)
      requires Running() && (t == Kernel || t == User(cur)) && lo == to <= hi == from <= Slots(t)
      requires t in tables && MappedIn(tables[t], 0, from)
      modifies this`tables, this`tlb, this`own, frames`free, frames`count, frames.list
      ensures Running()
      ensures BreakMoved(t, from, to, SUCCESS, old(tables), old(frames.free), old(frames.count), old(LeakedFrames(own)),
                         tables, frames.free, frames.count, LeakedFrames(own))
    {
      UnmapPages(t, lo, hi);
      MovedDown(t, from, to, old(tables), old(frames.free), old(frames.count), old(LeakedFrames(own)),
                tables, frames.free, frames.count, LeakedFrames(own));
    }

    /** Take it up from page `lo` to page `hi`, or as far as the free frames go. */
    method RaiseBreak(t: Table, lo: nat, hi: int, ghost from: nat, ghost to: nat) returns (status: int)
      requires Running() && (t == Kernel || t == User(cur)) && t in tables && lo == from <= hi == to <= Reach(t)
      modifies this`tables, this`tlb, this`own, frames`free, frames`count, frames.list
      ensures Running()
      ensures BreakMoved(t, from, to, status, old(tables), old(frames.free), old(frames.count), old(LeakedFrames(own)),
                         tables, frames.free, frames.count, LeakedFrames(own))
    {
      status := MapPages(t, lo, hi);
      MovedUp(t, from, to, status, old(tables), old(frames.free), old(frames.count), old(LeakedFrames(own)),
              tables, frames.free, frames.count, LeakedFrames(own));
    }

    /** The break moves within a page. */
    method BreakInPage(t: Table, base: int, brk: int, addr: int, ghost from: nat, ghost to: nat)
      returns (status: int)
      requires Running() && (t == Kernel || t == User(cur)) && Vpn(addr) == Vpn(brk)
      requires from == PagesBelow(brk) - base <= Slots(t) && to == PagesBelow(addr) - base <= Reach(t)
      requires t in tables && MappedIn(tables[t], 0, from)
      modifies this`tables, this`tlb, this`own, frames`free, frames`count, frames.list
      ensures Running()
      ensures BreakMoved(t, from, to, status, old(tables), old(frames.free), old(frames.count), old(LeakedFrames(own)),
                         tables, frames.free, frames.count, LeakedFrames(own))
    {
      var vpn := Vpn(addr);
      if addr < brk { InPage(addr, brk); } else if brk < addr { InPage(brk, addr); }
      status := SUCCESS;
      if addr < brk && Aligned(addr) {
        LowerBreak(t, vpn - base, vpn + 1 - base, from, to);
      } else if addr > brk && Aligned(brk) {
        status := RaiseBreak(t, vpn - base, vpn + 1 - base, from, to);
      } else {
        assert from == to;
        NotMoved(t, from, tables, frames.free, frames.count, LeakedFrames(own));
      }
    }

    /** It moves to a lower page. */
    method BreakBelow(t: Table, base: int, brk: int, addr: int, ghost from: nat, ghost to: nat)
      returns (status: int)
      requires Running() && (t == Kernel || t == User(cur)) && Vpn(addr) < Vpn(brk)
      requires from == PagesBelow(brk) - base <= Slots(t) && to == PagesBelow(addr) - base <= Reach(t)
      requires t in tables && MappedIn(tables[t], 0, from)
      modifies this`tables, this`tlb, this`own, frames`free, frames`count, frames.list
      ensures Running()
      ensures BreakMoved(t, from, to, status, old(tables), old(frames.free), old(frames.count), old(LeakedFrames(own)),
                         tables, frames.free, frames.count, LeakedFrames(own))
    {
      var first := if Aligned(addr) then Vpn(addr) else Vpn(addr) + 1;
      var last := if Aligned(brk) then Vpn(brk) - 1 else Vpn(brk);
      LowerBreak(t, first - base, last + 1 - base, from, to);
      return SUCCESS;
    }

    /** It moves to a higher page. */
    method BreakAbove(t: Table, base: int, brk: int, addr: int, ghost from: nat, ghost to: nat)
      returns (status: int)
      requires Running() && (t == Kernel || t == User(cur)) && Vpn(brk) < Vpn(addr)
      requires from == PagesBelow(brk) - base <= Slots(t) && to == PagesBelow(addr) - base <= Reach(t)
      requires t in tables && MappedIn(tables[t], 0, from)
      modifies this`tables, this`tlb, this`own, frames`free, frames`count, frames.list
      ensures Running()
      ensures BreakMoved(t, from, to, status, old(tables), old(frames.free), old(frames.count), old(LeakedFrames(own)),
                         tables, frames.free, frames.count, LeakedFrames(own))
    {
      var first := if Aligned(brk) then Vpn(brk) else Vpn(brk) + 1;
      var last := if Aligned(addr) then Vpn(addr) - 1 else Vpn(addr);
      status := RaiseBreak(t, first - base, last + 1 - base, from, to);
    }

    /** What KernelBrk and SetKernelBrk do to their page tables; `base` is the region's first page. */
    method MoveBreak(t: Table, base: int, brk: int, addr: int, ghost from: nat, ghost to: nat)
      returns (status: int)
      requires Running() && (t == Kernel || t == User(cur))
      requires from == PagesBelow(brk) - base <= Slots(t) && to == PagesBelow(addr) - base <= Reach(t)
      requires t in tables && MappedIn(tables[t], 0, from)
      modifies this`tables, this`tlb, this`own, frames`free, frames`count, frames.list
      ensures Running()
      ensures BreakMoved(t, from, to, status, old(tables), old(frames.free), old(frames.count), old(LeakedFrames(own)),
                         tables, frames.free, frames.count, LeakedFrames(own))
    {
      if Vpn(addr) < Vpn(brk) {
        status := BreakBelow(t, base, brk, addr, from, to);
      } else if Vpn(addr) == Vpn(brk) {
        status := BreakInPage(t, base, brk, addr, from, to);
      } else {
        status := BreakAbove(t, base, brk, addr, from, to);
      }
    }

    method SetBrk(addr: int)
      requires Running()
      modifies this`pcbs
      ensures Running() && pcbs == old(pcbs)[cur := old(pcbs[cur]).(brk := addr)]
    {
      var pcbs' := pcbs[cur := pcbs[cur].(brk := addr)];
      SameBooked(own, frames.free, frames.all, tables, pcbs, tables, pcbs');
      pcbs := pcbs';
    }

    /** KernelBrk; it does not look at where the stack is. */
    method KernelBrk(addr: int) returns (status: int)
      requires Valid()
      modifies this`tables, this`tlb, this`own, this`pcbs, frames`free, frames`count, frames.list
      ensures Valid()
      ensures GetAddressRegion(addr) != 1 ==>
        status == ERROR && tables == old(tables) && own == old(own) && frames.free == old(frames.free)
      ensures GetAddressRegion(addr) == 1 ==>
        BreakMoved(User(cur), HeapPages(old(pcbs[cur].brk)), HeapPages(addr), status,
                   old(tables), old(frames.free), old(frames.count), old(LeakedFrames(own)),
                   tables, frames.free, frames.count, LeakedFrames(own))
      ensures pcbs == if status == SUCCESS then old(pcbs)[cur := old(pcbs[cur]).(brk := addr)] else old(pcbs)
    {
      var region := GetAddressRegion(addr);
      if region != 1 { return ERROR; }
      RegionOfPage(addr);
      var brk := pcbs[cur].brk;
      assert HeapMapped(tables[User(cur)], brk);
      status := MoveBreak(User(cur), MAX_PT_LEN, brk, addr, HeapPages(brk), HeapPages(addr));
      UserBreakKeeps(cur, brk, addr, status, old(tables), pcbs, old(frames.free), old(frames.count),
        old(LeakedFrames(own)),
                     tables, frames.free, frames.count, LeakedFrames(own));
      if status == ERROR { return; }
      SetBrk(addr);
    }

    /** The addresses that SetKernelBrk accepts */
    predicate KernelBreakAt(addr: int, kernelDataEnd: int) {
      kernelDataEnd <= addr < KERNEL_STACK_VPN * PAGESIZE
    }

    /**
     SetKernelBrk, virtual memory being on.  It looks out for the kernel stack but not for
     the terminals' buffers and the spare page below it.
     */
    method SetKernelBrk(addr: int, kernelDataEnd: int) returns (status: int)
      requires Valid() && 0 <= kernelDataEnd
      modifies this`tables, this`tlb, this`own, this`kernelBrk, frames`free, frames`count, frames.list
      ensures Running() && HeapsMapped(tables, pcbs, {})
      ensures !KernelBreakAt(addr, kernelDataEnd) ==>
        status == ERROR && tables == old(tables) && own == old(own) && frames.free == old(frames.free)
      ensures kernelBrk == if status == SUCCESS then addr else old(kernelBrk)
      ensures KernelBreakAt(addr, kernelDataEnd) ==>
        BreakMoved(Kernel, PagesBelow(old(kernelBrk)), PagesBelow(addr), status,
                   old(tables), old(frames.free), old(frames.count), old(LeakedFrames(own)),
                   tables, frames.free, frames.count, LeakedFrames(own))
      ensures Valid() <==>
        KernelBreakAt(addr, kernelDataEnd) ==>
          Reached(PagesBelow(old(kernelBrk)), PagesBelow(addr), old(frames.count)) <= BUFFER_VPN
    {
      if addr >= KERNEL_STACK_VPN * PAGESIZE { return ERROR; }
      if addr < kernelDataEnd { return ERROR; }
      PageReaches(addr, 0);
      PagesBelowMeans(addr, KERNEL_STACK_VPN);
      status := MoveBreak(Kernel, 0, kernelBrk, addr, PagesBelow(kernelBrk), PagesBelow(addr));
      KernelBreakKeeps(old(own), old(frames.free), old(frames.count), frames.all, old(LeakedFrames(own)), old(tables),
        pcbs,
                       frames.free, frames.count, LeakedFrames(own), tables, kernelBrk, addr, bufferPfn, status);
      if status == SUCCESS { kernelBrk := addr; }
    }

    /**
     handleTrapMemory, up to the call of KernelExit when it returns `killed`.  `from` is the
     lowest page that it has reached.
     */
    method HandleTrapMemory(addr: int) returns (killed: bool, ghost from: int)
      requires Valid()
      modifies this`tables, this`tlb, this`own, frames`free, frames`count, frames.list
      ensures Valid()
      ensures var target := Vpn(addr) - MAX_PT_LEN;
        if Vpn(addr) <= Vpn(pcbs[cur].brk) + 1 then
          killed && tables == old(tables) && own == old(own) && frames.free == old(frames.free)
        else
          && killed == (User(cur) in old(tables) && old(frames.count) < Missing(old(tables)[User(cur)], target))
          && HeapPages(pcbs[cur].brk) < target
          && (if killed then target < from && frames.free == {} else from == Min(target, MAX_PT_LEN))
          && Filling(User(cur), from, old(tables), old(frames.free), old(LeakedFrames(own)),
                     tables, frames.free, LeakedFrames(own))
    {
      var targetPage := Vpn(addr);
      var breakPage := Vpn(pcbs[cur].brk);
      assert HeapMapped(tables[User(cur)], pcbs[cur].brk);
      if targetPage <= breakPage + 1 { return true, 0; }
      killed, from := FillStack(targetPage);
      HeapsKept(User(cur), old(tables), tables, pcbs, pcbs, cur);
    }

    /** Its loop, from the top of region 1 down to the page asked for */
    method FillStack(targetPage: int) returns (killed: bool, ghost from: int)
      requires Running() && MAX_PT_LEN < targetPage
      modifies this`tables, this`tlb, this`own, frames`free, frames`count, frames.list
      ensures Running()
      ensures killed == (old(frames.count) < Missing(old(tables[User(cur)]), targetPage - MAX_PT_LEN))
      ensures if killed then targetPage - MAX_PT_LEN < from && frames.free == {}
        else from == Min(targetPage - MAX_PT_LEN, MAX_PT_LEN)
      ensures Filling(User(cur), from, old(tables), old(frames.free), old(LeakedFrames(own)),
                      tables, frames.free, LeakedFrames(own))
    {
      var i := MAX_PT_LEN - 1;
      from := MAX_PT_LEN;
      while MAX_PT_LEN + i >= targetPage
        invariant 0 < from == i + 1 <= MAX_PT_LEN && Running()
        invariant targetPage <= MAX_PT_LEN + from || from == MAX_PT_LEN
        invariant frames.count == old(frames.count) - Missing(old(tables[User(cur)]), from)
        invariant Filling(User(cur), from, old(tables), old(frames.free), old(LeakedFrames(own)),
                          tables, frames.free, LeakedFrames(own))
      {
        ghost var at, tables', free', leaked' := from, tables, frames.free, LeakedFrames(own);
        if !tables[User(cur)][i].valid {
          var ok := MapPage(User(cur), i);
          if ok == ERROR {
            NoneToFill(User(cur), at, i, targetPage - MAX_PT_LEN, old(tables), old(frames.free), old(LeakedFrames(own)),
                       tables', free', leaked');
            return true, at;
          }
          from := i;
          FillingBy(User(cur), at, from, old(tables), old(frames.free), old(LeakedFrames(own)), tables', free', leaked',
                    tables[User(cur)][i].pfn, tables, frames.free, LeakedFrames(own));
        } else {
          from := i;
          FillingOver(User(cur), at, from, old(tables), old(frames.free), old(LeakedFrames(own)),
                      tables, frames.free, LeakedFrames(own));
        }
        i := i - 1;
      }
      return false, from;
    }

    // ------------------------------------------------------------------- LoadProgram.c

    /** Throw away the old region 1 of the running process. */
    method ClearRegion1()
      requires Running()
      modifies this`tables, this`tlb, this`own, frames`free, frames`count, frames.list
      ensures Running()
      ensures Cleared(User(cur), MAX_PT_LEN, old(tables), old(frames.free), old(LeakedFrames(own)),
                      tables, frames.free, LeakedFrames(own))
      ensures frames.count == old(frames.count) + Mapped(old(tables[User(cur)]), 0, MAX_PT_LEN)
    {
      var i := 0;
      while i < MAX_PT_LEN
        invariant 0 <= i <= MAX_PT_LEN && Running()
        invariant frames.count == old(frames.count) + Mapped(old(tables[User(cur)]), 0, i)
        invariant Cleared(User(cur), i, old(tables), old(frames.free), old(LeakedFrames(own)),
                          tables, frames.free, LeakedFrames(own))
      {
        ghost var at, tables', free', leaked' := i, tables, frames.free, LeakedFrames(own);
        if tables[User(cur)][i].valid { UnmapPage(User(cur), i); }
        i := i + 1;
        ClearedBy(User(cur), at, i, old(tables), old(frames.free), old(LeakedFrames(own)), tables', free', leaked',
                  tables, frames.free, LeakedFrames(own));
      }
    }

    /** Make the program's text executable and no longer writable. */
    method ProtectText(text: nat)
      requires Running() && text <= MAX_PT_LEN
      modifies this`tables, this`tlb
      ensures Running() && Protected(User(cur), text, READ_EXEC, old(tables), tables)
    {
      var i := 0;
      while i < text
        invariant 0 <= i <= text && Running()
        invariant Protected(User(cur), i, READ_EXEC, old(tables), tables)
      {
        var pte := tables[User(cur)][i].(prot := READ_EXEC);
        OneEntry(tables, pcbs, User(cur), i, pte);
        SameBooked(own, frames.free, frames.all, tables, pcbs, SetEntry(tables, User(cur), i, pte), pcbs);
        SetPageTableEntry(User(cur), i, pte);
        i := i + 1;
      }
    }

    /** One of LoadProgram's loops that map a stretch of unmapped pages */
    method MapFresh(lo: nat, hi: int) returns (status: int)
      requires Running() && HeapsMapped(tables, pcbs, {cur}) && KernelMapped(tables[Kernel], kernelBrk, bufferPfn)
      requires lo <= hi <= MAX_PT_LEN && UnmappedIn(tables[User(cur)], lo, hi)
      modifies this`tables, this`tlb, this`own, frames`free, frames`count, frames.list
      ensures Running() && HeapsMapped(tables, pcbs, {cur}) && KernelMapped(tables[Kernel], kernelBrk, bufferPfn)
      ensures LeakedFrames(own) == old(LeakedFrames(own)) && Only(User(cur), old(tables), tables)
      ensures SameOutside(old(tables[User(cur)]), tables[User(cur)], lo, hi)
      ensures status == if old(frames.count) >= hi - lo then SUCCESS else KILL
      ensures status == SUCCESS ==>
        AllProt(tables[User(cur)], lo, hi, READ_WRITE) && frames.count == old(frames.count) - (hi - lo)
    {
      ghost var upTo := Min(hi, lo + frames.count);
      status := MapPages(User(cur), lo, hi);
      LostAre(User(cur), old(tables[User(cur)]), tables[User(cur)], lo, upTo);
      NothingMapped(old(tables[User(cur)]), lo, upTo);
      HeapsKept(User(cur), old(tables), tables, pcbs, pcbs, cur);
      if status == ERROR { return KILL; }
    }

    /** LoadProgram's loops that map text and data, and the break above them */
    method MapTextAndData(text: nat, data: nat) returns (status: int, ghost t: PageTable)
      requires Running() && HeapsMapped(tables, pcbs, {cur}) && KernelMapped(tables[Kernel], kernelBrk, bufferPfn)
      requires text + data < MAX_PT_LEN && UnmappedIn(tables[User(cur)], 0, MAX_PT_LEN)
      modifies this`tables, this`tlb, this`own, this`pcbs, frames`free, frames`count, frames.list
      ensures Running() && HeapsMapped(tables, pcbs, {cur}) && KernelMapped(tables[Kernel], kernelBrk, bufferPfn)
      ensures LeakedFrames(own) == old(LeakedFrames(own))
      ensures Only(User(cur), old(tables), tables) && pcbs == old(pcbs)[cur := pcbs[cur]]
      ensures status == if old(frames.count) >= text + data then SUCCESS else KILL
      ensures status == SUCCESS ==>
        && SameOutside(old(tables[User(cur)]), t, 0, text) && AllProt(t, 0, text, READ_WRITE)
        && SameOutside(t, tables[User(cur)], text, text + data)
        && AllProt(tables[User(cur)], text, text + data, READ_WRITE)
        && HeapPages(pcbs[cur].brk) == text + data && frames.count == old(frames.count) - (text + data)
    {
      status := MapFresh(0, text);
      t := tables[User(cur)];
      if status == KILL { return; }
      status := MapFresh(text, text + data);
      if status == KILL { return; }
      VpnOfPage(MAX_PT_LEN + text + data);
      SetBrk((MAX_PT_LEN + text + data) * PAGESIZE);
    }

    /** LoadProgram's loops that fill the cleared region 1 */
    method MapProgram(text: nat, data: nat, stack: nat) returns (status: int)
      requires Running() && HeapsMapped(tables, pcbs, {cur}) && KernelMapped(tables[Kernel], kernelBrk, bufferPfn)
      requires stack + text + data < MAX_PT_LEN && UnmappedIn(tables[User(cur)], 0, MAX_PT_LEN)
      modifies this`tables, this`tlb, this`own, this`pcbs, frames`free, frames`count, frames.list
      ensures Running() && HeapsMapped(tables, pcbs, {cur}) && KernelMapped(tables[Kernel], kernelBrk, bufferPfn)
      ensures LeakedFrames(own) == old(LeakedFrames(own))
      ensures Only(User(cur), old(tables), tables) && pcbs == old(pcbs)[cur := pcbs[cur]]
      ensures status == if old(frames.count) >= text + data + stack then SUCCESS else KILL
      ensures status == SUCCESS ==>
        ProgramMapped(tables[User(cur)], text, data, stack) && HeapPages(pcbs[cur].brk) == text + data
    {
      ghost var t1;
      status, t1 := MapTextAndData(text, data);
      if status == KILL { return; }
      ghost var t2 := tables[User(cur)];
      status := MapFresh(MAX_PT_LEN - stack, MAX_PT_LEN);
      if status == KILL { return; }
      ProgramPages(old(tables[User(cur)]), t1, t2, tables[User(cur)], text, data, stack);
    }

    /** The old region 1 goes, the new program's pages come. */
    method ReplaceRegion1(text: nat, data: nat, stack: nat) returns (status: int)
      requires Valid() && stack + text + data < MAX_PT_LEN
      modifies this`tables, this`tlb, this`own, this`pcbs, frames`free, frames`count, frames.list
      ensures Running() && HeapsMapped(tables, pcbs, {cur}) && KernelMapped(tables[Kernel], kernelBrk, bufferPfn)
      ensures LeakedFrames(own) == old(LeakedFrames(own))
      ensures Only(User(cur), old(tables), tables) && pcbs == old(pcbs)[cur := pcbs[cur]]
      ensures User(cur) in old(tables) &&
        status == if old(frames.count) + Mapped(old(tables)[User(cur)], 0, MAX_PT_LEN) >= text + data + stack
                  then SUCCESS else KILL
      ensures status == SUCCESS ==>
        ProgramMapped(tables[User(cur)], text, data, stack) && HeapPages(pcbs[cur].brk) == text + data
    {
      ClearRegion1();
      HeapsKept(User(cur), old(tables), tables, pcbs, pcbs, cur);
      ghost var cleared := tables;
      status := MapProgram(text, data, stack);
      OnlyTwice(User(cur), old(tables), cleared, tables);
    }

    /**
     LoadProgram: the text starts at page 0 and the data follows it.  The program's pages
     are read from the file afterwards.
     */
    method LoadProgram(text: nat, data: nat, stack: nat) returns (status: int)
      requires Valid()
      modifies this`tables, this`tlb, this`own, this`pcbs, frames`free, frames`count, frames.list
      ensures Running() && HeapsMapped(tables, pcbs, {cur}) && KernelMapped(tables[Kernel], kernelBrk, bufferPfn)
      ensures LeakedFrames(own) == old(LeakedFrames(own))
      ensures Only(User(cur), old(tables), tables) && pcbs == old(pcbs)[cur := pcbs[cur]]
      ensures status == ERROR <==> stack + text + data >= MAX_PT_LEN
      ensures status == ERROR ==> Valid() && tables == old(tables) && pcbs == old(pcbs) && own == old(own)
      ensures status in {SUCCESS, ERROR, KILL}
      ensures User(cur) in old(tables) &&
        (status == SUCCESS <==>
          && stack + text + data < MAX_PT_LEN
          && old(frames.count) + Mapped(old(tables)[User(cur)], 0, MAX_PT_LEN) >= text + data + stack)
      ensures status == SUCCESS ==>
        && Valid() && ProgramLayout(tables[User(cur)], text, data, stack)
        && HeapPages(pcbs[cur].brk) == text + data
    {
      if stack + text + data >= MAX_PT_LEN { return ERROR; }
      status := ReplaceRegion1(text, data, stack);
      if status == KILL { return; }
      ghost var tables' := tables;
      ProtectText(text);
      OnlyTwice(User(cur), old(tables), tables', tables);
      TextProtected(cur, text, data, stack, tables', tables, pcbs);
    }

    // ------------------------------------------------------------ Scheduler.c: switching

    /** Point page `k` of the kernel stack in region 0 at the current process's frame. */
    method MapStackPage(k: nat)
      requires TablesOk() && FramesOk() && cur in pcbs && k < |pcbs[cur].stackPfns| == KERNEL_STACK_PAGES
      modifies this`tables, this`tlb
      ensures TablesOk() && FramesOk() && Kernel in old(tables)
      ensures tables == SetEntry(old(tables), Kernel, KERNEL_STACK_VPN + k,
        Pte(true, READ_WRITE, pcbs[cur].stackPfns[k]))
    {
      var pte := Pte(true, READ_WRITE, pcbs[cur].stackPfns[k]);
      OneEntry(tables, pcbs, Kernel, KERNEL_STACK_VPN + k, pte);
      SameBooked(own, frames.free, frames.all, tables, pcbs, SetEntry(tables, Kernel, KERNEL_STACK_VPN + k, pte), pcbs);
      SetPageTableEntry(Kernel, KERNEL_STACK_VPN + k, pte);
    }

    /** memmove of the starter kernel stack onto the kernel stack in place */
    method RestoreStarterStack()
      requires TablesOk() && FramesOk() && cur in pcbs && StackMapped(tables[Kernel], pcbs[cur].stackPfns)
      modifies this`ram, this`tlb
      ensures TablesOk() && FramesOk()
      ensures StackWritten(KERNEL_STACK_PAGES, pcbs[cur].stackPfns, starterKernelStack, old(ram), ram)
    {
      StackDistinct(own, frames.free, frames.all, tables, pcbs, cur);
      var k := 0;
      while k < KERNEL_STACK_PAGES
        invariant 0 <= k <= KERNEL_STACK_PAGES && TablesOk() && FramesOk()
        invariant StackWritten(k, pcbs[cur].stackPfns, starterKernelStack, old(ram), ram)
      {
        assert tables[Kernel][KERNEL_STACK_VPN + k] == Pte(true, READ_WRITE, pcbs[cur].stackPfns[k]);
        StackWrittenBy(k, pcbs[cur].stackPfns, starterKernelStack, old(ram), ram);
        StorePage(Kernel, KERNEL_STACK_VPN + k, starterKernelStack[k]);
        k := k + 1;
      }
    }

    /** WriteRegister(REG_PTBR1, ...) and WriteRegister(REG_TLB_FLUSH, TLB_FLUSH_1) */
    method LoadTable()
      requires TablesOk() && cur in pcbs
      modifies this`ptbr1, this`loaded, this`tlb
      ensures TablesOk() && loaded == cur
    {
      var tlb' := map v | v in tlb && v < MAX_PT_LEN :: tlb[v];
      LoadedTranslating(tables, pcbs, tlb, ptbr0, ptbr1, loaded, cur, tlb');
      ptbr1, loaded, tlb := pcbs[cur].base, cur, tlb';
    }

    /** switchBetween; the process left may be gone already. */
    method SwitchBetween(next: Pid)
      requires TablesOk() && FramesOk() && next in pcbs
      modifies this`cur, this`tables, this`pcbs, this`ram, this`ptbr1, this`loaded, this`tlb
      ensures Running() && cur == next
      ensures Only(Kernel, old(tables), tables)
        && SameOutside(old(tables[Kernel]), tables[Kernel], KERNEL_STACK_VPN, MAX_PT_LEN)
      ensures pcbs == old(pcbs)[next := old(pcbs[next]).(started := true)]
      ensures if old(pcbs[next]).started then ram == old(ram)
        else StackWritten(KERNEL_STACK_PAGES, pcbs[cur].stackPfns, starterKernelStack, old(ram), ram)
    {
      cur := next;
      var k := 0;
      assert |pcbs[cur].stackPfns| == KERNEL_STACK_PAGES;
      while k < KERNEL_STACK_PAGES
        modifies this`tables, this`tlb
        invariant 0 <= k <= KERNEL_STACK_PAGES && TablesOk() && FramesOk()
        invariant SwitchedTables(k, old(tables), pcbs[cur].stackPfns, tables)
      {
        ghost var at, tables' := k, tables;
        MapStackPage(k);
        k := k + 1;
        SwitchedBy(at, k, old(tables), pcbs[cur].stackPfns, tables', tables);
      }
      Switched(k, old(tables), pcbs[cur].stackPfns, tables);
      if pcbs[cur].started {
        assert pcbs[cur := pcbs[cur].(started := true)] == pcbs;
      } else {
        StartProcess();
      }
      LoadTable();
    }

    /** The switch that ends blockProcess, sleepProcess and kickProcess, as it concerns memory */
    method Dispatch(next: Pid)
      requires Valid() && next in pcbs
      modifies this`cur, this`tables, this`pcbs, this`ram, this`ptbr1, this`loaded, this`tlb
      ensures Valid() && cur == next && pcbs == old(pcbs)[next := old(pcbs[next]).(started := true)]
      ensures forall q :: q in pcbs ==>
        User(q) in tables && User(q) in old(tables) && tables[User(q)] == old(tables)[User(q)]
      ensures forall q :: q in pcbs && q != next ==> SameBytes(FramesOf(tables, pcbs, q), old(ram), ram)
      ensures if old(pcbs[next]).started then ram == old(ram)
        else StackWritten(KERNEL_STACK_PAGES, pcbs[next].stackPfns, starterKernelStack, old(ram), ram)
    {
      SwitchBetween(next);
      HeapsSurvive(old(tables), old(pcbs), tables, pcbs, {});
      OthersKeepBytes(own, tables, pcbs, next, old(ram), ram);
    }

    /** The process runs for the first time, on a copy of the starter kernel stack. */
    method StartProcess()
      requires TablesOk() && FramesOk() && cur in pcbs && StackMapped(tables[Kernel], pcbs[cur].stackPfns)
      modifies this`pcbs, this`ram, this`tlb
      ensures TablesOk() && FramesOk()
      ensures pcbs == old(pcbs)[cur := old(pcbs[cur]).(started := true)]
      ensures StackWritten(KERNEL_STACK_PAGES, pcbs[cur].stackPfns, starterKernelStack, old(ram), ram)
    {
      var pcbs' := pcbs[cur := pcbs[cur].(started := true)];
      SameBooked(own, frames.free, frames.all, tables, pcbs, tables, pcbs');
      pcbs := pcbs';
      RestoreStarterStack();
    }

    /** delete_process: free the frames of a table ... */
    method FreeTable(r1: PageTable)
      requires frames.Valid()
      modifies frames`free, frames`count, frames.list
      ensures frames.Valid() && frames.free == old(frames.free) + FramesIn(r1, 0, MAX_PT_LEN) * frames.all
    {
      var i := 0;
      while i < MAX_PT_LEN
        invariant 0 <= i <= MAX_PT_LEN && frames.Valid()
        invariant frames.free == old(frames.free) + FramesIn(r1, 0, i) * frames.all
      {
        if r1[i].valid { frames.FreeFrame(r1[i].pfn); }
        i := i + 1;
      }
    }

    /** ... and those of a kernel stack. */
    method FreeStack(pfns: seq<int>)
      requires frames.Valid()
      modifies frames`free, frames`count, frames.list
      ensures frames.Valid() && frames.free == old(frames.free) + Elements(pfns) * frames.all
    {
      var k := 0;
      while k < |pfns|
        invariant 0 <= k <= |pfns| && frames.Valid()
        invariant frames.free == old(frames.free) + Elements(pfns[..k]) * frames.all
      {
        ElementsSnoc(pfns, k);
        frames.FreeFrame(pfns[k]);
        k := k + 1;
      }
      assert pfns[..k] == pfns;
    }

    /** delete_process for the running process, whose table stays loaded until the switch that follows */
    method DeleteProcess()
      requires Running()
      modifies this`tables, this`pcbs, this`own, frames`free, frames`count, frames.list
      ensures TablesOk() && FramesOk() && LeakedFrames(own) == old(LeakedFrames(own))
      ensures User(cur) in old(tables) && frames.free == old(frames.free) + old(FramesOf(tables, pcbs, cur))
      ensures tables == old(tables) - {User(cur)} && pcbs == old(pcbs) - {cur}
    {
      BuryAccounted(own, frames.free, frames.all, tables, pcbs, cur);
      StackFramesAre(pcbs[cur]);
      EndedTranslating(tables, pcbs, tlb, ptbr0, ptbr1, loaded);
      AllFreed(frames.free, FramesIn(tables[User(cur)], 0, MAX_PT_LEN), Elements(pcbs[cur].stackPfns), frames.all);
      own := own - FramesOf(tables, pcbs, cur);
      FreeTable(tables[User(cur)]);
      FreeStack(pcbs[cur].stackPfns);
      tables, pcbs := tables - {User(cur)}, pcbs - {cur};
    }

    /** exitProcess as it concerns memory, `next` being the process that the ready queue yields */
    method KernelExit(next: Pid)
      requires Running() && HeapsMapped(tables, pcbs, {cur}) && KernelMapped(tables[Kernel], kernelBrk, bufferPfn)
      requires next in pcbs && next != cur
      modifies this, frames`free, frames`count, frames.list
      ensures Valid() && cur == next && kernelBrk == old(kernelBrk)
      ensures pcbs == (old(pcbs) - {old(cur)})[next := old(pcbs[next]).(started := true)]
      ensures forall q :: q in pcbs ==>
        User(q) in tables && User(q) in old(tables) && tables[User(q)] == old(tables)[User(q)]
      ensures User(old(cur)) in old(tables) && frames.free == old(frames.free) + old(FramesOf(tables, pcbs, cur))
      ensures LeakedFrames(own) == old(LeakedFrames(own))
      ensures if old(pcbs[next]).started then ram == old(ram)
        else StackWritten(KERNEL_STACK_PAGES, pcbs[next].stackPfns, starterKernelStack, old(ram), ram)
    {
      DeleteProcess();
      SwitchBetween(next);
      HeapsSurvive(old(tables), old(pcbs), tables, pcbs, {old(cur)});
    }

    // ------------------------------------------------------------------ KernelFork

    /**
     The frames for a new kernel stack.  When frames run out, the C code gives back every
     entry of `stackPfns`, filled or not; `junk` is what malloc left in them.
     */
    method TakeStackFrames(junk: seq<int>) returns (status: int, pfns: seq<int>)
      requires frames.Valid() && |junk| == KERNEL_STACK_PAGES
      modifies frames`free, frames`count, frames.list
      ensures frames.Valid()
      ensures status == if old(frames.count) < KERNEL_STACK_PAGES then ERROR else SUCCESS
      ensures status == SUCCESS ==>
        && |pfns| == KERNEL_STACK_PAGES && NoDup(pfns)
        && Elements(pfns) <= old(frames.free) && frames.free == old(frames.free) - Elements(pfns)
        && frames.count == old(frames.count) - KERNEL_STACK_PAGES
      ensures status == ERROR ==>
        frames.free == old(frames.free) + Elements(junk[old(frames.count)..]) * frames.all
    {
      pfns := [];
      while |pfns| < KERNEL_STACK_PAGES
        invariant frames.Valid() && |pfns| <= KERNEL_STACK_PAGES && NoDup(pfns)
        invariant Elements(pfns) <= old(frames.free) && frames.free == old(frames.free) - Elements(pfns)
        invariant frames.count == old(frames.count) - |pfns|
      {
        var ok, f := frames.GetFrame();
        if ok == ERROR {
          ElementsOfSum(pfns, junk[|pfns|..]);
          assert old(frames.count) == |pfns|;
          FreeStack(pfns + junk[|pfns|..]);
          return ERROR, [];
        }
        ElementsOfSum(pfns, [f]);
        pfns := pfns + [f];
      }
      return SUCCESS, pfns;
    }

    /** A process with these frames for its kernel stack, and nothing else, comes into being. */
    method AddPcb(p: Pid, pcb: Pcb, ghost free: set<int>)
      requires TablesOk() && frames.Valid() && loaded in pcbs && NewPcb(tables, pcbs, p)
        && RoomFor(ptbr0, pcbs, pcb.base)
      requires Accounted(own, free, frames.all, tables, pcbs) && frames.free == free - Elements(pcb.stackPfns)
      requires ram.Keys == frames.all && |starterKernelStack| == KERNEL_STACK_PAGES
      requires |pcb.stackPfns| == KERNEL_STACK_PAGES && NoDup(pcb.stackPfns) && Elements(pcb.stackPfns) <= free
      modifies this`tables, this`pcbs, this`own
      ensures TablesOk() && FramesOk() && LeakedFrames(own) == old(LeakedFrames(own))
      ensures tables == old(tables)[User(p) := FreshTable()] && pcbs == old(pcbs)[p := pcb]
    {
      AdoptAccounted(own, free, frames.all, tables, pcbs, p, pcb);
      NewTranslating(tables, pcbs, tlb, ptbr0, ptbr1, loaded, p, pcb);
      own := Adopt(own, p, pcb.stackPfns);
      tables, pcbs := tables[User(p) := FreshTable()], pcbs[p := pcb];
    }

    /** initPCB: a process with an empty region 1, a break at its bottom and a kernel stack of its own */
    method InitPcb(p: Pid, base: int, junk: seq<int>) returns (status: int)
      requires Running() && NewPcb(tables, pcbs, p) && |junk| == KERNEL_STACK_PAGES
      requires RoomFor(ptbr0, pcbs, base)
      modifies this`tables, this`pcbs, this`own, frames`free, frames`count, frames.list
      ensures status == if old(frames.count) < KERNEL_STACK_PAGES then ERROR else SUCCESS
      ensures status == SUCCESS ==>
        && Running() && p in pcbs && pcbs == old(pcbs)[p := Pcb(base, MAX_PT_LEN * PAGESIZE, pcbs[p].stackPfns, false)]
        && tables == old(tables)[User(p) := FreshTable()]
        && Elements(pcbs[p].stackPfns) <= old(frames.free)
        && frames.free == old(frames.free) - Elements(pcbs[p].stackPfns)
        && frames.count == old(frames.count) - KERNEL_STACK_PAGES
        && LeakedFrames(own) == old(LeakedFrames(own))
      ensures status == ERROR ==>
        && TablesOk() && tables == old(tables) && pcbs == old(pcbs) && own == old(own) && frames.Valid()
        && frames.free == old(frames.free) + Elements(junk[old(frames.count)..]) * frames.all
    {
      var ok, pfns := TakeStackFrames(junk);
      if ok == ERROR { return ERROR; }
      AddPcb(p, Pcb(base, MAX_PT_LEN * PAGESIZE, pfns, false), old(frames.free));
      return SUCCESS;
    }

    /** One round of KernelFork's loop: copy a page of the parent through the spare page. */
    method ForkPage(child: Pid, i: nat) returns (status: int)
      requires Running() && child in pcbs && child != cur && i < MAX_PT_LEN && User(child) in tables
      requires User(cur) in tables && tables[User(cur)][i].valid && !tables[User(child)][i].valid
      modifies this`tables, this`tlb, this`ram, this`own, frames`free, frames`count, frames.list
      ensures Running()
      ensures status == if old(frames.count) == 0 then ERROR else SUCCESS
      ensures status == ERROR ==>
        && tables == old(tables) && ram == old(ram) && own == old(own)
        && frames.free == old(frames.free) == {} && frames.count == 0
      ensures status == SUCCESS ==>
        var f := tables[User(child)][i].pfn; var e := old(tables[User(cur)][i]);
        && f in old(frames.free) && frames.free == old(frames.free) - {f} && frames.count == old(frames.count) - 1
        && tables == SetForkEntries(old(tables), child, i, Pte(true, e.prot, f))
        && e.pfn in old(ram) && ram == old(ram)[f := old(ram)[e.pfn]]
        && LeakedFrames(own) == old(LeakedFrames(own))
    {
      var ok, f := frames.GetFrame();
      if ok == ERROR { return ERROR; }
      var prot := tables[User(cur)][i].prot;
      PageInUse(own, old(frames.free), frames.all, tables, pcbs, User(cur), i);
      CopyThroughSpare(child, i, f, prot);
      ForkEntriesKeep(old(tables), child, i, Pte(true, prot, f), pcbs[cur].stackPfns, tables);
      own := Take(own, None, Page(User(child), i), f);
      ForkPageAccounted(old(own), old(frames.free), frames.all, old(tables), pcbs, child, i, f, prot, own, frames.free,
        tables);
      return SUCCESS;
    }

    /** The frame is mapped at the spare page, filled, and then put in the child's table. */
    method CopyThroughSpare(child: Pid, i: nat, f: int, prot: set<Prot>)
      requires TablesOk() && loaded == cur && cur in pcbs && child in pcbs && child != cur && i < MAX_PT_LEN
      requires User(cur) in tables && tables[User(cur)][i].valid && tables[User(cur)][i].pfn in ram && f in ram
      modifies this`tables, this`tlb, this`ram
      ensures TablesOk() && Kernel in old(tables) && User(child) in old(tables)
      ensures tables == SetForkEntries(old(tables), child, i, Pte(true, prot, f))
      ensures ram == old(ram)[f := old(ram)[old(tables[User(cur)][i]).pfn]] && ram.Keys == old(ram.Keys)
    {
      assert User(child) in tables;
      SetPageTableEntry(Kernel, TEMP_VPN, Pte(true, {Write}, f));
      CopyPage(TEMP_VPN, User(cur), i);
      SetPageTableEntryNoFlush(child, i, Pte(true, prot, f));
    }

    /** One round of KernelFork's loop, for page `at` */
    method ForkRound(child: Pid, at: nat, ghost n: int, ghost tables0: Tables, ghost free0: set<int>,
                     ghost ram0: map<int, Bytes>, ghost leaked0: set<int>) returns (status: int)
      requires Running() && child in pcbs && child != cur && at < MAX_PT_LEN && n == at + 1
      requires Forked(at, cur, child, tables0, free0, ram0, leaked0, tables, frames.free, ram, LeakedFrames(own))
      requires tables[User(cur)] == tables0[User(cur)] && OldPagesInUse(tables0[User(cur)], free0, ram0)
      modifies this`tables, this`tlb, this`ram, this`own, frames`free, frames`count, frames.list
      ensures Running() && Mapped(tables0[User(cur)], 0, n)
        == Mapped(tables0[User(cur)], 0, at) + (if tables0[User(cur)][at].valid then 1 else 0)
      ensures status == if tables0[User(cur)][at].valid && old(frames.count) == 0 then ERROR else SUCCESS
      ensures status == ERROR ==> frames.free == {} && frames.count == 0
      ensures Forked(if status == SUCCESS then n else at, cur, child, tables0, free0, ram0, leaked0,
                     tables, frames.free, ram, LeakedFrames(own))
      ensures User(cur) in tables && tables[User(cur)] == tables0[User(cur)]
      ensures status == SUCCESS ==>
        frames.count == old(frames.count) - (if tables0[User(cur)][at].valid then 1 else 0)
    {
      ghost var tables', free', ram', leaked' := tables, frames.free, ram, LeakedFrames(own);
      if !tables[User(cur)][at].valid {
        ForkedOver(at, n, cur, child, tables0, free0, ram0, leaked0, tables, frames.free, ram, LeakedFrames(own));
        return SUCCESS;
      }
      status := ForkPage(child, at);
      if status == SUCCESS {
        ForkedBy(at, n, cur, child, tables0, free0, ram0, leaked0, tables', free', ram', leaked',
                 tables[User(child)][at].pfn, tables, frames.free, ram, LeakedFrames(own));
      } else {
        assert Mapped(tables0[User(cur)], 0, n) == Mapped(tables0[User(cur)], 0, at) + 1;
      }
    }

    /** KernelFork's loop; `n` is the page at which frames ran out. */
    method CopyRegion1(child: Pid) returns (status: int, ghost n: int)
      requires Running() && child in pcbs && child != cur && User(child) in tables
      requires UnmappedIn(tables[User(child)], 0, MAX_PT_LEN)
      modifies this`tables, this`tlb, this`ram, this`own, frames`free, frames`count, frames.list
      ensures Running()
      ensures Forked(n, cur, child, old(tables), old(frames.free), old(ram), old(LeakedFrames(own)),
                     tables, frames.free, ram, LeakedFrames(own))
      ensures status == SUCCESS ==> n == MAX_PT_LEN
      ensures status == ERROR ==> frames.free == {}
      ensures User(cur) in old(tables) &&
        status == if old(frames.count) >= Mapped(old(tables)[User(cur)], 0, MAX_PT_LEN) then SUCCESS else ERROR
    {
      ghost var table := tables[User(cur)];
      NothingForked(cur, child, tables, frames.free, ram, LeakedFrames(own));
      PagesInUse(own, frames.free, frames.all, tables, pcbs, cur, ram);
      var i := 0;
      while i < MAX_PT_LEN
        invariant 0 <= i <= MAX_PT_LEN && Running() && User(cur) in tables && tables[User(cur)] == table
        invariant frames.count == old(frames.count) - Mapped(table, 0, i)
        invariant Forked(i, cur, child, old(tables), old(frames.free), old(ram), old(LeakedFrames(own)),
                         tables, frames.free, ram, LeakedFrames(own))
      {
        var at := i;
        i := i + 1;
        var ok := ForkRound(child, at, i, old(tables), old(frames.free), old(ram), old(LeakedFrames(own)));
        if ok == ERROR {
          MappedMore(table, 0, i, MAX_PT_LEN);
          return ERROR, at;
        }
      }
      return SUCCESS, i;
    }

    /** setPageTableEntry on the spare page */
    method SetTempPage(pte: Pte)
      requires TablesOk() && FramesOk()
      modifies this`tables, this`tlb
      ensures TablesOk() && FramesOk()
      ensures Kernel in old(tables) && tables == SetEntry(old(tables), Kernel, TEMP_VPN, pte)
    {
      OneEntry(tables, pcbs, Kernel, TEMP_VPN, pte);
      SameBooked(own, frames.free, frames.all, tables, pcbs, SetEntry(tables, Kernel, TEMP_VPN, pte), pcbs);
      SetPageTableEntry(Kernel, TEMP_VPN, pte);
    }

    /** One round of forkTo's loop: copy a page of the parent's kernel stack, then map the copy in its place. */
    method ForkStackPage(k: nat)
      requires TablesOk() && FramesOk() && cur in pcbs && k < |pcbs[cur].stackPfns| == KERNEL_STACK_PAGES
      requires Kernel in tables && tables[Kernel][KERNEL_STACK_VPN + k].valid
      requires tables[Kernel][KERNEL_STACK_VPN + k].pfn in ram && pcbs[cur].stackPfns[k] in ram
      modifies this`tables, this`tlb, this`ram
      ensures TablesOk() && FramesOk() && Kernel in tables
      ensures var f := pcbs[cur].stackPfns[k];
        && tables == SetEntry(SetEntry(old(tables), Kernel, TEMP_VPN, Pte(true, {Write}, f)),
                              Kernel, KERNEL_STACK_VPN + k, Pte(true, READ_WRITE, f))
        && ram == old(ram)[f := old(ram)[old(tables)[Kernel][KERNEL_STACK_VPN + k].pfn]]
    {
      SetTempPage(Pte(true, {Write}, pcbs[cur].stackPfns[k]));
      CopyPage(TEMP_VPN, Kernel, KERNEL_STACK_VPN + k);
      MapStackPage(k);
    }

    /** forkTo's loop: the parent's kernel stack, page by page, becomes the child's. */
    method CopyKernelStack(ghost parent: Pid, ghost contents: seq<Bytes>)
      requires TablesOk() && FramesOk() && cur in pcbs && parent in pcbs && parent != cur
      requires StackMapped(tables[Kernel], pcbs[parent].stackPfns) && |pcbs[cur].stackPfns| == KERNEL_STACK_PAGES
      requires forall k :: 0 <= k < |pcbs[parent].stackPfns| ==> pcbs[parent].stackPfns[k] in ram
      requires contents == StackContents(pcbs[parent].stackPfns, ram)
      modifies this`tables, this`tlb, this`ram
      ensures TablesOk() && FramesOk() && ForkingTables(KERNEL_STACK_PAGES, old(tables), pcbs[cur].stackPfns, tables)
      ensures StackWritten(KERNEL_STACK_PAGES, pcbs[cur].stackPfns, contents, old(ram), ram)
    {
      StackDistinct(own, frames.free, frames.all, tables, pcbs, cur);
      var k := 0;
      while k < KERNEL_STACK_PAGES
        invariant 0 <= k <= KERNEL_STACK_PAGES && TablesOk() && FramesOk()
        invariant ForkingTables(k, old(tables), pcbs[cur].stackPfns, tables)
        invariant StackWritten(k, pcbs[cur].stackPfns, contents, old(ram), ram)
      {
        StacksApart(own, tables, pcbs, parent, cur, k);
        assert tables[Kernel][KERNEL_STACK_VPN + k] == Pte(true, READ_WRITE, pcbs[parent].stackPfns[k]);
        StackWrittenBy(k, pcbs[cur].stackPfns, contents, old(ram), ram);
        ForkingBy(k, old(tables), pcbs[cur].stackPfns, tables);
        ForkStackPage(k);
        k := k + 1;
      }
    }

    /** forkTo: the child runs next, on a copy of the parent's kernel stack. */
    method ForkTo(child: Pid)
      requires Running() && child in pcbs && child != cur
      modifies this`cur, this`tables, this`tlb, this`ram, this`ptbr1, this`loaded
      ensures Running() && cur == child
      ensures Only(Kernel, old(tables), tables)
      ensures SameOutside(old(tables[Kernel]), tables[Kernel], TEMP_VPN, MAX_PT_LEN)
      ensures forall k :: 0 <= k < |pcbs[old(cur)].stackPfns| ==> pcbs[old(cur)].stackPfns[k] in old(ram)
      ensures StackWritten(KERNEL_STACK_PAGES, pcbs[child].stackPfns, StackContents(pcbs[old(cur)].stackPfns, old(ram)),
                           old(ram), ram)
    {
      StackDistinct(own, frames.free, frames.all, tables, pcbs, cur);
      ghost var parent, contents := cur, StackContents(pcbs[cur].stackPfns, ram);
      cur := child;
      CopyKernelStack(parent, contents);
      ghost var tables' := tables;
      SetTempPage(INVALID);
      ForkedStack(KERNEL_STACK_PAGES, old(tables), pcbs[cur].stackPfns, tables', tables);
      LoadTable();
    }

    /** The child gets its parent's break and a kernel context. */
    method InheritPcb(child: Pid)
      requires Running() && child in pcbs
      modifies this`pcbs
      ensures Running()
      ensures pcbs == old(pcbs)[child := old(pcbs[child]).(brk := old(pcbs[cur]).brk, started := true)]
    {
      var pcbs' := pcbs[child := pcbs[child].(brk := pcbs[cur].brk, started := true)];
      SameBooked(own, frames.free, frames.all, tables, pcbs, tables, pcbs');
      pcbs := pcbs';
    }

    /**
     KernelFork returns ERROR half way through the copying: the child is forgotten, and with it
     every frame it had.
     */
    method Forget(child: Pid)
      requires Running() && child in pcbs && child != cur && User(child) in tables
      modifies this`tables, this`pcbs, this`own
      ensures Running()
      ensures tables == old(tables) - {User(child)} && pcbs == old(pcbs) - {child}
      ensures LeakedFrames(own) == old(LeakedFrames(own)) + old(FramesOf(tables, pcbs, child))
    {
      AbandonAccounted(own, frames.free, frames.all, tables, pcbs, child);
      GoneTranslating(tables, pcbs, tlb, ptbr0, ptbr1, loaded, child);
      own := Abandon(own, child);
      tables, pcbs := tables - {User(child)}, pcbs - {child};
    }

    /** KernelFork up to its loop */
    method MakeChild(child: Pid, base: int, junk: seq<int>) returns (status: int)
      requires Valid() && NewPcb(tables, pcbs, child) && |junk| == KERNEL_STACK_PAGES
      requires RoomFor(ptbr0, pcbs, base)
      modifies this`tables, this`pcbs, this`own, frames`free, frames`count, frames.list
      ensures status == if old(frames.count) < KERNEL_STACK_PAGES then ERROR else SUCCESS
      ensures status == SUCCESS ==>
        && Running() && HeapsMapped(tables, pcbs, {child}) && KernelMapped(tables[Kernel], kernelBrk, bufferPfn)
        && MadeChild(cur, child, old(tables), old(pcbs), old(frames.free), tables, pcbs, frames.free)
        && frames.count == old(frames.count) - KERNEL_STACK_PAGES
        && LeakedFrames(own) == old(LeakedFrames(own))
      ensures status == ERROR ==>
        && pcbs == old(pcbs) && tables == old(tables) && own == old(own)
        && (Valid() <==> Elements(junk[old(frames.count)..]) !! own.Keys)
    {
      ghost var free, n := frames.free, frames.count;
      status := InitPcb(child, base, junk);
      if status == ERROR {
        JunkHarmless(own, free, frames.all, tables, pcbs, Elements(junk[n..]));
        return;
      }
      InheritPcb(child);
    }

    /** The return out of the loop, at page `n` */
    method ForgetFork(child: Pid, ghost n: int, ghost tables0: Tables, ghost free0: set<int>,
                      ghost ram0: map<int, Bytes>,
                      ghost leaked0: set<int>)
      requires Running() && child in pcbs && child != cur && User(child) in tables && frames.free == {}
      requires Forked(n, cur, child, tables0, free0, ram0, leaked0, tables, {}, ram, LeakedFrames(own))
      requires HeapsMapped(tables0, pcbs, {child}) && KernelMapped(tables0[Kernel], kernelBrk, bufferPfn)
      modifies this`tables, this`own, this`pcbs
      ensures Valid() && pcbs == old(pcbs) - {child}
      ensures OthersKeepTables(tables0 - {User(child)}, tables, child) && OldFramesKeep(free0, ram0, ram)
      ensures LeakedFrames(own) == leaked0 + free0 + StackFrames(old(pcbs[child]))
    {
      ForkForgotten(n, cur, child, tables0, free0, ram0, leaked0, tables, ram, LeakedFrames(own), pcbs, kernelBrk,
        bufferPfn);
      Forget(child);
    }

    /** KernelFork's loop, and the loss of the child when frames run out in it */
    method CopyChild(child: Pid) returns (status: int)
      requires Running() && HeapsMapped(tables, pcbs, {child}) && KernelMapped(tables[Kernel], kernelBrk, bufferPfn)
      requires child in pcbs && child != cur && User(child) in tables && pcbs[child].brk == pcbs[cur].brk
      requires UnmappedIn(tables[User(child)], 0, MAX_PT_LEN)
      modifies this`tables, this`tlb, this`ram, this`own, this`pcbs, frames`free, frames`count, frames.list
      ensures User(cur) in old(tables) &&
        status == if old(frames.count) >= Mapped(old(tables)[User(cur)], 0, MAX_PT_LEN) then SUCCESS else ERROR
      ensures status == SUCCESS ==>
        && Running() && HeapsMapped(tables, pcbs, {}) && KernelMapped(tables[Kernel], kernelBrk, bufferPfn)
        && pcbs == old(pcbs)
        && Forked(MAX_PT_LEN, cur, child, old(tables), old(frames.free), old(ram), old(LeakedFrames(own)),
                  tables, frames.free, ram, LeakedFrames(own))
      ensures status == ERROR ==>
        && Valid() && pcbs == old(pcbs) - {child} && frames.free == {}
        && OthersKeepTables(old(tables) - {User(child)}, tables, child)
        && OldFramesKeep(old(frames.free), old(ram), ram)
        && LeakedFrames(own) == old(LeakedFrames(own)) + old(frames.free) + StackFrames(old(pcbs[child]))
    {
      ghost var n;
      status, n := CopyRegion1(child);
      if status == ERROR {
        ForgetFork(child, n, old(tables), old(frames.free), old(ram), old(LeakedFrames(own)));
        return;
      }
      ForkKeepsHeaps(cur, child, old(tables), old(frames.free), old(ram), old(LeakedFrames(own)),
                     tables, frames.free, ram, LeakedFrames(own), pcbs, pcbs[child]);
    }

    /** KernelFork after its loop, up to where the child runs */
    method RunChild(child: Pid)
      requires Running() && HeapsMapped(tables, pcbs, {}) && KernelMapped(tables[Kernel], kernelBrk, bufferPfn)
      requires child in pcbs && child != cur
      modifies this`cur, this`tables, this`tlb, this`ram, this`ptbr1, this`loaded
      ensures Valid() && cur == child && Only(Kernel, old(tables), tables)
      ensures forall k :: 0 <= k < |pcbs[old(cur)].stackPfns| ==> pcbs[old(cur)].stackPfns[k] in old(ram)
      ensures StackWritten(KERNEL_STACK_PAGES, pcbs[child].stackPfns, StackContents(pcbs[old(cur)].stackPfns, old(ram)),
                           old(ram), ram)
    {
      SetTempPage(INVALID);
      ghost var tables' := tables;
      ForkTo(child);
      RunKeeps(old(tables), tables', tables, pcbs, kernelBrk, bufferPfn);
    }

    /** KernelFork from its loop on */
    method CompleteFork(child: Pid, ghost tables0: Tables, ghost pcbs0: map<Pid, Pcb>, ghost free0: set<int>)
      returns (status: int)
      requires Running() && HeapsMapped(tables, pcbs, {child}) && KernelMapped(tables[Kernel], kernelBrk, bufferPfn)
      requires child != cur && MadeChild(cur, child, tables0, pcbs0, free0, tables, pcbs, frames.free)
      requires forall k :: 0 <= k < |pcbs0[cur].stackPfns| ==> pcbs0[cur].stackPfns[k] !in free0
      modifies this`cur, this`tables, this`pcbs, this`tlb, this`ram, this`own, this`ptbr1, this`loaded
      modifies frames`free, frames`count, frames.list
      ensures User(old(cur)) in tables0 &&
        status == if old(frames.count) >= Mapped(tables0[User(old(cur))], 0, MAX_PT_LEN) then SUCCESS else ERROR
      ensures Valid()
      ensures status == SUCCESS ==>
        && cur == child && LeakedFrames(own) == old(LeakedFrames(own))
        && Copied(old(cur), child, tables0, pcbs0, free0, old(ram), tables, pcbs, ram)
      ensures status == ERROR ==>
        && cur == old(cur) && pcbs == pcbs0 && frames.free == {} && OldFramesKeep(free0, old(ram), ram)
        && OthersKeepTables(tables0, tables, child)
        && LeakedFrames(own) == old(LeakedFrames(own)) + free0
    {
      ghost var tables1, free1, parent := tables, frames.free, cur;
      StackDistinct(own, frames.free, frames.all, tables, pcbs, cur);
      ForgottenChild(parent, child, tables0, pcbs0, free0, tables1, pcbs, free1);
      status := CopyChild(child);
      if status == ERROR { return; }
      ghost var tables2, free2, ram2, leaked2 := tables, frames.free, ram, LeakedFrames(own);
      RunChild(child);
      CopiedByFork(parent, child, tables0, pcbs0, free0, old(ram), old(LeakedFrames(own)),
                   tables1, free1, tables2, free2, ram2, leaked2, tables, pcbs, ram);
    }

    /** KernelFork; `base` is where the child's page table has been allocated. */
    method KernelFork(child: Pid, base: int, junk: seq<int>) returns (status: int)
      requires Valid() && NewPcb(tables, pcbs, child) && |junk| == KERNEL_STACK_PAGES
      requires RoomFor(ptbr0, pcbs, base)
      modifies this`cur, this`tables, this`pcbs, this`tlb, this`ram, this`own, this`ptbr1, this`loaded
      modifies frames`free, frames`count, frames.list
      ensures User(old(cur)) in old(tables) &&
        status == if old(frames.count) >= KERNEL_STACK_PAGES + Mapped(old(tables)[User(old(cur))], 0, MAX_PT_LEN)
                  then SUCCESS else ERROR
      ensures status == SUCCESS ==>
        && Valid() && cur == child && LeakedFrames(own) == old(LeakedFrames(own))
        && Copied(old(cur), child, old(tables), old(pcbs), old(frames.free), old(ram), tables, pcbs, ram)
      ensures status == ERROR ==> cur == old(cur) && pcbs == old(pcbs)
      ensures status == ERROR && old(frames.count) < KERNEL_STACK_PAGES ==>
        && tables == old(tables) && ram == old(ram) && own == old(own)
        && (Valid() <==> Elements(junk[old(frames.count)..]) !! own.Keys)
      ensures status == ERROR && old(frames.count) >= KERNEL_STACK_PAGES ==>
        && Valid() && frames.free == {} && OldFramesKeep(old(frames.free), old(ram), ram)
        && OthersKeepTables(old(tables), tables, child)
        && LeakedFrames(own) == old(LeakedFrames(own)) + old(frames.free)
    {
      StackDistinct(own, frames.free, frames.all, tables, pcbs, cur);
      status := MakeChild(child, base, junk);
      if status == SUCCESS {
        status := CompleteFork(child, old(tables), old(pcbs), old(frames.free));
      }
    }

    // -------------------------------------------------------------- other entry points

    /**
     KernelExec; `next` runs if the program cannot be loaded any more and the process is
     killed.  If that is init, the machine halts (KernelExit), and the state is the last.
     */
    method KernelExec(text: nat, data: nat, stack: nat, next: Pid) returns (status: int)
      requires Valid() && next in pcbs && next != cur
      modifies this, frames`free, frames`count, frames.list
      ensures Valid() || (status == KILL && old(cur) == INIT)
      ensures LeakedFrames(own) == old(LeakedFrames(own)) && status in {SUCCESS, ERROR, KILL}
      ensures status == ERROR <==> stack + text + data >= MAX_PT_LEN
      ensures User(old(cur)) in old(tables) &&
        (status == SUCCESS <==>
          && stack + text + data < MAX_PT_LEN
          && old(frames.count) + Mapped(old(tables)[User(old(cur))], 0, MAX_PT_LEN) >= text + data + stack)
      ensures status == SUCCESS ==>
        && cur == old(cur) && ProgramLayout(tables[User(cur)], text, data, stack)
        && pcbs == old(pcbs)[cur := pcbs[cur]] && HeapPages(pcbs[cur].brk) == text + data
        && StackWritten(KERNEL_STACK_PAGES, pcbs[cur].stackPfns, starterKernelStack, old(ram), ram)
      ensures status == ERROR ==> tables == old(tables) && pcbs == old(pcbs) && ram == old(ram) && cur == old(cur)
      ensures status == KILL && old(cur) == INIT ==> Running() && cur == INIT && ram == old(ram)
      ensures status == KILL && old(cur) != INIT ==>
        && cur == next && pcbs == (old(pcbs) - {old(cur)})[next := old(pcbs[next]).(started := true)]
        && (if old(pcbs[next]).started then ram == old(ram)
            else StackWritten(KERNEL_STACK_PAGES, pcbs[next].stackPfns, starterKernelStack, old(ram), ram))
      ensures forall q :: q in pcbs && q != old(cur) ==>
        User(q) in tables && User(q) in old(tables) && tables[User(q)] == old(tables)[User(q)]
      ensures forall q :: q in pcbs && q != old(cur) && q != cur ==>
        User(q) in tables && SameBytes(FramesOf(tables, pcbs, q), old(ram), ram)
    {
      status := LoadProgram(text, data, stack);
      if status == KILL {
        if cur != INIT { KernelExit(next); }
      } else if status == SUCCESS {
        RestoreStarterStack();
      }
      OthersKeepBytes(own, tables, pcbs, cur, old(ram), ram);
    }

    /** The running program writes to its page `i`. */
    method UserStore(i: nat, bytes: Bytes)
      requires Valid() && i < MAX_PT_LEN && User(cur) in tables
      requires tables[User(cur)][i].valid && Write in tables[User(cur)][i].prot
      modifies this`ram, this`tlb
      ensures Valid() && ram == old(ram)[tables[User(cur)][i].pfn := bytes]
      ensures forall q :: q in pcbs && q != cur ==>
        User(q) in tables && SameBytes(FramesOf(tables, pcbs, q), old(ram), ram)
    {
      PageInUse(own, frames.free, frames.all, tables, pcbs, User(cur), i);
      OthersDoNotSee(own, tables, pcbs, cur, i, ram, bytes);
      StorePage(User(cur), i, bytes);
    }

    /** getFrame and setPageTableEntryNoFlush for a page of a process that does not run */
    method MapUnloaded(p: Pid, i: nat) returns (status: int)
      requires Running() && p in pcbs && p != cur && User(p) in tables && i < MAX_PT_LEN && !tables[User(p)][i].valid
      modifies this`tables, this`own, frames`free, frames`count, frames.list
      ensures Running() && status == if old(frames.count) == 0 then ERROR else SUCCESS
      ensures status == SUCCESS ==>
        && tables == SetEntry(old(tables), User(p), i, Pte(true, READ_WRITE, tables[User(p)][i].pfn))
        && LeakedFrames(own) == old(LeakedFrames(own))
    {
      var f;
      status, f := frames.GetFrame();
      if status == ERROR { return; }
      MapAccounted(own, old(frames.free), frames.all, tables, pcbs, User(p), i, f, READ_WRITE);
      own := Take(own, None, Page(User(p), i), f);
      SetPageTableEntryNoFlush(p, i, Pte(true, READ_WRITE, f));
    }

    /** LoadIdle, while KernelStart runs on init's tables */
    method LoadIdle() returns (status: int)
      requires Running() && HeapsMapped(tables, pcbs, {IDLE}) && KernelMapped(tables[Kernel], kernelBrk, bufferPfn)
      requires cur != IDLE && IDLE in pcbs && User(IDLE) in tables && pcbs[IDLE].brk == MAX_PT_LEN * PAGESIZE
      requires UnmappedIn(tables[User(IDLE)], 0, MAX_PT_LEN)
      modifies this`tables, this`own, frames`free, frames`count, frames.list
      ensures status == if old(frames.count) == 0 then ERROR else SUCCESS
      ensures status == SUCCESS ==>
        && Valid() && LeakedFrames(own) == old(LeakedFrames(own)) && Only(User(IDLE), old(tables), tables)
        && TwoIntervals(tables[User(IDLE)], 0, MAX_PT_LEN - 1)
        && AllProt(tables[User(IDLE)], MAX_PT_LEN - 1, MAX_PT_LEN, READ_WRITE)
    {
      status := MapUnloaded(IDLE, MAX_PT_LEN - 1);
      if status == SUCCESS {
        IdlePage(old(tables), pcbs, tables, tables[User(IDLE)][MAX_PT_LEN - 1].pfn);
      }
    }

    /** initProcess for idle, and LoadIdle */
    method MakeIdle(base: int, junk: seq<int>) returns (status: int)
      requires Valid() && cur == INIT && NewPcb(tables, pcbs, IDLE) && |junk| == KERNEL_STACK_PAGES
      requires RoomFor(ptbr0, pcbs, base)
      modifies this`tables, this`pcbs, this`own, frames`free, frames`count, frames.list
      ensures status == SUCCESS || status == ERROR
      ensures status == SUCCESS ==>
        && Valid() && LeakedFrames(own) == old(LeakedFrames(own)) && pcbs.Keys == old(pcbs.Keys) + {IDLE}
    {
      status := InitPcb(IDLE, base, junk);
      if status == SUCCESS {
        status := LoadIdle();
      }
    }

    /** initBuffers: the page below the spare page is for the terminals' lines. */
    method InitBuffers(ghost lo: nat) returns (status: int)
      requires Running() && HeapsMapped(tables, pcbs, {}) && 0 <= PagesBelow(kernelBrk) <= BUFFER_VPN
      requires lo <= BUFFER_VPN && UnmappedIn(tables[Kernel], lo, KERNEL_STACK_VPN)
      modifies this`tables, this`tlb, this`own, this`bufferPfn, frames`free, frames`count, frames.list
      ensures Kernel in old(tables) && status == if old(frames.count) == 0 then ERROR else SUCCESS
      ensures status == SUCCESS ==>
        && Running() && HeapsMapped(tables, pcbs, {}) && LeakedFrames(own) == old(LeakedFrames(own))
        && tables == SetEntry(old(tables), Kernel, BUFFER_VPN, Pte(true, READ_WRITE, bufferPfn))
        && (Valid() <==> KernelHeapMapped(old(tables)[Kernel], kernelBrk))
        && UnmappedIn(tables[Kernel], lo, BUFFER_VPN)
    {
      status := MapPage(Kernel, BUFFER_VPN);
      if status == SUCCESS {
        HeapsKept(Kernel, old(tables), tables, pcbs, pcbs, cur);
        bufferPfn := tables[Kernel][BUFFER_VPN].pfn;
        BuffersMapped(old(tables)[Kernel], tables[Kernel], kernelBrk, bufferPfn, lo);
      }
    }

    /**
     Memory as KernelStart leaves it to the MMU: its free frames, the tables and the PCBs,
     init running on the kernel's own stack and nothing cached yet.
     */
    constructor (list: FrameList, r0Base: int, initBase: int, tables: Tables, pcbs: map<Pid, Pcb>, kernelBrk: int,
                 ghost own: map<int, Slot>, starter: seq<Bytes>, contents: map<int, Bytes>)
      requires list.Valid() && Accounted(own, list.free, list.all, tables, pcbs)
      requires Translating(tables, pcbs, map[], r0Base, initBase, INIT)
      requires Kernel in tables && INIT in pcbs && StackMapped(tables[Kernel], pcbs[INIT].stackPfns)
      requires contents.Keys == list.all && |starter| == KERNEL_STACK_PAGES
      ensures Running()
      ensures frames == list && ptbr0 == r0Base && this.kernelBrk == kernelBrk && cur == INIT
      ensures this.tables == tables && this.pcbs == pcbs && this.own == own
    {
      frames, ptbr0, starterKernelStack, ram := list, r0Base, starter, contents;
      this.tables, this.pcbs, this.own := tables, pcbs, own;
      cur, loaded, ptbr1, tlb := INIT, INIT, initBase, map[];
      this.kernelBrk := kernelBrk;
    }
  }

  /**
   KernelStart up to where it has enabled virtual memory.  A break inside a page costs the
   kernel that page: initFrameList marks its frame as used, and its entry stays invalid.
   */
  method EnableVm(numFrames: nat, textPages: nat, kernelBrk: int, r0Base: int, initBase: int, idleBase: int,
                  starter: seq<Bytes>, contents: map<int, Bytes>) returns (m: Memory)
    requires 0 <= kernelBrk && PagesBelow(kernelBrk) <= BUFFER_VPN
    requires MAX_PT_LEN <= numFrames && contents.Keys == Interval(0, numFrames) && |starter| == KERNEL_STACK_PAGES
    requires Apart(r0Base, initBase) && Apart(r0Base, idleBase) && Apart(initBase, idleBase)
    ensures fresh(m) && fresh(m.frames) && fresh(m.frames.list)
    ensures m.Running() && HeapsMapped(m.tables, m.pcbs, {}) && m.frames.count > 0 && m.kernelBrk == kernelBrk
    ensures LeakedFrames(m.own) == if Aligned(kernelBrk) then {} else {Vpn(kernelBrk)}
    ensures KernelHeapMapped(m.tables[Kernel], kernelBrk) <==> Aligned(kernelBrk)
    ensures 0 <= Vpn(kernelBrk) <= BUFFER_VPN && UnmappedIn(m.tables[Kernel], Vpn(kernelBrk), KERNEL_STACK_VPN)
    ensures m.cur == INIT && m.pcbs.Keys == {INIT}
    ensures NewPcb(m.tables, m.pcbs, IDLE) && RoomFor(m.ptbr0, m.pcbs, idleBase)
  {
    PageReaches(kernelBrk, 0);
    ghost var heap, used := Vpn(kernelBrk), PagesBelow(kernelBrk);
    var list := new FrameList(0, numFrames, UsedAtBoot(PagesBelow(kernelBrk)));
    var table := BootTable(textPages, Vpn(kernelBrk));
    BufferFrameFree(used, numFrames);
    list.CountIsZero();
    var init := InitAtBoot(initBase);
    var tables, pcbs := BootTables(table), BootPcbs(init);
    ghost var own := BootOwners(heap, used);
    BootLost(kernelBrk);
    BootState(heap, used, table, numFrames, r0Base, init, own, list.free, list.all, tables, pcbs);
    BootShape(kernelBrk, table, init, tables, pcbs);
    IdleIsNew(r0Base, init, idleBase, table, tables, pcbs);
    m := new Memory(list, r0Base, initBase, tables, pcbs, kernelBrk, own, starter, contents);
  }

  /** KernelStart up to where it makes the first processes: the terminals have their buffers. */
  method StartMemory(numFrames: nat, textPages: nat, kernelBrk: int, r0Base: int, initBase: int, idleBase: int,
                     starter: seq<Bytes>, contents: map<int, Bytes>) returns (m: Memory, status: int)
    requires 0 <= kernelBrk && PagesBelow(kernelBrk) <= BUFFER_VPN
    requires MAX_PT_LEN <= numFrames && contents.Keys == Interval(0, numFrames) && |starter| == KERNEL_STACK_PAGES
    requires Apart(r0Base, initBase) && Apart(r0Base, idleBase) && Apart(initBase, idleBase)
    ensures status == SUCCESS && m.Running() && HeapsMapped(m.tables, m.pcbs, {})
    ensures m.Valid() <==> Aligned(kernelBrk)
    ensures LeakedFrames(m.own) == if Aligned(kernelBrk) then {} else {Vpn(kernelBrk)}
    ensures UnmappedIn(m.tables[Kernel], Vpn(kernelBrk), BUFFER_VPN)
    ensures m.cur == INIT && m.pcbs.Keys == {INIT}
  {
    m := EnableVm(numFrames, textPages, kernelBrk, r0Base, initBase, idleBase, starter, contents);
    status := m.InitBuffers(Vpn(kernelBrk));
  }
}
