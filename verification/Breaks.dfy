/** What moving a break means for the address space, whichever branch of the code it took. */
module Breaks {
  import opened Basics
  import opened Hardware
  import opened PageTables
  import opened Ownership
  import opened Layout

  /**
   If the new break stays below the stack, a break that moved leaves exactly the pages
   below ceil(addr / PAGESIZE) and the stack mapped, has used or given back one frame for
   each page it crossed, and has lost none.
   */
  lemma BreakMeans(own: map<int, Slot>, own': map<int, Slot>, tables: Tables, tables': Tables,
                   pcbs: map<Pid, Pcb>, free: set<int>, free': set<int>, frames: nat, frames': nat, t: Table,
                   from: int, to: int, stack: int)
    requires Ledger(own, tables, pcbs)
    requires 0 <= from && 0 <= to && from <= Slots(t) && to <= Slots(t)
    requires BreakMoved(t, from, to, SUCCESS, tables, free, frames, LeakedFrames(own),
                        tables', free', frames', LeakedFrames(own'))
    requires TwoIntervals(tables[t], from, stack) && to <= stack
    ensures TwoIntervals(tables'[t], to, stack)
    ensures frames' == frames - (to - from)
    ensures LeakedFrames(own') == LeakedFrames(own)
  {
    if to <= from {
      DistinctFrames(own, tables, pcbs, t, to, from);
    } else {
      MappedNotLeaked(own, tables, pcbs, t, from, to);
      LostAre(t, tables[t], tables'[t], from, to);
    }
  }

  /**
   A break that moves up leaks frames if and only if it meets a page that is mapped already
   before it gets there or the free frames are used up.
   */
  lemma BreakLeaks(own: map<int, Slot>, own': map<int, Slot>, tables: Tables, tables': Tables,
                   pcbs: map<Pid, Pcb>, free: set<int>, free': set<int>, frames: nat, frames': nat, t: Table,
                   from: int, to: int, status: int)
    requires Ledger(own, tables, pcbs) && 0 <= from < to <= Slots(t)
    requires BreakMoved(t, from, to, status, tables, free, frames, LeakedFrames(own),
                        tables', free', frames', LeakedFrames(own'))
    ensures LeakedFrames(own') == LeakedFrames(own) <==> UnmappedIn(tables[t], from, Min(to, from + frames))
  {
    MappedNotLeaked(own, tables, pcbs, t, from, Min(to, from + frames));
    LostAre(t, tables[t], tables'[t], from, Min(to, from + frames));
  }

  /** In particular over the stack: the frame of its lowest page is lost. */
  lemma BreakIntoStack(own: map<int, Slot>, own': map<int, Slot>, tables: Tables, tables': Tables,
                       pcbs: map<Pid, Pcb>, free: set<int>, free': set<int>, frames: nat, frames': nat, t: Table,
                       from: int, to: int, stack: int, status: int)
    requires Ledger(own, tables, pcbs) && 0 <= from && to <= Slots(t)
    requires t in tables && TwoIntervals(tables[t], from, stack) && stack < Min(to, from + frames)
    requires BreakMoved(t, from, to, status, tables, free, frames, LeakedFrames(own),
                        tables', free', frames', LeakedFrames(own'))
    ensures tables[t][stack].pfn in LeakedFrames(own') && tables[t][stack].pfn !in LeakedFrames(own)
  {
    var upTo := Min(to, from + frames);
    MappedNotLeaked(own, tables, pcbs, t, from, upTo);
    LostAre(t, tables[t], tables'[t], from, upTo);
    InFramesIn(tables[t], from, upTo, tables[t][stack].pfn);
  }

  /**
   The kernel's break loses frames if and only if it reaches the terminals' buffers or meets
   a page that is mapped already.
   */
  lemma KernelBreakLeaks(own: map<int, Slot>, own': map<int, Slot>, tables: Tables, tables': Tables,
                         pcbs: map<Pid, Pcb>, free: set<int>, free': set<int>, frames: nat, frames': nat,
                         from: int, to: int, status: int)
    requires Ledger(own, tables, pcbs) && 0 <= from <= BUFFER_VPN && 0 <= to <= Reach(Kernel)
    requires BreakMoved(Kernel, from, to, status, tables, free, frames, LeakedFrames(own),
                        tables', free', frames', LeakedFrames(own'))
    requires tables[Kernel][BUFFER_VPN].valid
    ensures LeakedFrames(own') == LeakedFrames(own) <==>
      Reached(from, to, frames) <= BUFFER_VPN && UnmappedIn(tables[Kernel], from, Reached(from, to, frames))
  {
    var upTo := Reached(from, to, frames);
    if from < to && upTo <= BUFFER_VPN {
      LostAre(Kernel, tables[Kernel], tables'[Kernel], from, upTo);
      MappedNotLeaked(own, tables, pcbs, Kernel, from, upTo);
    } else if from < to {
      var f := tables[Kernel][BUFFER_VPN].pfn;
      assert Booked(own, Page(Kernel, BUFFER_VPN), FrameAt(tables, pcbs, Page(Kernel, BUFFER_VPN)));
      LostHas(Kernel, tables[Kernel], tables'[Kernel], from, upTo, BUFFER_VPN);
      assert f in LeakedFrames(own') && f !in LeakedFrames(own);
    }
  }

  /**
   Nothing being mapped from the break up to page `limit`, and a move that stays below it:
   nothing is mapped from the new break on if and only if the break has moved, or no frame
   was free.  A break that fails half way leaves the pages it has mapped above itself.
   */
  lemma BreakKeepsGap(t: Table, from: int, to: int, status: int, limit: int,
                      tables: Tables, free: set<int>, frames: nat, leaked: set<int>,
                      tables': Tables, free': set<int>, frames': nat, leaked': set<int>)
    requires BreakMoved(t, from, to, status, tables, free, frames, leaked, tables', free', frames', leaked')
    requires 0 <= from && UnmappedIn(tables[t], from, limit) && Reached(from, to, frames) <= limit <= MAX_PT_LEN
    ensures UnmappedIn(tables'[t], if status == SUCCESS then to else from, limit) <==> status == SUCCESS || frames == 0
  {
    if status == ERROR && frames > 0 {
      assert AllProt(tables'[t], from, Reached(from, to, frames), READ_WRITE) && tables'[t][from].valid;
    }
  }

  /**
   Heap and stack stay two intervals if and only if the break has moved to somewhere below the
   stack, or has failed without mapping a page between them.
   */
  lemma BreakKeepsIntervals(t: Table, from: int, to: int, status: int, stack: int,
                            tables: Tables, free: set<int>, frames: nat, leaked: set<int>,
                            tables': Tables, free': set<int>, frames': nat, leaked': set<int>)
    requires BreakMoved(t, from, to, status, tables, free, frames, leaked, tables', free', frames', leaked')
    requires 0 <= from && 0 <= to <= MAX_PT_LEN && TwoIntervals(tables[t], from, stack)
    ensures TwoIntervals(tables'[t], if status == SUCCESS then to else from, stack) <==>
      if status == SUCCESS then to <= stack else frames == 0 || from == stack
  {
    if from < to {
      assert AllProt(tables'[t], from, Reached(from, to, frames), READ_WRITE);
      if status == ERROR && frames > 0 {
        assert tables'[t][from].valid;
      }
    }
  }

  /** Exec starts with two intervals. */
  lemma ProgramIntervals(t: PageTable, text: nat, data: nat, stack: nat)
    requires ProgramLayout(t, text, data, stack) && stack + text + data < MAX_PT_LEN
    ensures TwoIntervals(t, text + data, MAX_PT_LEN - stack)
  {
  }

  /** A process's break moves: its memory stays mapped, the others' is untouched. */
  lemma UserBreakKeeps(p: Pid, brk: int, addr: int, status: int, tables: Tables, pcbs: map<Pid, Pcb>,
                       free: set<int>, frames: nat, leaked: set<int>,
                       tables': Tables, free': set<int>, frames': nat, leaked': set<int>)
    requires p in pcbs && Kernel in tables && HeapsMapped(tables, pcbs, {})
      && MAX_PT_LEN <= PagesBelow(addr) <= 2 * MAX_PT_LEN
    requires brk == pcbs[p].brk
    requires BreakMoved(User(p), HeapPages(brk), HeapPages(addr), status,
                        tables, free, frames, leaked, tables', free', frames', leaked')
    ensures Kernel in tables' && tables'[Kernel] == tables[Kernel]
    ensures HeapsMapped(tables', if status == SUCCESS then pcbs[p := pcbs[p].(brk := addr)] else pcbs, {})
  {
    assert HeapMapped(tables[User(p)], pcbs[p].brk);
    BreakKeepsHeap(User(p), HeapPages(brk), HeapPages(addr), status, tables, free, frames, leaked, tables', free',
      frames', leaked');
    HeapsKept(User(p), tables, tables', pcbs, if status == SUCCESS then pcbs[p := pcbs[p].(brk := addr)] else pcbs, p);
  }

  /**
   The kernel's heap ends below the buffers, and the buffers keep their frame, if and only if the
   break stays away.
   */
  lemma KernelBreakKeeps(own: map<int, Slot>, free: set<int>, frames: nat, all: set<int>, leaked: set<int>,
                         tables: Tables, pcbs: map<Pid, Pcb>, free': set<int>, frames': nat, leaked': set<int>,
                         tables': Tables, brk: int, addr: int, bufferPfn: int, status: int)
    requires Accounted(own, free, all, tables, pcbs) && HeapsMapped(tables, pcbs, {})
    requires Kernel in tables && KernelMapped(tables[Kernel], brk, bufferPfn) && 0 <= PagesBelow(addr) <= Reach(Kernel)
    requires BreakMoved(Kernel, PagesBelow(brk), PagesBelow(addr), status,
                        tables, free, frames, leaked, tables', free', frames', leaked')
    ensures Kernel in tables' && HeapsMapped(tables', pcbs, {})
    ensures KernelMapped(tables'[Kernel], if status == SUCCESS then addr else brk, bufferPfn) <==>
      Reached(PagesBelow(brk), PagesBelow(addr), frames) <= BUFFER_VPN
  {
    var from, to := PagesBelow(brk), PagesBelow(addr);
    var upTo := Reached(from, to, frames);
    BreakKeepsHeap(Kernel, from, to, status, tables, free, frames, leaked, tables', free', frames', leaked');
    if from < to && upTo > BUFFER_VPN {
      OneOwner(own, free, all, tables, pcbs, Page(Kernel, BUFFER_VPN), Page(Kernel, BUFFER_VPN));
      InFramesIn(tables'[Kernel], from, upTo, tables'[Kernel][BUFFER_VPN].pfn);
    }
  }

  /** A kernel break that gets into the spare page has a heap page there whose frame belongs to no slot. */
  lemma BreakIntoSpare(own: map<int, Slot>, own': map<int, Slot>, tables: Tables, tables': Tables,
                       free: set<int>, free': set<int>, frames: nat, frames': nat,
                       from: int, to: int, status: int)
    requires 0 <= from <= BUFFER_VPN && Reached(from, to, frames) == KERNEL_STACK_VPN
    requires BreakMoved(Kernel, from, to, status, tables, free, frames, LeakedFrames(own),
                        tables', free', frames', LeakedFrames(own'))
    ensures tables'[Kernel][TEMP_VPN].valid && tables'[Kernel][TEMP_VPN].pfn in LeakedFrames(own')
  {
    assert AllProt(tables'[Kernel], from, KERNEL_STACK_VPN, READ_WRITE);
  }

  lemma {:induction false} LostHas(t: Table, e: PageTable, e': PageTable, lo: int, hi: int, i: int)
    requires 0 <= lo <= i < hi <= MAX_PT_LEN && i < Slots(t) && e[i].valid
    ensures e[i].pfn in Lost(t, e, e', lo, hi)
    decreases hi - lo
  {
    if i < hi - 1 { LostHas(t, e, e', lo, hi - 1, i); }
  }

  /**
   Growing the stack keeps heap and stack two intervals, and leaves the page under the
   new stack unmapped.
   */
  lemma StackGrowth(t: PageTable, t': PageTable, heap: int, stack: int, from: int,
                    free: set<int>, free': set<int>)
    requires TwoIntervals(t, heap, stack) && 0 <= heap < from <= MAX_PT_LEN && Filled(t, t', from, free, free')
    ensures TwoIntervals(t', heap, Min(stack, from))
    ensures from <= stack ==> !t'[from - 1].valid
  {
  }
}
