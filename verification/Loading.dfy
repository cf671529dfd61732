/** LoadProgram with the arguments that it is given: they decide how many stack pages the program gets. */
module Loading {
  import opened Basics
  import opened Hardware
  import opened PageTables
  import opened Ownership
  import opened Layout
  import opened Breaks
  import opened ArgStack
  import opened PhysicalMemory

  /** Every address of the argument stack is in a page that the program can read and write. */
  ghost predicate StackHolds(t: PageTable, args: seq<Bytes>) {
    AllWritable(t, StackBottom(args), VMEM_1_LIMIT)
  }

  ghost predicate AllWritable(t: PageTable, low: int, limit: int) {
    forall addr :: low <= addr < limit ==> Writable(t, addr)
  }

  ghost predicate Writable(t: PageTable, addr: int) {
    && MAX_PT_LEN <= Vpn(addr) < 2 * MAX_PT_LEN
    && t[Vpn(addr) - MAX_PT_LEN].valid && t[Vpn(addr) - MAX_PT_LEN].prot == READ_WRITE
  }

  lemma SomeStack(args: seq<Bytes>)
    ensures 1 <= StackPages(args)
  {
    LayoutFits(args);
    PageReaches(StackPointer(args), 2 * MAX_PT_LEN);
  }

  lemma ArgumentsMapped(t: PageTable, args: seq<Bytes>, text: nat, data: nat)
    requires ProgramLayout(t, text, data, StackPages(args)) && StackPages(args) + text + data < MAX_PT_LEN
    ensures StackHolds(t, args) && AllWritable(t, TableAt(args) - INITIAL_STACK_FRAME_SIZE, VMEM_1_LIMIT)
  {
    LayoutIsTight(args);
    var bottom := Vpn(StackPointer(args));
    forall addr | StackBottom(args) <= addr < VMEM_1_LIMIT ensures Writable(t, addr) {
      PageReaches(addr, bottom);
      PageReaches(addr, 2 * MAX_PT_LEN);
    }
  }

  /**
   A program that is accepted and finds its frames has its arguments' stack mapped, from the
   first frame of main below the argument table to the top of region 1, and heap and stack apart.
   */
  method LoadWithArguments(m: Memory, text: nat, data: nat, args: seq<Bytes>) returns (status: int)
    requires m.Valid()
    modifies m`tables, m`tlb, m`own, m`pcbs, m.frames`free, m.frames`count, m.frames.list
    ensures status == ERROR <==> StackPages(args) + text + data >= MAX_PT_LEN
    ensures User(m.cur) in old(m.tables) &&
      (status == SUCCESS <==>
        && StackPages(args) + text + data < MAX_PT_LEN
        && old(m.frames.count) + Mapped(old(m.tables)[User(m.cur)], 0, MAX_PT_LEN) >= text + data + StackPages(args))
    ensures status == SUCCESS ==>
      && m.Valid() && StackHolds(m.tables[User(m.cur)], args)
      && AllWritable(m.tables[User(m.cur)], TableAt(args) - INITIAL_STACK_FRAME_SIZE, VMEM_1_LIMIT)
      && TwoIntervals(m.tables[User(m.cur)], HeapPages(m.pcbs[m.cur].brk), MAX_PT_LEN - StackPages(args))
  {
    SomeStack(args);
    status := m.LoadProgram(text, data, StackPages(args));
    if status == SUCCESS {
      ArgumentsMapped(m.tables[User(m.cur)], args, text, data);
      ProgramIntervals(m.tables[User(m.cur)], text, data, StackPages(args));
    }
  }
}
