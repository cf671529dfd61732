/**
 KernelDataStructures/PageTable: entries, and the arithmetic that turns the address of
 an entry back into the virtual page it maps.
 */
module PageTables {
  import opened Basics
  import opened Hardware

  datatype Prot = Read | Write | Exec

  datatype Pte = Pte(valid: bool, prot: set<Prot>, pfn: int)

  const READ_WRITE := {Read, Write}
  const READ_EXEC := {Read, Exec}

  const INVALID := Pte(false, {}, 0)

  type PageTable = t: seq<Pte> | |t| == MAX_PT_LEN witness seq(MAX_PT_LEN, _ => INVALID)

  /** The MMU's base registers */
  datatype Registers = Registers(ptbr0: int, ptbr1: int)

  /** initializeRegionPageTable */
  function FreshTable(): (t: PageTable)
    ensures forall i :: 0 <= i < |t| ==> t[i] == INVALID
  {
    seq(MAX_PT_LEN, _ => INVALID)
  }

  /** `base + i` for a `struct pte *` */
  function PteAddress(base: int, i: int): int {
    base + i * PTE_SIZE
  }

  /** getVirtualAddr */
  function GetVirtualAddr(ptep: int, mmu: Registers): int {
    if mmu.ptbr0 <= ptep < mmu.ptbr0 + TABLE_BYTES then
      (ptep - mmu.ptbr0) / PTE_SIZE * PAGESIZE
    else if mmu.ptbr1 <= ptep < mmu.ptbr1 + TABLE_BYTES then
      ((ptep - mmu.ptbr1) / PTE_SIZE + MAX_PT_LEN) * PAGESIZE
    else ERROR
  }

  /** Two tables of MAX_PT_LEN entries share no byte. */
  predicate Apart(a: int, b: int) {
    a + TABLE_BYTES <= b || b + TABLE_BYTES <= a
  }

  lemma EntryInTable(base: int, i: int)
    ensures base <= PteAddress(base, i) < base + TABLE_BYTES <==> 0 <= i < MAX_PT_LEN
    ensures (PteAddress(base, i) - base) / PTE_SIZE == i
  {
    EntriesSizeIs(MAX_PT_LEN);
    DivMod(i * PTE_SIZE, PTE_SIZE, i, 0);
    Multiple(i, PTE_SIZE);
    Multiple(MAX_PT_LEN - i, PTE_SIZE);
    assert (MAX_PT_LEN - i) * PTE_SIZE == MAX_PT_LEN * PTE_SIZE - i * PTE_SIZE;
  }

  /**
   From the address of a live entry the page it maps comes back, in either region; the
   entry of a table that is not loaded has no virtual address.
   */
  lemma VirtualAddrInverts(base: int, i: int, mmu: Registers)
    requires 0 <= i < MAX_PT_LEN && Apart(mmu.ptbr0, mmu.ptbr1)
    ensures base == mmu.ptbr0 ==>
      var addr := GetVirtualAddr(PteAddress(base, i), mmu); addr != ERROR && Vpn(addr) == i
    ensures base == mmu.ptbr1 ==>
      var addr := GetVirtualAddr(PteAddress(base, i), mmu); addr != ERROR && Vpn(addr) == MAX_PT_LEN + i
    ensures Apart(base, mmu.ptbr0) && Apart(base, mmu.ptbr1) ==>
      GetVirtualAddr(PteAddress(base, i), mmu) == ERROR
  {
    EntryInTable(base, i);
    VpnOfPage(i);
    VpnOfPage(MAX_PT_LEN + i);
    Multiple(i, PAGESIZE);
    Multiple(MAX_PT_LEN + i, PAGESIZE);
  }

  /** getAddressRegion */
  function GetAddressRegion(addr: int): int {
    if MAX_PT_LEN * PAGESIZE <= addr < 2 * MAX_PT_LEN * PAGESIZE then 1
    else if 0 <= addr < MAX_PT_LEN * PAGESIZE then 0
    else -1
  }

  /** The region of an address is the half of the page numbers that its page is in. */
  lemma RegionOfPage(addr: int)
    ensures GetAddressRegion(addr) == 1 <==> MAX_PT_LEN <= Vpn(addr) < 2 * MAX_PT_LEN
    ensures GetAddressRegion(addr) == 0 <==> 0 <= Vpn(addr) < MAX_PT_LEN
    ensures GetAddressRegion(addr) == 1 ==> MAX_PT_LEN <= PagesBelow(addr) <= 2 * MAX_PT_LEN
  {
    PageReaches(addr, 0);
    PageReaches(addr, MAX_PT_LEN);
    PageReaches(addr, 2 * MAX_PT_LEN);
  }
}
