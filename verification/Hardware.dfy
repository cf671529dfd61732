/**
 The machine's constants.  hardware.h is not part of this model, so they are left
 symbolic: everything is proved for every page size and every memory layout.
 Addresses are unbounded integers and start at 0 (VMEM_0_BASE).
 */
module Hardware {
  type Pos = n: int | n > 0 witness 1

  type AtLeastTwo = n: int | n >= 2 witness 2

  const PAGESIZE: Pos

  /**
   Pages below the kernel stack, which ends region 0; the last is the spare page of fork,
   the one before it holds the terminals' buffers.
   */
  const KERNEL_STACK_VPN: AtLeastTwo
  const KERNEL_STACK_PAGES: Pos

  /** Pages in each of the two regions, and entries in each page table */
  const MAX_PT_LEN: Pos := KERNEL_STACK_VPN + KERNEL_STACK_PAGES

  /** `tempVAddr` is the page just below the kernel stack. */
  const TEMP_VPN: nat := KERNEL_STACK_VPN - 1

  /** `totalBufferBase` of TtyBuffer.c, with TOTAL_READ_BUFFER_PAGES being 1 */
  const BUFFER_VPN: nat := KERNEL_STACK_VPN - 2

  /** sizeof(struct pte) */
  const PTE_SIZE: Pos

  /** First address above region 1 */
  const VMEM_1_LIMIT: int := 2 * MAX_PT_LEN * PAGESIZE

  /** What LoadProgram leaves free above and below the argument table */
  const POST_ARGV_NULL_SPACE: nat
  const INITIAL_STACK_FRAME_SIZE: nat

  const TABLE_BYTES: int := EntriesSize(MAX_PT_LEN)

  function EntriesSize(n: nat): int {
    if n == 0 then 0 else EntriesSize(n - 1) + PTE_SIZE
  }

  lemma {:induction false} EntriesSizeIs(n: nat)
    ensures EntriesSize(n) == n * PTE_SIZE
  {
    if n > 0 { EntriesSizeIs(n - 1); }
  }

  /** addr >> PAGESHIFT */
  function Vpn(addr: int): int {
    addr / PAGESIZE
  }

  /** DOWN_TO_PAGE(addr) == addr */
  predicate Aligned(addr: int) {
    addr % PAGESIZE == 0
  }

  /** The number of pages needed to reach `addr` from address 0 */
  function PagesBelow(addr: int): int {
    if Aligned(addr) then Vpn(addr) else Vpn(addr) + 1
  }

  lemma VpnOfPage(n: int)
    ensures Vpn(n * PAGESIZE) == n && Aligned(n * PAGESIZE)
  {
    DivMod(n * PAGESIZE, PAGESIZE, n, 0);
  }

  lemma {:induction false} Multiple(k: int, d: Pos)
    ensures k >= 1 ==> k * d >= d
    ensures k <= -1 ==> k * d + d <= 0
    decreases if k > 0 then k else -k
  {
    if k > 1 { Multiple(k - 1, d); assert k * d == (k - 1) * d + d; }
    if k < -1 { Multiple(k + 1, d); assert k * d == (k + 1) * d - d; }
  }

  lemma DivMod(x: int, d: Pos, q: int, r: int)
    requires x == q * d + r && 0 <= r < d
    ensures x / d == q && x % d == r
  {
    Multiple(q - x / d, d);
    assert x == (x / d) * d + x % d;
    assert (q - x / d) * d == q * d - (x / d) * d;
  }

  /** `PagesBelow(addr)` is the least page boundary at or above `addr`. */
  lemma PagesBelowMeans(addr: int, n: int)
    ensures addr <= n * PAGESIZE <==> PagesBelow(addr) <= n
  {
    Multiple(n - addr / PAGESIZE, PAGESIZE);
    assert addr == (addr / PAGESIZE) * PAGESIZE + addr % PAGESIZE;
    assert (n - addr / PAGESIZE) * PAGESIZE == n * PAGESIZE - (addr / PAGESIZE) * PAGESIZE;
  }

  /** An address is in page `n` or above exactly if it is not below the page's start. */
  lemma PageReaches(addr: int, n: int)
    ensures n * PAGESIZE <= addr <==> n <= Vpn(addr)
  {
    Multiple(addr / PAGESIZE - n, PAGESIZE);
    assert addr == (addr / PAGESIZE) * PAGESIZE + addr % PAGESIZE;
    assert (addr / PAGESIZE - n) * PAGESIZE == (addr / PAGESIZE) * PAGESIZE - n * PAGESIZE;
  }

  /** Of two addresses in a page only the lower can be its start. */
  lemma InPage(a: int, b: int)
    requires a < b && Vpn(a) == Vpn(b)
    ensures !Aligned(b) && PagesBelow(b) == Vpn(b) + 1
  {
    assert a == Vpn(a) * PAGESIZE + a % PAGESIZE && b == Vpn(b) * PAGESIZE + b % PAGESIZE;
  }
}
