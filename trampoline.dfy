/** The alignment arithmetic of setup_trampoline (implementation.c:442-461):
    the trampoline's stack is malloc'ed 4096 bytes larger than needed and
    its start is rounded up to the next multiple of 4096. */
module TrampolineStack {

  /** A 64-bit uintptr_t. */
  type uintptr = bv64

  /** 1 << 17 bytes, raised to PTHREAD_STACK_MIN where that is larger. */
  function TrampolineStackSize(pthreadStackMin: nat): (r: nat)
    ensures r >= 0x2_0000 && r >= pthreadStackMin
    ensures r == 0x2_0000 || r == pthreadStackMin
  {
    if 0x2_0000 < pthreadStackMin then pthreadStackMin else 0x2_0000
  }

  /** `((addr - 1) | 4095) + 1` in uintptr_t arithmetic. */
  function AlignUp(addr: uintptr): uintptr {
    ((addr - 1) | 4095) + 1
  }

  // Bit-level facts about clearing the low twelve bits of x, the page of
  // x. Each is kept in a lemma of its own: bit-vector facts proved together
  // cost the solver far more than the sum of their parts.

  lemma OrIsPageEnd(x: uintptr)
    ensures (x | 4095) == (x & !4095) + 4095
  {
  }

  lemma NextPageAligned(x: uintptr)
    ensures ((x & !4095) + 4096) & 4095 == 0
  {
  }

  lemma PageSum(x: uintptr)
    ensures (x & !4095) + (x & 4095) == x
  {
  }

  lemma PageBelow(x: uintptr)
    ensures x & !4095 <= x && x & 4095 <= 4095
  {
  }

  /** A page start `page` below the last page of the address space, and an
      offset `lo` into that page: the next boundary is at least one past
      the offset and less than 4096 beyond it. */
  lemma NextBoundaryNear(page: uintptr, lo: uintptr)
    requires lo <= 4095 && page <= 0xffff_ffff_ffff_efff
    ensures page + lo + 1 <= page + 4096
    ensures page + 4096 - (page + lo + 1) < 4096
  {
    assert page + 4096 - (page + lo + 1) == 4095 - lo;
  }

  /** `AlignUp(addr)` is the boundary after the page of `addr - 1`. */
  lemma AlignUpIsNextBoundary(addr: uintptr)
    ensures AlignUp(addr) == ((addr - 1) & !4095) + 4096
  {
    OrIsPageEnd(addr - 1);
  }

  /** `addr` is one past `addr - 1`, its page plus its offset into it. */
  lemma PredecessorSplit(addr: uintptr)
    ensures addr == ((addr - 1) & !4095) + ((addr - 1) & 4095) + 1
  {
    PageSum(addr - 1);
  }

  /** The page of `addr - 1` is not the last page, and the offset is one
      of 4096. */
  lemma PredecessorPageBounds(addr: uintptr)
    requires 1 <= addr <= 0xffff_ffff_ffff_f000
    ensures (addr - 1) & !4095 <= 0xffff_ffff_ffff_efff && (addr - 1) & 4095 <= 4095
  {
    PageBelow(addr - 1);
  }

  /** For any block malloc can hand out (one that does not reach the top
      of the address space), the rounded address is a multiple of 4096, no
      lower than the block's start and less than 4096 past it. */
  lemma AlignUpBounds(addr: uintptr)
    requires 1 <= addr <= 0xffff_ffff_ffff_f000
    ensures AlignUp(addr) & 4095 == 0
    ensures addr <= AlignUp(addr) && AlignUp(addr) - addr < 4096
  {
    NextPageAligned(addr - 1);
    AlignUpIsNextBoundary(addr);
    PredecessorSplit(addr);
    PredecessorPageBounds(addr);
    NextBoundaryNear((addr - 1) & !4095, (addr - 1) & 4095);
  }

  /** Why the bound above is needed: a block starting inside the last page
      of the address space would be rounded to address 0. */
  lemma AlignUpWrapsInLastPage()
    ensures AlignUp(0xffff_ffff_ffff_f001) == 0
  {
  }

  /** The aligned stack of `size` bytes lies inside the malloc'ed block of
      `size + 4096` bytes that starts at `addr`: it starts `offset` bytes
      into the block and ends no later than the block does. */
  lemma AlignedStackFits(addr: uintptr, size: nat)
    requires 1 <= addr <= 0xffff_ffff_ffff_f000
    ensures addr <= AlignUp(addr)
    ensures var offset := (AlignUp(addr) - addr) as int; offset + size <= size + 4096
  {
    AlignUpBounds(addr);
    SmallOffsetAsInt(AlignUp(addr) - addr);
  }

  lemma SmallOffsetAsInt(d: uintptr)
    requires d < 4096
    ensures d as int < 4096
  {
  }
}
