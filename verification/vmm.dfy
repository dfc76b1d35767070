/** The kernel's virtual-memory manager and MMU, as the boot-services layer
    sees them: an address space holds a list of regions and a page-granular
    translation table (virtual page -> physical page and flags). These are
    collaborators of the layer, not part of it; they are given abstract
    contracts here, with every outcome that the real implementation decides
    (where a contiguous allocation lands) passed in by the caller and every
    operation able to fail. */
module Vmm {
  import opened Efi

  const PAGE_SIZE: nat := 4096
  const PAGE_SIZE_SHIFT: nat := 12

  /** Cache policy bits of an MMU mapping. */
  const ARCH_MMU_FLAG_CACHED: bv32 := 0
  const ARCH_MMU_FLAG_CACHE_MASK: bv32 := 3

  /** A region of an address space's region list. */
  datatype Region = Region(base: nat, size: nat)

  /** One page-table entry: the physical page behind a virtual page, and its flags. */
  datatype Pte = Pte(pa: nat, flags: bv32)

  /** The translation table: page-aligned virtual address -> entry. */
  type Mmu = map<nat, Pte>

  /** The value of an address space: its region list and its translation table. */
  datatype SpaceState = SpaceState(regions: seq<Region>, mmu: Mmu)

  /** Where the VMM places a contiguous allocation: the virtual range's start and
      the start of the physically contiguous pages behind it. */
  datatype Placement = Placement(vaddr: nat, pa: nat)

  predicate Aligned(x: nat) {
    x % PAGE_SIZE == 0
  }

  /** ROUNDUP(size, PAGE_SIZE). */
  function RoundUp(size: nat): (r: nat)
    ensures Aligned(r) && size <= r < size + PAGE_SIZE
  {
    ((size + PAGE_SIZE - 1) / PAGE_SIZE) * PAGE_SIZE
  }

  function Pow2(n: nat): (r: nat)
    ensures r >= 1
  {
    if n == 0 then 1 else 2 * Pow2(n - 1)
  }

  /** p lies in the `count` pages starting at `start`. */
  predicate InPages(p: nat, start: nat, count: nat) {
    start <= p < start + count * PAGE_SIZE
  }

  /** Every entry maps an aligned virtual page to an aligned physical page. */
  ghost predicate WellFormed(m: Mmu) {
    forall p :: p in m ==> Aligned(p) && Aligned(m[p].pa)
  }

  /** The translation `arch_mmu_query` reports for `va`: the physical address
      behind it and the flags of its page, or failure when the page is unmapped. */
  function Translate(m: Mmu, va: nat): Option<Pte> {
    var page := va - va % PAGE_SIZE;
    if page in m then Some(Pte(m[page].pa + va % PAGE_SIZE, m[page].flags)) else None
  }

  /** The table after `arch_mmu_unmap(va, count)`. */
  function Unmapped(m: Mmu, va: nat, count: nat): Mmu {
    map p | p in m && !InPages(p, va, count) :: m[p]
  }

  /** `arch_mmu_map` succeeds on aligned addresses whose target pages are all unmapped. */
  predicate MapAllowed(m: Mmu, pa: nat, va: nat, count: nat) {
    Aligned(pa) && Aligned(va) && forall p :: p in m ==> !InPages(p, va, count)
  }

  /** The table after `arch_mmu_map(pa, va, count, flags)`. */
  function Mapped(m: Mmu, pa: nat, va: nat, count: nat, flags: bv32): Mmu {
    var range := set q: nat | va <= q < va + count * PAGE_SIZE && q % PAGE_SIZE == 0;
    map p | p in m.Keys + range :: if InPages(p, va, count) then Pte(pa + (p - va), flags) else m[p]
  }

  /** No region of `regions` overlaps the `size` bytes from `base`. */
  predicate Disjoint(regions: seq<Region>, base: nat, size: nat) {
    forall k :: 0 <= k < |regions| ==>
      regions[k].base + regions[k].size <= base || base + size <= regions[k].base
  }

  /** What `vmm_alloc_contiguous` does when the VMM would place the allocation
      at `placement`: it fails on a zero size, on a missing or misaligned
      placement, on a range that overlaps a region of the address space and on
      a range with a mapped page; otherwise it adds a region and maps the
      range, cached, to physically contiguous pages. */
  function AllocContiguousResult(s: SpaceState, size: nat, alignLog2: nat, placement: Option<Placement>): (Option<nat>, SpaceState)
  {
    var n := RoundUp(size) / PAGE_SIZE;
    if n == 0 || placement.None? then (None, s)
    else
      var pl := placement.value;
      if pl.vaddr % Pow2(alignLog2) == 0 && pl.pa % Pow2(alignLog2) == 0
         && Disjoint(s.regions, pl.vaddr, n * PAGE_SIZE) && MapAllowed(s.mmu, pl.pa, pl.vaddr, n) then
        (Some(pl.vaddr), SpaceState(s.regions + [Region(pl.vaddr, n * PAGE_SIZE)], Mapped(s.mmu, pl.pa, pl.vaddr, n, ARCH_MMU_FLAG_CACHED)))
      else (None, s)
  }

  /** `va` lies in `region`. */
  predicate Contains(region: Region, va: nat) {
    region.base <= va < region.base + region.size
  }

  /** The index of the first region that contains `va`, or None when no
      region does. */
  function FindRegion(regions: seq<Region>, va: nat): (r: Option<nat>)
    ensures r.Some? ==> r.value < |regions| && Contains(regions[r.value], va)
    ensures r.Some? ==> forall k :: 0 <= k < r.value ==> !Contains(regions[k], va)
    ensures r.None? <==> forall k :: 0 <= k < |regions| ==> !Contains(regions[k], va)
  {
    if |regions| == 0 then None
    else if Contains(regions[0], va) then Some(0)
    else match FindRegion(regions[1..], va)
      case None => None
      case Some(k) => Some(k + 1)
  }

  /** What `vmm_free_region(va)` does: it drops the region that contains `va`
      from the list and unmaps its pages, or fails when no region contains it. */
  function FreeRegionResult(s: SpaceState, va: nat): (bool, SpaceState) {
    match FindRegion(s.regions, va)
    case None => (false, s)
    case Some(k) =>
      var r := s.regions[k];
      (true, SpaceState(s.regions[..k] + s.regions[k + 1..], Unmapped(s.mmu, r.base, r.size / PAGE_SIZE)))
  }

  /** A `vmm_aspace_t` together with its `arch_aspace`. */
  class AddressSpace {
    var regions: seq<Region>
    var mmu: Mmu

    function State(): SpaceState
      reads this
    {
      SpaceState(regions, mmu)
    }

    /** `vmm_create_aspace`: an empty address space. */
    constructor Create()
      ensures regions == [] && mmu == map[]
    {
      regions := [];
      mmu := map[];
    }

    /** `arch_mmu_query`. */
    method Query(va: nat) returns (r: Option<Pte>)
      ensures r == Translate(mmu, va)
    {
      r := Translate(mmu, va);
    }

    /** `arch_mmu_unmap`: refuses a misaligned start. */
    method Unmap(va: nat, count: nat) returns (ok: bool)
      modifies this`mmu
      ensures ok == Aligned(va)
      ensures mmu == if ok then Unmapped(old(mmu), va, count) else old(mmu)
    {
      ok := Aligned(va);
      if ok {
        mmu := Unmapped(mmu, va, count);
      }
    }

    /** `arch_mmu_map`. */
    method Map(pa: nat, va: nat, count: nat, flags: bv32) returns (ok: bool)
      modifies this`mmu
      ensures ok == MapAllowed(old(mmu), pa, va, count)
      ensures mmu == if ok then Mapped(old(mmu), pa, va, count, flags) else old(mmu)
    {
      ok := MapAllowed(mmu, pa, va, count);
      if ok {
        mmu := Mapped(mmu, pa, va, count, flags);
      }
    }

    /** `vmm_alloc_contiguous`, with the VMM's choice of placement passed in. */
    method AllocContiguous(size: nat, alignLog2: nat, placement: Option<Placement>) returns (r: Option<nat>)
      modifies this
      ensures (r, State()) == AllocContiguousResult(old(State()), size, alignLog2, placement)
    {
      var outcome := AllocContiguousResult(State(), size, alignLog2, placement);
      r := outcome.0;
      regions, mmu := outcome.1.regions, outcome.1.mmu;
    }

    /** `vmm_free_region`. */
    method FreeRegion(va: nat) returns (ok: bool)
      modifies this
      ensures (ok, State()) == FreeRegionResult(old(State()), va)
    {
      var outcome := FreeRegionResult(State(), va);
      ok := outcome.0;
      regions, mmu := outcome.1.regions, outcome.1.mmu;
    }
  }

  // ---------------------------------------------------------------------
  // Facts about the translation table used by the boot-services proofs.
  // ---------------------------------------------------------------------

  /** After mapping `count` pages at `va`, every address in the range
      translates to the corresponding offset of the physical range. */
  lemma TranslateMapped(m: Mmu, pa: nat, va: nat, count: nat, flags: bv32, v: nat)
    requires Aligned(va) && InPages(v, va, count)
    ensures Translate(Mapped(m, pa, va, count, flags), v) == Some(Pte(pa + (v - va), flags))
  {
    var page := v - v % PAGE_SIZE;
    assert va <= page by {
      assert va % PAGE_SIZE == 0;
    }
    assert InPages(page, va, count);
    assert page % PAGE_SIZE == 0;
  }

  /** Outside the mapped range, mapping changes nothing. */
  lemma MappedElsewhere(m: Mmu, pa: nat, va: nat, count: nat, flags: bv32, p: nat)
    requires !InPages(p, va, count)
    ensures p in Mapped(m, pa, va, count, flags) <==> p in m
    ensures p in m ==> Mapped(m, pa, va, count, flags)[p] == m[p]
  {
  }

  lemma UnmappedWellFormed(m: Mmu, va: nat, count: nat)
    requires WellFormed(m)
    ensures WellFormed(Unmapped(m, va, count))
  {
  }

  lemma MappedWellFormed(m: Mmu, pa: nat, va: nat, count: nat, flags: bv32)
    requires WellFormed(m) && Aligned(pa) && Aligned(va)
    ensures WellFormed(Mapped(m, pa, va, count, flags))
  {
    var m' := Mapped(m, pa, va, count, flags);
    forall p | p in m'
      ensures Aligned(p) && Aligned(m'[p].pa)
    {
      if InPages(p, va, count) {
        assert (pa + (p - va)) % PAGE_SIZE == 0;
      }
    }
  }

  /** A contiguous allocation keeps the table well formed. */
  lemma AllocContiguousWellFormed(s: SpaceState, size: nat, alignLog2: nat, placement: Option<Placement>)
    requires WellFormed(s.mmu)
    ensures WellFormed(AllocContiguousResult(s, size, alignLog2, placement).1.mmu)
  {
    var n := RoundUp(size) / PAGE_SIZE;
    if n > 0 && placement.Some? {
      var pl := placement.value;
      if MapAllowed(s.mmu, pl.pa, pl.vaddr, n) {
        MappedWellFormed(s.mmu, pl.pa, pl.vaddr, n, ARCH_MMU_FLAG_CACHED);
      }
    }
  }
}
