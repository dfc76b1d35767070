/** The boot-services provider: the memory services (pool and page
    allocation with identity mapping, the memory map), protocol lookup by
    GUID, the lazily created address space of the loaded program, and the
    wiring of the EFI Boot Services Table (UEFI Specification, sections 4.4,
    7.2 and 7.3). */
module BootServiceProvider {
  import opened Efi
  import opened Vmm

  // ---------------------------------------------------------------------
  // Constants of the firmware interface
  // ---------------------------------------------------------------------

  /** sizeof(EfiMemoryDescriptor) and the descriptor version reported. */
  const DESC_SIZE: nat := 40
  const DESC_VERSION: bv32 := 1

  /** EFI_MEMORY_TYPE values used by the memory map. */
  const RESERVED_MEMORY_TYPE: bv32 := 0
  const LOADER_CODE: bv32 := 1
  const LOADER_DATA: bv32 := 2

  /** Memory attribute bits (UEFI Specification, section 7.2). */
  const EFI_MEMORY_WC: bv64 := 0x2
  const EFI_MEMORY_WT: bv64 := 0x4
  const EFI_MEMORY_WB: bv64 := 0x8
  /** The attributes reported for cached memory: write-back, write-combining
      and write-through. */
  const CACHED_ATTRIBUTES: bv64 := EFI_MEMORY_WB | EFI_MEMORY_WC | EFI_MEMORY_WT

  const EFI_LOADED_IMAGE_PROTOCOL_REVISION: bv32 := 0x1000

  /** EFI_ALLOCATE_TYPE. */
  datatype AllocateType = AllocateAnyPages | AllocateMaxAddress | AllocateAddress

  /** The two maximum addresses `allocate_pages` accepts with AllocateMaxAddress. */
  const MAX_ADDRESS_64: nat := 0xffff_ffff_ffff_ffff
  const MAX_ADDRESS_48: nat := 0xffff_ffff_ffff

  /** One more than the largest size_t. */
  const SIZE_LIMIT: nat := 0x1_0000_0000_0000_0000

  // ---------------------------------------------------------------------
  // Memory map
  // ---------------------------------------------------------------------

  /** EfiMemoryDescriptor. */
  datatype Descriptor = Descriptor(memoryType: bv32, physicalStart: nat, virtualStart: nat, numberOfPages: nat, attributes: bv64)

  /** A descriptor after `memset(memory_map, 0, ...)`. */
  const ZERO_DESCRIPTOR := Descriptor(RESERVED_MEMORY_TYPE, 0, 0, 0, 0)

  /** The flags `fill_memory_map_entry` inspects: the query's, or the 0 it was
      initialised with when the query fails. */
  function QueriedFlags(q: Option<Pte>): bv32 {
    if q.Some? then q.value.flags else 0
  }

  /** `attributes` with the cached-memory bits set. */
  function WithCachedAttributes(attributes: bv64): bv64 {
    attributes | CACHED_ATTRIBUTES
  }

  /** MMU flags whose cache policy is "cached". */
  predicate CachedFlags(flags: bv32) {
    flags & ARCH_MMU_FLAG_CACHE_MASK == ARCH_MMU_FLAG_CACHED
  }

  /** The descriptor `e` after `fill_memory_map_entry` for `region`, whose base
      translated to `q`. */
  function FilledEntry(e: Descriptor, region: Region, q: Option<Pte>): Descriptor {
    e.(virtualStart := region.base,
       physicalStart := if q.Some? then q.value.pa else region.base,
       numberOfPages := region.size / PAGE_SIZE,
       attributes := if CachedFlags(QueriedFlags(q)) then WithCachedAttributes(e.attributes) else e.attributes)
  }

  /** The descriptors `get_memory_map` writes for one address space: each
      zero-filled entry filled from its region and tagged `memoryType`. */
  function SpaceEntries(s: SpaceState, memoryType: bv32): (r: seq<Descriptor>)
    ensures |r| == |s.regions|
  {
    seq(|s.regions|, k requires 0 <= k < |s.regions| =>
      FilledEntry(ZERO_DESCRIPTOR, s.regions[k], Translate(s.mmu, s.regions[k].base)).(memoryType := memoryType))
  }

  /** The memory map: the kernel's regions as loader code, then the loaded
      program's regions as loader data. */
  function MemoryMap(kernel: SpaceState, program: SpaceState): (r: seq<Descriptor>)
    ensures |r| == |kernel.regions| + |program.regions|
  {
    SpaceEntries(kernel, LOADER_CODE) + SpaceEntries(program, LOADER_DATA)
  }

  /** The bytes the memory map needs. */
  function MapSize(kernel: SpaceState, program: SpaceState): nat {
    (|kernel.regions| + |program.regions|) * DESC_SIZE
  }

  /** What descriptor i of the memory map says about its region: where it
      comes from, its type, its addresses and page count, and its attributes,
      which are exactly WB|WC|WT for a cached or untranslatable base and 0
      otherwise (the zero fill leaves nothing else behind). */
  lemma MemoryMapEntry(kernel: SpaceState, program: SpaceState, i: nat)
    requires i < |kernel.regions| + |program.regions|
    ensures var e := MemoryMap(kernel, program)[i];
      var fromKernel := i < |kernel.regions|;
      var s := if fromKernel then kernel else program;
      var region := if fromKernel then kernel.regions[i] else program.regions[i - |kernel.regions|];
      var q := Translate(s.mmu, region.base);
      && e.memoryType == (if fromKernel then LOADER_CODE else LOADER_DATA)
      && e.virtualStart == region.base
      && e.numberOfPages == region.size / PAGE_SIZE
      && e.physicalStart == (if q.Some? then q.value.pa else region.base)
      && (e.attributes == CACHED_ATTRIBUTES <==>
            q.None? || q.value.flags & ARCH_MMU_FLAG_CACHE_MASK == ARCH_MMU_FLAG_CACHED)
      && (e.attributes == 0 <==> q.Some? && q.value.flags & ARCH_MMU_FLAG_CACHE_MASK != ARCH_MMU_FLAG_CACHED)
  {
    var fromKernel := i < |kernel.regions|;
    var s := if fromKernel then kernel else program;
    var region := if fromKernel then kernel.regions[i] else program.regions[i - |kernel.regions|];
    var q := Translate(s.mmu, region.base);
    var e := MemoryMap(kernel, program)[i];
    if CachedFlags(QueriedFlags(q)) {
      assert e.attributes == WithCachedAttributes(0) == 0xE;
    } else {
      assert e.attributes == 0;
    }
  }

  /** `get_aspace_entry_count`: the number of regions in the address space. */
  method GetAspaceEntryCount(aspace: AddressSpace) returns (count: nat)
    ensures count == |aspace.regions|
  {
    count := 0;
    var regions := aspace.regions;
    for k := 0 to |regions|
      invariant count == k
    {
      count := count + 1;
    }
  }

  /** `fill_memory_map_entry`: fills `entries[idx]` from `region`, asking the
      address space's MMU for the physical address and cache flags. */
  method FillMemoryMapEntry(aspace: AddressSpace, entries: array<Descriptor>, idx: nat, region: Region)
    requires idx < entries.Length
    modifies entries
    ensures entries[idx] == FilledEntry(old(entries[idx]), region, Translate(aspace.mmu, region.base))
    ensures forall t :: 0 <= t < entries.Length && t != idx ==> entries[t] == old(entries[t])
  {
    var e := entries[idx];
    e := e.(virtualStart := region.base);
    e := e.(physicalStart := e.virtualStart);
    e := e.(numberOfPages := region.size / PAGE_SIZE);
    var flags: bv32 := 0;
    var q := aspace.Query(region.base);
    if q.Some? {
      e := e.(physicalStart := q.value.pa);
      flags := q.value.flags;
    }
    if flags & ARCH_MMU_FLAG_CACHE_MASK == ARCH_MMU_FLAG_CACHED {
      e := e.(attributes := WithCachedAttributes(e.attributes));
    }
    entries[idx] := e;
  }

  /** One of the two region loops of `get_memory_map`: each region of
      `aspace`, in list order, fills the next zeroed descriptor from index
      `start` and tags it `memoryType`; the index past the last one written
      is returned. */
  method FillRegionEntries(aspace: AddressSpace, memoryMap: array<Descriptor>, start: nat, memoryType: bv32) returns (i: nat)
    requires start + |aspace.regions| <= memoryMap.Length
    requires forall t :: start <= t < start + |aspace.regions| ==> memoryMap[t] == ZERO_DESCRIPTOR
    modifies memoryMap
    ensures i == start + |aspace.regions|
    ensures forall t :: start <= t < i ==> memoryMap[t] == SpaceEntries(aspace.State(), memoryType)[t - start]
    ensures forall t :: 0 <= t < memoryMap.Length && !(start <= t < i) ==> memoryMap[t] == old(memoryMap[t])
  {
    ghost var expected := SpaceEntries(aspace.State(), memoryType);
    i := start;
    var regions := aspace.regions;
    for k := 0 to |regions|
      invariant i == start + k
      invariant forall t :: start <= t < i ==> memoryMap[t] == expected[t - start]
      invariant forall t :: 0 <= t < memoryMap.Length && !(start <= t < i) ==> memoryMap[t] == old(memoryMap[t])
    {
      FillMemoryMapEntry(aspace, memoryMap, i, regions[k]);
      memoryMap[i] := memoryMap[i].(memoryType := memoryType);
      i := i + 1;
    }
  }

  // ---------------------------------------------------------------------
  // Identity mapping
  // ---------------------------------------------------------------------

  /** Every address of the `count` pages from `start` translates to itself,
      with flags `flags`. */
  ghost predicate IdentityMapped(m: Mmu, start: nat, count: nat, flags: bv32) {
    forall v {:trigger Translate(m, v)} :: InPages(v, start, count) ==> Translate(m, v) == Some(Pte(v, flags))
  }

  /** `identity_map(addr, size)` on translation table `m`: the returned pointer
      and the new table. The size is rounded up to whole pages; a failed
      query, unmap or remap yields null. */
  function IdentityMapResult(m: Mmu, addr: nat, size: nat): (nat, Mmu) {
    var count := RoundUp(size) / PAGE_SIZE;
    match Translate(m, addr)
    case None => (NULL, m)
    case Some(pte) =>
      if !Aligned(addr) then (NULL, m)
      else
        var unmapped := Unmapped(m, addr, count);
        if MapAllowed(unmapped, pte.pa, pte.pa, count) then (pte.pa, Mapped(unmapped, pte.pa, pte.pa, count, pte.flags))
        else (NULL, unmapped)
  }

  /** `identity_map` as the source has it: the status of the remap is not
      looked at, so the backing address is returned even when the remap fails. */
  function IdentityMapAsWritten(m: Mmu, addr: nat, size: nat): (nat, Mmu) {
    var count := RoundUp(size) / PAGE_SIZE;
    match Translate(m, addr)
    case None => (NULL, m)
    case Some(pte) =>
      if !Aligned(addr) then (NULL, m)
      else
        var unmapped := Unmapped(m, addr, count);
        if MapAllowed(unmapped, pte.pa, pte.pa, count) then (pte.pa, Mapped(unmapped, pte.pa, pte.pa, count, pte.flags))
        else (pte.pa, unmapped)
  }

  /** A non-null result of `identity_map` is the physical address that backed
      `addr`; afterwards the whole rounded range translates to itself with the
      original flags, and every page outside the old and the new range is as
      it was: mapped to the same entry, or still unmapped. */
  lemma IdentityMapEstablishesIdentity(m: Mmu, addr: nat, size: nat)
    requires WellFormed(m)
    ensures var (r, m') := IdentityMapResult(m, addr, size);
      var count := RoundUp(size) / PAGE_SIZE;
      && WellFormed(m')
      && (r != NULL ==>
            && Aligned(addr) && Translate(m, addr).Some? && Translate(m, addr).value.pa == r
            && IdentityMapped(m', r, count, Translate(m, addr).value.flags)
            && (forall p :: p in m && !InPages(p, addr, count) && !InPages(p, r, count) ==> p in m' && m'[p] == m[p])
            && forall p :: p !in m && !InPages(p, addr, count) && !InPages(p, r, count) ==> p !in m')
  {
    var count := RoundUp(size) / PAGE_SIZE;
    UnmappedWellFormed(m, addr, count);
    match Translate(m, addr)
    case None =>
    case Some(pte) =>
      if Aligned(addr) {
        var unmapped := Unmapped(m, addr, count);
        if MapAllowed(unmapped, pte.pa, pte.pa, count) {
          var m' := Mapped(unmapped, pte.pa, pte.pa, count, pte.flags);
          MappedWellFormed(unmapped, pte.pa, pte.pa, count, pte.flags);
          forall v | InPages(v, pte.pa, count)
            ensures Translate(m', v) == Some(Pte(v, pte.flags))
          {
            TranslateMapped(unmapped, pte.pa, pte.pa, count, pte.flags, v);
          }
          forall p | p in m && !InPages(p, addr, count) && !InPages(p, pte.pa, count)
            ensures p in m' && m'[p] == m[p]
          {
            MappedElsewhere(unmapped, pte.pa, pte.pa, count, pte.flags, p);
          }
        }
      }
  }

  /** Identity-mapping a range that already translates to itself returns the
      same address and leaves the table as it was. */
  lemma IdentityMapIdempotent(m: Mmu, a: nat, size: nat, flags: bv32)
    requires WellFormed(m) && Aligned(a) && size > 0
    requires IdentityMapped(m, a, RoundUp(size) / PAGE_SIZE, flags)
    ensures IdentityMapResult(m, a, size) == (a, m)
  {
    var count := RoundUp(size) / PAGE_SIZE;
    assert InPages(a, a, count);
    IdentityPage(m, a, count, flags, a);
    assert Translate(m, a) == Some(Pte(a, flags));
    assert MapAllowed(Unmapped(m, a, count), a, a, count);
    RemapRestores(m, a, count, flags);
  }

  /** A page of an identity-mapped range is a key of the table whose entry
      maps it to itself. */
  lemma IdentityPage(m: Mmu, a: nat, count: nat, flags: bv32, p: nat)
    requires Aligned(p) && InPages(p, a, count) && IdentityMapped(m, a, count, flags)
    ensures p in m && m[p] == Pte(p, flags)
  {
    assert Translate(m, p) == Some(Pte(p, flags));
  }

  /** Unmapping an identity-mapped range and mapping it to itself again with
      the same flags restores the table. */
  lemma RemapRestores(m: Mmu, a: nat, count: nat, flags: bv32)
    requires WellFormed(m) && Aligned(a) && IdentityMapped(m, a, count, flags)
    ensures Mapped(Unmapped(m, a, count), a, a, count, flags) == m
  {
    var unmapped := Unmapped(m, a, count);
    var m' := Mapped(unmapped, a, a, count, flags);
    forall p | p in m
      ensures p in m' && m'[p] == m[p]
    {
      if InPages(p, a, count) {
        IdentityPage(m, a, count, flags, p);
      } else {
        MappedElsewhere(unmapped, a, a, count, flags, p);
      }
    }
    forall p | p in m'
      ensures p in m
    {
      if InPages(p, a, count) {
        assert p !in unmapped && p % PAGE_SIZE == 0;
        IdentityPage(m, a, count, flags, p);
      }
    }
  }

  /** The remap failure the source does not report: the address at 0x1000 is
      backed by 0x5000, but 0x5000 is itself mapped elsewhere, so the remap is
      refused. The code as written still returns 0x5000, which now translates
      to 0x9000, not to itself, and 0x1000 is left unmapped; the corrected
      `identity_map` returns null. */
  lemma RemapFailureUnreported()
    ensures var m := map[0x1000 := Pte(0x5000, 0), 0x5000 := Pte(0x9000, 0)];
      var (r, m') := IdentityMapAsWritten(m, 0x1000, PAGE_SIZE);
      && r == 0x5000
      && Translate(m', r) == Some(Pte(0x9000, 0))
      && Translate(m', 0x1000) == None
      && IdentityMapResult(m, 0x1000, PAGE_SIZE).0 == NULL
  {
    var m := map[0x1000 := Pte(0x5000, 0), 0x5000 := Pte(0x9000, 0)];
    assert RoundUp(PAGE_SIZE) == PAGE_SIZE;
    assert Translate(m, 0x1000) == Some(Pte(0x5000, 0));
    var unmapped := Unmapped(m, 0x1000, 1);
    assert 0x5000 in unmapped && unmapped[0x5000] == Pte(0x9000, 0);
    assert 0x1000 !in unmapped;
    assert !MapAllowed(unmapped, 0x5000, 0x5000, 1);
  }

  // ---------------------------------------------------------------------
  // Page allocation
  // ---------------------------------------------------------------------

  /** `alloc_page(size, align_log2)`: a contiguous allocation in the program's
      address space, identity-mapped. */
  function AllocPageResult(s: SpaceState, size: nat, alignLog2: nat, placement: Option<Placement>): (nat, SpaceState) {
    var placed := AllocContiguousResult(s, size, alignLog2, placement);
    if placed.0.None? then (NULL, placed.1)
    else
      var mapped := IdentityMapResult(placed.1.mmu, placed.0.value, size);
      (mapped.0, placed.1.(mmu := mapped.1))
  }

  /** `alloc_page(addr, size, align_log2)`: at `addr` if the VMM can place it
      there (backed by `fixedPa`), otherwise wherever `placement` says. */
  function AllocPageAtResult(s: SpaceState, addr: nat, size: nat, alignLog2: nat, fixedPa: Option<nat>, placement: Option<Placement>): (nat, SpaceState) {
    if addr == NULL then AllocPageResult(s, size, alignLog2, placement)
    else
      var fixed := if fixedPa.Some? then Some(Placement(addr, fixedPa.value)) else None;
      var placed := AllocContiguousResult(s, size, alignLog2, fixed);
      if placed.0.None? then AllocPageResult(s, size, alignLog2, placement)
      else
        var mapped := IdentityMapResult(placed.1.mmu, addr, size);
        (mapped.0, placed.1.(mmu := mapped.1))
  }

  /** A non-null page allocation is the page-aligned physical start of the placement, its
      whole range translates to itself, cached, and the allocation was added
      to the region list without overlapping an earlier region; a zero-size request always fails and changes nothing. */
  lemma AllocPageIdentityMapped(s: SpaceState, size: nat, alignLog2: nat, placement: Option<Placement>)
    requires WellFormed(s.mmu)
    ensures var (r, s') := AllocPageResult(s, size, alignLog2, placement);
      var count := RoundUp(size) / PAGE_SIZE;
      && WellFormed(s'.mmu)
      && (size == 0 ==> r == NULL && s' == s)
      && (r != NULL ==>
            && placement.Some? && r == placement.value.pa && Aligned(r) && count > 0
            && s'.regions == s.regions + [Region(placement.value.vaddr, count * PAGE_SIZE)]
            && Disjoint(s.regions, placement.value.vaddr, count * PAGE_SIZE)
            && IdentityMapped(s'.mmu, r, count, ARCH_MMU_FLAG_CACHED))
  {
    var count := RoundUp(size) / PAGE_SIZE;
    var placed := AllocContiguousResult(s, size, alignLog2, placement);
    if placed.0.Some? {
      var pl := placement.value;
      MappedWellFormed(s.mmu, pl.pa, pl.vaddr, count, ARCH_MMU_FLAG_CACHED);
      assert InPages(pl.vaddr, pl.vaddr, count);
      TranslateMapped(s.mmu, pl.pa, pl.vaddr, count, ARCH_MMU_FLAG_CACHED, pl.vaddr);
      IdentityMapEstablishesIdentity(placed.1.mmu, pl.vaddr, size);
    }
  }

  /** `alloc_page(addr, size, align_log2)` falls back to the unconstrained
      `alloc_page` when `addr` is null or the VMM cannot place the allocation
      there. When it can, a non-null result is the page-aligned physical
      memory backing `addr`, the region at `addr` is recorded, and the whole range translates
      to itself, cached. */
  lemma AllocPageAtIdentityMapped(s: SpaceState, addr: nat, size: nat, alignLog2: nat, fixedPa: Option<nat>, placement: Option<Placement>)
    requires WellFormed(s.mmu)
    ensures var fixed := if fixedPa.Some? then Some(Placement(addr, fixedPa.value)) else None;
      var fixedOk := addr != NULL && AllocContiguousResult(s, size, alignLog2, fixed).0.Some?;
      var (r, s') := AllocPageAtResult(s, addr, size, alignLog2, fixedPa, placement);
      var count := RoundUp(size) / PAGE_SIZE;
      && WellFormed(s'.mmu)
      && (!fixedOk ==> (r, s') == AllocPageResult(s, size, alignLog2, placement))
      && (fixedOk && r != NULL ==>
            && fixedPa.Some? && r == fixedPa.value && Aligned(r) && count > 0
            && s'.regions == s.regions + [Region(addr, count * PAGE_SIZE)]
            && IdentityMapped(s'.mmu, r, count, ARCH_MMU_FLAG_CACHED))
  {
    var fixed := if fixedPa.Some? then Some(Placement(addr, fixedPa.value)) else None;
    if addr == NULL || AllocContiguousResult(s, size, alignLog2, fixed).0.None? {
      AllocPageIdentityMapped(s, size, alignLog2, placement);
    } else {
      AllocPageIdentityMapped(s, size, alignLog2, fixed);
    }
  }

  /** A whole number of pages needs no rounding. */
  lemma WholePages(pages: nat)
    ensures RoundUp(pages * PAGE_SIZE) / PAGE_SIZE == pages
  {
    assert (pages * PAGE_SIZE + PAGE_SIZE - 1) / PAGE_SIZE == pages;
  }

  /** The page work of `allocate_pages`: `alloc_page` of the byte size, then
      `identity_map` of its result a second time. */
  function AllocatePagesResult(s: SpaceState, pages: nat, placement: Option<Placement>): (nat, SpaceState) {
    var placed := AllocPageResult(s, pages * PAGE_SIZE, PAGE_SIZE_SHIFT, placement);
    var remapped := IdentityMapResult(placed.1.mmu, placed.0, pages * PAGE_SIZE);
    (remapped.0, placed.1.(mmu := remapped.1))
  }

  /** The second identity mapping in `allocate_pages` is harmless: when
      `alloc_page` succeeded it changes nothing, so the result is the physical
      start of the placement, the region is recorded and all its pages
      translate to themselves, cached; when `alloc_page` failed and page 0 is
      unmapped, it changes nothing either. */
  lemma AllocatePagesIdentityMapped(s: SpaceState, pages: nat, placement: Option<Placement>)
    requires WellFormed(s.mmu)
    ensures var placed := AllocPageResult(s, pages * PAGE_SIZE, PAGE_SIZE_SHIFT, placement);
      var result := AllocatePagesResult(s, pages, placement);
      && WellFormed(result.1.mmu)
      && (placed.0 != NULL ==>
            && result == placed
            && placement.Some? && result.0 == placement.value.pa
            && result.1.regions == s.regions + [Region(placement.value.vaddr, pages * PAGE_SIZE)]
            && IdentityMapped(result.1.mmu, result.0, pages, ARCH_MMU_FLAG_CACHED))
      && (placed.0 == NULL && Translate(placed.1.mmu, NULL).None? ==> result == placed)
  {
    var size := pages * PAGE_SIZE;
    WholePages(pages);
    AllocPageIdentityMapped(s, size, PAGE_SIZE_SHIFT, placement);
    var placed := AllocPageResult(s, size, PAGE_SIZE_SHIFT, placement);
    IdentityMapEstablishesIdentity(placed.1.mmu, placed.0, size);
    if placed.0 != NULL {
      IdentityMapIdempotent(placed.1.mmu, placed.0, size, ARCH_MMU_FLAG_CACHED);
    }
  }

  // ---------------------------------------------------------------------
  // Protocol lookup
  // ---------------------------------------------------------------------

  /** `locate_protocol`: a null GUID is an invalid parameter; the TCG2 protocol
      is reported absent (no TPM); every other GUID, the RNG protocol
      included, is unsupported. The interface out-parameter is never written. */
  function LocateProtocol(protocol: Option<Guid>): (s: Status)
    ensures s == InvalidParameter <==> protocol.None?
    ensures s == NotFound <==> protocol == Some(EFI_TCG2_PROTOCOL_GUID)
    ensures s == Unsupported <==> protocol.Some? && protocol.value != EFI_TCG2_PROTOCOL_GUID
  {
    if protocol.None? then InvalidParameter
    else
      GuidEqIsEquality(protocol.value, EFI_TCG2_PROTOCOL_GUID);
      GuidEqIsEquality(protocol.value, EFI_RNG_PROTOCOL_GUID);
      if GuidEq(protocol.value, EFI_RNG_PROTOCOL_GUID) then Unsupported
      else if GuidEq(protocol.value, EFI_TCG2_PROTOCOL_GUID) then NotFound
      else Unsupported
  }

  /** `locate_device_path`: the Load File 2 protocol is reported absent, every
      other GUID unsupported; neither out-parameter is written. */
  function LocateDevicePath(protocol: Guid): (s: Status)
    ensures s == NotFound <==> protocol == EFI_LOAD_FILE2_PROTOCOL_GUID
    ensures s == Unsupported <==> protocol != EFI_LOAD_FILE2_PROTOCOL_GUID
  {
    GuidEqIsEquality(protocol, EFI_LOAD_FILE2_PROTOCOL_GUID);
    if GuidEq(protocol, EFI_LOAD_FILE2_PROTOCOL_GUID) then NotFound else Unsupported
  }

  /** EFI_LOADED_IMAGE_PROTOCOL (UEFI Specification, section 9.1). */
  class LoadedImage {
    var revision: bv32
    var parentHandle: nat
    var systemTable: nat
    var deviceHandle: nat
    var filePath: nat
    var reserved: nat
    var loadOptionsSize: nat
    var loadOptions: nat
    var imageBase: nat
    var imageSize: nat
    var imageCodeType: bv32
    var imageDataType: bv32
    var unload: FnPtr

    /** The record as `malloc` followed by `memset(.., 0, ..)` leaves it. */
    constructor Zeroed()
      ensures revision == 0 && parentHandle == NULL && systemTable == NULL
      ensures deviceHandle == NULL && filePath == NULL && reserved == NULL
      ensures loadOptionsSize == 0 && loadOptions == NULL
      ensures imageBase == NULL && imageSize == 0 && imageCodeType == 0 && imageDataType == 0
      ensures unload == NullFn
    {
      revision, parentHandle, systemTable := 0, NULL, NULL;
      deviceHandle, filePath, reserved := NULL, NULL, NULL;
      loadOptionsSize, loadOptions := 0, NULL;
      imageBase, imageSize, imageCodeType, imageDataType := NULL, 0, 0, 0;
      unload := NullFn;
    }
  }

  /** The `void *` an interface lookup writes through its `intf` argument. */
  class InterfaceRef {
    var target: LoadedImage?

    constructor (t: LoadedImage?)
      ensures target == t
    {
      target := t;
    }
  }

  /** `handle_protocol`: the loaded-image protocol yields a fresh record whose
      image base is the handle; the Linux fixed-loaded-image GUID succeeds
      without writing; every other GUID is unsupported and nothing is
      written. The record's allocation is not checked in the source, so it is
      modelled as one that succeeds. */
  method HandleProtocol(handle: nat, protocol: Guid, intf: InterfaceRef?) returns (status: Status)
    requires protocol == LOADED_IMAGE_PROTOCOL_GUID ==> intf != null
    modifies intf
    ensures protocol == LOADED_IMAGE_PROTOCOL_GUID ==>
      && status == Success
      && intf.target != null && fresh(intf.target)
      && intf.target.revision == EFI_LOADED_IMAGE_PROTOCOL_REVISION
      && intf.target.imageBase == handle
      && intf.target.unload == UnloadFn
      && intf.target.parentHandle == NULL && intf.target.systemTable == NULL
      && intf.target.loadOptionsSize == 0 && intf.target.loadOptions == NULL
      && intf.target.deviceHandle == NULL && intf.target.filePath == NULL && intf.target.reserved == NULL
      && intf.target.imageSize == 0 && intf.target.imageCodeType == 0 && intf.target.imageDataType == 0
    ensures protocol == LINUX_EFI_LOADED_IMAGE_FIXED_GUID ==> status == Success && (intf != null ==> unchanged(intf))
    ensures protocol != LOADED_IMAGE_PROTOCOL_GUID && protocol != LINUX_EFI_LOADED_IMAGE_FIXED_GUID ==>
      status == Unsupported && (intf != null ==> unchanged(intf))
  {
    GuidEqIsEquality(protocol, LOADED_IMAGE_PROTOCOL_GUID);
    GuidEqIsEquality(protocol, LINUX_EFI_LOADED_IMAGE_FIXED_GUID);
    if GuidEq(protocol, LOADED_IMAGE_PROTOCOL_GUID) {
      var loadedImage := new LoadedImage.Zeroed();
      loadedImage.revision := EFI_LOADED_IMAGE_PROTOCOL_REVISION;
      loadedImage.parentHandle := NULL;
      loadedImage.systemTable := NULL;
      loadedImage.loadOptionsSize := 0;
      loadedImage.loadOptions := NULL;
      loadedImage.unload := UnloadFn;
      loadedImage.imageBase := handle;
      intf.target := loadedImage;
      return Success;
    } else if GuidEq(protocol, LINUX_EFI_LOADED_IMAGE_FIXED_GUID) {
      return Success;
    }
    return Unsupported;
  }

  // ---------------------------------------------------------------------
  // Pool allocation and the constant-status services
  // ---------------------------------------------------------------------

  /** `allocate_pool`; `mallocResult` is what `malloc(size)` would return
      (NULL when the heap is exhausted). A null `buf` is an invalid
      parameter; a zero size succeeds with a null buffer whatever the heap
      would have done; otherwise the call succeeds exactly when `malloc` did,
      and its result is stored either way. */
  method AllocatePool(poolType: bv32, size: nat, buf: Cell?, mallocResult: nat) returns (status: Status)
    modifies buf
    ensures buf == null ==> status == InvalidParameter
    ensures buf != null && size == 0 ==> status == Success && buf.value == NULL
    ensures buf != null && size > 0 ==>
      && buf.value == mallocResult
      && (status == Success <==> mallocResult != NULL)
      && (status != Success ==> status == OutOfResources)
  {
    if buf == null {
      return InvalidParameter;
    }
    if size == 0 {
      buf.value := NULL;
      return Success;
    }
    buf.value := mallocResult;
    if buf.value != NULL {
      return Success;
    }
    return OutOfResources;
  }

  function Unload(handle: nat): Status { Success }
  function FreePool(mem: nat): Status { Success }
  function RegisterProtocolNotify(protocol: Guid, event: nat, registration: nat): Status { Unsupported }
  function LocateHandle(searchType: nat, protocol: nat, searchKey: nat, bufSize: nat, buf: nat): Status { Unsupported }
  function UninstallMultipleProtocolInterfaces(handle: nat): Status { Unsupported }
  function CalculateCrc32(data: nat, len: nat, crc32: nat): Status { Unsupported }
  function UninstallProtocolInterface(handle: nat, protocol: Guid, intf: nat): Status { Unsupported }
  function LoadImage(bootPolicy: bool, parentImageHandle: nat, path: nat, src: nat, srcSize: nat, imageHandle: nat): Status { Unsupported }
  function InstallConfigurationTable(guid: Guid, table: nat): Status { Unsupported }
  function ExitBootServices(imageHandle: nat, mapKey: nat): Status { Success }
  function SetTimer(event: nat, timerType: nat, triggerTime: nat): Status { Unsupported }
  function WaitForEvent(numEvents: nat, event: nat, index: nat): Status { Unsupported }

  /** The services this layer does not implement report Unsupported whatever
      their arguments; ExitBootServices accepts any map key, and FreePool and
      the loaded image's Unload always succeed. */
  lemma ConstantStatusServices()
    ensures forall h, k :: ExitBootServices(h, k) == Success
    ensures forall mem :: FreePool(mem) == Success
    ensures forall h :: Unload(h) == Success
    ensures forall g, e, r :: RegisterProtocolNotify(g, e, r) == Unsupported
    ensures forall t, p, k, n, b :: LocateHandle(t, p, k, n, b) == Unsupported
    ensures forall h :: UninstallMultipleProtocolInterfaces(h) == Unsupported
    ensures forall d, n, c :: CalculateCrc32(d, n, c) == Unsupported
    ensures forall h, g, i :: UninstallProtocolInterface(h, g, i) == Unsupported
    ensures forall b, h, p, s, n, i :: LoadImage(b, h, p, s, n, i) == Unsupported
    ensures forall g, t :: InstallConfigurationTable(g, t) == Unsupported
    ensures forall e, t, n :: SetTimer(e, t, n) == Unsupported
    ensures forall n, e, i :: WaitForEvent(n, e, i) == Unsupported
  {
  }

  // ---------------------------------------------------------------------
  // The Boot Services Table
  // ---------------------------------------------------------------------

  /** The contents of EfiBootService: one function pointer per slot (the
      slots this layer never reads or writes are not modelled). */
  datatype BootServices = BootServices(
    handleProtocol: FnPtr,
    allocatePool: FnPtr,
    freePool: FnPtr,
    getMemoryMap: FnPtr,
    registerProtocolNotify: FnPtr,
    locateHandle: FnPtr,
    locateProtocol: FnPtr,
    allocatePages: FnPtr,
    freePages: FnPtr,
    uninstallMultipleProtocolInterfaces: FnPtr,
    calculateCrc32: FnPtr,
    uninstallProtocolInterface: FnPtr,
    loadImage: FnPtr,
    locateDevicePath: FnPtr,
    installConfigurationTable: FnPtr,
    exitBootServices: FnPtr,
    setTimer: FnPtr,
    waitForEvent: FnPtr,
    copyMem: FnPtr,
    setMem: FnPtr,
    openProtocol: FnPtr,
    closeProtocol: FnPtr,
    locateHandleBuffer: FnPtr,
    installProtocolInterface: FnPtr,
    signalEvent: FnPtr,
    createEvent: FnPtr,
    closeEvent: FnPtr,
    startImage: FnPtr,
    exit: FnPtr,
    unloadImage: FnPtr
  )

  /** The EfiBootService record that `setup_boot_service_table` writes
      through its pointer argument. */
  class BootServiceTable {
    var services: BootServices

    constructor (initial: BootServices)
      ensures services == initial
    {
      services := initial;
    }
  }

  /** `setup_boot_service_table`: each wired slot holds this layer's
      implementation of that service; the other slots keep whatever they
      held. */
  method SetupBootServiceTable(service: BootServiceTable)
    modifies service
    ensures service.services.handleProtocol == BootFn(Service.HandleProtocol)
    ensures service.services.allocatePool == BootFn(Service.AllocatePool)
    ensures service.services.freePool == BootFn(Service.FreePool)
    ensures service.services.getMemoryMap == BootFn(Service.GetMemoryMap)
    ensures service.services.registerProtocolNotify == BootFn(Service.RegisterProtocolNotify)
    ensures service.services.locateHandle == BootFn(Service.LocateHandle)
    ensures service.services.locateProtocol == BootFn(Service.LocateProtocol)
    ensures service.services.allocatePages == BootFn(Service.AllocatePages)
    ensures service.services.freePages == BootFn(Service.FreePages)
    ensures service.services.uninstallMultipleProtocolInterfaces == BootFn(Service.UninstallMultipleProtocolInterfaces)
    ensures service.services.calculateCrc32 == BootFn(Service.CalculateCrc32)
    ensures service.services.uninstallProtocolInterface == BootFn(Service.UninstallProtocolInterface)
    ensures service.services.loadImage == BootFn(Service.LoadImage)
    ensures service.services.locateDevicePath == BootFn(Service.LocateDevicePath)
    ensures service.services.installConfigurationTable == BootFn(Service.InstallConfigurationTable)
    ensures service.services.exitBootServices == BootFn(Service.ExitBootServices)
    ensures service.services.setTimer == BootFn(Service.SetTimer)
    ensures service.services.waitForEvent == BootFn(Service.WaitForEvent)
    ensures service.services.copyMem == BootFn(Service.CopyMem)
    ensures service.services.setMem == BootFn(Service.SetMem)
    ensures service.services.openProtocol == old(service.services.openProtocol)
    ensures service.services.closeProtocol == old(service.services.closeProtocol)
    ensures service.services.locateHandleBuffer == old(service.services.locateHandleBuffer)
    ensures service.services.installProtocolInterface == old(service.services.installProtocolInterface)
    ensures service.services.signalEvent == old(service.services.signalEvent)
    ensures service.services.createEvent == old(service.services.createEvent)
    ensures service.services.closeEvent == old(service.services.closeEvent)
    ensures service.services.startImage == old(service.services.startImage)
    ensures service.services.exit == old(service.services.exit)
    ensures service.services.unloadImage == old(service.services.unloadImage)
  {
    service.services := service.services.(handleProtocol := BootFn(Service.HandleProtocol));
    service.services := service.services.(allocatePool := BootFn(Service.AllocatePool));
    service.services := service.services.(freePool := BootFn(Service.FreePool));
    service.services := service.services.(getMemoryMap := BootFn(Service.GetMemoryMap));
    service.services := service.services.(registerProtocolNotify := BootFn(Service.RegisterProtocolNotify));
    service.services := service.services.(locateHandle := BootFn(Service.LocateHandle));
    service.services := service.services.(locateProtocol := BootFn(Service.LocateProtocol));
    service.services := service.services.(allocatePages := BootFn(Service.AllocatePages));
    service.services := service.services.(freePages := BootFn(Service.FreePages));
    service.services := service.services.(uninstallMultipleProtocolInterfaces := BootFn(Service.UninstallMultipleProtocolInterfaces));
    service.services := service.services.(calculateCrc32 := BootFn(Service.CalculateCrc32));
    service.services := service.services.(uninstallProtocolInterface := BootFn(Service.UninstallProtocolInterface));
    service.services := service.services.(loadImage := BootFn(Service.LoadImage));
    service.services := service.services.(locateDevicePath := BootFn(Service.LocateDevicePath));
    service.services := service.services.(installConfigurationTable := BootFn(Service.InstallConfigurationTable));
    service.services := service.services.(exitBootServices := BootFn(Service.ExitBootServices));
    service.services := service.services.(setTimer := BootFn(Service.SetTimer));
    service.services := service.services.(waitForEvent := BootFn(Service.WaitForEvent));
    service.services := service.services.(copyMem := BootFn(Service.CopyMem));
    service.services := service.services.(setMem := BootFn(Service.SetMem));
  }

  // ---------------------------------------------------------------------
  // The provider's state: the kernel's address space and the program's,
  // created on first use and cached (`get_address_space`)
  // ---------------------------------------------------------------------

  class Provider {
    /** vmm_get_kernel_aspace(). */
    const kernel: AddressSpace
    /** The `static` cache of `get_address_space`. */
    var program: AddressSpace?
    /** The address space last made active with vmm_set_active_aspace. */
    var active: AddressSpace?

    /** The program's address space exists, is distinct from the kernel's,
        and its translation table maps aligned pages to aligned pages. */
    ghost predicate Ready()
      reads this, program
    {
      program != null && program != kernel && WellFormed(program.mmu)
    }

    constructor (kernel: AddressSpace)
      ensures this.kernel == kernel && program == null && active == null
    {
      this.kernel := kernel;
      program := null;
      active := null;
    }

    /** `get_address_space`; `createOk` is whether vmm_create_aspace would
        succeed. Once created, the space is returned on every later call and
        never created again; a failed creation returns null, leaves the cache
        empty, and the next call tries again. */
    method GetAddressSpace(createOk: bool) returns (aspace: AddressSpace?)
      modifies this`program, this`active
      ensures old(program) != null ==> aspace == old(program) && program == old(program) && active == old(active)
      ensures old(program) == null && createOk ==>
        && aspace != null && fresh(aspace) && aspace.regions == [] && aspace.mmu == map[]
        && program == aspace && active == aspace && Ready()
      ensures old(program) == null && !createOk ==> aspace == null && program == null && active == old(active)
    {
      if program == null {
        if !createOk {
          return null;
        }
        var created := new AddressSpace.Create();
        program := created;
        active := created;
      }
      aspace := program;
    }

    /** `identity_map` (with the remap's status checked; see
        IdentityMapAsWritten for the code as written). */
    method IdentityMap(addr: nat, size: nat) returns (r: nat)
      requires Ready()
      modifies program`mmu
      ensures (r, program.mmu) == IdentityMapResult(old(program.mmu), addr, size)
      ensures Ready()
    {
      IdentityMapEstablishesIdentity(program.mmu, addr, size);
      var rounded := RoundUp(size);
      var q := program.Query(addr);
      if q.None? {
        return NULL;
      }
      var pa, flags := q.value.pa, q.value.flags;
      var ok := program.Unmap(addr, rounded / PAGE_SIZE);
      if !ok {
        return NULL;
      }
      ok := program.Map(pa, pa, rounded / PAGE_SIZE, flags);
      if !ok {
        return NULL;
      }
      r := pa;
    }

    /** `alloc_page(size, align_log2)`; `placement` is where the VMM would put
        the allocation, or None when it cannot allocate. */
    method AllocPage(size: nat, alignLog2: nat, placement: Option<Placement>) returns (r: nat)
      requires Ready()
      modifies program
      ensures (r, program.State()) == AllocPageResult(old(program.State()), size, alignLog2, placement)
      ensures Ready()
    {
      AllocContiguousWellFormed(program.State(), size, alignLog2, placement);
      var vptr := program.AllocContiguous(size, alignLog2, placement);
      if vptr.None? {
        return NULL;
      }
      r := IdentityMap(vptr.value, size);
    }

    /** `alloc_page(addr, size, align_log2)`; `fixedPa` is the physical memory
        the VMM would back `addr` with, or None when it cannot honour `addr`. */
    method AllocPageAt(addr: nat, size: nat, alignLog2: nat, fixedPa: Option<nat>, placement: Option<Placement>) returns (r: nat)
      requires Ready()
      modifies program
      ensures (r, program.State()) == AllocPageAtResult(old(program.State()), addr, size, alignLog2, fixedPa, placement)
      ensures Ready()
    {
      if addr == NULL {
        r := AllocPage(size, alignLog2, placement);
        return;
      }
      var fixed := if fixedPa.Some? then Some(Placement(addr, fixedPa.value)) else None;
      AllocContiguousWellFormed(program.State(), size, alignLog2, fixed);
      var vptr := program.AllocContiguous(size, alignLog2, fixed);
      if vptr.None? {
        r := AllocPage(size, alignLog2, placement);
        return;
      }
      r := IdentityMap(addr, size);
    }

    /** `allocate_pages`. A null `memory` is an invalid parameter; a maximum
        address other than all-ones or 2^48 - 1 is unsupported and leaves
        `*memory` alone; otherwise the pages come from `alloc_page`, are
        identity-mapped once more, and the call fails exactly when the result
        is null. A successful result is identity-mapped over all its pages.
        The requested address of AllocateAddress is not looked at. */
    method AllocatePages(allocType: AllocateType, memoryType: bv32, pages: nat, memory: Cell?, placement: Option<Placement>) returns (status: Status)
      requires Ready()
      requires pages * PAGE_SIZE < SIZE_LIMIT
      modifies memory, program
      ensures memory == null ==> status == InvalidParameter && unchanged(program)
      ensures memory != null && allocType == AllocateMaxAddress && old(memory.value) != MAX_ADDRESS_64 && old(memory.value) != MAX_ADDRESS_48 ==>
        status == Unsupported && unchanged(memory) && unchanged(program)
      ensures memory != null && (allocType != AllocateMaxAddress || old(memory.value) == MAX_ADDRESS_64 || old(memory.value) == MAX_ADDRESS_48) ==>
        && (memory.value, program.State()) == AllocatePagesResult(old(program.State()), pages, placement)
        && (status == Success <==> memory.value != NULL)
        && (status != Success ==> status == OutOfResources)
      ensures status == Success && AllocPageResult(old(program.State()), pages * PAGE_SIZE, PAGE_SIZE_SHIFT, placement).0 != NULL ==>
        && memory != null && placement.Some? && memory.value == placement.value.pa && Aligned(memory.value)
        && IdentityMapped(program.mmu, memory.value, pages, ARCH_MMU_FLAG_CACHED)
      ensures Ready()
    {
      if memory == null {
        return InvalidParameter;
      }
      if allocType == AllocateMaxAddress && memory.value != MAX_ADDRESS_64 && memory.value != MAX_ADDRESS_48 {
        return Unsupported;
      }
      AllocatePagesIdentityMapped(program.State(), pages, placement);
      var p := AllocPage(pages * PAGE_SIZE, PAGE_SIZE_SHIFT, placement);
      var r := IdentityMap(p, pages * PAGE_SIZE);
      memory.value := r;
      if memory.value == NULL {
        return OutOfResources;
      }
      return Success;
    }

    /** `free_pages`: hands the region containing `memory` back to the VMM,
        then reports Unsupported whatever happened. */
    method FreePages(memory: nat, pages: nat) returns (status: Status)
      requires Ready()
      modifies program
      ensures status == Unsupported
      ensures program.State() == FreeRegionResult(old(program.State()), memory).1
      ensures Ready()
    {
      var k := FindRegion(program.regions, memory);
      if k.Some? {
        var region := program.regions[k.value];
        UnmappedWellFormed(program.mmu, region.base, region.size / PAGE_SIZE);
      }
      var freed := program.FreeRegion(memory);
      status := Unsupported;
    }

    /** `get_memory_map`. A null `memory_map_size` is an invalid parameter and
        nothing is written. Otherwise the map key (0), descriptor size and
        version are reported through whichever pointers are non-null, and
        `*memory_map_size` becomes the size the map needs; when the caller's
        capacity is smaller the call reports BufferTooSmall and leaves the
        buffer alone, and otherwise it writes exactly the memory map and
        nothing beyond it. */
    method GetMemoryMap(memoryMapSize: Cell?, memoryMap: array?<Descriptor>, mapKey: Cell?, descSize: Cell?, descVersion: Cell32?)
      returns (status: Status)
      requires Ready()
      requires memoryMapSize != null && memoryMap == null ==>
        memoryMapSize.value < MapSize(kernel.State(), program.State()) || MapSize(kernel.State(), program.State()) == 0
      requires memoryMapSize != null && memoryMap != null ==>
        memoryMapSize.value < MapSize(kernel.State(), program.State()) || memoryMapSize.value <= memoryMap.Length * DESC_SIZE
      requires memoryMapSize == null || (memoryMapSize != mapKey && memoryMapSize != descSize)
      requires mapKey == null || mapKey != descSize
      modifies memoryMapSize, memoryMap, mapKey, descSize, descVersion
      ensures memoryMapSize == null ==> status == InvalidParameter
      ensures memoryMapSize == null ==> (mapKey != null ==> unchanged(mapKey)) && (descSize != null ==> unchanged(descSize))
      ensures memoryMapSize == null ==> (descVersion != null ==> unchanged(descVersion)) && (memoryMap != null ==> unchanged(memoryMap))
      ensures memoryMapSize != null ==>
        && (mapKey != null ==> mapKey.value == 0)
        && (descSize != null ==> descSize.value == DESC_SIZE)
        && (descVersion != null ==> descVersion.value == DESC_VERSION)
        && memoryMapSize.value == MapSize(kernel.State(), program.State())
        && (status == BufferTooSmall <==> old(memoryMapSize.value) < MapSize(kernel.State(), program.State()))
        && (status != BufferTooSmall ==> status == Success)
      ensures status == BufferTooSmall && memoryMap != null ==> unchanged(memoryMap)
      ensures status == Success ==>
        var expected := MemoryMap(kernel.State(), program.State());
        && (|expected| > 0 ==> memoryMap != null)
        && (memoryMap != null ==> memoryMap[..|expected|] == expected && memoryMap[|expected|..] == old(memoryMap[|expected|..]))
    {
      if memoryMapSize == null {
        return InvalidParameter;
      }
      if mapKey != null {
        mapKey.value := 0;
      }
      if descSize != null {
        descSize.value := DESC_SIZE;
      }
      if descVersion != null {
        descVersion.value := DESC_VERSION;
      }
      var kernelCount := GetAspaceEntryCount(kernel);
      var programCount := GetAspaceEntryCount(program);
      var numEntries := kernelCount + programCount;
      var sizeNeeded := numEntries * DESC_SIZE;
      if memoryMapSize.value < sizeNeeded {
        memoryMapSize.value := sizeNeeded;
        return BufferTooSmall;
      }
      memoryMapSize.value := sizeNeeded;
      if numEntries > 0 {
        WriteMemoryMap(memoryMap, numEntries);
      }
      return Success;
    }

    /** The second half of `get_memory_map`, once the caller's buffer is known
        to hold the map (a buffer that may be null only when the map is
        empty): the descriptors the map needs are zeroed, then filled from the
        kernel's regions and then from the program's. Nothing past them is
        written. */
    method WriteMemoryMap(memoryMap: array<Descriptor>, numEntries: nat)
      requires Ready()
      requires numEntries == |kernel.regions| + |program.regions| <= memoryMap.Length
      modifies memoryMap
      ensures memoryMap[..numEntries] == MemoryMap(kernel.State(), program.State())
      ensures memoryMap[numEntries..] == old(memoryMap[numEntries..])
    {
      forall t | 0 <= t < numEntries {
        memoryMap[t] := ZERO_DESCRIPTOR;
      }
      var aspace := kernel;
      var i := FillRegionEntries(aspace, memoryMap, 0, LOADER_CODE);
      aspace := program;
      i := FillRegionEntries(aspace, memoryMap, i, LOADER_DATA);
      assert memoryMap[..numEntries] == MemoryMap(kernel.State(), program.State());
    }

    /** The two-phase use of `get_memory_map`: a size query with no buffer
        reports the size the map needs (BUFFER_TOO_SMALL unless the map is
        empty), and a second call with a buffer of that size returns the whole
        memory map. */
    method QueryThenGetMemoryMap() returns (query: Status, fetch: Status, descriptors: seq<Descriptor>)
      requires Ready()
      ensures query == if |kernel.regions| + |program.regions| == 0 then Success else BufferTooSmall
      ensures fetch == Success
      ensures descriptors == MemoryMap(kernel.State(), program.State())
    {
      var size := new Cell(0);
      query := GetMemoryMap(size, null, null, null, null);
      var count := size.value / DESC_SIZE;
      var buffer := new Descriptor[count](_ => ZERO_DESCRIPTOR);
      fetch := GetMemoryMap(size, buffer, null, null, null);
      descriptors := buffer[..count];
    }
  }
}
