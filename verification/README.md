# UEFI boot services of the lk bootloader, in Dafny

This project models the UEFI emulation layer in `lib/uefi/`. The layer lets lk
start an EFI application such as the Linux EFI stub. It covers three parts:

- **The boot-services provider** (`boot_service_provider.dfy`):
  - the memory services:
    - `allocate_pool`
    - `allocate_pages`, which works through `alloc_page` and `identity_map`
    - `get_memory_map`, with its two-phase size query, plus the helpers `get_aspace_entry_count` and `fill_memory_map_entry`
  - protocol lookup by GUID: `handle_protocol`, `locate_protocol` and `locate_device_path`, with `guid_eq` in `efi.dfy`
  - the lazily created address space of the loaded program (`get_address_space`)
  - the constant-status services
  - the wiring of the EFI Boot Services Table (`setup_boot_service_table`)
- **The console's OutputString** (`text_protocol.dfy`). It narrows the NUL-terminated UTF-16 string and prints it through a 512-byte buffer, in chunks of at most 511 bytes.
- **The configuration table** (`configuration_table.dfy`). It publishes a single Linux random-seed entry, whose page holds a 32-bit size of 512 followed by 512 zero bytes.

The kernel's VMM and MMU are collaborators that the layer calls but does not implement (`vmm.dfy`):
- An address space is a region list (`seq<Region>`) plus a page-granular translation table (`map` from virtual page to physical page and flags).
- `arch_mmu_query`, `arch_mmu_unmap` and `arch_mmu_map` are methods of the address space, and each of them can fail.
- Where the real VMM or heap makes a choice, the caller passes that choice in: where a contiguous allocation lands (an `Option<Placement>`), whether `vmm_create_aspace` succeeds (a `bool`), and what `malloc` returns (a `nat`, 0 for null).

Several state-changing operations are specified by functions of the old state: `IdentityMapResult`, `AllocPageResult`, `AllocatePagesResult` and `MemoryMap`. Lemmas then prove what those functions guarantee:
- an identity-mapped range translates to itself;
- a second identity mapping changes nothing;
- each memory-map descriptor is described field by field.

The source and the usual reading of the interface disagree in one place, and the model follows the code: when `malloc` fails, `allocate_pool` still stores the null result through `buf`, so a failed call does not leave `*buf` untouched.

## Model

| member | source | states |
|---|---|---|
| Efi.GuidEqIsEquality | lib/uefi/boot_service_provider.cpp:13-19 | `guid_eq` compares the 16-byte memory images of two GUIDs. It is true exactly when the GUIDs are equal, so no two distinct GUIDs are confused. |
| Vmm.RoundUp | lib/uefi/boot_service_provider.cpp:192 | `ROUNDUP(size, PAGE_SIZE)` is page-aligned, at least `size`, and less than `size + PAGE_SIZE`. |
| Vmm.AddressSpace.Query | lib/uefi/boot_service_provider.cpp:85-86 | `arch_mmu_query` reports the physical address and flags behind a virtual address. It fails when the page is unmapped. |
| Vmm.AddressSpace.Unmap | lib/uefi/boot_service_provider.cpp:203 | `arch_mmu_unmap` fails on a misaligned start. Otherwise it removes exactly the pages of the range. |
| Vmm.AddressSpace.Map | lib/uefi/boot_service_provider.cpp:208 | `arch_mmu_map` succeeds exactly when both addresses are aligned and no target page is mapped. It then maps every page of the range to the matching physical page with the given flags, and leaves other pages unchanged. |
| Vmm.AddressSpace.AllocContiguous | lib/uefi/boot_service_provider.cpp:221-222 | `vmm_alloc_contiguous` fails on a zero size, a missing or misaligned placement, a range overlapping a region of the address space, or a range with a mapped page. Otherwise it appends a region and maps the range, cached, to contiguous physical pages. |
| Vmm.FindRegion | lib/uefi/boot_service_provider.cpp:249 | The region `vmm_free_region` looks up is the first one that contains the address. There is none exactly when no region contains it. |
| Vmm.AddressSpace.FreeRegion | lib/uefi/boot_service_provider.cpp:249 | `vmm_free_region` removes the region containing the address and unmaps its pages. It fails when no region contains the address. |
| Vmm.AddressSpace.Create | lib/uefi/boot_service_provider.cpp:312 | `vmm_create_aspace` yields an address space with no regions and no mappings. |
| BootServiceProvider.GetAspaceEntryCount | lib/uefi/boot_service_provider.cpp:69-76 | The counting loop returns the number of regions in the address space. |
| BootServiceProvider.FillMemoryMapEntry | lib/uefi/boot_service_provider.cpp:78-93 | The entry gets the region's base as its virtual start and its size in pages as its page count. Its physical start is the queried address, or the base when the query fails. WB, WC and WT are ored in when the cache bits are CACHED, and nothing else changes. No other entry is written. |
| BootServiceProvider.MemoryMapEntry | lib/uefi/boot_service_provider.cpp:119-133 | Descriptor i of the map comes from the i-th kernel region (LOADER_CODE), or else from the matching program region (LOADER_DATA). It carries that region's base, page count and translated physical start. Thanks to the zero fill, its attributes are exactly WB\|WC\|WT when the base is cached or cannot be translated, and 0 otherwise. |
| BootServiceProvider.FillRegionEntries | lib/uefi/boot_service_provider.cpp:123-127 | One region loop fills the next descriptors in list order and tags them. The write index ends at start plus the region count, and nothing outside that span is written. |
| BootServiceProvider.Provider.WriteMemoryMap | lib/uefi/boot_service_provider.cpp:119-135 | After the zero fill and both loops, the first `num_entries` descriptors are exactly the memory map: kernel regions first, then program regions. Nothing beyond them is written. |
| BootServiceProvider.Provider.GetMemoryMap | lib/uefi/boot_service_provider.cpp:95-136 | A null size pointer gives INVALID_PARAMETER, and nothing is written. Otherwise the map key 0, descriptor size and version are written through whichever pointers are non-null, and the required size is written back. The call returns BUFFER_TOO_SMALL exactly when the capacity is below that size, leaving the buffer untouched. Otherwise it returns SUCCESS: a non-empty map needs a buffer, and a given buffer holds exactly the memory map followed by its old contents, so an empty map writes nothing. |
| BootServiceProvider.Provider.QueryThenGetMemoryMap | lib/uefi/boot_service_provider.cpp:95-136 | The two-phase convention works: a query without a buffer reports BUFFER_TOO_SMALL (SUCCESS for an empty map), and a second call with a buffer of the reported size returns the whole map. |
| BootServiceProvider.IdentityMapEstablishesIdentity | lib/uefi/boot_service_provider.cpp:191-216 | A non-null result of `identity_map` is the physical address that backed `addr`. Afterwards every address of the rounded range translates to itself with the original flags. Every page outside the old and new ranges keeps its entry, and no page there becomes mapped. The table stays well formed. |
| BootServiceProvider.IdentityMapIdempotent | lib/uefi/boot_service_provider.cpp:191-216 | `identity_map` on a range that already translates to itself returns the same address and leaves the table unchanged. |
| BootServiceProvider.RemapFailureUnreported | lib/uefi/boot_service_provider.cpp:208-209 | The code as written returns an address that does not translate to itself when the remap is refused. The corrected `identity_map` returns null. |
| BootServiceProvider.Provider.IdentityMap | lib/uefi/boot_service_provider.cpp:191-216 | The query, unmap and remap of `identity_map` produce the result and table that `IdentityMapResult` gives for the old table. |
| BootServiceProvider.Provider.AllocPage | lib/uefi/boot_service_provider.cpp:218-228 | `alloc_page(size, align)` is the contiguous allocation followed by `identity_map` of its start. It is null when the VMM fails. |
| BootServiceProvider.AllocPageIdentityMapped | lib/uefi/boot_service_provider.cpp:218-228 | A zero size fails and changes nothing. A non-null `alloc_page` result is the placement's page-aligned physical start, the region is recorded without overlapping an earlier one, and the whole range is identity-mapped and cached. |
| BootServiceProvider.Provider.AllocPageAt | lib/uefi/boot_service_provider.cpp:230-245 | The fixed-address allocation, its fallback and the `identity_map` of `addr` produce the result and state `AllocPageAtResult` gives for the old state. The table stays well formed. |
| BootServiceProvider.AllocPageAtIdentityMapped | lib/uefi/boot_service_provider.cpp:230-245 | A null address, or an allocation the VMM cannot place at the fixed address, gives exactly what `alloc_page(size, align)` gives. When it can place it there, a non-null result is the page-aligned physical memory backing `addr`, the region at `addr` is recorded, and the whole range translates to itself, cached. |
| BootServiceProvider.AllocatePagesIdentityMapped | lib/uefi/boot_service_provider.cpp:183-184 | The second `identity_map` in `allocate_pages` is harmless. After a successful `alloc_page` it returns the same address and changes nothing, so the pages are recorded and identity-mapped. After a failed one it changes nothing while page 0 is unmapped. |
| BootServiceProvider.Provider.AllocatePages | lib/uefi/boot_service_provider.cpp:172-189 | A null `memory` gives INVALID_PARAMETER. A maximum address other than all-ones or 2^48-1 gives UNSUPPORTED and leaves `*memory` unchanged. Otherwise `*memory` is the doubly identity-mapped allocation, and the status is OUT_OF_RESOURCES exactly when it is 0. A success after a successful `alloc_page` is page-aligned and identity-mapped over all its pages. |
| BootServiceProvider.Provider.FreePages | lib/uefi/boot_service_provider.cpp:247-251 | `free_pages` releases the region containing the address, yet always reports UNSUPPORTED. |
| BootServiceProvider.LocateProtocol | lib/uefi/boot_service_provider.cpp:152-170 | A null protocol gives INVALID_PARAMETER, TCG2 gives NOT_FOUND, and every other GUID, RNG included, gives UNSUPPORTED; the interface pointer is never written. |
| BootServiceProvider.LocateDevicePath | lib/uefi/boot_service_provider.cpp:275-283 | NOT_FOUND exactly for the Load File 2 protocol, UNSUPPORTED otherwise. |
| BootServiceProvider.LoadedImage.Zeroed | lib/uefi/boot_service_provider.cpp:26-28 | Every modelled member of the freshly allocated loaded-image record, Reserved included, is zero or null. |
| BootServiceProvider.HandleProtocol | lib/uefi/boot_service_provider.cpp:21-47 | The loaded-image GUID gives SUCCESS and a fresh record with ImageBase equal to the handle, revision 0x1000 and Unload set. Its ParentHandle, SystemTable, LoadOptions and every other modelled member are null or 0. The Linux fixed-loaded-image GUID gives SUCCESS without writing `*intf`. Any other GUID gives UNSUPPORTED and `*intf` is left alone. |
| BootServiceProvider.AllocatePool | lib/uefi/boot_service_provider.cpp:49-62 | A null `buf` gives INVALID_PARAMETER. Size 0 gives SUCCESS with a null buffer, whatever the heap would do. Otherwise `malloc`'s result is stored, and the status is SUCCESS exactly when it is non-null, else OUT_OF_RESOURCES. |
| BootServiceProvider.ConstantStatusServices | lib/uefi/boot_service_provider.cpp:253-302 | Each service this layer does not implement, including `register_protocol_notify` and `locate_handle` (138-150), returns UNSUPPORTED whatever its arguments. `exit_boot_services` returns SUCCESS for any map key, and so do `unload` (line 11) and `free_pool` (64-67) for any argument. |
| BootServiceProvider.Provider.GetAddressSpace | lib/uefi/boot_service_provider.cpp:309-320 | The first successful creation caches a fresh, empty space, makes it active, and returns it. Every later call returns that same space without creating another. A failed creation returns null and leaves the cache empty, so the next call retries. |
| BootServiceProvider.SetupBootServiceTable | lib/uefi/boot_service_provider.cpp:322-346 | Each of the twenty wired slots holds this layer's implementation of that service. The other slots keep what they held. |
| TextProtocol.Narrow | lib/uefi/text_protocol.cpp:11 | The byte a code unit becomes is the code unit modulo 256, so a code unit below 256 is kept unchanged. |
| TextProtocol.NarrowAll | lib/uefi/text_protocol.cpp:11 | The narrowed text has one byte per code unit, each equal to its code unit modulo 256. |
| TextProtocol.FirstNul | lib/uefi/text_protocol.cpp:8-13 | The index where the scan stops holds a NUL, and no earlier code unit is NUL. |
| TextProtocol.ChunksCorrect | lib/uefi/text_protocol.cpp:8-17 | Every chunk holds 1 to 511 bytes followed by a NUL, inside the 512-byte buffer. Every chunk but the last is full. The chunks carry the text whole and in order, and an empty text prints nothing. |
| TextProtocol.FillBuffer | lib/uefi/text_protocol.cpp:9-12 | The inner loop copies the narrowed code units into the buffer. It stops at the first NUL or after 511 units, copies at least one unit when text remains, and leaves the rest of the buffer alone. |
| TextProtocol.OutputString | lib/uefi/text_protocol.cpp:4-19 | It always returns SUCCESS. It reads only up to the first NUL, where the outer index stops. The chunks concatenated are the narrowed text before that NUL, and a string starting with NUL prints nothing. |
| TextProtocol.GetTextOutputProtocol | lib/uefi/text_protocol.cpp:21-25 | The record's OutputString slot holds `output_string`. |
| ConfigurationTable.SetupConfigurationTable | lib/uefi/configuration_table.cpp:6-14 | Entry 0 gets the random-seed GUID and the allocated page, and the other entries are unchanged. The entry count becomes 1. The page's little-endian size field reads 512, the 512 seed bytes after it are zero, and the rest of the page is untouched. |

## Left out

- Logging: every `printf` is advisory and is not modelled. This includes what the console prints for a chunk containing a narrowed 0 byte. `OutputString` returns the chunks instead of printing them.
- `copy_mem` and `set_mem` are one-line wrappers of `memcpy` and `memset`. They appear only as table slots.
- `free_pool` returns SUCCESS, but the heap it frees into is not modelled.
- The VMM, the MMU and `malloc` are abstract:
  - `vmm_alloc_contiguous` takes its placement as a parameter, and `vmm_create_aspace` its success.
  - The `arch_mmu_*` calls are taken to return 0 on success, and `arch_mmu_map` to refuse target pages that are already mapped.
  - `vmm_set_active_aspace` is modelled only as the `active` field.
- The VMM keeps its region list sorted by address, but the model appends new regions. The memory map's region order is therefore allocation order here.
- Addresses and sizes are unbounded naturals. 64-bit wrap-around of pointers is not modelled.
- Provider.AllocatePages: requires `pages * PAGE_SIZE` to fit in a `size_t`. The source multiplies without an overflow check.
- Provider.IdentityMap: it follows the corrected `identity_map`, which returns null when the remap is refused (see Findings). The source returns the physical address with SUCCESS in that case. Provider.AllocPage, Provider.AllocPageAt and Provider.AllocatePages call it, so they too return null (and `allocate_pages` OUT_OF_RESOURCES) where the source reports success, for example a placement (0x1000, 0x5000) in a space where page 0x5000 already maps to 0x9000.
- Provider.AllocatePages: the identity-mapping guarantee is stated only when `alloc_page` succeeded. When it failed and page 0 happens to be mapped, the second `identity_map` of address 0 can return a non-null address.
- Provider.IdentityMap, Provider.AllocPage, Provider.AllocPageAt, Provider.AllocatePages, Provider.FreePages, Provider.GetMemoryMap: these require the program's address space to exist already, with a table that maps aligned pages to aligned pages; each method that changes the space keeps that so. In the source each of them calls `get_address_space`, which may create the space, and a failed creation leads to a null dereference. `Provider.GetAddressSpace` models the creation on its own.
- Provider.GetMemoryMap: when the reported capacity is enough for the map, it requires a buffer that really holds that capacity (non-null unless the map is empty); a capacity below the needed size is accepted with any buffer, null included, since that path only reports BUFFER_TOO_SMALL. It also requires distinct out-parameter cells. On the filling path the source trusts the caller on both. The zero fill and the two region loops sit in `WriteMemoryMap`, which runs only when the map is non-empty; with an empty map the source's `memset` writes nothing either.
- HandleProtocol: the allocation of the loaded-image record is taken to succeed, and for the loaded-image GUID `intf` must be non-null. The source dereferences both the result of `malloc` and `intf` without a check.
- ConfigurationTable.SetupConfigurationTable: the page `alloc_page(PAGE_SIZE)` returns is passed in as `seedPage` and its bytes. It must be non-null, because the source uses it unchecked. The allocation's effect on the address space is not modelled, and neither is the one-argument `alloc_page` overload, which relies on a default alignment declared in a header that is not part of this model.
- The GUID values of the loaded-image, Linux fixed-loaded-image, RNG, TCG2 and Load File 2 protocols come from the UEFI Specification and Linux `include/linux/efi.h`, because the header that declares them is not part of this model. `sizeof(EfiMemoryDescriptor)` is taken as 40 bytes, the UEFI layout with padding.
- The Simple Text Output Protocol record models only its OutputString member. The EFI Boot Services Table models only the thirty slots named here.
- `arch/arm/arm/arch.c` and `dev/bus/pci/bus_mgr/bridge.h` are not part of this model. They hold hardware bring-up and declarations only.

## Findings

| source | as written | input that shows it | evidently intended | confidence | as-written member | corrected member |
|---|---|---|---|---|---|---|
| lib/uefi/boot_service_provider.cpp:208-209 | The status of `arch_mmu_map` is discarded, and line 209 re-tests the unmap status. A refused remap therefore still returns the physical address as if the range were identity-mapped. | A table mapping page 0x1000 to 0x5000 and page 0x5000 to 0x9000, with `identity_map(0x1000, 4096)`. The remap of 0x5000 is refused. 0x5000 is still returned, but it translates to 0x9000, and 0x1000 is left unmapped. | `err = arch_mmu_map(...)`, so that a failed remap returns null. | medium, not executed | BootServiceProvider.IdentityMapAsWritten (shown by BootServiceProvider.RemapFailureUnreported) | BootServiceProvider.IdentityMapResult (proved by BootServiceProvider.IdentityMapEstablishesIdentity) |
