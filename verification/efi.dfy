/** Types shared by the UEFI boot-services emulation layer: status codes,
    GUIDs and their byte layout, little-endian integer layout, function
    pointers stored in firmware tables, and the out-parameter cells through
    which the services return values to the caller. */
module Efi {

  datatype Option<T> = None | Some(value: T)

  /** The EFI_STATUS values this layer returns (UEFI Specification, Appendix D). */
  datatype Status = Success | InvalidParameter | Unsupported | BufferTooSmall | OutOfResources | NotFound

  /** A null pointer; every address and handle in the model is a plain number. */
  const NULL: nat := 0

  // ---------------------------------------------------------------------
  // Little-endian layout of the fixed-width integers stored in memory.
  // ---------------------------------------------------------------------

  function Le16(x: bv16): (b: seq<bv8>)
    ensures |b| == 2
  {
    [(x & 0xFF) as bv8, ((x >> 8) & 0xFF) as bv8]
  }

  function Le16Decode(b: seq<bv8>): bv16
    requires |b| == 2
  {
    (b[0] as bv16) | ((b[1] as bv16) << 8)
  }

  function Le32(x: bv32): (b: seq<bv8>)
    ensures |b| == 4
  {
    [(x & 0xFF) as bv8, ((x >> 8) & 0xFF) as bv8, ((x >> 16) & 0xFF) as bv8, ((x >> 24) & 0xFF) as bv8]
  }

  function Le32Decode(b: seq<bv8>): bv32
    requires |b| == 4
  {
    (b[0] as bv32) | ((b[1] as bv32) << 8) | ((b[2] as bv32) << 16) | ((b[3] as bv32) << 24)
  }

  lemma Le16RoundTrip(x: bv16)
    ensures Le16Decode(Le16(x)) == x
  {
  }

  lemma Le32RoundTrip(x: bv32)
    ensures Le32Decode(Le32(x)) == x
  {
  }

  // ---------------------------------------------------------------------
  // GUIDs
  // ---------------------------------------------------------------------

  type Octets8 = s: seq<bv8> | |s| == 8 witness [0, 0, 0, 0, 0, 0, 0, 0]

  /** EFI_GUID: a 32-bit, two 16-bit fields and eight bytes; 16 bytes in memory. */
  datatype Guid = Guid(data1: bv32, data2: bv16, data3: bv16, data4: Octets8)
  {
    /** The 16 bytes of the GUID as laid out in memory. */
    function Bytes(): (b: seq<bv8>)
      ensures |b| == 16
    {
      Le32(data1) + Le16(data2) + Le16(data3) + data4
    }
  }

  /** `guid_eq`: a byte-wise comparison (memcmp) of the two 16-byte GUIDs. */
  function GuidEq(a: Guid, b: Guid): bool
  {
    a.Bytes() == b.Bytes()
  }

  /** Comparing the memory images of two GUIDs decides their equality: the
      layout is injective, so no two distinct GUIDs are confused. */
  lemma GuidEqIsEquality(a: Guid, b: Guid)
    ensures GuidEq(a, b) <==> a == b
  {
    if GuidEq(a, b) {
      var x, y := a.Bytes(), b.Bytes();
      assert x[..4] == Le32(a.data1) && y[..4] == Le32(b.data1);
      assert x[4..6] == Le16(a.data2) && y[4..6] == Le16(b.data2);
      assert x[6..8] == Le16(a.data3) && y[6..8] == Le16(b.data3);
      assert x[8..] == a.data4 && y[8..] == b.data4;
      Le32RoundTrip(a.data1);
      Le32RoundTrip(b.data1);
      Le16RoundTrip(a.data2);
      Le16RoundTrip(b.data2);
      Le16RoundTrip(a.data3);
      Le16RoundTrip(b.data3);
    }
  }

  /** EFI_LOADED_IMAGE_PROTOCOL_GUID (UEFI Specification, section 9.1). */
  const LOADED_IMAGE_PROTOCOL_GUID := Guid(0x5B1B31A1, 0x9562, 0x11d2, [0x8E, 0x3F, 0x00, 0xA0, 0xC9, 0x69, 0x72, 0x3B])
  /** LINUX_EFI_LOADED_IMAGE_FIXED_GUID (Linux include/linux/efi.h). */
  const LINUX_EFI_LOADED_IMAGE_FIXED_GUID := Guid(0xf5a37b6d, 0x3344, 0x42a5, [0xb6, 0xbb, 0x97, 0x86, 0x48, 0xc1, 0x89, 0x0a])
  /** EFI_RNG_PROTOCOL_GUID (UEFI Specification, section 37.5). */
  const EFI_RNG_PROTOCOL_GUID := Guid(0x3152bca5, 0xeade, 0x433d, [0x86, 0x2e, 0xc0, 0x1c, 0xdc, 0x29, 0x1f, 0x44])
  /** EFI_TCG2_PROTOCOL_GUID (TCG EFI Protocol Specification). */
  const EFI_TCG2_PROTOCOL_GUID := Guid(0x607f766c, 0x7455, 0x42be, [0x93, 0x0b, 0xe4, 0xd7, 0x6d, 0xb2, 0x72, 0x0f])
  /** EFI_LOAD_FILE2_PROTOCOL_GUID (UEFI Specification, section 13.2). */
  const EFI_LOAD_FILE2_PROTOCOL_GUID := Guid(0x4006c0c1, 0xfcb3, 0x403e, [0x99, 0x6d, 0x4a, 0x6c, 0x87, 0x24, 0xe0, 0x6d])
  /** LINUX_EFI_RANDOM_SEED_TABLE_GUID. */
  const LINUX_EFI_RANDOM_SEED_TABLE_GUID := Guid(0x1ce1e5bc, 0x7ceb, 0x42f2, [0x81, 0xe5, 0x8a, 0xad, 0xf1, 0x80, 0xf5, 0x7b])

  // ---------------------------------------------------------------------
  // Function pointers stored in firmware tables
  // ---------------------------------------------------------------------

  /** The slots of the EFI Boot Services Table (UEFI Specification, section 4.4),
      each named after the service it holds. */
  datatype Service =
    | HandleProtocol | AllocatePool | FreePool | GetMemoryMap | RegisterProtocolNotify
    | LocateHandle | LocateProtocol | AllocatePages | FreePages
    | UninstallMultipleProtocolInterfaces | CalculateCrc32 | UninstallProtocolInterface
    | LoadImage | LocateDevicePath | InstallConfigurationTable | ExitBootServices
    | SetTimer | WaitForEvent | CopyMem | SetMem
    // slots this layer leaves as they were
    | OpenProtocol | CloseProtocol | LocateHandleBuffer | InstallProtocolInterface
    | SignalEvent | CreateEvent | CloseEvent | StartImage | Exit | UnloadImage

  /** A function pointer: null, one of the boot services, or one of the
      protocol members this layer provides. */
  datatype FnPtr = NullFn | BootFn(service: Service) | UnloadFn | OutputStringFn

  // ---------------------------------------------------------------------
  // Out-parameters
  // ---------------------------------------------------------------------

  /** A `size_t` or `EfiPhysicalAddr` that a service writes through a pointer. */
  class Cell {
    var value: nat

    constructor (v: nat)
      ensures value == v
    {
      value := v;
    }
  }

  /** A `uint32_t` that a service writes through a pointer. */
  class Cell32 {
    var value: bv32

    constructor (v: bv32)
      ensures value == v
    {
      value := v;
    }
  }
}
