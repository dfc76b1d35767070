/** The EFI Configuration Table (UEFI Specification, section 4.6) as this
    layer publishes it: a single entry, the Linux random-seed table, whose
    vendor table is one freshly allocated page holding a `linux_efi_random_seed`
    record (a 32-bit size followed by that many seed bytes) of 512 zero bytes. */
module ConfigurationTable {
  import opened Efi
  import opened Vmm

  /** EfiConfigurationTable: a vendor GUID and a pointer to the vendor's table. */
  datatype ConfigurationEntry = ConfigurationEntry(vendorGuid: Guid, vendorTable: nat)

  /** The members of EfiSystemTable that `setup_configuration_table` writes. */
  class SystemTable {
    var configurationTable: array<ConfigurationEntry>
    var numberOfTableEntries: nat

    constructor (entries: array<ConfigurationEntry>, count: nat)
      ensures configurationTable == entries && numberOfTableEntries == count
    {
      configurationTable := entries;
      numberOfTableEntries := count;
    }
  }

  /** Byte offsets of the `linux_efi_random_seed` members. */
  const SEED_SIZE_OFFSET: nat := 0
  const SEED_BITS_OFFSET: nat := 4
  /** The number of seed bytes published. */
  const RANDOM_SEED_SIZE: bv32 := 512

  /** `setup_configuration_table`. `seedPage` is the page `alloc_page(PAGE_SIZE)`
      returned and `page` its bytes; the source uses the page without a null
      check, so the allocation must have succeeded. */
  method SetupConfigurationTable(table: SystemTable, seedPage: nat, page: array<bv8>)
    requires table.configurationTable.Length >= 1
    requires seedPage != NULL && page.Length == PAGE_SIZE
    requires page as object != table.configurationTable as object
    modifies table, table.configurationTable, page
    ensures table.configurationTable == old(table.configurationTable)
    ensures table.configurationTable[0] == ConfigurationEntry(LINUX_EFI_RANDOM_SEED_TABLE_GUID, seedPage)
    ensures forall k :: 1 <= k < table.configurationTable.Length ==>
      table.configurationTable[k] == old(table.configurationTable[k])
    ensures table.numberOfTableEntries == 1
    ensures Le32Decode(page[SEED_SIZE_OFFSET..SEED_BITS_OFFSET]) == RANDOM_SEED_SIZE
    ensures forall k :: SEED_BITS_OFFSET <= k < SEED_BITS_OFFSET + RANDOM_SEED_SIZE as nat ==> page[k] == 0
    ensures page[SEED_BITS_OFFSET + RANDOM_SEED_SIZE as nat..] == old(page[SEED_BITS_OFFSET + RANDOM_SEED_SIZE as nat..])
  {
    var entries := table.configurationTable;
    entries[0] := entries[0].(vendorGuid := LINUX_EFI_RANDOM_SEED_TABLE_GUID);
    entries[0] := entries[0].(vendorTable := seedPage);
    // The seed record's size field comes first: 512, little-endian.
    var sizeBytes := Le32(RANDOM_SEED_SIZE);
    page[0], page[1], page[2], page[3] := sizeBytes[0], sizeBytes[1], sizeBytes[2], sizeBytes[3];
    // The seed bytes are cleared for as many bytes as the size field now reads.
    var size := Le32Decode(page[SEED_SIZE_OFFSET..SEED_BITS_OFFSET]);
    assert page[SEED_SIZE_OFFSET..SEED_BITS_OFFSET] == sizeBytes;
    Le32RoundTrip(RANDOM_SEED_SIZE);
    forall k | SEED_BITS_OFFSET <= k < SEED_BITS_OFFSET + size as nat {
      page[k] := 0;
    }
    table.numberOfTableEntries := 1;
  }
}
