/** The 3Dfx Voodoo3 / Voodoo Banshee constants the driver uses. */
module Voodoo3Ref {
  import opened GpuPlay

  const VOODOO3_PCI_VENDOR_ID: int := 0x121A
  const VOODOO3_PCI_DEVICE_ID_VOODOO3: int := 0x0005
  const VOODOO3_PCI_DEVICE_ID_BANSHEE: int := 0x0003

  const VOODOO3_VRAM_SIZE_4MB: int := 0x400000
  const VOODOO3_VRAM_SIZE_8MB: int := 0x800000
  const VOODOO3_VRAM_SIZE_16MB: int := 0x1000000
  const VOODOO3_VRAM_SIZE_32MB: int := 0x2000000

  /** Register offsets in the I/O window whose base BAR2 (PCI 0x18) holds. */
  const VOODOO3_IO_STATUS: int := 0x0000
  const VOODOO3_IO_LFBMEMORYCONFIG: int := 0x0018
  const VOODOO3_IO_MISCINIT0: int := 0x001C
  const VOODOO3_IO_MISCINIT1: int := 0x0020
  const VOODOO3_IO_DRAMINIT0: int := 0x0024
  const VOODOO3_IO_DRAMINIT1: int := 0x0028

  /** VGA registers inside the I/O window: the legacy port less 0x300. */
  const VOODOO3_VGA_MISC_OUTPUT: int := 0x00C2
  const VOODOO3_VGA_FEATURE_CONTROL: int := 0x00C0
  const VOODOO3_VGA_INPUT_STATUS_0: int := 0x00C2
  const VOODOO3_VGA_INPUT_STATUS_1: int := 0x00DA

  /** The legacy VGA ports those registers stand for. */
  const VGA_PORT_MISC_OUTPUT: int := 0x03C2
  const VGA_PORT_FEATURE_CONTROL: int := 0x03C0
  const VGA_PORT_INPUT_STATUS_0: int := 0x03C2
  const VGA_PORT_INPUT_STATUS_1: int := 0x03DA

  const VOODOO3_LFBMEMORYCONFIG_MEMORY_SIZE_MASK: bv32 := 0xF
  const VOODOO3_LFBMEMORYCONFIG_MEMORY_SIZE_4MB: bv32 := 0x0
  const VOODOO3_LFBMEMORYCONFIG_MEMORY_SIZE_8MB: bv32 := 0x1
  const VOODOO3_LFBMEMORYCONFIG_MEMORY_SIZE_16MB: bv32 := 0x2
  const VOODOO3_LFBMEMORYCONFIG_MEMORY_SIZE_32MB: bv32 := 0x3

  /** Bytes of the I/O window the register dump covers. */
  const VOODOO3_IO_DUMP_SIZE: int := 0x1000

  const Voodoo3Registers: seq<int> :=
    [VOODOO3_IO_STATUS, VOODOO3_IO_LFBMEMORYCONFIG, VOODOO3_IO_MISCINIT0, VOODOO3_IO_MISCINIT1,
     VOODOO3_IO_DRAMINIT0, VOODOO3_IO_DRAMINIT1]

  const Voodoo3MemoryCodes: seq<bv32> :=
    [VOODOO3_LFBMEMORYCONFIG_MEMORY_SIZE_4MB, VOODOO3_LFBMEMORYCONFIG_MEMORY_SIZE_8MB,
     VOODOO3_LFBMEMORYCONFIG_MEMORY_SIZE_16MB, VOODOO3_LFBMEMORYCONFIG_MEMORY_SIZE_32MB]

  lemma Voodoo3VramSizes()
    ensures VOODOO3_VRAM_SIZE_4MB == 4 * MiB
    ensures VOODOO3_VRAM_SIZE_8MB == 8 * MiB
    ensures VOODOO3_VRAM_SIZE_16MB == 16 * MiB
    ensures VOODOO3_VRAM_SIZE_32MB == 32 * MiB
  {
  }

  /** The memory-size codes are distinct and each is its own masked value. */
  lemma Voodoo3MemoryCodesDistinct()
    ensures forall i, j | 0 <= i < j < |Voodoo3MemoryCodes| :: Voodoo3MemoryCodes[i] != Voodoo3MemoryCodes[j]
    ensures forall i | 0 <= i < |Voodoo3MemoryCodes| ::
              Voodoo3MemoryCodes[i] & VOODOO3_LFBMEMORYCONFIG_MEMORY_SIZE_MASK == Voodoo3MemoryCodes[i]
  {
  }

  /** Every register the driver reads is a whole aligned word inside the dumped window. */
  lemma Voodoo3RegistersInWindow()
    ensures forall i | 0 <= i < |Voodoo3Registers| ::
              Voodoo3Registers[i] % 4 == 0 && 0 <= Voodoo3Registers[i] && Voodoo3Registers[i] + 4 <= VOODOO3_IO_DUMP_SIZE
  {
  }

  lemma VgaAliases()
    ensures VOODOO3_VGA_MISC_OUTPUT == VGA_PORT_MISC_OUTPUT - 0x300
    ensures VOODOO3_VGA_FEATURE_CONTROL == VGA_PORT_FEATURE_CONTROL - 0x300
    ensures VOODOO3_VGA_INPUT_STATUS_0 == VGA_PORT_INPUT_STATUS_0 - 0x300
    ensures VOODOO3_VGA_INPUT_STATUS_1 == VGA_PORT_INPUT_STATUS_1 - 0x300
    ensures VOODOO3_VGA_MISC_OUTPUT == VOODOO3_VGA_INPUT_STATUS_0
  {
  }

  lemma Voodoo3IdsAgree()
    ensures VOODOO3_PCI_VENDOR_ID == PCI_VENDOR_3DFX
    ensures VOODOO3_PCI_DEVICE_ID_VOODOO3 == PCI_DEVICE_VOODOO3
    ensures VOODOO3_PCI_DEVICE_ID_BANSHEE == PCI_DEVICE_BANSHEE
  {
  }
}
