/** The ATI Rage 128 Pro constants the driver uses. */
module R128Ref {
  import opened GpuPlay

  /** Size of the register window behind BAR2. */
  const R128_MMIO_SIZE: int := 0x4000

  const R128_VRAM_SIZE_8MB: int := 0x800000
  const R128_VRAM_SIZE_16MB: int := 0x1000000
  const R128_VRAM_SIZE_32MB: int := 0x2000000

  const R128_PCI_VENDOR_ID: int := 0x1002
  const R128_PCI_DEVICE_ID_RAGE128_PRO_PF: int := 0x5046
  const R128_PCI_DEVICE_ID_RAGE128_PRO_PR: int := 0x5052

  const R128_PCI_CFG_VENDOR_ID: int := 0x0000
  const R128_PCI_CFG_DEVICE_ID: int := 0x0002
  const R128_PCI_CFG_COMMAND: int := 0x0004
  const R128_PCI_CFG_REVISION_ID: int := 0x0008
  const R128_PCI_CFG_MEM_BASE: int := 0x0010
  const R128_PCI_CFG_IO_BASE: int := 0x0014
  const R128_PCI_CFG_REG_BASE: int := 0x0018

  /** Bit positions in the PCI command register. */
  const R128_PCI_COMMAND_IO_ACCESS_EN: bv16 := 0
  const R128_PCI_COMMAND_MEM_ACCESS_EN: bv16 := 1
  const R128_PCI_COMMAND_BUS_MASTER_EN: bv16 := 2

  /** Register offsets in the MMIO window. */
  const R128_CONFIG_CNTL: int := 0x00E0
  const R128_CONFIG_XSTRAP: int := 0x00E4
  const R128_CONFIG_MEMSIZE: int := 0x00F8
  const R128_BUS_CNTL: int := 0x0030
  const R128_MEM_CNTL: int := 0x0140

  const R128_CONFIG_MEMSIZE_MASK: bv32 := 0xF
  const R128_CONFIG_MEMSIZE_8MB: bv32 := 0x0
  const R128_CONFIG_MEMSIZE_16MB: bv32 := 0x1
  const R128_CONFIG_MEMSIZE_32MB: bv32 := 0x2

  const R128Registers: seq<int> :=
    [R128_CONFIG_CNTL, R128_CONFIG_XSTRAP, R128_CONFIG_MEMSIZE, R128_BUS_CNTL, R128_MEM_CNTL]

  lemma R128VramSizes()
    ensures R128_VRAM_SIZE_8MB == 8 * MiB
    ensures R128_VRAM_SIZE_16MB == 16 * MiB
    ensures R128_VRAM_SIZE_32MB == 32 * MiB
  {
  }

  /** The memory-size codes are distinct and each is its own masked value. */
  lemma R128MemsizeCodes()
    ensures R128_CONFIG_MEMSIZE_8MB != R128_CONFIG_MEMSIZE_16MB
    ensures R128_CONFIG_MEMSIZE_8MB != R128_CONFIG_MEMSIZE_32MB
    ensures R128_CONFIG_MEMSIZE_16MB != R128_CONFIG_MEMSIZE_32MB
    ensures R128_CONFIG_MEMSIZE_8MB & R128_CONFIG_MEMSIZE_MASK == R128_CONFIG_MEMSIZE_8MB
    ensures R128_CONFIG_MEMSIZE_16MB & R128_CONFIG_MEMSIZE_MASK == R128_CONFIG_MEMSIZE_16MB
    ensures R128_CONFIG_MEMSIZE_32MB & R128_CONFIG_MEMSIZE_MASK == R128_CONFIG_MEMSIZE_32MB
  {
  }

  /** Every register the driver reads is a whole aligned word inside the register window. */
  lemma R128RegistersInWindow()
    ensures forall i | 0 <= i < |R128Registers| ::
              R128Registers[i] % 4 == 0 && 0 <= R128Registers[i] && R128Registers[i] + 4 <= R128_MMIO_SIZE
  {
  }

  /** The bit positions give the command-register masks of the central header. */
  lemma R128CommandBits()
    ensures (1 as bv16) << R128_PCI_COMMAND_IO_ACCESS_EN == PCI_CFG_OFFSET_COMMAND_IO_ENABLED
    ensures (1 as bv16) << R128_PCI_COMMAND_MEM_ACCESS_EN == PCI_CFG_OFFSET_COMMAND_MEM_ENABLED
    ensures (1 as bv16) << R128_PCI_COMMAND_BUS_MASTER_EN == PCI_CFG_OFFSET_COMMAND_BUS_MASTER
  {
  }

  lemma R128IdsAgree()
    ensures R128_PCI_VENDOR_ID == PCI_VENDOR_ATI
    ensures R128_PCI_DEVICE_ID_RAGE128_PRO_PF == PCI_DEVICE_RAGE128_PRO_PF
    ensures R128_PCI_DEVICE_ID_RAGE128_PRO_PR == PCI_DEVICE_RAGE128_PRO_PR
    ensures R128_PCI_CFG_MEM_BASE == PCI_CFG_OFFSET_BAR0
    ensures R128_PCI_CFG_REG_BASE == PCI_CFG_OFFSET_BAR2
    ensures R128_PCI_CFG_COMMAND == PCI_CFG_OFFSET_COMMAND
    ensures R128_PCI_CFG_VENDOR_ID == PCI_CFG_OFFSET_VENDOR_ID
    ensures R128_PCI_CFG_DEVICE_ID == PCI_CFG_OFFSET_DEVICE_ID
    ensures R128_PCI_CFG_REVISION_ID == PCI_CFG_OFFSET_REVISION
    ensures R128_PCI_CFG_IO_BASE == PCI_CFG_OFFSET_BAR1
  {
  }
}
