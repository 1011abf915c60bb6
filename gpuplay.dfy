/**
 * The central header of GPUPlay: PCI constants, the GPUS section tags, the
 * device description and the state of the bound device.
 */
module GpuPlay {
  import opened Bits

  datatype Option<T> = None | Some(value: T)

  /** The mebibyte, in which the drivers give VRAM sizes. */
  const MiB: int := 0x10_0000

  // ---------------------------------------------------------------------
  // PCI

  /** The signature the PCI BIOS returns in EDX: the bytes 'P' 'C' 'I' ' '. */
  const PCI_BIOS_MAGIC: bv32 := 0x20494350

  const PCI_CFG_OFFSET_VENDOR_ID: int := 0x00
  const PCI_CFG_OFFSET_DEVICE_ID: int := 0x02
  const PCI_CFG_OFFSET_COMMAND: int := 0x04

  /** Bits of the 16-bit PCI command register. */
  const PCI_CFG_OFFSET_COMMAND_IO_ENABLED: bv16 := 0x01
  const PCI_CFG_OFFSET_COMMAND_MEM_ENABLED: bv16 := 0x02
  const PCI_CFG_OFFSET_COMMAND_BUS_MASTER: bv16 := 0x04

  const PCI_CFG_OFFSET_STATUS: int := 0x06
  const PCI_CFG_OFFSET_REVISION: int := 0x08
  const PCI_CFG_OFFSET_BAR0: int := 0x10
  const PCI_CFG_OFFSET_BAR1: int := 0x14
  const PCI_CFG_OFFSET_BAR2: int := 0x18

  /** The base address of a 32-bit memory BAR: the BAR with its four flag bits cleared. */
  function MemoryBarBase(bar: bv32): (base: bv32)
    ensures base & 0xF == 0
    ensures base | (bar & 0xF) == bar
  {
    bar & 0xFFFFFFF0
  }

  /** Error codes the PCI BIOS reports in AH. */
  const PCI_ERROR_UNSUPPORTED_FUNCTION: int := 0x81
  const PCI_ERROR_BAD_VENDOR_ID: int := 0x83
  const PCI_ERROR_DEVICE_NOT_FOUND: int := 0x86
  const PCI_ERROR_BAD_PCI_REGISTER: int := 0x87

  /** Ids that tests meant for every card require. */
  const PCI_VENDOR_GENERIC: int := 0x0000
  const PCI_DEVICE_GENERIC: int := 0x0000

  const PCI_VENDOR_ATI: int := 0x1002
  const PCI_DEVICE_RAGE128_PRO_PF: int := 0x5046
  const PCI_DEVICE_RAGE128_PRO_PR: int := 0x5052

  const PCI_VENDOR_3DFX: int := 0x121A
  const PCI_DEVICE_VOODOO3: int := 0x0005
  const PCI_DEVICE_BANSHEE: int := 0x0003

  // ---------------------------------------------------------------------
  // Four-character codes

  /** The little-endian packing of four bytes: a is the lowest byte, d the highest. */
  function FourCC(a: bv8, b: bv8, c: bv8, d: bv8): bv32
  {
    (a as bv32) | ((b as bv32) << 8) | ((c as bv32) << 16) | ((d as bv32) << 24)
  }

  /** The four bytes of a code, lowest first. */
  function Unpack(x: bv32): (bytes: seq<bv8>)
    ensures |bytes| == 4
  {
    [ByteOf(x, 0), ByteOf(x, 1), ByteOf(x, 2), ByteOf(x, 3)]
  }

  predicate IsAscii(s: string)
  {
    forall i | 0 <= i < |s| :: s[i] as int < 256
  }

  function Ascii(c: char): bv8
    requires c as int < 256
  {
    (c as int) as bv8
  }

  /** The code of a four-character tag, first character in the lowest byte. */
  function Tag(s: string): bv32
    requires |s| == 4 && IsAscii(s)
  {
    FourCC(Ascii(s[0]), Ascii(s[1]), Ascii(s[2]), Ascii(s[3]))
  }

  /** The characters of a code, lowest byte first. */
  function TagOf(x: bv32): (s: string)
    ensures |s| == 4 && IsAscii(s)
  {
    var b := Unpack(x);
    [b[0] as char, b[1] as char, b[2] as char, b[3] as char]
  }

  lemma UnpackFourCC(a: bv8, b: bv8, c: bv8, d: bv8)
    ensures Unpack(FourCC(a, b, c, d)) == [a, b, c, d]
  {
  }

  lemma FourCCUnpack(x: bv32)
    ensures FourCC(Unpack(x)[0], Unpack(x)[1], Unpack(x)[2], Unpack(x)[3]) == x
  {
  }

  const GPUS_MAGIC: bv32 := 0x53555047
  const GPUS_VERSION: int := 1
  const GPUS_SECTIONS_MAX: int := 32

  /** Section tags of a GPUS save-state file. */
  const gpus_section_vga_crtc: bv32 := 0x43545243
  const gpus_section_vga_gdc: bv32 := 0x47414756
  const gpus_section_vga_sequencer: bv32 := 0x53414756
  const gpus_section_vga_attribute: bv32 := 0x41414756
  const gpus_section_mmio: bv32 := 0x4F494D4D
  const gpus_section_bar1: bv32 := 0x31524142
  const gpus_section_cache: bv32 := 0x48434143
  const gpus_section_nv1e: bv32 := 0x44453136

  const GpusSections: seq<bv32> := [
    gpus_section_vga_crtc, gpus_section_vga_gdc, gpus_section_vga_sequencer,
    gpus_section_vga_attribute, gpus_section_mmio, gpus_section_bar1,
    gpus_section_cache, gpus_section_nv1e
  ]

  /** Each section code reads as its four-character tag, lowest byte first. */
  lemma SectionTags()
    ensures TagOf(gpus_section_vga_crtc) == "CRTC"
    ensures TagOf(gpus_section_vga_gdc) == "VGAG"
    ensures TagOf(gpus_section_vga_sequencer) == "VGAS"
    ensures TagOf(gpus_section_vga_attribute) == "VGAA"
    ensures TagOf(gpus_section_mmio) == "MMIO"
    ensures TagOf(gpus_section_bar1) == "BAR1"
    ensures TagOf(gpus_section_cache) == "CACH"
  {
  }

  lemma SectionsDistinct()
    ensures forall i, j | 0 <= i < j < |GpusSections| :: GpusSections[i] != GpusSections[j]
  {
  }

  /** The EEPROM section's code spells "61ED", not the tag "NV1E" its comment names. */
  lemma Nv1eSpells61ED()
    ensures TagOf(gpus_section_nv1e) == "61ED"
    ensures gpus_section_nv1e != Tag("NV1E")
  {
  }

  lemma MagicTags()
    ensures TagOf(GPUS_MAGIC) == "GPUS"
    ensures TagOf(PCI_BIOS_MAGIC) == "PCI "
  {
  }

  predicate SingleBit(x: bv16)
  {
    x != 0 && x & (x - 1) == 0
  }

  lemma CommandMasks()
    ensures SingleBit(PCI_CFG_OFFSET_COMMAND_IO_ENABLED)
    ensures SingleBit(PCI_CFG_OFFSET_COMMAND_MEM_ENABLED)
    ensures SingleBit(PCI_CFG_OFFSET_COMMAND_BUS_MASTER)
    ensures PCI_CFG_OFFSET_COMMAND_IO_ENABLED & PCI_CFG_OFFSET_COMMAND_MEM_ENABLED == 0
    ensures PCI_CFG_OFFSET_COMMAND_IO_ENABLED & PCI_CFG_OFFSET_COMMAND_BUS_MASTER == 0
    ensures PCI_CFG_OFFSET_COMMAND_MEM_ENABLED & PCI_CFG_OFFSET_COMMAND_BUS_MASTER == 0
    ensures PCI_CFG_OFFSET_COMMAND_IO_ENABLED | PCI_CFG_OFFSET_COMMAND_MEM_ENABLED
            | PCI_CFG_OFFSET_COMMAND_BUS_MASTER == 0x7
  {
  }

  // ---------------------------------------------------------------------
  // Devices

  /** The driver entry points a registry row can name; the first of each is NULL. */
  datatype InitFunction = NoInit | R128Init | Voodoo3Init
  datatype ShutdownFunction = NoShutdown | R128Shutdown | Voodoo3Shutdown
  datatype SectionAppliesFunction = NoSectionApplies | R128SectionApplies | Voodoo3SectionApplies
  datatype SectionParseFunction = NoSectionParse | R128SectionParse | Voodoo3SectionParse

  /** One row of the device registry. */
  datatype DeviceInfo = DeviceInfo(
    deviceId: int,
    vendorId: int,
    name: string,
    initFunction: InitFunction,
    shutdownFunction: ShutdownFunction,
    gpusSectionApplies: SectionAppliesFunction,
    gpusSectionParse: SectionParseFunction)

  /** The all-zero row: no ids, empty name, no entry points. */
  const EmptyDeviceInfo: DeviceInfo :=
    DeviceInfo(0, 0, "", NoInit, NoShutdown, NoSectionApplies, NoSectionParse)

  /**
   * The bound device. The mapped-window pointers and the clock crystal
   * frequency of the source's structure are not part of this model.
   */
  class Device {
    var deviceInfo: DeviceInfo
    var busNumber: int
    var functionNumber: int
    var bar0Selector: int
    var bar1Selector: int
    var bar1DfbStart: bv32
    var raminStart: bv32
    var vramAmount: int
    var nvPfbBoot0: bv32
    var nvPmcBoot0: bv32
    var straps: bv32
    var mpll: bv32
    var vpll: bv32
    var nvpll: bv32

    /** The zero-initialised device before detection. */
    constructor ()
      ensures deviceInfo == EmptyDeviceInfo
      ensures busNumber == 0 && functionNumber == 0
      ensures bar0Selector == 0 && bar1Selector == 0
      ensures bar1DfbStart == 0 && raminStart == 0 && vramAmount == 0
      ensures nvPfbBoot0 == 0 && nvPmcBoot0 == 0 && straps == 0
      ensures mpll == 0 && vpll == 0 && nvpll == 0
    {
      deviceInfo := EmptyDeviceInfo;
      busNumber, functionNumber := 0, 0;
      bar0Selector, bar1Selector := 0, 0;
      bar1DfbStart, raminStart, vramAmount := 0, 0, 0;
      nvPfbBoot0, nvPmcBoot0, straps := 0, 0, 0;
      mpll, vpll, nvpll := 0, 0, 0;
    }
  }
}
