/**
 * The Rage 128 Pro driver: init binds the register window (BAR2) and the
 * frame buffer (BAR0), reads the memory size and straps, snapshots
 * CONFIG_CNTL and enables bus mastering; shutdown writes the snapshot back;
 * the two tests read the manufacture-time registers and the whole register
 * window.
 */
module R128Core {
  import opened Bits
  import opened GpuPlay
  import opened HostMachine
  import opened R128Ref

  /** Size of the frame-buffer aperture mapped from BAR0. */
  const R128_LFB_SIZE: int := 0x4000000

  /** Number of 32-bit words in the register window. */
  const R128_MMIO_WORDS: int := R128_MMIO_SIZE / 4

  /** The frame-buffer (BAR0) and register-window (BAR2) base addresses in a configuration space. */
  function LfbBase(cfg: Mem): (base: bv32)
    ensures base & 0xF == 0 && base | (Load32(cfg, R128_PCI_CFG_MEM_BASE) & 0xF) == Load32(cfg, R128_PCI_CFG_MEM_BASE)
  {
    MemoryBarBase(Load32(cfg, R128_PCI_CFG_MEM_BASE))
  }

  function RegisterBase(cfg: Mem): (base: bv32)
    ensures base & 0xF == 0 && base | (Load32(cfg, R128_PCI_CFG_REG_BASE) & 0xF) == Load32(cfg, R128_PCI_CFG_REG_BASE)
  {
    MemoryBarBase(Load32(cfg, R128_PCI_CFG_REG_BASE))
  }

  /** The memory-size field holds one of the three codes the driver knows. */
  predicate R128MemsizeKnown(memsize: bv32)
  {
    var code := memsize & R128_CONFIG_MEMSIZE_MASK;
    code == R128_CONFIG_MEMSIZE_8MB || code == R128_CONFIG_MEMSIZE_16MB || code == R128_CONFIG_MEMSIZE_32MB
  }

  /** The VRAM size CONFIG_MEMSIZE announces; an unknown code counts as 16 MiB. */
  function R128VramSize(memsize: bv32): (size: int)
    ensures size == R128_VRAM_SIZE_8MB <==> memsize & R128_CONFIG_MEMSIZE_MASK == R128_CONFIG_MEMSIZE_8MB
    ensures size == R128_VRAM_SIZE_32MB <==> memsize & R128_CONFIG_MEMSIZE_MASK == R128_CONFIG_MEMSIZE_32MB
    ensures size == R128_VRAM_SIZE_16MB <==>
              memsize & R128_CONFIG_MEMSIZE_MASK != R128_CONFIG_MEMSIZE_8MB &&
              memsize & R128_CONFIG_MEMSIZE_MASK != R128_CONFIG_MEMSIZE_32MB
    ensures !R128MemsizeKnown(memsize) ==> size == R128_VRAM_SIZE_16MB
  {
    var code := memsize & R128_CONFIG_MEMSIZE_MASK;
    if code == R128_CONFIG_MEMSIZE_8MB then R128_VRAM_SIZE_8MB
    else if code == R128_CONFIG_MEMSIZE_16MB then R128_VRAM_SIZE_16MB
    else if code == R128_CONFIG_MEMSIZE_32MB then R128_VRAM_SIZE_32MB
    else R128_VRAM_SIZE_16MB
  }

  /** Only the low four bits of CONFIG_MEMSIZE decide the size, and it is 8, 16 or 32 MiB. */
  lemma R128VramSizeByCode(a: bv32, b: bv32)
    requires a & R128_CONFIG_MEMSIZE_MASK == b & R128_CONFIG_MEMSIZE_MASK
    ensures R128VramSize(a) == R128VramSize(b)
    ensures R128VramSize(a) in {8 * MiB, 16 * MiB, 32 * MiB}
  {
  }

  /** The command value with bus mastering enabled. */
  function WithBusMaster(command: bv16): (c: bv16)
    ensures c & PCI_CFG_OFFSET_COMMAND_BUS_MASTER != 0
    ensures c & !PCI_CFG_OFFSET_COMMAND_BUS_MASTER == command & !PCI_CFG_OFFSET_COMMAND_BUS_MASTER
  {
    command | PCI_CFG_OFFSET_COMMAND_BUS_MASTER
  }

  /** Enabling bus mastering when it is already on changes nothing. */
  lemma BusMasterAlreadyOn(command: bv16)
    requires command & PCI_CFG_OFFSET_COMMAND_BUS_MASTER != 0
    ensures WithBusMaster(command) == command
  {
  }

  /** Configuration space after init: the command register is written only when bus mastering was off. */
  function R128InitConfig(cfg: Mem): Mem
  {
    var command := Load16(cfg, PCI_CFG_OFFSET_COMMAND);
    if command & PCI_CFG_OFFSET_COMMAND_BUS_MASTER == 0 then
      Store16(cfg, PCI_CFG_OFFSET_COMMAND, WithBusMaster(command))
    else
      cfg
  }

  /** Init leaves the command register at its old value with bus mastering on, and every other byte alone. */
  lemma R128InitConfigEffect(cfg: Mem)
    ensures Load16(R128InitConfig(cfg), PCI_CFG_OFFSET_COMMAND) == WithBusMaster(Load16(cfg, PCI_CFG_OFFSET_COMMAND))
    ensures forall b | b != PCI_CFG_OFFSET_COMMAND && b != PCI_CFG_OFFSET_COMMAND + 1 ::
              Byte(R128InitConfig(cfg), b) == Byte(cfg, b)
    ensures Load16(cfg, PCI_CFG_OFFSET_COMMAND) & PCI_CFG_OFFSET_COMMAND_BUS_MASTER != 0 ==> R128InitConfig(cfg) == cfg
  {
    var command := Load16(cfg, PCI_CFG_OFFSET_COMMAND);
    if command & PCI_CFG_OFFSET_COMMAND_BUS_MASTER == 0 {
      var c := WithBusMaster(command);
      LoadStore16(cfg, PCI_CFG_OFFSET_COMMAND, c);
      forall b | b != PCI_CFG_OFFSET_COMMAND && b != PCI_CFG_OFFSET_COMMAND + 1
        ensures Byte(R128InitConfig(cfg), b) == Byte(cfg, b)
      {
        Store16Bytes(cfg, PCI_CFG_OFFSET_COMMAND, c, b);
      }
    } else {
      BusMasterAlreadyOn(command);
    }
  }

  /** The register window after shutdown: the snapshot goes back to CONFIG_CNTL unless it is zero. */
  function R128ShutdownMmio(mmio: Mem, snapshot: bv32): (after: Mem)
    ensures snapshot != 0 ==> Load32(after, R128_CONFIG_CNTL) == snapshot
    ensures snapshot == 0 ==> after == mmio
  {
    if snapshot != 0 then LoadStore32(mmio, R128_CONFIG_CNTL, snapshot); Store32(mmio, R128_CONFIG_CNTL, snapshot)
    else mmio
  }

  /**
   * Init never writes the register window, so shutdown with the snapshot init
   * took leaves every byte of the window as it was before init.
   */
  lemma R128InitShutdownRestores(mmio: Mem)
    ensures forall b :: Byte(R128ShutdownMmio(mmio, Load32(mmio, R128_CONFIG_CNTL)), b) == Byte(mmio, b)
  {
    forall b
      ensures Byte(R128ShutdownMmio(mmio, Load32(mmio, R128_CONFIG_CNTL)), b) == Byte(mmio, b)
    {
      StoreOwnWord(mmio, R128_CONFIG_CNTL, b);
    }
  }

  /** Storing back the word just read leaves every byte as it was. */
  lemma StoreOwnWord(m: Mem, a: int, b: int)
    ensures Byte(Store32(m, a, Load32(m, a)), b) == Byte(m, b)
  {
    var lo, hi := Load16(m, a), Load16(m, a + 2);
    Halves16Join(lo, hi);
    var m1 := Store16(m, a, lo);
    assert Store32(m, a, Load32(m, a)) == Store16(m1, a + 2, hi);
    Load16Store16Disjoint(m, a, lo, a + 2);
    Store16Own(m1, a + 2, b);
    Store16Own(m, a, b);
  }

  /** Shutdown touches only the four bytes of CONFIG_CNTL, and repeating it changes nothing more. */
  lemma R128ShutdownFrame(mmio: Mem, snapshot: bv32)
    ensures forall b | !(R128_CONFIG_CNTL <= b < R128_CONFIG_CNTL + 4) ::
              Byte(R128ShutdownMmio(mmio, snapshot), b) == Byte(mmio, b)
    ensures R128ShutdownMmio(R128ShutdownMmio(mmio, snapshot), snapshot) == R128ShutdownMmio(mmio, snapshot)
  {
    forall b | !(R128_CONFIG_CNTL <= b < R128_CONFIG_CNTL + 4)
      ensures Byte(R128ShutdownMmio(mmio, snapshot), b) == Byte(mmio, b)
    {
      StoreWBytes(mmio, R128_CONFIG_CNTL, W32, snapshot, b);
    }
    StoreWTwice(mmio, R128_CONFIG_CNTL, W32, snapshot, snapshot);
  }

  /** The values the manufacture-information test reports. */
  datatype R128MfgInfo = R128MfgInfo(
    vendorId: bv16,
    deviceId: bv16,
    revisionId: bv8,
    memsize: bv32,
    vramMiB: int,
    straps: bv32,
    configCntl: bv32,
    busCntl: bv32,
    memCntl: bv32)

  /** Both GPUS hooks: the Rage 128 takes part in no save-state section. */
  function R128GpusSectionApplies(fourcc: bv32): (applies: bool)
    ensures !applies
  {
    false
  }

  function R128GpusParseSection(fourcc: bv32): (ok: bool)
    ensures !ok
  {
    false
  }

  /**
   * Maps the frame buffer and the register window and binds the register
   * window to one new descriptor and the frame buffer to another.
   */
  method MapWindows(host: Host, lfb: bv32, regs: bv32) returns (s0: int, s1: int)
    requires host.Valid()
    modifies host`selectors, host`nextSelector, host`mappings
    ensures host.Valid()
    ensures host.mappings == old(host.mappings) + [
              Mapping(lfb, R128_LFB_SIZE, host.linearFor(lfb, R128_LFB_SIZE)),
              Mapping(regs, R128_MMIO_SIZE, host.linearFor(regs, R128_MMIO_SIZE))]
    ensures s0 !in old(host.selectors) && s1 !in old(host.selectors) && s0 != s1
    ensures host.selectors == old(host.selectors)
              [s0 := Segment(host.linearFor(regs, R128_MMIO_SIZE), R128_MMIO_SIZE - 1)]
              [s1 := Segment(host.linearFor(lfb, R128_LFB_SIZE), R128_LFB_SIZE - 1)]
  {
    var lfbLinear := host.PhysicalAddressMapping(lfb, R128_LFB_SIZE);
    var regsLinear := host.PhysicalAddressMapping(regs, R128_MMIO_SIZE);
    // The register window goes to bar0_selector, which mmio_read32 uses.
    s0 := BindSegment(host, regsLinear, R128_MMIO_SIZE - 1);
    s1 := BindSegment(host, lfbLinear, R128_LFB_SIZE - 1);
  }

  /** Sets the bus-master bit of the command register when it is clear. */
  method EnableBusMastering(host: Host)
    modifies host`cfg
    ensures host.cfg == R128InitConfig(old(host.cfg))
  {
    var command := host.ReadConfig16(PCI_CFG_OFFSET_COMMAND);
    if command & PCI_CFG_OFFSET_COMMAND_BUS_MASTER == 0 {
      command := command | PCI_CFG_OFFSET_COMMAND_BUS_MASTER;
      host.WriteConfig16(PCI_CFG_OFFSET_COMMAND, command);
    }
  }

  /** The driver state: CONFIG_CNTL as init found it, zero before init. */
  class R128Driver {
    var originalConfigCntl: bv32

    constructor ()
      ensures originalConfigCntl == 0
    {
      originalConfigCntl := 0;
    }

    method Init(dev: Device, host: Host) returns (ok: bool)
      requires host.Valid()
      modifies this, dev`bar0Selector, dev`bar1Selector, dev`bar1DfbStart, dev`raminStart, dev`vramAmount, dev`straps
      modifies host`cfg, host`selectors, host`nextSelector, host`mappings
      ensures ok && host.Valid()
      ensures dev.bar1DfbStart == LfbBase(old(host.cfg))
      ensures dev.raminStart == RegisterBase(old(host.cfg))
      ensures host.mappings == old(host.mappings) + [
                Mapping(dev.bar1DfbStart, R128_LFB_SIZE, host.linearFor(dev.bar1DfbStart, R128_LFB_SIZE)),
                Mapping(dev.raminStart, R128_MMIO_SIZE, host.linearFor(dev.raminStart, R128_MMIO_SIZE))]
      ensures dev.bar0Selector !in old(host.selectors) && dev.bar1Selector !in old(host.selectors)
      ensures dev.bar0Selector != dev.bar1Selector
      ensures host.selectors == old(host.selectors)
                [dev.bar0Selector := Segment(host.linearFor(dev.raminStart, R128_MMIO_SIZE), R128_MMIO_SIZE - 1)]
                [dev.bar1Selector := Segment(host.linearFor(dev.bar1DfbStart, R128_LFB_SIZE), R128_LFB_SIZE - 1)]
      ensures dev.vramAmount == R128VramSize(Load32(host.mmio, R128_CONFIG_MEMSIZE))
      ensures dev.straps == Load32(host.mmio, R128_CONFIG_XSTRAP)
      ensures originalConfigCntl == Load32(host.mmio, R128_CONFIG_CNTL)
      ensures host.cfg == R128InitConfig(old(host.cfg))
    {
      var lfb := LfbBase(host.cfg);
      var regs := RegisterBase(host.cfg);
      dev.bar1DfbStart := lfb;
      dev.raminStart := regs;
      var s0, s1 := MapWindows(host, lfb, regs);
      dev.bar0Selector := s0;
      dev.bar1Selector := s1;
      dev.vramAmount := R128VramSize(host.MmioRead32(R128_CONFIG_MEMSIZE));
      dev.straps := host.MmioRead32(R128_CONFIG_XSTRAP);
      originalConfigCntl := host.MmioRead32(R128_CONFIG_CNTL);
      EnableBusMastering(host);
      ok := true;
    }

    method Shutdown(host: Host)
      modifies host`mmio
      ensures host.mmio == R128ShutdownMmio(old(host.mmio), originalConfigCntl)
    {
      if originalConfigCntl != 0 {
        host.MmioWrite32(R128_CONFIG_CNTL, originalConfigCntl);
      }
    }

    /**
     * Init followed by shutdown: the register window reads as before and the
     * bus-master bit init set stays set, since shutdown does not restore the
     * command register.
     */
    method InitThenShutdown(dev: Device, host: Host)
      requires host.Valid()
      modifies this, dev`bar0Selector, dev`bar1Selector, dev`bar1DfbStart, dev`raminStart, dev`vramAmount, dev`straps
      modifies host`cfg, host`mmio, host`selectors, host`nextSelector, host`mappings
      ensures forall b :: Byte(host.mmio, b) == Byte(old(host.mmio), b)
      ensures Load16(host.cfg, PCI_CFG_OFFSET_COMMAND) == WithBusMaster(Load16(old(host.cfg), PCI_CFG_OFFSET_COMMAND))
    {
      var _ := Init(dev, host);
      Shutdown(host);
      R128InitShutdownRestores(old(host.mmio));
      R128InitConfigEffect(old(host.cfg));
    }
  }

  method DumpMfgInfo(dev: Device, host: Host) returns (ok: bool, info: R128MfgInfo)
    ensures ok
    ensures info == R128MfgInfo(
              Load16(host.cfg, PCI_CFG_OFFSET_VENDOR_ID), Load16(host.cfg, PCI_CFG_OFFSET_DEVICE_ID),
              Load8(host.cfg, PCI_CFG_OFFSET_REVISION), Load32(host.mmio, R128_CONFIG_MEMSIZE),
              dev.vramAmount / MiB, Load32(host.mmio, R128_CONFIG_XSTRAP), Load32(host.mmio, R128_CONFIG_CNTL),
              Load32(host.mmio, R128_BUS_CNTL), Load32(host.mmio, R128_MEM_CNTL))
  {
    var vendorId := host.ReadConfig16(PCI_CFG_OFFSET_VENDOR_ID);
    var deviceId := host.ReadConfig16(PCI_CFG_OFFSET_DEVICE_ID);
    var revisionId := host.ReadConfig8(PCI_CFG_OFFSET_REVISION);
    var memsize := host.MmioRead32(R128_CONFIG_MEMSIZE);
    var straps := host.MmioRead32(R128_CONFIG_XSTRAP);
    var configCntl := host.MmioRead32(R128_CONFIG_CNTL);
    var busCntl := host.MmioRead32(R128_BUS_CNTL);
    var memCntl := host.MmioRead32(R128_MEM_CNTL);
    info := R128MfgInfo(vendorId, deviceId, revisionId, memsize, dev.vramAmount / MiB, straps, configCntl, busCntl, memCntl);
    ok := true;
  }

  /**
   * Reads the register window word by word into a buffer. Whether the dump
   * file opens and the buffer is allocated are parameters; either failure
   * returns false before anything is read.
   */
  method DumpMmio(host: Host, fileOpens: bool, bufferAllocated: bool) returns (ok: bool, buffer: array<bv32>)
    ensures ok <==> fileOpens && bufferAllocated
    ensures ok ==> buffer.Length == R128_MMIO_WORDS
    ensures ok ==> forall i | 0 <= i < buffer.Length :: buffer[i] == Load32(host.mmio, 4 * i)
  {
    if !fileOpens || !bufferAllocated {
      return false, new bv32[0];
    }
    buffer := new bv32[R128_MMIO_WORDS];
    var addr := 0;
    while addr < R128_MMIO_SIZE
      invariant 0 <= addr <= R128_MMIO_SIZE && addr % 4 == 0
      invariant forall i | 0 <= i < addr / 4 :: buffer[i] == Load32(host.mmio, 4 * i)
      decreases R128_MMIO_SIZE - addr
    {
      buffer[addr / 4] := host.MmioRead32(addr);
      addr := addr + 4;
    }
    ok := true;
  }
}
