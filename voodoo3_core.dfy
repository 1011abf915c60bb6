/**
 * The 3Dfx Voodoo3 / Voodoo Banshee driver. Its registers sit in an I/O
 * window whose base port BAR2 holds; the static io helpers reach register
 * offset o at port (base + o) mod 2^16, and a 32-bit access is two 16-bit
 * port accesses, low half first. Init maps the frame buffer (BAR0) and the
 * texture memory (BAR1), reads the memory size and straps, snapshots the
 * PCI command register and enables bus mastering, memory and I/O decoding;
 * shutdown writes the snapshot back.
 */
module Voodoo3Core {
  import opened Bits
  import opened GpuPlay
  import opened HostMachine
  import opened Voodoo3Ref

  /** A uint16_t port number. */
  type Port16 = p: int | 0 <= p < 0x1_0000

  /** Size of each of the two apertures init maps. */
  const VOODOO3_APERTURE_SIZE: int := 0x2000000

  /** Number of 32-bit words the I/O dump reads. */
  const VOODOO3_IO_DUMP_WORDS: int := VOODOO3_IO_DUMP_SIZE / 4

  /** The command-register bits init turns on: bus master, memory and I/O decoding. */
  const VOODOO3_COMMAND_ENABLES: bv16 := 0x7

  // ---------------------------------------------------------------------
  // The I/O window

  /** The 32-bit value two word reads at port and port + 2 assemble, low half first. */
  function PortWord(ports: Mem, port: int): bv32
  {
    Join16(PortRead16(ports, port), PortRead16(ports, PortAt(port, 2)))
  }

  /** The ports after a 32-bit write: the low half at port, then the high half at port + 2. */
  function PortWriteWord(ports: Mem, port: int, v: bv32): Mem
  {
    PortWrite16(PortWrite16(ports, port, Low16(v)), PortAt(port, 2), High16(v))
  }

  /** What io_read32(offset) returns: 0 while no base port is set. */
  function IoWord(ports: Mem, base: Port16, offset: int): bv32
  {
    if base == 0 then 0 else PortWord(ports, PortAt(base, offset))
  }

  /** The bus accesses io_read32(offset) makes: none while no base port is set. */
  function IoWordReads(base: Port16, offset: int): (ops: seq<PortOp>)
    ensures base == 0 ==> ops == []
    ensures base != 0 ==> |ops| == 2 && ops[0] == InW(PortAt(base, offset)) && ops[1].InW?
  {
    if base == 0 then [] else [InW(PortAt(base, offset)), InW(PortAt(PortAt(base, offset), 2))]
  }

  /** A 32-bit write read back at the same port yields the value written. */
  lemma PortWordRoundTrip(ports: Mem, port: int, v: bv32)
    requires 0 <= port < PortSpace
    ensures PortWord(PortWriteWord(ports, port, v), port) == v
  {
    var high := PortAt(port, 2);
    var m1 := PortWrite16(ports, port, Low16(v));
    PortReadWrite16(ports, port, Low16(v));
    PortWrite16Disjoint(m1, high, port, High16(v));
    PortReadWrite16(m1, high, High16(v));
    Join16Halves(v);
  }

  /** A 32-bit write changes no port outside the four it covers. */
  lemma PortWriteWordFrame(ports: Mem, port: int, v: bv32, q: int)
    requires 0 <= port < PortSpace
    requires q != port && q != PortAt(port, 1) && q != PortAt(port, 2) && q != PortAt(port, 3)
    ensures Byte(PortWriteWord(ports, port, v), q) == Byte(ports, q)
  {
    PortAtWraps(port, 2);
    PortAtWraps(port, 3);
    PortAtWraps(port, 1);
    PortAtWraps(PortAt(port, 2), 1);
  }

  // ---------------------------------------------------------------------
  // Decoding the configuration

  /** The I/O base port an I/O BAR holds: bits 2-15. */
  function IoBase(bar: bv32): (base: Port16)
    ensures base % 4 == 0
  {
    ((bar & 0xFFFC) as bv16) as int
  }

  /** BAR2 decodes I/O space. */
  predicate IsIoBar(bar: bv32)
  {
    bar & 0x1 != 0
  }

  /** The lfbMemoryConfig size field holds one of the four codes the driver knows. */
  predicate Voodoo3MemoryCodeKnown(config: bv32)
  {
    config & VOODOO3_LFBMEMORYCONFIG_MEMORY_SIZE_MASK <= VOODOO3_LFBMEMORYCONFIG_MEMORY_SIZE_32MB
  }

  /** The VRAM size lfbMemoryConfig announces; an unknown code counts as 16 MiB. */
  function Voodoo3VramSize(config: bv32): (size: int)
    ensures size == VOODOO3_VRAM_SIZE_4MB <==>
              config & VOODOO3_LFBMEMORYCONFIG_MEMORY_SIZE_MASK == VOODOO3_LFBMEMORYCONFIG_MEMORY_SIZE_4MB
    ensures size == VOODOO3_VRAM_SIZE_8MB <==>
              config & VOODOO3_LFBMEMORYCONFIG_MEMORY_SIZE_MASK == VOODOO3_LFBMEMORYCONFIG_MEMORY_SIZE_8MB
    ensures size == VOODOO3_VRAM_SIZE_32MB <==>
              config & VOODOO3_LFBMEMORYCONFIG_MEMORY_SIZE_MASK == VOODOO3_LFBMEMORYCONFIG_MEMORY_SIZE_32MB
    ensures !Voodoo3MemoryCodeKnown(config) ==> size == VOODOO3_VRAM_SIZE_16MB
  {
    var code := config & VOODOO3_LFBMEMORYCONFIG_MEMORY_SIZE_MASK;
    if code == VOODOO3_LFBMEMORYCONFIG_MEMORY_SIZE_4MB then VOODOO3_VRAM_SIZE_4MB
    else if code == VOODOO3_LFBMEMORYCONFIG_MEMORY_SIZE_8MB then VOODOO3_VRAM_SIZE_8MB
    else if code == VOODOO3_LFBMEMORYCONFIG_MEMORY_SIZE_16MB then VOODOO3_VRAM_SIZE_16MB
    else if code == VOODOO3_LFBMEMORYCONFIG_MEMORY_SIZE_32MB then VOODOO3_VRAM_SIZE_32MB
    else VOODOO3_VRAM_SIZE_16MB
  }

  /** Only the low four bits decide the size, and it is 4, 8, 16 or 32 MiB. */
  lemma Voodoo3VramSizeByCode(a: bv32, b: bv32)
    requires a & VOODOO3_LFBMEMORYCONFIG_MEMORY_SIZE_MASK == b & VOODOO3_LFBMEMORYCONFIG_MEMORY_SIZE_MASK
    ensures Voodoo3VramSize(a) == Voodoo3VramSize(b)
    ensures Voodoo3VramSize(a) in {4 * MiB, 8 * MiB, 16 * MiB, 32 * MiB}
  {
  }

  /** Without a base port every register reads 0, so init settles on 4 MiB and zero straps. */
  lemma ZeroBaseDefaults(ports: Mem)
    ensures Voodoo3VramSize(IoWord(ports, 0, VOODOO3_IO_LFBMEMORYCONFIG)) == VOODOO3_VRAM_SIZE_4MB
    ensures IoWord(ports, 0, VOODOO3_IO_MISCINIT1) == 0
  {
  }

  /** The command value with bus mastering, memory and I/O decoding enabled. */
  function WithDecoding(command: bv16): (c: bv16)
    ensures c & VOODOO3_COMMAND_ENABLES == VOODOO3_COMMAND_ENABLES
    ensures c & !VOODOO3_COMMAND_ENABLES == command & !VOODOO3_COMMAND_ENABLES
  {
    command | VOODOO3_COMMAND_ENABLES
  }

  /** Configuration space after init: the command register gains bits 0-2, written only if one was clear. */
  function Voodoo3InitConfig(cfg: Mem): Mem
  {
    var command := Load16(cfg, PCI_CFG_OFFSET_COMMAND);
    if command & VOODOO3_COMMAND_ENABLES == VOODOO3_COMMAND_ENABLES then cfg
    else Store16(cfg, PCI_CFG_OFFSET_COMMAND, WithDecoding(command))
  }

  /** Configuration space after shutdown: the snapshot goes back to the command register unless it is zero. */
  function Voodoo3ShutdownConfig(cfg: Mem, snapshot: bv16): (after: Mem)
    ensures snapshot != 0 ==> Load16(after, PCI_CFG_OFFSET_COMMAND) == snapshot
    ensures snapshot == 0 ==> after == cfg
  {
    if snapshot != 0 then LoadStore16(cfg, PCI_CFG_OFFSET_COMMAND, snapshot); Store16(cfg, PCI_CFG_OFFSET_COMMAND, snapshot)
    else cfg
  }

  /** Init leaves the command register at its old value with bits 0-2 on, and every other byte alone. */
  lemma Voodoo3InitConfigEffect(cfg: Mem)
    ensures Load16(Voodoo3InitConfig(cfg), PCI_CFG_OFFSET_COMMAND) == WithDecoding(Load16(cfg, PCI_CFG_OFFSET_COMMAND))
    ensures forall b | b != PCI_CFG_OFFSET_COMMAND && b != PCI_CFG_OFFSET_COMMAND + 1 ::
              Byte(Voodoo3InitConfig(cfg), b) == Byte(cfg, b)
  {
    var command := Load16(cfg, PCI_CFG_OFFSET_COMMAND);
    var c := WithDecoding(command);
    if command & VOODOO3_COMMAND_ENABLES != VOODOO3_COMMAND_ENABLES {
      LoadStore16(cfg, PCI_CFG_OFFSET_COMMAND, c);
      forall b | b != PCI_CFG_OFFSET_COMMAND && b != PCI_CFG_OFFSET_COMMAND + 1
        ensures Byte(Voodoo3InitConfig(cfg), b) == Byte(cfg, b)
      {
        Store16Bytes(cfg, PCI_CFG_OFFSET_COMMAND, c, b);
      }
    } else {
      EnabledAlready(command);
    }
  }

  lemma EnabledAlready(command: bv16)
    requires command & VOODOO3_COMMAND_ENABLES == VOODOO3_COMMAND_ENABLES
    ensures WithDecoding(command) == command
  {
  }

  /**
   * Init followed by shutdown with the snapshot init took: the command
   * register is back at its original value when that was nonzero, and stays
   * at 0x7 when it was zero (the zero snapshot is never written back).
   * Every other byte of the configuration space is as it was.
   */
  lemma Voodoo3InitShutdown(cfg: Mem)
    ensures var command := Load16(cfg, PCI_CFG_OFFSET_COMMAND);
            Load16(Voodoo3ShutdownConfig(Voodoo3InitConfig(cfg), command), PCI_CFG_OFFSET_COMMAND)
              == if command != 0 then command else VOODOO3_COMMAND_ENABLES
    ensures forall b | b != PCI_CFG_OFFSET_COMMAND && b != PCI_CFG_OFFSET_COMMAND + 1 ::
              Byte(Voodoo3ShutdownConfig(Voodoo3InitConfig(cfg), Load16(cfg, PCI_CFG_OFFSET_COMMAND)), b) == Byte(cfg, b)
    ensures Load16(cfg, PCI_CFG_OFFSET_COMMAND) != 0 ==> forall b ::
              Byte(Voodoo3ShutdownConfig(Voodoo3InitConfig(cfg), Load16(cfg, PCI_CFG_OFFSET_COMMAND)), b) == Byte(cfg, b)
  {
    var command := Load16(cfg, PCI_CFG_OFFSET_COMMAND);
    var snapshot := command;
    var mid := Voodoo3InitConfig(cfg);
    var after := Voodoo3ShutdownConfig(mid, snapshot);
    Voodoo3InitConfigEffect(cfg);
    if command != 0 {
      assert snapshot != 0;
      LoadStore16(mid, PCI_CFG_OFFSET_COMMAND, command);
      forall b
        ensures Byte(after, b) == Byte(cfg, b)
      {
        Store16Bytes(mid, PCI_CFG_OFFSET_COMMAND, command, b);
        Store16Own(cfg, PCI_CFG_OFFSET_COMMAND, b);
        Store16Bytes(cfg, PCI_CFG_OFFSET_COMMAND, command, b);
      }
    } else {
      assert snapshot == 0;
    }
  }

  // ---------------------------------------------------------------------
  // GPUS hooks

  /** Both GPUS hooks: the Voodoo3 takes part in no save-state section. */
  function Voodoo3GpusSectionApplies(fourcc: bv32): (applies: bool)
    ensures !applies
  {
    false
  }

  function Voodoo3GpusParseSection(fourcc: bv32): (ok: bool)
    ensures !ok
  {
    false
  }

  /** The values the manufacture-information test reports. */
  datatype Voodoo3MfgInfo = Voodoo3MfgInfo(
    vendorId: bv16,
    deviceId: bv16,
    revisionId: bv8,
    lfbMemoryConfig: bv32,
    vramMiB: int,
    miscInit0: bv32,
    miscInit1: bv32,
    dramInit0: bv32,
    dramInit1: bv32,
    status: bv32)

  /** The bus accesses of the I/O dump: two word reads per register, in offset order. */
  function DumpReads(base: Port16, n: nat): (ops: seq<PortOp>)
    ensures |ops| == if base == 0 then 0 else 2 * n
  {
    if n == 0 then [] else DumpReads(base, n - 1) + IoWordReads(base, 4 * (n - 1))
  }

  /**
   * Maps the frame buffer and the texture memory, and binds the frame buffer
   * to one new descriptor; the I/O window needs none.
   */
  method MapApertures(host: Host, dfb: bv32, texture: bv32) returns (selector: int)
    requires host.Valid()
    modifies host`selectors, host`nextSelector, host`mappings
    ensures host.Valid()
    ensures host.mappings == old(host.mappings) + [
              Mapping(dfb, VOODOO3_APERTURE_SIZE, host.linearFor(dfb, VOODOO3_APERTURE_SIZE)),
              Mapping(texture, VOODOO3_APERTURE_SIZE, host.linearFor(texture, VOODOO3_APERTURE_SIZE))]
    ensures selector !in old(host.selectors)
    ensures host.selectors == old(host.selectors)
              [selector := Segment(host.linearFor(dfb, VOODOO3_APERTURE_SIZE), VOODOO3_APERTURE_SIZE - 1)]
  {
    var dfbLinear := host.PhysicalAddressMapping(dfb, VOODOO3_APERTURE_SIZE);
    var _ := host.PhysicalAddressMapping(texture, VOODOO3_APERTURE_SIZE);
    selector := BindSegment(host, dfbLinear, VOODOO3_APERTURE_SIZE - 1);
  }

  /** One of init's three steps: when the bit is clear, OR it in and write the command register. */
  method SetCommandBit(host: Host, c: bv16, bit: bv16) returns (next: bv16, ghost wrote: bool)
    requires bit == 1 || bit == 2 || bit == 4
    modifies host`cfg
    ensures next == c | bit
    ensures wrote <==> c & bit == 0
    ensures !wrote ==> next == c
    ensures host.cfg == if wrote then Store16(old(host.cfg), PCI_CFG_OFFSET_COMMAND, next) else old(host.cfg)
  {
    next := c;
    wrote := false;
    if next & bit == 0 {
      next := next | bit;
      host.WriteConfig16(PCI_CFG_OFFSET_COMMAND, next);
      wrote := true;
    }
  }

  /**
   * The three steps in order (bus master, memory, I/O) end at the original
   * value with bits 0-2 on, and at least one of them writes exactly when
   * one of those bits was clear.
   */
  lemma CommandSteps(c0: bv16)
    ensures (c0 | 4) | 2 == c0 | 6
    ensures (c0 | 6) | 1 == WithDecoding(c0)
    ensures (c0 & 4 == 0 || (c0 | 4) & 2 == 0 || (c0 | 6) & 1 == 0) <==>
            c0 & VOODOO3_COMMAND_ENABLES != VOODOO3_COMMAND_ENABLES
  {
  }

  /** Turns on bus mastering, memory decoding and I/O decoding, one config write per bit found clear. */
  method EnableDecoding(host: Host, command: bv16)
    requires command == Load16(host.cfg, PCI_CFG_OFFSET_COMMAND)
    modifies host`cfg
    ensures host.cfg == Voodoo3InitConfig(old(host.cfg))
  {
    ghost var cfg0 := host.cfg;
    CommandSteps(command);
    var c: bv16;
    ghost var w1: bool, w2: bool, w3: bool;
    c, w1 := SetCommandBit(host, command, PCI_CFG_OFFSET_COMMAND_BUS_MASTER);
    ghost var c1 := c;
    c, w2 := SetCommandBit(host, c, PCI_CFG_OFFSET_COMMAND_MEM_ENABLED);
    if w1 && w2 {
      Store16Twice(cfg0, PCI_CFG_OFFSET_COMMAND, c1, c);
    }
    assert host.cfg == if w1 || w2 then Store16(cfg0, PCI_CFG_OFFSET_COMMAND, c) else cfg0;
    ghost var c2 := c;
    c, w3 := SetCommandBit(host, c, PCI_CFG_OFFSET_COMMAND_IO_ENABLED);
    if (w1 || w2) && w3 {
      Store16Twice(cfg0, PCI_CFG_OFFSET_COMMAND, c2, c);
    }
    assert host.cfg == if w1 || w2 || w3 then Store16(cfg0, PCI_CFG_OFFSET_COMMAND, c) else cfg0;
  }

  /** The driver state: the I/O base port and the command register as init found it, both zero before init. */
  class Voodoo3Driver {
    var ioBasePort: Port16
    var originalPciCommand: bv16

    constructor ()
      ensures ioBasePort == 0 && originalPciCommand == 0
    {
      ioBasePort := 0;
      originalPciCommand := 0;
    }

    method IoRead8(host: Host, offset: int) returns (v: bv8)
      modifies host`portLog
      ensures ioBasePort == 0 ==> v == 0 && host.portLog == old(host.portLog)
      ensures ioBasePort != 0 ==>
                v == Byte(host.ports, PortAt(ioBasePort, offset)) &&
                host.portLog == old(host.portLog) + [InB(PortAt(ioBasePort, offset))]
    {
      if ioBasePort == 0 {
        return 0;
      }
      v := host.InPortB(PortAt(ioBasePort, offset));
    }

    method IoRead16(host: Host, offset: int) returns (v: bv16)
      modifies host`portLog
      ensures ioBasePort == 0 ==> v == 0 && host.portLog == old(host.portLog)
      ensures ioBasePort != 0 ==>
                v == PortRead16(host.ports, PortAt(ioBasePort, offset)) &&
                host.portLog == old(host.portLog) + [InW(PortAt(ioBasePort, offset))]
    {
      if ioBasePort == 0 {
        return 0;
      }
      v := host.InPortW(PortAt(ioBasePort, offset));
    }

    method IoRead32(host: Host, offset: int) returns (v: bv32)
      modifies host`portLog
      ensures v == IoWord(host.ports, ioBasePort, offset)
      ensures host.portLog == old(host.portLog) + IoWordReads(ioBasePort, offset)
    {
      if ioBasePort == 0 {
        return 0;
      }
      var port := PortAt(ioBasePort, offset);
      var low := host.InPortW(port);
      var high := host.InPortW(PortAt(port, 2));
      v := Join16(low, high);
    }

    method IoWrite8(host: Host, offset: int, value: bv8)
      modifies host`ports, host`portLog
      ensures ioBasePort == 0 ==> host.ports == old(host.ports) && host.portLog == old(host.portLog)
      ensures ioBasePort != 0 ==>
                host.ports == old(host.ports)[PortAt(ioBasePort, offset) := value] &&
                host.portLog == old(host.portLog) + [OutB(PortAt(ioBasePort, offset), value)]
    {
      if ioBasePort == 0 {
        return;
      }
      host.OutPortB(PortAt(ioBasePort, offset), value);
    }

    method IoWrite16(host: Host, offset: int, value: bv16)
      modifies host`ports, host`portLog
      ensures ioBasePort == 0 ==> host.ports == old(host.ports) && host.portLog == old(host.portLog)
      ensures ioBasePort != 0 ==>
                host.ports == PortWrite16(old(host.ports), PortAt(ioBasePort, offset), value) &&
                host.portLog == old(host.portLog) + [OutW(PortAt(ioBasePort, offset), value)]
    {
      if ioBasePort == 0 {
        return;
      }
      host.OutPortW(PortAt(ioBasePort, offset), value);
    }

    method IoWrite32(host: Host, offset: int, value: bv32)
      modifies host`ports, host`portLog
      ensures ioBasePort == 0 ==> host.ports == old(host.ports) && host.portLog == old(host.portLog)
      ensures ioBasePort != 0 ==>
                var port := PortAt(ioBasePort, offset);
                host.ports == PortWriteWord(old(host.ports), port, value) &&
                host.portLog == old(host.portLog) + [OutW(port, Low16(value)), OutW(PortAt(port, 2), High16(value))]
    {
      if ioBasePort == 0 {
        return;
      }
      var port := PortAt(ioBasePort, offset);
      host.OutPortW(port, Low16(value));
      host.OutPortW(PortAt(port, 2), High16(value));
    }

    /** With a base port set, a 32-bit write followed by a 32-bit read at the same offset yields the value. */
    method WriteThenRead32(host: Host, offset: int, value: bv32) returns (v: bv32)
      requires ioBasePort != 0
      modifies host`ports, host`portLog
      ensures v == value
    {
      IoWrite32(host, offset, value);
      v := IoRead32(host, offset);
      PortWordRoundTrip(old(host.ports), PortAt(ioBasePort, offset), value);
    }

    /** Init's reads of the I/O window: the VRAM size from LFBMEMORYCONFIG and the straps from MISCINIT1. */
    method ReadMemoryConfig(dev: Device, host: Host)
      modifies dev`vramAmount, dev`straps, host`portLog
      ensures dev.vramAmount == Voodoo3VramSize(IoWord(host.ports, ioBasePort, VOODOO3_IO_LFBMEMORYCONFIG))
      ensures dev.straps == IoWord(host.ports, ioBasePort, VOODOO3_IO_MISCINIT1)
      ensures host.portLog == old(host.portLog) + IoWordReads(ioBasePort, VOODOO3_IO_LFBMEMORYCONFIG)
                                + IoWordReads(ioBasePort, VOODOO3_IO_MISCINIT1)
    {
      var config := IoRead32(host, VOODOO3_IO_LFBMEMORYCONFIG);
      dev.vramAmount := Voodoo3VramSize(config);
      var straps := IoRead32(host, VOODOO3_IO_MISCINIT1);
      dev.straps := straps;
    }

    /** Init's last step: snapshot the command register, then enable decoding and bus mastering. */
    method SaveAndEnableCommand(host: Host)
      modifies this`originalPciCommand, host`cfg
      ensures originalPciCommand == Load16(old(host.cfg), PCI_CFG_OFFSET_COMMAND)
      ensures host.cfg == Voodoo3InitConfig(old(host.cfg))
    {
      var command := host.ReadConfig16(PCI_CFG_OFFSET_COMMAND);
      originalPciCommand := command;
      EnableDecoding(host, command);
    }

    /** Init once BAR2 has been found to be an I/O BAR: everything from taking its base port to the command register. */
    method Attach(dev: Device, host: Host, dfb: bv32, texture: bv32, base: Port16)
      requires host.Valid()
      modifies this, dev`bar1Selector, dev`bar1DfbStart, dev`raminStart, dev`vramAmount, dev`straps
      modifies host`cfg, host`selectors, host`nextSelector, host`mappings, host`portLog
      ensures host.Valid()
      ensures ioBasePort == base
      ensures dev.bar1DfbStart == dfb && dev.raminStart == texture
      ensures host.mappings == old(host.mappings) + [
                Mapping(dfb, VOODOO3_APERTURE_SIZE, host.linearFor(dfb, VOODOO3_APERTURE_SIZE)),
                Mapping(texture, VOODOO3_APERTURE_SIZE, host.linearFor(texture, VOODOO3_APERTURE_SIZE))]
      ensures dev.bar1Selector !in old(host.selectors)
      ensures host.selectors == old(host.selectors)
                [dev.bar1Selector := Segment(host.linearFor(dfb, VOODOO3_APERTURE_SIZE), VOODOO3_APERTURE_SIZE - 1)]
      ensures dev.vramAmount == Voodoo3VramSize(IoWord(host.ports, ioBasePort, VOODOO3_IO_LFBMEMORYCONFIG))
      ensures dev.straps == IoWord(host.ports, ioBasePort, VOODOO3_IO_MISCINIT1)
      ensures host.portLog == old(host.portLog) + IoWordReads(ioBasePort, VOODOO3_IO_LFBMEMORYCONFIG)
                                + IoWordReads(ioBasePort, VOODOO3_IO_MISCINIT1)
      ensures originalPciCommand == Load16(old(host.cfg), PCI_CFG_OFFSET_COMMAND)
      ensures host.cfg == Voodoo3InitConfig(old(host.cfg))
    {
      ioBasePort := base;
      dev.bar1DfbStart := dfb;
      dev.raminStart := texture;
      var selector := MapApertures(host, dfb, texture);
      dev.bar1Selector := selector;
      ReadMemoryConfig(dev, host);
      SaveAndEnableCommand(host);
    }

    method Init(dev: Device, host: Host) returns (ok: bool)
      requires host.Valid()
      modifies this, dev`bar1Selector, dev`bar1DfbStart, dev`raminStart, dev`vramAmount, dev`straps
      modifies host`cfg, host`selectors, host`nextSelector, host`mappings, host`portLog
      ensures host.Valid()
      ensures ok <==> IsIoBar(Load32(old(host.cfg), PCI_CFG_OFFSET_BAR2))
      ensures !ok ==> unchanged(this, dev, host)
      ensures ok ==> ioBasePort == IoBase(Load32(old(host.cfg), PCI_CFG_OFFSET_BAR2))
      ensures ok ==> dev.bar1DfbStart == MemoryBarBase(Load32(old(host.cfg), PCI_CFG_OFFSET_BAR0))
      ensures ok ==> dev.raminStart == MemoryBarBase(Load32(old(host.cfg), PCI_CFG_OFFSET_BAR1))
      ensures ok ==> host.mappings == old(host.mappings) + [
                Mapping(dev.bar1DfbStart, VOODOO3_APERTURE_SIZE, host.linearFor(dev.bar1DfbStart, VOODOO3_APERTURE_SIZE)),
                Mapping(dev.raminStart, VOODOO3_APERTURE_SIZE, host.linearFor(dev.raminStart, VOODOO3_APERTURE_SIZE))]
      ensures ok ==> dev.bar1Selector !in old(host.selectors)
      ensures ok ==> host.selectors == old(host.selectors)
                [dev.bar1Selector := Segment(host.linearFor(dev.bar1DfbStart, VOODOO3_APERTURE_SIZE), VOODOO3_APERTURE_SIZE - 1)]
      ensures ok ==> dev.vramAmount == Voodoo3VramSize(IoWord(host.ports, ioBasePort, VOODOO3_IO_LFBMEMORYCONFIG))
      ensures ok ==> dev.straps == IoWord(host.ports, ioBasePort, VOODOO3_IO_MISCINIT1)
      ensures ok ==> host.portLog == old(host.portLog) + IoWordReads(ioBasePort, VOODOO3_IO_LFBMEMORYCONFIG)
                                      + IoWordReads(ioBasePort, VOODOO3_IO_MISCINIT1)
      ensures ok ==> originalPciCommand == Load16(old(host.cfg), PCI_CFG_OFFSET_COMMAND)
      ensures ok ==> host.cfg == Voodoo3InitConfig(old(host.cfg))
    {
      var dfb := MemoryBarBase(host.ReadConfig32(PCI_CFG_OFFSET_BAR0));
      var texture := MemoryBarBase(host.ReadConfig32(PCI_CFG_OFFSET_BAR1));
      var bar2 := host.ReadConfig32(PCI_CFG_OFFSET_BAR2);
      if !IsIoBar(bar2) {
        return false;
      }
      Attach(dev, host, dfb, texture, IoBase(bar2));
      ok := true;
    }

    method Shutdown(host: Host)
      modifies host`cfg
      ensures host.cfg == Voodoo3ShutdownConfig(old(host.cfg), originalPciCommand)
    {
      if originalPciCommand != 0 {
        host.WriteConfig16(PCI_CFG_OFFSET_COMMAND, originalPciCommand);
      }
    }

    /**
     * A successful init followed by shutdown: the command register ends at
     * its original value when that was nonzero and at 0x7 when it was zero.
     */
    method InitThenShutdown(dev: Device, host: Host) returns (ok: bool)
      requires host.Valid()
      modifies this, dev`bar1Selector, dev`bar1DfbStart, dev`raminStart, dev`vramAmount, dev`straps
      modifies host`cfg, host`selectors, host`nextSelector, host`mappings, host`portLog
      ensures ok ==> Load16(host.cfg, PCI_CFG_OFFSET_COMMAND) ==
                       var command := Load16(old(host.cfg), PCI_CFG_OFFSET_COMMAND);
                       if command != 0 then command else VOODOO3_COMMAND_ENABLES
    {
      ok := Init(dev, host);
      Shutdown(host);
      if ok {
        Voodoo3InitShutdown(old(host.cfg));
      }
    }

    method DumpMfgInfo(dev: Device, host: Host) returns (ok: bool, info: Voodoo3MfgInfo)
      modifies host`portLog
      ensures ok
      ensures info == Voodoo3MfgInfo(
                Load16(host.cfg, PCI_CFG_OFFSET_VENDOR_ID), Load16(host.cfg, PCI_CFG_OFFSET_DEVICE_ID),
                Load8(host.cfg, PCI_CFG_OFFSET_REVISION), IoWord(host.ports, ioBasePort, VOODOO3_IO_LFBMEMORYCONFIG),
                dev.vramAmount / MiB,
                IoWord(host.ports, ioBasePort, VOODOO3_IO_MISCINIT0), IoWord(host.ports, ioBasePort, VOODOO3_IO_MISCINIT1),
                IoWord(host.ports, ioBasePort, VOODOO3_IO_DRAMINIT0), IoWord(host.ports, ioBasePort, VOODOO3_IO_DRAMINIT1),
                IoWord(host.ports, ioBasePort, VOODOO3_IO_STATUS))
      ensures host.portLog == old(host.portLog)
                + IoWordReads(ioBasePort, VOODOO3_IO_LFBMEMORYCONFIG) + IoWordReads(ioBasePort, VOODOO3_IO_MISCINIT0)
                + IoWordReads(ioBasePort, VOODOO3_IO_MISCINIT1) + IoWordReads(ioBasePort, VOODOO3_IO_DRAMINIT0)
                + IoWordReads(ioBasePort, VOODOO3_IO_DRAMINIT1) + IoWordReads(ioBasePort, VOODOO3_IO_STATUS)
    {
      var vendorId := host.ReadConfig16(PCI_CFG_OFFSET_VENDOR_ID);
      var deviceId := host.ReadConfig16(PCI_CFG_OFFSET_DEVICE_ID);
      var revisionId := host.ReadConfig8(PCI_CFG_OFFSET_REVISION);
      var lfbMemoryConfig := IoRead32(host, VOODOO3_IO_LFBMEMORYCONFIG);
      var miscInit0 := IoRead32(host, VOODOO3_IO_MISCINIT0);
      var miscInit1 := IoRead32(host, VOODOO3_IO_MISCINIT1);
      var dramInit0 := IoRead32(host, VOODOO3_IO_DRAMINIT0);
      var dramInit1 := IoRead32(host, VOODOO3_IO_DRAMINIT1);
      var status := IoRead32(host, VOODOO3_IO_STATUS);
      info := Voodoo3MfgInfo(vendorId, deviceId, revisionId, lfbMemoryConfig, dev.vramAmount / MiB,
                             miscInit0, miscInit1, dramInit0, dramInit1, status);
      ok := true;
    }

    /**
     * Reads the first 0x1000 bytes of the I/O window word by word into a
     * buffer. Without a base port nothing is read; whether the dump file
     * opens and the buffer is allocated are parameters.
     */
    method DumpMmio(host: Host, fileOpens: bool, bufferAllocated: bool) returns (ok: bool, buffer: array<bv32>)
      modifies host`portLog
      ensures ok <==> ioBasePort != 0 && fileOpens && bufferAllocated
      ensures !ok ==> host.portLog == old(host.portLog)
      ensures ok ==> buffer.Length == VOODOO3_IO_DUMP_WORDS
      ensures ok ==> forall i | 0 <= i < buffer.Length :: buffer[i] == IoWord(host.ports, ioBasePort, 4 * i)
      ensures ok ==> host.portLog == old(host.portLog) + DumpReads(ioBasePort, VOODOO3_IO_DUMP_WORDS)
    {
      if ioBasePort == 0 || !fileOpens || !bufferAllocated {
        return false, new bv32[0];
      }
      buffer := new bv32[VOODOO3_IO_DUMP_WORDS];
      var offset := 0;
      ghost var n := 0;
      while offset < VOODOO3_IO_DUMP_SIZE
        invariant 0 <= n <= VOODOO3_IO_DUMP_WORDS && offset == 4 * n
        invariant forall i | 0 <= i < n :: buffer[i] == IoWord(host.ports, ioBasePort, 4 * i)
        invariant host.portLog == old(host.portLog) + DumpReads(ioBasePort, n)
        decreases VOODOO3_IO_DUMP_SIZE - offset
      {
        var word := IoRead32(host, offset);
        assert offset / 4 == n;
        buffer[offset / 4] := word;
        offset, n := offset + 4, n + 1;
      }
      ok := true;
    }
  }
}
