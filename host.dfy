/**
 * The machine underneath the tool: the PCI BIOS configuration accessors, the
 * generic register (mmio_*) and frame-buffer (nv_dfb_*) window accessors, the
 * x86 I/O ports and the DPMI services the drivers call.
 *
 * None of these is implemented in the modelled files; their behaviour here is
 * the plain memory-like one: a configuration read returns what is in the bound
 * function's configuration space, a window write stores little-endian bytes,
 * a port read returns the current port byte(s) and every port access is
 * appended to a log, so that the order of accesses is observable.
 */
module HostMachine {
  import opened Bits

  /** One access on the I/O bus, byte- or word-wide. */
  datatype PortOp =
    | InB(port: int)
    | InW(port: int)
    | OutB(port: int, byteValue: bv8)
    | OutW(port: int, wordValue: bv16)

  /** An LDT descriptor: segment base (linear address) and limit. */
  datatype Segment = Segment(base: int, limit: int)

  /** One DPMI physical address mapping request and the linear address it produced. */
  datatype Mapping = Mapping(physical: bv32, size: int, linear: int)

  const PortSpace: int := 0x1_0000

  /** The 16-bit port address of base + offset, as uint16_t arithmetic computes it. */
  function PortAt(base: int, offset: int): (p: int)
    ensures 0 <= p < PortSpace
  {
    (base + offset) % PortSpace
  }

  function PortRead16(ports: Mem, port: int): bv16
  {
    ((Byte(ports, PortAt(port, 1)) as bv16) << 8) | (Byte(ports, port) as bv16)
  }

  function PortWrite16(ports: Mem, port: int, v: bv16): Mem
  {
    ports[port := (v & 0xFF) as bv8][PortAt(port, 1) := (v >> 8) as bv8]
  }

  /** Writing a word to a port and reading it back yields the word. */
  lemma PortReadWrite16(ports: Mem, port: int, v: bv16)
    requires 0 <= port < PortSpace
    ensures PortRead16(PortWrite16(ports, port, v), port) == v
  {
    var s := PortWrite16(ports, port, v);
    assert PortAt(port, 1) != port;
    assert Byte(s, port) == (v & 0xFF) as bv8;
    assert Byte(s, PortAt(port, 1)) == (v >> 8) as bv8;
    Bytes16(Byte(s, port), Byte(s, PortAt(port, 1)), v);
  }

  lemma PortAtWraps(base: int, k: int)
    requires 0 <= base < PortSpace && 0 <= k < PortSpace
    ensures PortAt(base, k) == if base + k < PortSpace then base + k else base + k - PortSpace
  {
  }

  lemma PortsApart(port: int, q: int)
    requires 0 <= port < PortSpace && 0 <= q < PortSpace
    requires q == PortAt(port, 2) || port == PortAt(q, 2)
    ensures q != port && q != PortAt(port, 1)
    ensures PortAt(q, 1) != port && PortAt(q, 1) != PortAt(port, 1)
  {
    PortAtWraps(port, 1);
    PortAtWraps(port, 2);
    PortAtWraps(q, 1);
    PortAtWraps(q, 2);
  }

  lemma PortRead16Bytes(ports: Mem, other: Mem, q: int)
    requires Byte(ports, q) == Byte(other, q)
    requires Byte(ports, PortAt(q, 1)) == Byte(other, PortAt(q, 1))
    ensures PortRead16(ports, q) == PortRead16(other, q)
  {
  }

  /** A word write leaves a word two ports away (modulo the port space) unchanged. */
  lemma PortWrite16Disjoint(ports: Mem, port: int, q: int, v: bv16)
    requires 0 <= port < PortSpace && 0 <= q < PortSpace
    requires q == PortAt(port, 2) || port == PortAt(q, 2)
    ensures PortRead16(PortWrite16(ports, port, v), q) == PortRead16(ports, q)
  {
    PortsApart(port, q);
    PortRead16Bytes(PortWrite16(ports, port, v), ports, q);
  }

  class Host {
    /** Configuration space of the bound PCI function. */
    var cfg: Mem
    /** The register window (BAR0 on the Rage 128). */
    var mmio: Mem
    /** The frame-buffer window. */
    var vram: Mem
    /** The I/O port space. */
    var ports: Mem
    var portLog: seq<PortOp>
    /** Allocated LDT descriptors. */
    var selectors: map<int, Segment>
    var nextSelector: int
    var mappings: seq<Mapping>
    /** The linear address DPMI assigns to a physical range. */
    const linearFor: (bv32, int) -> int

    ghost predicate Valid()
      reads this
    {
      forall s | s in selectors :: s < nextSelector
    }

    constructor (cfg: Mem, mmio: Mem, vram: Mem, ports: Mem, linearFor: (bv32, int) -> int)
      ensures Valid()
      ensures this.cfg == cfg && this.mmio == mmio && this.vram == vram && this.ports == ports
      ensures this.linearFor == linearFor
      ensures portLog == [] && selectors == map[] && mappings == []
    {
      this.cfg, this.mmio, this.vram, this.ports := cfg, mmio, vram, ports;
      this.linearFor := linearFor;
      portLog, selectors, nextSelector, mappings := [], map[], 1, [];
    }

    // PCI BIOS configuration access

    function ReadConfig8(offset: int): bv8
      reads this
    {
      Load8(cfg, offset)
    }

    function ReadConfig16(offset: int): bv16
      reads this
    {
      Load16(cfg, offset)
    }

    function ReadConfig32(offset: int): bv32
      reads this
    {
      Load32(cfg, offset)
    }

    method WriteConfig16(offset: int, value: bv16)
      modifies this`cfg
      ensures cfg == Store16(old(cfg), offset, value)
    {
      cfg := Store16(cfg, offset, value);
    }

    // Register and frame-buffer windows

    function MmioRead32(offset: int): bv32
      reads this
    {
      Load32(mmio, offset)
    }

    method MmioWrite8(offset: int, value: bv8)
      modifies this`mmio
      ensures mmio == Store8(old(mmio), offset, value)
    {
      mmio := Store8(mmio, offset, value);
    }

    method MmioWrite32(offset: int, value: bv32)
      modifies this`mmio
      ensures mmio == Store32(old(mmio), offset, value)
    {
      mmio := Store32(mmio, offset, value);
    }

    function DfbRead8(offset: int): bv8
      reads this
    {
      Load8(vram, offset)
    }

    function DfbRead16(offset: int): bv16
      reads this
    {
      Load16(vram, offset)
    }

    function DfbRead32(offset: int): bv32
      reads this
    {
      Load32(vram, offset)
    }

    method DfbWrite8(offset: int, value: bv8)
      modifies this`vram
      ensures vram == Store8(old(vram), offset, value)
    {
      vram := Store8(vram, offset, value);
    }

    method DfbWrite16(offset: int, value: bv16)
      modifies this`vram
      ensures vram == Store16(old(vram), offset, value)
    {
      vram := Store16(vram, offset, value);
    }

    method DfbWrite32(offset: int, value: bv32)
      modifies this`vram
      ensures vram == Store32(old(vram), offset, value)
    {
      vram := Store32(vram, offset, value);
    }

    // I/O ports

    method InPortB(port: int) returns (v: bv8)
      requires 0 <= port < PortSpace
      modifies this`portLog
      ensures v == Byte(ports, port)
      ensures portLog == old(portLog) + [InB(port)]
    {
      v := Byte(ports, port);
      portLog := portLog + [InB(port)];
    }

    method InPortW(port: int) returns (v: bv16)
      requires 0 <= port < PortSpace
      modifies this`portLog
      ensures v == PortRead16(ports, port)
      ensures portLog == old(portLog) + [InW(port)]
    {
      v := PortRead16(ports, port);
      portLog := portLog + [InW(port)];
    }

    method OutPortB(port: int, v: bv8)
      requires 0 <= port < PortSpace
      modifies this`ports, this`portLog
      ensures ports == old(ports)[port := v]
      ensures portLog == old(portLog) + [OutB(port, v)]
    {
      ports := ports[port := v];
      portLog := portLog + [OutB(port, v)];
    }

    method OutPortW(port: int, v: bv16)
      requires 0 <= port < PortSpace
      modifies this`ports, this`portLog
      ensures ports == PortWrite16(old(ports), port, v)
      ensures portLog == old(portLog) + [OutW(port, v)]
    {
      ports := PortWrite16(ports, port, v);
      portLog := portLog + [OutW(port, v)];
    }

    // DPMI

    method PhysicalAddressMapping(physical: bv32, size: int) returns (linear: int)
      modifies this`mappings
      ensures linear == linearFor(physical, size)
      ensures mappings == old(mappings) + [Mapping(physical, size, linear)]
    {
      linear := linearFor(physical, size);
      mappings := mappings + [Mapping(physical, size, linear)];
    }

    /** Allocates one fresh descriptor (base 0, limit 0). */
    method AllocateLdtDescriptor() returns (selector: int)
      requires Valid()
      modifies this`selectors, this`nextSelector
      ensures Valid()
      ensures selector !in old(selectors)
      ensures selectors == old(selectors)[selector := Segment(0, 0)]
    {
      selector := nextSelector;
      selectors := selectors[selector := Segment(0, 0)];
      nextSelector := nextSelector + 1;
    }

    method SetSegmentBaseAddress(selector: int, base: int)
      requires Valid() && selector in selectors
      modifies this`selectors
      ensures Valid()
      ensures selectors == old(selectors)[selector := old(selectors)[selector].(base := base)]
    {
      selectors := selectors[selector := selectors[selector].(base := base)];
    }

    method SetSegmentLimit(selector: int, limit: int)
      requires Valid() && selector in selectors
      modifies this`selectors
      ensures Valid()
      ensures selectors == old(selectors)[selector := old(selectors)[selector].(limit := limit)]
    {
      selectors := selectors[selector := selectors[selector].(limit := limit)];
    }
  }

  /**
   * The sequence both drivers use to reach a mapped window: allocate one
   * descriptor, set its base to the window's linear address, set its limit.
   */
  method BindSegment(host: Host, base: int, limit: int) returns (selector: int)
    requires host.Valid()
    modifies host`selectors, host`nextSelector
    ensures host.Valid()
    ensures selector !in old(host.selectors)
    ensures host.selectors == old(host.selectors)[selector := Segment(base, limit)]
  {
    selector := host.AllocateLdtDescriptor();
    host.SetSegmentBaseAddress(selector, base);
    host.SetSegmentLimit(selector, limit);
  }
}
