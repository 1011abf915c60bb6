/**
 * The GPUScript command handlers and the verb table.
 *
 * A handler reads its arguments through Command_Argv, parses each with
 * strtol in base 16, and writes or reads the register window (mmio_*) or the
 * frame-buffer window (nv_dfb_*). args is the tokenised command line, the verb
 * at index 0; an index past its end reads as the empty string, which parses
 * to 0.
 */
module ScriptCommands {
  import opened Bits
  import opened GpuPlay
  import opened HostMachine
  import opened HexArgs
  import opened Tests

  /** Command_Argv(i): token i of the line, or the empty string past its end. */
  function Argv(args: seq<string>, i: nat): (a: string)
    ensures a in args || a == ""
  {
    if i < |args| then args[i] else ""
  }

  /** Argument i as a uint32_t offset. */
  function Arg(args: seq<string>, i: nat): (v: int)
    ensures 0 <= v < U32
  {
    ParseArgument(Argv(args, i))
  }

  /** Argument i as a uint32_t value. */
  function Word(args: seq<string>, i: nat): bv32
  {
    ArgumentWord(Argv(args, i))
  }

  /** The severity a message is logged at: log_level_debug to log_level_error. */
  datatype Level = Debug | Message | Warning | Error

  /**
   * What a handler logs: nothing, an offset and the value read there (at
   * message level), the texts of two arguments with the values parsed from
   * them (at debug level), a text at a level, or the sign-on banner.
   */
  datatype Display =
    | Silent
    | Shows(offset: int, value: bv32)
    | Traces(offsetText: string, offset: int, valueText: string, value: bv32)
    | Says(level: Level, text: string)
    | SignOn

  /** The warnings of the RAMIN and CRTC handlers, which these cards do not have. */
  const RaminUnavailable := "RAMIN functions not available for this GPU architecture\n"
  const CrtcUnavailable := "CRTC functions not available for this GPU architecture\n"

  /** The message Command_RunTest logs when no loaded test has the name. */
  function InvalidTest(name: string): string
  {
    "Tried to run invalid test " + name + "!"
  }

  // ---------------------------------------------------------------------
  // Register window

  method WriteMmio8(host: Host, args: seq<string>) returns (ok: bool)
    modifies host`mmio
    ensures host.mmio == StoreW(old(host.mmio), Arg(args, 1), W8, Word(args, 2))
    ensures ok
  {
    var offset := Arg(args, 1);
    var value := Word(args, 2);
    host.MmioWrite8(offset, Low8(value));
    return true;
  }

  method WriteMmioRange8(host: Host, args: seq<string>) returns (ok: bool)
    modifies host`mmio
    ensures host.mmio == Fill(old(host.mmio), Arg(args, 1), Arg(args, 2), W8, Word(args, 3))
    ensures ok
  {
    var offsetStart := Arg(args, 1);
    var offsetEnd := Arg(args, 2);
    var value := Word(args, 3);
    FillMmio8(host, offsetStart, offsetEnd, value);
    return true;
  }

  /** The loop of WriteMmioRange8: one write per block from offsetStart below offsetEnd. */
  method FillMmio8(host: Host, offsetStart: int, offsetEnd: int, value: bv32)
    modifies host`mmio
    ensures host.mmio == Fill(old(host.mmio), offsetStart, offsetEnd, W8, value)
  {
    var offset := offsetStart;
    while offset < offsetEnd
      invariant Fill(host.mmio, offset, offsetEnd, W8, value)
             == Fill(old(host.mmio), offsetStart, offsetEnd, W8, value)
      decreases offsetEnd - offset
    {
      host.MmioWrite8(offset, Low8(value));
      offset := offset + 1;
    }
  }

  /** Shows the offset and the parsed second argument; the register window is not read. */
  method ReadMmioConsole8(args: seq<string>) returns (ok: bool, shown: Display)
    ensures shown == Shows(Arg(args, 1), Word(args, 2))
    ensures ok
  {
    var offset := Arg(args, 1);
    var value := Word(args, 2);
    return true, Shows(offset, value);
  }

  /** Traces both arguments as typed and as parsed, then stores the word. */
  method WriteMmio32(host: Host, args: seq<string>) returns (ok: bool, shown: Display)
    modifies host`mmio
    ensures host.mmio == StoreW(old(host.mmio), Arg(args, 1), W32, Word(args, 2))
    ensures shown == Traces(Argv(args, 1), Arg(args, 1), Argv(args, 2), Word(args, 2))
    ensures ok
  {
    var offset := Arg(args, 1);
    var value := Word(args, 2);
    shown := Traces(Argv(args, 1), offset, Argv(args, 2), value);
    host.MmioWrite32(offset, value);
    return true, shown;
  }

  method ReadMmioConsole32(host: Host, args: seq<string>) returns (ok: bool, shown: Display)
    ensures shown == Shows(Arg(args, 1), LoadW(host.mmio, Arg(args, 1), W32))
    ensures ok
  {
    var offset := Arg(args, 1);
    var value := host.MmioRead32(offset);
    return true, Shows(offset, value);
  }

  /**
   * The offset here is unbounded, where the source's is a uint32_t that
   * wraps; SourceLoopNeverExits shows the difference.
   */
  method WriteMmioRange32(host: Host, args: seq<string>) returns (ok: bool)
    modifies host`mmio
    ensures host.mmio == Fill(old(host.mmio), Arg(args, 1), Arg(args, 2), W32, Word(args, 3))
    ensures ok
  {
    var offsetStart := Arg(args, 1);
    var offsetEnd := Arg(args, 2);
    var value := Word(args, 3);
    FillMmio32(host, offsetStart, offsetEnd, value);
    return true;
  }

  /** The loop of WriteMmioRange32: one write per block from offsetStart below offsetEnd. */
  method FillMmio32(host: Host, offsetStart: int, offsetEnd: int, value: bv32)
    modifies host`mmio
    ensures host.mmio == Fill(old(host.mmio), offsetStart, offsetEnd, W32, value)
  {
    var offset := offsetStart;
    while offset < offsetEnd
      invariant Fill(host.mmio, offset, offsetEnd, W32, value)
             == Fill(old(host.mmio), offsetStart, offsetEnd, W32, value)
      decreases offsetEnd - offset
    {
      host.MmioWrite32(offset, value);
      offset := offset + 4;
    }
  }

  // ---------------------------------------------------------------------
  // Frame-buffer window

  method WriteVram8(host: Host, args: seq<string>) returns (ok: bool)
    modifies host`vram
    ensures host.vram == StoreW(old(host.vram), Arg(args, 1), W8, Word(args, 2))
    ensures ok
  {
    var offset := Arg(args, 1);
    var value := Word(args, 2);
    host.DfbWrite8(offset, Low8(value));
    return true;
  }

  method WriteVramRange8(host: Host, args: seq<string>) returns (ok: bool)
    modifies host`vram
    ensures host.vram == Fill(old(host.vram), Arg(args, 1), Arg(args, 2), W8, Word(args, 3))
    ensures ok
  {
    var offsetStart := Arg(args, 1);
    var offsetEnd := Arg(args, 2);
    var value := Word(args, 3);
    FillVram8(host, offsetStart, offsetEnd, value);
    return true;
  }

  /** The loop of WriteVramRange8: one write per block from offsetStart below offsetEnd. */
  method FillVram8(host: Host, offsetStart: int, offsetEnd: int, value: bv32)
    modifies host`vram
    ensures host.vram == Fill(old(host.vram), offsetStart, offsetEnd, W8, value)
  {
    var offset := offsetStart;
    while offset < offsetEnd
      invariant Fill(host.vram, offset, offsetEnd, W8, value)
             == Fill(old(host.vram), offsetStart, offsetEnd, W8, value)
      decreases offsetEnd - offset
    {
      host.DfbWrite8(offset, Low8(value));
      offset := offset + 1;
    }
  }

  method ReadVramConsole8(host: Host, args: seq<string>) returns (ok: bool, shown: Display)
    ensures shown == Shows(Arg(args, 1), LoadW(host.vram, Arg(args, 1), W8))
    ensures ok
  {
    var offset := Arg(args, 1);
    var value := host.DfbRead8(offset);
    return true, Shows(offset, value as bv32);
  }

  method WriteVram16(host: Host, args: seq<string>) returns (ok: bool)
    modifies host`vram
    ensures host.vram == StoreW(old(host.vram), Arg(args, 1), W16, Word(args, 2))
    ensures ok
  {
    var offset := Arg(args, 1);
    var value := Word(args, 2);
    host.DfbWrite16(offset, Low16(value));
    return true;
  }

  /** Unbounded offset, as in WriteMmioRange32. */
  method WriteVramRange16(host: Host, args: seq<string>) returns (ok: bool)
    modifies host`vram
    ensures host.vram == Fill(old(host.vram), Arg(args, 1), Arg(args, 2), W16, Word(args, 3))
    ensures ok
  {
    var offsetStart := Arg(args, 1);
    var offsetEnd := Arg(args, 2);
    var value := Word(args, 3);
    FillVram16(host, offsetStart, offsetEnd, value);
    return true;
  }

  /** The loop of WriteVramRange16: one write per block from offsetStart below offsetEnd. */
  method FillVram16(host: Host, offsetStart: int, offsetEnd: int, value: bv32)
    modifies host`vram
    ensures host.vram == Fill(old(host.vram), offsetStart, offsetEnd, W16, value)
  {
    var offset := offsetStart;
    while offset < offsetEnd
      invariant Fill(host.vram, offset, offsetEnd, W16, value)
             == Fill(old(host.vram), offsetStart, offsetEnd, W16, value)
      decreases offsetEnd - offset
    {
      host.DfbWrite16(offset, Low16(value));
      offset := offset + 2;
    }
  }

  method ReadVramConsole16(host: Host, args: seq<string>) returns (ok: bool, shown: Display)
    ensures shown == Shows(Arg(args, 1), LoadW(host.vram, Arg(args, 1), W16))
    ensures ok
  {
    var offset := Arg(args, 1);
    var value := host.DfbRead16(offset);
    return true, Shows(offset, value as bv32);
  }

  method WriteVram32(host: Host, args: seq<string>) returns (ok: bool)
    modifies host`vram
    ensures host.vram == StoreW(old(host.vram), Arg(args, 1), W32, Word(args, 2))
    ensures ok
  {
    var offset := Arg(args, 1);
    var value := Word(args, 2);
    host.DfbWrite32(offset, value);
    return true;
  }

  /** Unbounded offset, as in WriteMmioRange32. */
  method WriteVramRange32(host: Host, args: seq<string>) returns (ok: bool)
    modifies host`vram
    ensures host.vram == Fill(old(host.vram), Arg(args, 1), Arg(args, 2), W32, Word(args, 3))
    ensures ok
  {
    var offsetStart := Arg(args, 1);
    var offsetEnd := Arg(args, 2);
    var value := Word(args, 3);
    FillVram32(host, offsetStart, offsetEnd, value);
    return true;
  }

  /** The loop of WriteVramRange32: one write per block from offsetStart below offsetEnd. */
  method FillVram32(host: Host, offsetStart: int, offsetEnd: int, value: bv32)
    modifies host`vram
    ensures host.vram == Fill(old(host.vram), offsetStart, offsetEnd, W32, value)
  {
    var offset := offsetStart;
    while offset < offsetEnd
      invariant Fill(host.vram, offset, offsetEnd, W32, value)
             == Fill(old(host.vram), offsetStart, offsetEnd, W32, value)
      decreases offsetEnd - offset
    {
      host.DfbWrite32(offset, value);
      offset := offset + 4;
    }
  }

  method ReadVramConsole32(host: Host, args: seq<string>) returns (ok: bool, shown: Display)
    ensures shown == Shows(Arg(args, 1), LoadW(host.vram, Arg(args, 1), W32))
    ensures ok
  {
    var offset := Arg(args, 1);
    var value := host.DfbRead32(offset);
    return true, Shows(offset, value);
  }

  // ---------------------------------------------------------------------
  // Handlers these cards do not support: each warns and fails.

  method WriteRamin32() returns (ok: bool, shown: Display)
    ensures !ok && shown == Says(Warning, RaminUnavailable)
  {
    return false, Says(Warning, RaminUnavailable);
  }

  method WriteRaminRange32() returns (ok: bool, shown: Display)
    ensures !ok && shown == Says(Warning, RaminUnavailable)
  {
    return false, Says(Warning, RaminUnavailable);
  }

  method ReadRaminConsole32() returns (ok: bool, shown: Display)
    ensures !ok && shown == Says(Warning, RaminUnavailable)
  {
    return false, Says(Warning, RaminUnavailable);
  }

  method ReadCrtcConsole() returns (ok: bool, shown: Display)
    ensures !ok && shown == Says(Warning, CrtcUnavailable)
  {
    return false, Says(Warning, CrtcUnavailable);
  }

  method WriteCrtc() returns (ok: bool, shown: Display)
    ensures !ok && shown == Says(Warning, CrtcUnavailable)
  {
    return false, Says(Warning, CrtcUnavailable);
  }

  // ---------------------------------------------------------------------
  // Tests and messages

  /**
   * Runs the loaded test named by argument 1 and returns its handler's
   * result, or false, with a message, when no loaded test has that name.
   * Unlike Tests.Run it does not check for a NULL handler: invoke(NullTest)
   * stands for calling it.
   */
  method RunTest(tests: TestList, args: seq<string>, invoke: TestFunction -> bool)
    returns (ok: bool, shown: Display)
    requires tests.Valid()
    ensures var k := FindTest(tests.Contents(), Argv(args, 1));
            ok == (k.Some? && invoke(tests.Contents()[k.value].testFunction))
    ensures var k := FindTest(tests.Contents(), Argv(args, 1));
            shown == if k.Some? then Silent else Says(Message, InvalidTest(Argv(args, 1)))
  {
    var testName := Argv(args, 1);
    var test := Get(tests, testName);
    if test != null {
      ok := invoke(test.testFunction);
      return ok, Silent;
    }
    return false, Says(Message, InvalidTest(testName));
  }

  method Print(args: seq<string>) returns (ok: bool, shown: Display)
    ensures shown == Says(Message, Argv(args, 1)) && ok
  {
    return true, Says(Message, Argv(args, 1));
  }

  method PrintDebug(args: seq<string>) returns (ok: bool, shown: Display)
    ensures shown == Says(Debug, Argv(args, 1)) && ok
  {
    return true, Says(Debug, Argv(args, 1));
  }

  method PrintWarning(args: seq<string>) returns (ok: bool, shown: Display)
    ensures shown == Says(Warning, Argv(args, 1)) && ok
  {
    return true, Says(Warning, Argv(args, 1));
  }

  method PrintError(args: seq<string>) returns (ok: bool, shown: Display)
    ensures shown == Says(Error, Argv(args, 1)) && ok
  {
    return true, Says(Error, Argv(args, 1));
  }

  method PrintVersion() returns (ok: bool, shown: Display)
    ensures shown == SignOn && ok
  {
    return true, SignOn;
  }

  // ---------------------------------------------------------------------
  // The verb table

  /** The handlers a verb can be bound to. */
  datatype CommandFunction =
    | CommandWriteMmio8 | CommandReadMmioConsole8 | CommandWriteMmioRange8
    | CommandWriteMmio32 | CommandWriteMmioRange32 | CommandReadMmioConsole32
    | CommandWriteVram8 | CommandReadVramConsole8 | CommandWriteVramRange8
    | CommandWriteVram16 | CommandReadVramConsole16 | CommandWriteVramRange16
    | CommandWriteVram32 | CommandReadVramConsole32 | CommandWriteVramRange32
    | CommandWriteRamin32 | CommandReadRaminConsole32 | CommandWriteRaminRange32
    | CommandReadCrtcConsole | CommandWriteCrtc | CommandRunTest
    | CommandPrint | CommandPrintDebug | CommandPrintWarning | CommandPrintError
    | CommandPrintVersion

  datatype CommandEntry =
    | Command(nameAbbrev: string, nameFull: string, handler: CommandFunction, numParameters: nat)
    | EndOfCommands

  const Commands: seq<CommandEntry> := [
    Command("wm8", "writemmio8", CommandWriteMmio8, 2),
    Command("rmc8", "readmmioconsole8", CommandReadMmioConsole8, 3),
    Command("wmrange8", "writemmiorange8", CommandWriteMmioRange8, 2),
    Command("wm32", "writemmio32", CommandWriteMmio32, 2),
    Command("wmrange32", "writemmiorange32", CommandWriteMmioRange32, 3),
    Command("rmc32", "readmmioconsole32", CommandReadMmioConsole32, 1),
    Command("wv8", "writevram8", CommandWriteVram8, 2),
    Command("rvc8", "readvramconsole8", CommandReadVramConsole8, 1),
    Command("wvrange8", "writevramrange8", CommandWriteVramRange8, 3),
    Command("wv16", "writevram16", CommandWriteVram16, 2),
    Command("rvc16", "readvramconsole16", CommandReadVramConsole16, 1),
    Command("wvrange16", "writevramrange16", CommandWriteVramRange16, 3),
    Command("wv32", "writevram32", CommandWriteVram32, 2),
    Command("rvc32", "readmmioconsole32", CommandReadVramConsole32, 1),
    Command("wvrange32", "writevramrange32", CommandWriteMmioRange32, 3),
    Command("wr32", "writeramin32", CommandWriteRamin32, 2),
    Command("rrc32", "readraminconsole32", CommandReadRaminConsole32, 0),
    Command("wrrange32", "writeraminrange32", CommandWriteRaminRange32, 3),
    Command("rcrtcc", "readcrtcconsole", CommandReadCrtcConsole, 1),
    Command("wcrtc", "writecrtc", CommandWriteCrtc, 2),
    Command("rt", "runtest", CommandRunTest, 1),
    Command("print", "printmessage", CommandPrint, 1),
    Command("printdebug", "printdebug", CommandPrintDebug, 1),
    Command("printwarning", "printwarning", CommandPrintWarning, 1),
    Command("printerror", "printerror", CommandPrintError, 1),
    Command("printversion", "printversion", CommandPrintVersion, 0),
    EndOfCommands
  ]

  /** The result of a handler: both windows after it, its return value and what it shows. */
  datatype Outcome = Outcome(mmio: Mem, vram: Mem, ok: bool, shown: Display)

  /** What calling the handler f does, over the windows mmio and vram and the loaded tests. */
  function Effect(f: CommandFunction, mmio: Mem, vram: Mem, args: seq<string>,
                  tests: seq<TestEntry>, invoke: TestFunction -> bool): Outcome
  {
    match f
    case CommandWriteMmio8 => Outcome(StoreW(mmio, Arg(args, 1), W8, Word(args, 2)), vram, true, Silent)
    case CommandReadMmioConsole8 => Outcome(mmio, vram, true, Shows(Arg(args, 1), Word(args, 2)))
    case CommandWriteMmioRange8 =>
      Outcome(Fill(mmio, Arg(args, 1), Arg(args, 2), W8, Word(args, 3)), vram, true, Silent)
    case CommandWriteMmio32 =>
      Outcome(StoreW(mmio, Arg(args, 1), W32, Word(args, 2)), vram, true,
              Traces(Argv(args, 1), Arg(args, 1), Argv(args, 2), Word(args, 2)))
    case CommandWriteMmioRange32 =>
      Outcome(Fill(mmio, Arg(args, 1), Arg(args, 2), W32, Word(args, 3)), vram, true, Silent)
    case CommandReadMmioConsole32 =>
      Outcome(mmio, vram, true, Shows(Arg(args, 1), LoadW(mmio, Arg(args, 1), W32)))
    case CommandWriteVram8 => Outcome(mmio, StoreW(vram, Arg(args, 1), W8, Word(args, 2)), true, Silent)
    case CommandReadVramConsole8 =>
      Outcome(mmio, vram, true, Shows(Arg(args, 1), LoadW(vram, Arg(args, 1), W8)))
    case CommandWriteVramRange8 =>
      Outcome(mmio, Fill(vram, Arg(args, 1), Arg(args, 2), W8, Word(args, 3)), true, Silent)
    case CommandWriteVram16 => Outcome(mmio, StoreW(vram, Arg(args, 1), W16, Word(args, 2)), true, Silent)
    case CommandReadVramConsole16 =>
      Outcome(mmio, vram, true, Shows(Arg(args, 1), LoadW(vram, Arg(args, 1), W16)))
    case CommandWriteVramRange16 =>
      Outcome(mmio, Fill(vram, Arg(args, 1), Arg(args, 2), W16, Word(args, 3)), true, Silent)
    case CommandWriteVram32 => Outcome(mmio, StoreW(vram, Arg(args, 1), W32, Word(args, 2)), true, Silent)
    case CommandReadVramConsole32 =>
      Outcome(mmio, vram, true, Shows(Arg(args, 1), LoadW(vram, Arg(args, 1), W32)))
    case CommandWriteVramRange32 =>
      Outcome(mmio, Fill(vram, Arg(args, 1), Arg(args, 2), W32, Word(args, 3)), true, Silent)
    case CommandWriteRamin32 => Outcome(mmio, vram, false, Says(Warning, RaminUnavailable))
    case CommandReadRaminConsole32 => Outcome(mmio, vram, false, Says(Warning, RaminUnavailable))
    case CommandWriteRaminRange32 => Outcome(mmio, vram, false, Says(Warning, RaminUnavailable))
    case CommandReadCrtcConsole => Outcome(mmio, vram, false, Says(Warning, CrtcUnavailable))
    case CommandWriteCrtc => Outcome(mmio, vram, false, Says(Warning, CrtcUnavailable))
    case CommandRunTest =>
      var k := FindTest(tests, Argv(args, 1));
      Outcome(mmio, vram, k.Some? && invoke(tests[k.value].testFunction),
              if k.Some? then Silent else Says(Message, InvalidTest(Argv(args, 1))))
    case CommandPrint => Outcome(mmio, vram, true, Says(Message, Argv(args, 1)))
    case CommandPrintDebug => Outcome(mmio, vram, true, Says(Debug, Argv(args, 1)))
    case CommandPrintWarning => Outcome(mmio, vram, true, Says(Warning, Argv(args, 1)))
    case CommandPrintError => Outcome(mmio, vram, true, Says(Error, Argv(args, 1)))
    case CommandPrintVersion => Outcome(mmio, vram, true, SignOn)
  }

  /** Calls the handler a table entry is bound to; its effect is Effect. */
  method Execute(f: CommandFunction, host: Host, tests: TestList, args: seq<string>,
                 invoke: TestFunction -> bool) returns (ok: bool, shown: Display)
    requires tests.Valid()
    modifies host`mmio, host`vram
    ensures Outcome(host.mmio, host.vram, ok, shown)
         == Effect(f, old(host.mmio), old(host.vram), args, tests.Contents(), invoke)
  {
    shown := Silent;
    match f
    case CommandWriteMmio8 => ok := WriteMmio8(host, args);
    case CommandReadMmioConsole8 => ok, shown := ReadMmioConsole8(args);
    case CommandWriteMmioRange8 => ok := WriteMmioRange8(host, args);
    case CommandWriteMmio32 => ok, shown := WriteMmio32(host, args);
    case CommandWriteMmioRange32 => ok := WriteMmioRange32(host, args);
    case CommandReadMmioConsole32 => ok, shown := ReadMmioConsole32(host, args);
    case CommandWriteVram8 => ok := WriteVram8(host, args);
    case CommandReadVramConsole8 => ok, shown := ReadVramConsole8(host, args);
    case CommandWriteVramRange8 => ok := WriteVramRange8(host, args);
    case CommandWriteVram16 => ok := WriteVram16(host, args);
    case CommandReadVramConsole16 => ok, shown := ReadVramConsole16(host, args);
    case CommandWriteVramRange16 => ok := WriteVramRange16(host, args);
    case CommandWriteVram32 => ok := WriteVram32(host, args);
    case CommandReadVramConsole32 => ok, shown := ReadVramConsole32(host, args);
    case CommandWriteVramRange32 => ok := WriteVramRange32(host, args);
    case CommandWriteRamin32 => ok, shown := WriteRamin32();
    case CommandReadRaminConsole32 => ok, shown := ReadRaminConsole32();
    case CommandWriteRaminRange32 => ok, shown := WriteRaminRange32();
    case CommandReadCrtcConsole => ok, shown := ReadCrtcConsole();
    case CommandWriteCrtc => ok, shown := WriteCrtc();
    case CommandRunTest => ok, shown := RunTest(tests, args, invoke);
    case CommandPrint => ok, shown := Print(args);
    case CommandPrintDebug => ok, shown := PrintDebug(args);
    case CommandPrintWarning => ok, shown := PrintWarning(args);
    case CommandPrintError => ok, shown := PrintError(args);
    case CommandPrintVersion => ok, shown := PrintVersion();
  }

  // ---------------------------------------------------------------------
  // The table against its handlers

  lemma TableLayout()
    ensures |Commands| == 27 && Commands[26] == EndOfCommands
    ensures forall k | 0 <= k < 26 :: Commands[k].Command?
  {
  }

  /** The highest argument index each handler reads. */
  function ArgsUsed(f: CommandFunction): nat
  {
    match f
    case CommandWriteMmio8 | CommandWriteMmio32 | CommandWriteVram8 | CommandWriteVram16
      | CommandWriteVram32 | CommandReadMmioConsole8 => 2
    case CommandWriteMmioRange8 | CommandWriteMmioRange32 | CommandWriteVramRange8
      | CommandWriteVramRange16 | CommandWriteVramRange32 => 3
    case CommandReadMmioConsole32 | CommandReadVramConsole8 | CommandReadVramConsole16
      | CommandReadVramConsole32 | CommandRunTest | CommandPrint | CommandPrintDebug
      | CommandPrintWarning | CommandPrintError => 1
    case CommandWriteRamin32 | CommandReadRaminConsole32 | CommandWriteRaminRange32
      | CommandReadCrtcConsole | CommandWriteCrtc | CommandPrintVersion => 0
  }

  /** The two command lines have the same arguments 1 to n. */
  predicate AgreeOn(a: seq<string>, b: seq<string>, n: nat)
  {
    forall i | 1 <= i <= n :: Argv(a, i) == Argv(b, i)
  }

  /** A handler's effect depends on no argument past ArgsUsed (nor on the verb). */
  lemma EffectReadsOnlyUsedArgs(f: CommandFunction, mmio: Mem, vram: Mem, a: seq<string>, b: seq<string>,
                                tests: seq<TestEntry>, invoke: TestFunction -> bool)
    requires AgreeOn(a, b, ArgsUsed(f))
    ensures Effect(f, mmio, vram, a, tests, invoke) == Effect(f, mmio, vram, b, tests, invoke)
  {
    if ArgsUsed(f) >= 1 {
      assert Argv(a, 1) == Argv(b, 1);
    }
    if ArgsUsed(f) >= 2 {
      assert Argv(a, 2) == Argv(b, 2);
    }
    if ArgsUsed(f) >= 3 {
      assert Argv(a, 3) == Argv(b, 3);
    }
  }

  /**
   * Every entry but "wmrange8" declares at least as many parameters as its
   * handler reads; "wmrange8" declares two and reads three.
   */
  lemma TableArities()
    ensures forall k | 0 <= k < 26 && k != 2 :: ArgsUsed(Commands[k].handler) <= Commands[k].numParameters
    ensures Commands[2].numParameters == 2 && ArgsUsed(Commands[2].handler) == 3
  {
  }

  /** The arguments past an entry's declared count are ignored, except by "wmrange8". */
  lemma ArgsBeyondArityIgnored(k: nat, mmio: Mem, vram: Mem, a: seq<string>, b: seq<string>,
                               tests: seq<TestEntry>, invoke: TestFunction -> bool)
    requires k < 26 && k != 2
    requires AgreeOn(a, b, Commands[k].numParameters)
    ensures Effect(Commands[k].handler, mmio, vram, a, tests, invoke)
         == Effect(Commands[k].handler, mmio, vram, b, tests, invoke)
  {
    TableArities();
    var f := Commands[k].handler;
    assert AgreeOn(a, b, ArgsUsed(f)) by {
      forall i | 1 <= i <= ArgsUsed(f)
        ensures Argv(a, i) == Argv(b, i)
      {
        assert i <= Commands[k].numParameters;
      }
    }
    EffectReadsOnlyUsedArgs(f, mmio, vram, a, b, tests, invoke);
  }

  /** An argument written as one hex digit. */
  lemma ArgDigit(args: seq<string>, i: nat, c: char)
    requires i < |args| && args[i] == [c] && IsHexDigit(c)
    ensures Arg(args, i) == DigitValue(c)
  {
    SingleDigit(c);
  }

  /**
   * Two "wmrange8" lines that agree on the two declared arguments but whose
   * third arguments differ in the low byte fill different values.
   */
  lemma WmRange8ReadsPastArity(mmio: Mem, vram: Mem, a: seq<string>, b: seq<string>,
                               tests: seq<TestEntry>, invoke: TestFunction -> bool)
    requires AgreeOn(a, b, 2)
    requires Arg(a, 1) < Arg(a, 2) && Low8(Word(a, 3)) != Low8(Word(b, 3))
    ensures Effect(CommandWriteMmioRange8, mmio, vram, a, tests, invoke)
         != Effect(CommandWriteMmioRange8, mmio, vram, b, tests, invoke)
  {
    assert Argv(a, 1) == Argv(b, 1) && Argv(a, 2) == Argv(b, 2);
    FillOneByteAt(mmio, Arg(a, 1), Arg(a, 2), Word(a, 3));
    FillOneByteAt(mmio, Arg(a, 1), Arg(a, 2), Word(b, 3));
  }

  /** The first byte a byte-wide fill stores is the low byte of the value. */
  lemma FillOneByteAt(m: Mem, o: int, end: int, v: bv32)
    requires o < end
    ensures Byte(Fill(m, o, end, W8, v), o) == Low8(v)
  {
    FillBytes(m, o, end, W8, v, o);
  }

  /** The parsed arguments of "wmrange8 0 1 5" and "wmrange8 0 1 6". */
  lemma WitnessArgs(a: seq<string>, b: seq<string>)
    requires a == ["wmrange8", "0", "1", "5"] && b == ["wmrange8", "0", "1", "6"]
    ensures AgreeOn(a, b, 2)
    ensures Arg(a, 1) == 0 && Arg(a, 2) == 1 && Arg(a, 3) == 5 && Arg(b, 3) == 6
  {
    ArgDigit(a, 1, '0');
    ArgDigit(a, 2, '1');
    ArgDigit(a, 3, '5');
    ArgDigit(b, 3, '6');
  }

  /** "wmrange8 0 1 5" and "wmrange8 0 1 6" meet the conditions of WmRange8ReadsPastArity. */
  lemma WmRange8Witness()
    ensures var a := ["wmrange8", "0", "1", "5"];
            var b := ["wmrange8", "0", "1", "6"];
            AgreeOn(a, b, 2) && Arg(a, 1) < Arg(a, 2) && Low8(Word(a, 3)) != Low8(Word(b, 3))
  {
    var a := ["wmrange8", "0", "1", "5"];
    var b := ["wmrange8", "0", "1", "6"];
    WitnessArgs(a, b);
    LowBytesDiffer(Arg(a, 3), Arg(b, 3));
  }

  lemma LowBytesDiffer(x: int, y: int)
    requires x == 5 && y == 6
    ensures Low8(x as bv32) != Low8(y as bv32)
  {
  }

  /**
   * The handlers of the unsupported commands fail, change nothing and warn:
   * the RAMIN verbs that RAMIN, the CRTC verbs that CRTC is not available.
   */
  lemma UnsupportedCommandsChangeNothing(k: nat, mmio: Mem, vram: Mem, args: seq<string>,
                                         tests: seq<TestEntry>, invoke: TestFunction -> bool)
    requires 15 <= k <= 19
    ensures Effect(Commands[k].handler, mmio, vram, args, tests, invoke)
         == Outcome(mmio, vram, false, Says(Warning, if k <= 17 then RaminUnavailable else CrtcUnavailable))
  {
  }

  /**
   * The four print verbs log argument 1 as it is and succeed, each at its
   * own level: message, debug, warning and error.
   */
  lemma PrintVerbLevels(mmio: Mem, vram: Mem, args: seq<string>,
                        tests: seq<TestEntry>, invoke: TestFunction -> bool)
    ensures Commands[21].nameAbbrev == "print"
         && Effect(Commands[21].handler, mmio, vram, args, tests, invoke)
            == Outcome(mmio, vram, true, Says(Message, Argv(args, 1)))
    ensures Commands[22].nameAbbrev == "printdebug"
         && Effect(Commands[22].handler, mmio, vram, args, tests, invoke)
            == Outcome(mmio, vram, true, Says(Debug, Argv(args, 1)))
    ensures Commands[23].nameAbbrev == "printwarning"
         && Effect(Commands[23].handler, mmio, vram, args, tests, invoke)
            == Outcome(mmio, vram, true, Says(Warning, Argv(args, 1)))
    ensures Commands[24].nameAbbrev == "printerror"
         && Effect(Commands[24].handler, mmio, vram, args, tests, invoke)
            == Outcome(mmio, vram, true, Says(Error, Argv(args, 1)))
  {
    assert Commands[21] == Command("print", "printmessage", CommandPrint, 1);
    assert Commands[22] == Command("printdebug", "printdebug", CommandPrintDebug, 1);
    assert Commands[23] == Command("printwarning", "printwarning", CommandPrintWarning, 1);
    assert Commands[24] == Command("printerror", "printerror", CommandPrintError, 1);
  }

  /** "wvrange32" is bound to the register-window handler: it fills MMIO and leaves the frame buffer alone. */
  lemma Wvrange32WritesRegisterWindow(mmio: Mem, vram: Mem, args: seq<string>,
                                      tests: seq<TestEntry>, invoke: TestFunction -> bool)
    ensures Commands[14].nameAbbrev == "wvrange32"
    ensures var o := Effect(Commands[14].handler, mmio, vram, args, tests, invoke);
            o.vram == vram && o.mmio == Fill(mmio, Arg(args, 1), Arg(args, 2), W32, Word(args, 3))
  {
    assert Commands[14] == Command("wvrange32", "writevramrange32", CommandWriteMmioRange32, 3);
  }

  /** No verb reaches the frame-buffer range handler. */
  lemma VramRange32Unbound()
    ensures forall k | 0 <= k < 26 :: Commands[k].handler != CommandWriteVramRange32
  {
  }

  lemma ShortNamesDistinct()
    ensures forall i, j | 0 <= i < j < 26 :: Commands[i].nameAbbrev != Commands[j].nameAbbrev
  {
  }

  /** The only full name that two entries share is "readmmioconsole32", of "rmc32" and "rvc32". */
  lemma DuplicateFullName()
    ensures Commands[5].nameFull == Commands[13].nameFull == "readmmioconsole32"
    ensures forall i, j | 0 <= i < j < 26 && Commands[i].nameFull == Commands[j].nameFull :: i == 5 && j == 13
  {
  }

  // ---------------------------------------------------------------------
  // The range loops as written: a uint32_t offset that wraps

  /** One step of the source's loop counter: offset += width, modulo 2^32. */
  function SourceStep(offset: int, w: Width): (next: int)
    requires 0 <= offset < U32
    ensures 0 <= next < U32
    ensures offset + Size(w) < U32 ==> next == offset + Size(w)
  {
    (offset + Size(w)) % U32
  }

  /** The offsets the source's counter can take from start: the uint32 values congruent to start. */
  predicate OnOrbit(offset: int, start: int, w: Width)
  {
    0 <= offset < U32 && offset % Size(w) == start % Size(w)
  }

  /** The largest uint32 value on start's orbit. */
  function LastOnOrbit(start: int, w: Width): (last: int)
    requires 0 <= start < U32
    ensures OnOrbit(last, start, w)
  {
    var n := Size(w);
    ResidueOf(U32 - n + start % n, n, U32 / n - 1, start % n);
    U32 - n + start % n
  }

  lemma OrbitBounded(offset: int, start: int, w: Width)
    requires 0 <= start < U32 && OnOrbit(offset, start, w)
    ensures offset <= LastOnOrbit(start, w)
  {
    match w
    case W8 =>
    case W16 =>
    case W32 =>
  }

  lemma OrbitClosed(offset: int, start: int, w: Width)
    requires OnOrbit(offset, start, w)
    ensures OnOrbit(SourceStep(offset, w), start, w)
  {
    var n := Size(w);
    var next := SourceStep(offset, w);
    var q, r := offset / n, offset % n;
    assert offset == n * q + r;
    if offset + n < U32 {
      assert next == n * (q + 1) + r;
      ResidueOf(next, n, q + 1, r);
    } else {
      assert next == n * (q + 1 - U32 / n) + r;
      ResidueOf(next, n, q + 1 - U32 / n, r);
    }
  }

  /**
   * When the end offset lies above the last value on start's orbit, every
   * value the source's counter can take passes the loop guard again: the
   * loop does not end.
   */
  lemma {:induction false} SourceLoopNeverExits(start: int, end: int, w: Width)
    requires 0 <= start < U32 && LastOnOrbit(start, w) < end
    ensures OnOrbit(start, start, w)
    ensures forall o | OnOrbit(o, start, w) :: o < end && OnOrbit(SourceStep(o, w), start, w)
  {
    forall o | OnOrbit(o, start, w)
      ensures o < end && OnOrbit(SourceStep(o, w), start, w)
    {
      OrbitBounded(o, start, w);
      OrbitClosed(o, start, w);
    }
  }

  /** "wmrange32 0 -1 0": the end offset -1 converts to 0xFFFFFFFF, above the orbit of 0. */
  lemma WrappingRangeExample()
    ensures var args := ["wmrange32", "0", "-1", "0"];
            Arg(args, 1) == 0 && Arg(args, 2) == 0xFFFF_FFFF
            && LastOnOrbit(Arg(args, 1), W32) < Arg(args, 2)
  {
    var args := ["wmrange32", "0", "-1", "0"];
    SingleDigit('0');
    NegatedDigit('1');
  }

  /** Below the wrap the source's counter and the unbounded one take the same steps. */
  lemma SourceStepAgrees(offset: int, end: int, w: Width)
    requires 0 <= offset < end <= U32 - Size(w)
    ensures SourceStep(offset, w) == offset + Size(w)
  {
  }

  /** A byte-wide range never wraps: a uint32 end offset is below 2^32. */
  lemma ByteRangeNeverWraps(offset: int, end: int)
    requires 0 <= offset < end < U32
    ensures SourceStep(offset, W8) == offset + 1
  {
  }
}
