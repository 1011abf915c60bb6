# GPUPlay core, modelled in Dafny

GPUPlay is a DOS diagnostic tool for PCI graphics cards. It finds a
supported card on the PCI bus, binds the card's driver, and then runs
diagnostic tests. It also runs GPUScript command lines that poke the card's
register window and frame buffer. This project models its core:

- **The central header** (`gpuplay.h`): the PCI configuration offsets and command-register masks, the vendor and device ids, the device records (`nv_device_info_t`, `nv_device_t`), and the GPUS save-state magic and four-character section tags.
  - Module `GpuPlay`, file `gpuplay.dfy`.
  - `Device` is a class because detection and the drivers fill its fields in place.
- **The device registry** (`gpu_list.c`): four supported cards and a zero sentinel.
  - Module `GpuList`.
- **Detection** (`gpu_detect.c`): the scan that binds the first registry row present on the bus.
  - Module `GpuDetect`.
  - The specification function is `FirstHit`; the method `Detect` carries the loop.
- **The test registry** (`tests.c`): the static table of tests with required ids, the availability scan, the lookup of a loaded test by name, and running a test.
  - Module `Tests`.
  - The loaded test list is a linked list of `ConfigTestEntry` objects.
- **The GPUScript handlers and verb table** (`gpu_script_commands.c`).
  - Module `ScriptCommands`.
  - Every handler is a method over the host's windows.
  - `Effect` is the single specification function of all handlers.
  - `Execute` dispatches on the handler a table entry names.
- **The argument parser** (`strtol(..., 16)` as the handlers call it): the parse of one argument and its conversion to `uint32_t`.
  - Module `HexArgs`.
- **The ATI Rage 128 Pro driver** (`r128_core.c`, `r128_ref.h`).
  - Modules `R128Core` and `R128Ref`.
  - It covers init, shutdown, the manufacture-information dump, the MMIO dump and the GPUS hooks.
- **The 3Dfx Voodoo3 / Banshee driver** (`voodoo3_core.c`, `voodoo3_ref.h`).
  - Modules `Voodoo3Core` and `Voodoo3Ref`.
  - It covers the I/O-port register accessors, init, shutdown, both dumps and the hooks.

None of the machine services the drivers and handlers call are part of the
modelled files. These are the PCI BIOS configuration accessors, `mmio_*`,
`nv_dfb_*`, `inportb`/`outportw` and the DPMI calls. Module `HostMachine`
(`host.dfy`) gives them an assumed, memory-like behaviour:

- **Class `Host`.**
  - The configuration space of the bound function, the register window, the frame-buffer window and the port space are each a byte map (`Bits.Mem`).
  - Multi-byte accesses are little-endian.
  - A port address is a 16-bit number and wraps modulo 2^16.
  - Every port access is appended to `portLog`, so that the order and the number of bus accesses can be stated.
- **DPMI.**
  - A physical address mapping returns `linearFor(physical, size)`, a function fixed when the host is built, and is recorded in `mappings`.
  - LDT descriptor allocation returns a selector not in use.
- **Bit-level helpers.** Module `Bits` (`bits.dfy`) holds the little-endian loads and stores and `Fill` (the stores of a range loop), with their lemmas.

The driver state the C code keeps in file-level globals is held in fields:

- `r128_state` becomes the fields of class `R128Driver`.
- `voodoo3_state` and `voodoo3_io_base_port` become the fields of class `Voodoo3Driver`.
- Both are zero until init.

In three places the code does something other than what its own types and
comments suggest, and the model follows the code:

- The handlers hold each argument as a `uint32_t`, but they parse it with `strtol`, whose result is a `long` (`gpu_script_commands.c:30-31`). A 32-bit `long` saturates, so an argument above `LONG_MAX` becomes `0x7FFFFFFF`, not its unsigned value (`HexArgs.ParseSaturates`).
- Voodoo3 shutdown is commented "Restore original PCI command if needed" (`voodoo3_core.c:222`). It writes the snapshot back only when the snapshot is non-zero, so a card whose command register was 0 keeps 0x7 after shutdown (`Voodoo3Core.Voodoo3InitShutdown`).
- In `gpuplay.h`, the GPUS section constant commented `'NV1E'` spells `"61ED"` in little-endian (`GpuPlay.Nv1eSpells61ED`).

The verb table is modelled as written, including its irregularities. Lemmas state each one:

- `wvrange32` is bound to the register-window range handler. No verb reaches the frame-buffer range handler (`Wvrange32WritesRegisterWindow`, `VramRange32Unbound`).
- `rvc32` shares the full name `readmmioconsole32` with `rmc32` (`DuplicateFullName`).
- `wmrange8` declares two parameters but reads a third (`TableArities`, `WmRange8ReadsPastArity`).
- `rmc8` declares three parameters but reads two (`TableArities`).
- `rrc32` declares no parameter count, which C initialises to 0.

## Model

| member | source | states |
|---|---|---|
| GpuPlay.MemoryBarBase | src/architecture/r128/r128_core.c:36-37 | the masked BAR has its low four bits clear and differs from the BAR only in them |
| GpuPlay.UnpackFourCC | src/gpuplay.h:311-338 | the four bytes of a four-character code come back in order, first character in the low byte |
| GpuPlay.FourCCUnpack | src/gpuplay.h:311-338 | packing the four bytes of a 32-bit value rebuilds the value |
| GpuPlay.SectionTags | src/gpuplay.h:311-336 | each GPUS section constant but the last reads, little-endian, as the tag its comment gives |
| GpuPlay.Nv1eSpells61ED | src/gpuplay.h:319-337 | the constant commented 'NV1E' reads "61ED" and is not the code of "NV1E" |
| GpuPlay.MagicTags | src/gpuplay.h:53-291 | GPUS_MAGIC reads "GPUS" and PCI_BIOS_MAGIC reads "PCI " |
| GpuPlay.SectionsDistinct | src/gpuplay.h:321-338 | the eight section codes are pairwise distinct |
| GpuPlay.CommandMasks | src/gpuplay.h:60-62 | the three command-register masks are single bits, pairwise disjoint, together 0x7 |
| GpuPlay.Device.constructor | src/core/gpu_detect.c:14 | the current device starts with every field zero and the empty device record |
| GpuList.RegistryLayout | src/core/gpu_list.c:18-25 | five rows: the two Rage 128 Pro ids under ATI, Voodoo3 and Banshee under 3Dfx, then the all-zero sentinel |
| GpuList.SentinelIsFirstZeroVendor | src/core/gpu_list.c:20-24 | the sentinel is the first row with vendor 0 |
| GpuList.GenericIdsAreSentinelIds | src/core/gpu_list.c:24 | the sentinel carries the generic ids 0 and 0 |
| GpuList.IdPairsDistinct | src/core/gpu_list.c:20-23 | no two supported rows share a device and vendor pair |
| GpuList.DriversFollowVendor | src/core/gpu_list.c:20-23 | ATI rows are bound to the Rage 128 driver hooks and 3Dfx rows to the Voodoo3 hooks |
| GpuDetect.FirstHitFrom | src/core/gpu_detect.c:22-38 | the row the scan from row k binds is at or after k, in the registry and present |
| GpuDetect.FirstHit | src/core/gpu_detect.c:22-41 | the row detection binds is in the registry and present |
| GpuDetect.FirstHitFromIsLeast | src/core/gpu_detect.c:22-38 | the scan from row k returns the least present row from k on, or none when no such row is present |
| GpuDetect.FirstHitIsLeast | src/core/gpu_detect.c:22-41 | detection picks the least present row, sentinel included, and fails only when none is present |
| GpuDetect.SameProbesSameHit | src/core/gpu_detect.c:28 | the outcome depends only on the answers of the presence probes for the registry rows |
| GpuDetect.SentinelCanBeBound | src/core/gpu_detect.c:22-35 | a bus that answers only for ids 0/0 binds the sentinel, because the loop probes a row before testing its vendor |
| GpuDetect.Voodoo3BeforeBanshee | src/core/gpu_detect.c:22-35 | with both 3Dfx cards and no Rage 128 present, the Voodoo3 row is bound |
| GpuDetect.Detect | src/core/gpu_detect.c:16-43 | returns true exactly when some row is present, then binds the first present row, and otherwise leaves the device record alone |
| Tests.ScannedRows | src/core/tests/tests.c:22-46 | the availability scan visits rows 0 to 10 and stops at the NULL-handler sentinel row |
| Tests.IsAvailableForGpu | src/core/tests/tests.c:49-72 | true exactly when a scanned row has the name and requires precisely the bound vendor and device ids |
| Tests.GenericTestsNeedZeroIds | src/core/tests/tests.c:25-27 | a generic test is available exactly when both bound ids are zero |
| Tests.Rage128Tests | src/core/tests/tests.c:30-35 | a bound Rage 128 Pro sees exactly R128_DumpMfgInfo and R128_DumpMMIO |
| Tests.Voodoo3Tests | src/core/tests/tests.c:38-43 | a bound Voodoo3 or Banshee sees exactly Voodoo3_DumpMfgInfo and Voodoo3_DumpMMIO |
| Tests.Voodoo3CannotRunR128Test | src/core/tests/tests.c:30-39 | names resolve together with ids: with a Voodoo3 bound, the Rage 128 test is unavailable and its own test is available |
| Tests.ScanEndsAtNullHandler | src/core/tests/tests.c:45-60 | the sentinel row would match the empty name with zero ids, but the scan stops before it |
| Tests.FindTest | src/core/tests/tests.c:80-88 | a found index is in range and names the test |
| Tests.FindTestIsFirst | src/core/tests/tests.c:80-88 | none exactly when no entry has the name; otherwise the least such index |
| Tests.FindTestAt | src/core/tests/tests.c:80-88 | the first entry with the name is the one found |
| Tests.TestList.ContentsFromHead | src/core/tests/tests.c:77-85 | following `next` k times from the head reaches the node whose name and handler are entry k of the contents, and the walk reaches NULL right after the last entry |
| Tests.Get | src/core/tests/tests.c:75-89 | walks the list, returns null exactly when no entry has the name, else the first entry that has it |
| Tests.Run | src/core/tests/tests.c:91-113 | a NULL handler gives false; otherwise the handler's result |
| HexArgs.DigitValue | src/core/script/gpu_script_commands.c:30 | a hex digit's value is below 16 |
| HexArgs.Digit | src/core/script/gpu_script_commands.c:30 | the lower-case digit of a value below 16 is a hex digit of that value |
| HexArgs.SpaceEnd | src/core/script/gpu_script_commands.c:30 | strtol's white-space skip: the first non-space index, everything before it white space |
| HexArgs.RunEnd | src/core/script/gpu_script_commands.c:30 | the end of the digit run: all digits before it, a non-digit or the end at it |
| HexArgs.SignEnd | src/core/script/gpu_script_commands.c:30 | the index after the optional sign is within the text |
| HexArgs.DigitsStart | src/core/script/gpu_script_commands.c:30 | the digits start within the text, past a 0x prefix only when a digit follows it |
| HexArgs.Clamp | src/core/script/gpu_script_commands.c:30 | strtol's range error: the result lies in long's range and equals the value when that fits |
| HexArgs.StrToL16 | src/core/script/gpu_script_commands.c:30 | `strtol(s, &end, 16)` with a 32-bit `long`: the result lies in long's range; its values are those of the Parse* lemmas |
| HexArgs.ParseArgument | src/core/script/gpu_script_commands.c:30-31 | the uint32_t an argument converts to lies in 0 to 2^32-1 |
| HexArgs.Hex | src/core/script/gpu_script_commands.c:30 | the numeral of a value is a non-empty run of hex digits |
| HexArgs.ValueOfHex | src/core/script/gpu_script_commands.c:30 | a numeral read back anywhere in a text gives its value |
| HexArgs.RunEndOfDigits | src/core/script/gpu_script_commands.c:30 | a digit run that a non-digit follows ends where the numeral ends |
| HexArgs.LeadingDigitNonZero | src/core/script/gpu_script_commands.c:30 | the numeral of a positive value has no leading zero |
| HexArgs.ReadHex | src/core/script/gpu_script_commands.c:30 | a numeral at an index, followed by a non-digit, is read as its value |
| HexArgs.ParsePrefixed | src/core/script/gpu_script_commands.c:30 | "0x" + numeral + non-digit tail parses to the value, when it fits in long |
| HexArgs.ParseBare | src/core/script/gpu_script_commands.c:30 | a bare numeral parses to its value, when it fits in long |
| HexArgs.ParseSaturates | src/core/script/gpu_script_commands.c:30 | a value above LONG_MAX parses to LONG_MAX |
| HexArgs.ParseNegated | src/core/script/gpu_script_commands.c:30 | "-" + numeral parses to 2^32 minus the value, down to LONG_MIN |
| HexArgs.ParseNoDigits | src/core/script/gpu_script_commands.c:30 | a text with no hex digit, the empty string of a missing argument included, parses to 0 |
| HexArgs.SpaceEndShift | src/core/script/gpu_script_commands.c:30 | a leading space moves the end of the white space one place right |
| HexArgs.RunEndShift | src/core/script/gpu_script_commands.c:30 | a leading character moves the end of a digit run one place right |
| HexArgs.ValueOfShift | src/core/script/gpu_script_commands.c:30 | a leading character does not change the value of a shifted numeral |
| HexArgs.ScanShift | src/core/script/gpu_script_commands.c:30 | a leading space moves the sign one place right and keeps the sign |
| HexArgs.DigitsStartShift | src/core/script/gpu_script_commands.c:30 | a leading space moves the start of the digits one place right |
| HexArgs.ParseSkipsSpace | src/core/script/gpu_script_commands.c:30 | leading white space does not change the parsed argument |
| HexArgs.SingleDigit | src/core/script/gpu_script_commands.c:30 | one hex digit parses to its value |
| HexArgs.NegatedDigit | src/core/script/gpu_script_commands.c:30 | "-" and one non-zero digit parse to 2^32 minus the digit |
| ScriptCommands.Argv | src/core/script/gpu_script_commands.c:30 | the text of argument i is one of the line's tokens, or the empty string past the end |
| ScriptCommands.Word | src/core/script/gpu_script_commands.c:31 | argument i as the `uint32_t` the handlers store |
| ScriptCommands.Arg | src/core/script/gpu_script_commands.c:30 | an argument as a uint32_t offset is in 0 to 2^32-1 |
| ScriptCommands.WriteMmio8 | src/core/script/gpu_script_commands.c:28-35 | the register window gets the low byte of argument 2 at argument 1; returns true |
| ScriptCommands.WriteMmioRange8 | src/core/script/gpu_script_commands.c:37-49 | the register window is the byte fill of argument 3 from argument 1 below argument 2; returns true |
| ScriptCommands.FillMmio8 | src/core/script/gpu_script_commands.c:43-46 | the loop stores one byte per offset from start below end, in order |
| ScriptCommands.ReadMmioConsole8 | src/core/script/gpu_script_commands.c:51-58 | shows argument 1 and the parsed argument 2 without reading the window; returns true |
| ScriptCommands.WriteMmio32 | src/core/script/gpu_script_commands.c:61-70 | logs at debug level both argument texts with the offset and value parsed from them, then the register window gets argument 2 as a little-endian word at argument 1; returns true |
| ScriptCommands.ReadMmioConsole32 | src/core/script/gpu_script_commands.c:72-79 | shows argument 1 and the word the register window holds there; returns true |
| ScriptCommands.WriteMmioRange32 | src/core/script/gpu_script_commands.c:81-93 | the register window is the word fill of argument 3 at every fourth offset from argument 1 below argument 2; returns true |
| ScriptCommands.FillMmio32 | src/core/script/gpu_script_commands.c:87-90 | the loop stores one word per four-byte step from start below end, in order |
| ScriptCommands.WriteVram8 | src/core/script/gpu_script_commands.c:95-102 | the frame buffer gets the low byte of argument 2 at argument 1; returns true |
| ScriptCommands.WriteVramRange8 | src/core/script/gpu_script_commands.c:104-116 | the frame buffer is the byte fill of argument 3 from argument 1 below argument 2; returns true |
| ScriptCommands.FillVram8 | src/core/script/gpu_script_commands.c:110-113 | the loop stores one byte per offset from start below end |
| ScriptCommands.ReadVramConsole8 | src/core/script/gpu_script_commands.c:118-125 | shows argument 1 and the frame-buffer byte there; returns true |
| ScriptCommands.WriteVram16 | src/core/script/gpu_script_commands.c:127-134 | the frame buffer gets the low half of argument 2 at argument 1; returns true |
| ScriptCommands.WriteVramRange16 | src/core/script/gpu_script_commands.c:136-148 | the frame buffer is the half-word fill from argument 1 below argument 2; returns true |
| ScriptCommands.FillVram16 | src/core/script/gpu_script_commands.c:142-145 | the loop stores one half-word per two-byte step from start below end |
| ScriptCommands.ReadVramConsole16 | src/core/script/gpu_script_commands.c:150-157 | shows argument 1 and the frame-buffer half-word there; returns true |
| ScriptCommands.WriteVram32 | src/core/script/gpu_script_commands.c:159-166 | the frame buffer gets argument 2 as a word at argument 1; returns true |
| ScriptCommands.WriteVramRange32 | src/core/script/gpu_script_commands.c:168-180 | the frame buffer is the word fill from argument 1 below argument 2; returns true |
| ScriptCommands.FillVram32 | src/core/script/gpu_script_commands.c:174-177 | the loop stores one word per four-byte step from start below end |
| ScriptCommands.ReadVramConsole32 | src/core/script/gpu_script_commands.c:182-189 | shows argument 1 and the frame-buffer word there; returns true |
| ScriptCommands.WriteRamin32 | src/core/script/gpu_script_commands.c:191-195 | unsupported: logs at warning level that RAMIN functions are not available, returns false |
| ScriptCommands.WriteRaminRange32 | src/core/script/gpu_script_commands.c:197-201 | unsupported: logs at warning level that RAMIN functions are not available, returns false |
| ScriptCommands.ReadRaminConsole32 | src/core/script/gpu_script_commands.c:203-207 | unsupported: logs at warning level that RAMIN functions are not available, returns false |
| ScriptCommands.ReadCrtcConsole | src/core/script/gpu_script_commands.c:209-213 | unsupported: logs at warning level that CRTC functions are not available, returns false |
| ScriptCommands.WriteCrtc | src/core/script/gpu_script_commands.c:215-219 | unsupported: logs at warning level that CRTC functions are not available, returns false |
| ScriptCommands.RunTest | src/core/script/gpu_script_commands.c:222-237 | the result of the first loaded test named by argument 1, logging nothing; or false, with a message-level line naming the test, when none is loaded under that name |
| ScriptCommands.Print | src/core/script/gpu_script_commands.c:240-244 | logs argument 1 at message level; returns true |
| ScriptCommands.PrintDebug | src/core/script/gpu_script_commands.c:247-251 | logs argument 1 at debug level; returns true |
| ScriptCommands.PrintWarning | src/core/script/gpu_script_commands.c:254-258 | logs argument 1 at warning level; returns true |
| ScriptCommands.PrintError | src/core/script/gpu_script_commands.c:261-265 | logs argument 1 at error level; returns true |
| ScriptCommands.PrintVersion | src/core/script/gpu_script_commands.c:267-271 | shows the sign-on banner; returns true |
| ScriptCommands.Effect | src/core/script/gpu_script_commands.c:28-271 | what each handler does to the two windows, returns and logs; every handler method and Execute are proved against it |
| ScriptCommands.Execute | src/core/script/gpu_script_commands.c:274-303 | calling the handler a table entry names changes the windows, returns and logs what Effect gives for that handler |
| ScriptCommands.TableLayout | src/core/script/gpu_script_commands.c:274-303 | 26 commands and then the NULL sentinel |
| ScriptCommands.EffectReadsOnlyUsedArgs | src/core/script/gpu_script_commands.c:28-271 | a handler's outcome depends on no argument past the highest one it reads, nor on the verb |
| ScriptCommands.TableArities | src/core/script/gpu_script_commands.c:276-301 | every entry but wmrange8 declares at least the arguments its handler reads; wmrange8 declares 2 and reads 3 |
| ScriptCommands.ArgsBeyondArityIgnored | src/core/script/gpu_script_commands.c:276-301 | for every entry but wmrange8, arguments past the declared count cannot change the outcome |
| ScriptCommands.WmRange8ReadsPastArity | src/core/script/gpu_script_commands.c:37-49 | two wmrange8 lines that agree on the two declared arguments can write different bytes |
| ScriptCommands.WmRange8Witness | src/core/script/gpu_script_commands.c:278 | "wmrange8 0 1 5" and "wmrange8 0 1 6" are such a pair |
| ScriptCommands.UnsupportedCommandsChangeNothing | src/core/script/gpu_script_commands.c:291-295 | the five RAMIN and CRTC verbs fail, leave both windows alone and log their warning |
| ScriptCommands.PrintVerbLevels | src/core/script/gpu_script_commands.c:297-300 | print, printdebug, printwarning and printerror log argument 1 unchanged, at message, debug, warning and error level |
| ScriptCommands.Wvrange32WritesRegisterWindow | src/core/script/gpu_script_commands.c:290 | "wvrange32" fills the register window and leaves the frame buffer unchanged |
| ScriptCommands.VramRange32Unbound | src/core/script/gpu_script_commands.c:276-301 | no entry is bound to the frame-buffer word-range handler |
| ScriptCommands.ShortNamesDistinct | src/core/script/gpu_script_commands.c:276-301 | the 26 short verbs are pairwise distinct |
| ScriptCommands.DuplicateFullName | src/core/script/gpu_script_commands.c:281-289 | the only repeated full name is "readmmioconsole32", of rmc32 and rvc32 |
| ScriptCommands.SourceStep | src/core/script/gpu_script_commands.c:87 | the uint32_t counter step stays in range and adds the width when that does not wrap |
| ScriptCommands.LastOnOrbit | src/core/script/gpu_script_commands.c:87 | the largest uint32_t value the counter can reach from start |
| ScriptCommands.OrbitBounded | src/core/script/gpu_script_commands.c:87 | every value the counter can reach is at most that largest value |
| ScriptCommands.OrbitClosed | src/core/script/gpu_script_commands.c:87 | a step of the uint32_t counter stays among the values congruent to the start |
| ScriptCommands.SourceLoopNeverExits | src/core/script/gpu_script_commands.c:87-90 | as written: when the end offset lies above the largest reachable value, every reachable counter passes the guard again |
| ScriptCommands.WrappingRangeExample | src/core/script/gpu_script_commands.c:81-90 | "wmrange32 0 -1 0" has end offset 0xFFFFFFFF, above the largest value reachable from 0 |
| ScriptCommands.SourceStepAgrees | src/core/script/gpu_script_commands.c:87 | below 2^32 minus the width, the uint32_t step and the unbounded step agree |
| ScriptCommands.ByteRangeNeverWraps | src/core/script/gpu_script_commands.c:43 | the byte-wide loop counter never wraps inside the loop |
| Bits.Fill | src/core/script/gpu_script_commands.c:43-46 | the stores of a range loop, one block of the width per step from the start while below the end; FillBytes, FillStrides and FillOutside give its contents |
| Bits.FillBytes | src/core/script/gpu_script_commands.c:43-46 | after a range loop, each byte in a written block holds the byte of the value at its position; every other byte is unchanged |
| Bits.FillStrides | src/core/script/gpu_script_commands.c:87-90 | after a range loop, each stride offset below the end reads back the value cut to the width |
| Bits.FillOutside | src/core/script/gpu_script_commands.c:87-90 | a range loop leaves bytes before the start and past the last block unchanged |
| R128Ref.R128VramSizes | src/architecture/r128/r128_ref.h:21-23 | the VRAM sizes are 8, 16 and 32 MiB |
| R128Ref.R128MemsizeCodes | src/architecture/r128/r128_ref.h:168-171 | the memory-size codes are distinct and lie inside the mask |
| R128Ref.R128RegistersInWindow | src/architecture/r128/r128_ref.h:20-94 | every register the driver reads is an aligned word inside the 16 KiB window |
| R128Ref.R128CommandBits | src/architecture/r128/r128_ref.h:57-59 | the bit positions give the central command-register masks |
| R128Ref.R128IdsAgree | src/architecture/r128/r128_ref.h:28-47 | the driver's ids and config offsets equal the central ones |
| R128Core.LfbBase | src/architecture/r128/r128_core.c:32-36 | the frame-buffer base is BAR0 with its low four bits cleared |
| R128Core.RegisterBase | src/architecture/r128/r128_core.c:33-37 | the register-window base is BAR2 with its low four bits cleared |
| R128Core.R128VramSize | src/architecture/r128/r128_core.c:87-100 | each known code gives its size, and an unknown code gives 16 MiB |
| R128Core.R128VramSizeByCode | src/architecture/r128/r128_core.c:88-100 | only the low four bits decide the size, which is 8, 16 or 32 MiB |
| R128Core.WithBusMaster | src/architecture/r128/r128_core.c:115 | the bus-master bit is set, and every other bit is kept |
| R128Core.BusMasterAlreadyOn | src/architecture/r128/r128_core.c:112 | setting an already-set bus-master bit changes nothing |
| R128Core.R128InitConfig | src/architecture/r128/r128_core.c:111-117 | configuration space after init: the command register is written only when bus mastering was off; R128InitConfigEffect states the result |
| R128Core.R128InitConfigEffect | src/architecture/r128/r128_core.c:111-117 | init leaves the command register with bus mastering on and every other configuration byte alone, and writes nothing when the bit was on |
| R128Core.R128ShutdownMmio | src/architecture/r128/r128_core.c:124-133 | the register window after shutdown: a non-zero snapshot reads back from CONFIG_CNTL, and a zero snapshot leaves the window alone |
| R128Core.R128InitShutdownRestores | src/architecture/r128/r128_core.c:108-130 | shutdown after init puts back every register-window byte |
| R128Core.R128ShutdownFrame | src/architecture/r128/r128_core.c:124-133 | shutdown touches only CONFIG_CNTL, and a second shutdown changes nothing |
| R128Core.R128GpusSectionApplies | src/architecture/r128/r128_core.c:203-207 | no GPUS section applies |
| R128Core.R128GpusParseSection | src/architecture/r128/r128_core.c:209-213 | parsing a section fails |
| R128Core.MapWindows | src/architecture/r128/r128_core.c:45-75 | maps 64 MiB at the frame buffer and 16 KiB at the registers, and binds two fresh selectors |
| R128Core.EnableBusMastering | src/architecture/r128/r128_core.c:111-117 | configuration space becomes the init configuration |
| R128Core.R128Driver.constructor | src/architecture/r128/r128_core.c:23 | the saved CONFIG_CNTL starts at zero |
| R128Core.R128Driver.Init | src/architecture/r128/r128_core.c:25-122 | records the masked BAR0 and BAR2 bases, maps both windows with their selectors and limits, reads the VRAM size, straps and CONFIG_CNTL, enables bus mastering, returns true |
| R128Core.R128Driver.Shutdown | src/architecture/r128/r128_core.c:124-133 | writes the saved CONFIG_CNTL back unless it is zero |
| R128Core.R128Driver.InitThenShutdown | src/architecture/r128/r128_core.c:25-133 | init then shutdown leaves the register window byte for byte as it was, with bus mastering on |
| R128Core.DumpMfgInfo | src/architecture/r128/r128_core.c:135-164 | reports vendor, device and revision ids, MEMSIZE, the VRAM size in MiB, XSTRAP, CONFIG_CNTL, BUS_CNTL and MEM_CNTL as read; returns true |
| R128Core.DumpMmio | src/architecture/r128/r128_core.c:166-201 | succeeds exactly when the file opens and the buffer is allocated; word i of the dump is the register word at 4i |
| Voodoo3Ref.Voodoo3VramSizes | src/architecture/voodoo3/voodoo3_ref.h:34-37 | the VRAM sizes are 4, 8, 16 and 32 MiB |
| Voodoo3Ref.Voodoo3MemoryCodesDistinct | src/architecture/voodoo3/voodoo3_ref.h:188-192 | the memory-size codes are distinct and lie inside the mask |
| Voodoo3Ref.Voodoo3RegistersInWindow | src/architecture/voodoo3/voodoo3_ref.h:47-57 | every register the driver reads is an aligned word inside the 4 KiB dump window |
| Voodoo3Ref.VgaAliases | src/architecture/voodoo3/voodoo3_ref.h:163-167 | each VGA alias is its legacy port less 0x300, and misc-output and input-status-0 share an offset |
| Voodoo3Ref.Voodoo3IdsAgree | src/architecture/voodoo3/voodoo3_ref.h:20-22 | the driver's ids equal the central ones |
| Voodoo3Core.PortWord | src/architecture/voodoo3/voodoo3_core.c:49-61 | a 32-bit port read: the low word at the port and the high word two ports on; PortWordRoundTrip states it against PortWriteWord |
| Voodoo3Core.PortWriteWord | src/architecture/voodoo3/voodoo3_core.c:79-89 | a 32-bit port write: the low half at the port, then the high half two ports on; PortWriteWordFrame states what it changes |
| Voodoo3Core.IoWord | src/architecture/voodoo3/voodoo3_core.c:49-61 | the 32-bit register at an offset, 0 without a base port; IoWordReads ties it to the reads the driver makes |
| Voodoo3Core.IsIoBar | src/architecture/voodoo3/voodoo3_core.c:109 | BAR2 is an I/O BAR exactly when its bit 0 is set; Init fails otherwise |
| Voodoo3Core.IoWordReads | src/architecture/voodoo3/voodoo3_core.c:49-61 | a 32-bit read makes no bus access without a base port, and otherwise two word reads, the first at base + offset |
| Voodoo3Core.PortWordRoundTrip | src/architecture/voodoo3/voodoo3_core.c:49-89 | a 32-bit port write read back at the same port gives the value |
| Voodoo3Core.PortWriteWordFrame | src/architecture/voodoo3/voodoo3_core.c:79-89 | a 32-bit port write changes no port outside its four |
| Voodoo3Core.IoBase | src/architecture/voodoo3/voodoo3_core.c:112 | the base port is a 16-bit, 4-aligned number |
| Voodoo3Core.Voodoo3VramSize | src/architecture/voodoo3/voodoo3_core.c:164-179 | each known code gives its size, and an unknown code gives 16 MiB |
| Voodoo3Core.Voodoo3VramSizeByCode | src/architecture/voodoo3/voodoo3_core.c:165-179 | only the low four bits decide the size, which is 4, 8, 16 or 32 MiB |
| Voodoo3Core.ZeroBaseDefaults | src/architecture/voodoo3/voodoo3_core.c:33-61 | without a base port the registers read 0, so the size is 4 MiB and the straps 0 |
| Voodoo3Core.WithDecoding | src/architecture/voodoo3/voodoo3_core.c:192-213 | bits 0-2 are set and every other bit is kept |
| Voodoo3Core.EnabledAlready | src/architecture/voodoo3/voodoo3_core.c:192-213 | with bits 0-2 on, nothing changes |
| Voodoo3Core.Voodoo3InitConfig | src/architecture/voodoo3/voodoo3_core.c:188-213 | configuration space after init: the command register is written only when one of bits 0-2 was clear; Voodoo3InitConfigEffect states the result |
| Voodoo3Core.Voodoo3ShutdownConfig | src/architecture/voodoo3/voodoo3_core.c:220-229 | configuration space after shutdown: a non-zero snapshot reads back from the command register, and a zero snapshot leaves it alone |
| Voodoo3Core.Voodoo3InitConfigEffect | src/architecture/voodoo3/voodoo3_core.c:188-213 | init leaves the command register at its old value with bits 0-2 on, and every other configuration byte alone |
| Voodoo3Core.Voodoo3InitShutdown | src/architecture/voodoo3/voodoo3_core.c:188-229 | after init and shutdown the command register is back at its old value when that was non-zero, and stays 0x7 when it was zero; every other configuration byte is as it was |
| Voodoo3Core.Voodoo3GpusSectionApplies | src/architecture/voodoo3/voodoo3_core.c:309-313 | no GPUS section applies |
| Voodoo3Core.Voodoo3GpusParseSection | src/architecture/voodoo3/voodoo3_core.c:315-319 | parsing a section fails |
| Voodoo3Core.DumpReads | src/architecture/voodoo3/voodoo3_core.c:290-297 | the dump makes two word reads per register, and none without a base port |
| Voodoo3Core.MapApertures | src/architecture/voodoo3/voodoo3_core.c:127-149 | maps 32 MiB at the frame buffer and 32 MiB at the texture memory, and binds one fresh selector to the frame buffer |
| Voodoo3Core.SetCommandBit | src/architecture/voodoo3/voodoo3_core.c:192-197 | ORs the bit in, and writes the command register exactly when the bit was clear |
| Voodoo3Core.CommandSteps | src/architecture/voodoo3/voodoo3_core.c:192-213 | the three steps set bits 0-2, and some write happens exactly when one of them was clear |
| Voodoo3Core.EnableDecoding | src/architecture/voodoo3/voodoo3_core.c:191-213 | configuration space becomes the init configuration |
| Voodoo3Core.Voodoo3Driver.constructor | src/architecture/voodoo3/voodoo3_core.c:24-29 | the base port and the snapshot start at zero |
| Voodoo3Core.Voodoo3Driver.IoRead8 | src/architecture/voodoo3/voodoo3_core.c:31-38 | 0 without a base port; otherwise the byte at (base + offset) mod 2^16, one logged read |
| Voodoo3Core.Voodoo3Driver.IoRead16 | src/architecture/voodoo3/voodoo3_core.c:40-47 | 0 without a base port; otherwise the word at (base + offset) mod 2^16 |
| Voodoo3Core.Voodoo3Driver.IoRead32 | src/architecture/voodoo3/voodoo3_core.c:49-61 | the low word at the port and the high word two ports on, or 0 and no access without a base port |
| Voodoo3Core.Voodoo3Driver.IoWrite8 | src/architecture/voodoo3/voodoo3_core.c:63-69 | nothing without a base port; otherwise one byte written at (base + offset) mod 2^16 |
| Voodoo3Core.Voodoo3Driver.IoWrite16 | src/architecture/voodoo3/voodoo3_core.c:71-77 | nothing without a base port; otherwise one word written at (base + offset) mod 2^16 |
| Voodoo3Core.Voodoo3Driver.IoWrite32 | src/architecture/voodoo3/voodoo3_core.c:79-89 | nothing without a base port; otherwise the low half, then the high half two ports on |
| Voodoo3Core.Voodoo3Driver.WriteThenRead32 | src/architecture/voodoo3/voodoo3_core.c:49-89 | with a base port, a 32-bit write and then a read at the same offset give the value |
| Voodoo3Core.Voodoo3Driver.ReadMemoryConfig | src/architecture/voodoo3/voodoo3_core.c:164-185 | the VRAM size comes from LFBMEMORYCONFIG and the straps from MISCINIT1, read in that order |
| Voodoo3Core.Voodoo3Driver.SaveAndEnableCommand | src/architecture/voodoo3/voodoo3_core.c:188-213 | snapshots the command register as found, then enables bits 0-2 |
| Voodoo3Core.Voodoo3Driver.Attach | src/architecture/voodoo3/voodoo3_core.c:112-217 | what init does once BAR2 is an I/O BAR |
| Voodoo3Core.Voodoo3Driver.Init | src/architecture/voodoo3/voodoo3_core.c:91-218 | fails and changes nothing when BAR2 is not an I/O BAR; otherwise takes the base port, maps both apertures, reads size and straps, snapshots the command register and enables bits 0-2 |
| Voodoo3Core.Voodoo3Driver.Shutdown | src/architecture/voodoo3/voodoo3_core.c:220-229 | writes the snapshot back unless it is zero |
| Voodoo3Core.Voodoo3Driver.InitThenShutdown | src/architecture/voodoo3/voodoo3_core.c:91-229 | after a successful init and shutdown the command register holds its original value, or 0x7 if that was zero |
| Voodoo3Core.Voodoo3Driver.DumpMfgInfo | src/architecture/voodoo3/voodoo3_core.c:231-261 | reports the ids, lfbMemoryConfig, the VRAM size in MiB, miscInit0/1, dramInit0/1 and status as read, with exactly those six register reads in that order; returns true |
| Voodoo3Core.Voodoo3Driver.DumpMmio | src/architecture/voodoo3/voodoo3_core.c:263-307 | succeeds exactly when a base port is set, the file opens and the buffer is allocated; word i is the I/O word at 4i, read in order |

## Left out

- The PCI BIOS interrupt, the presence probe and the DPMI services: their effects are parameters (`present`, `linearFor`) or the `Host` class, which is not part of the source. The bus and function numbers are not modelled either, because configuration space is that of the one bound function.
- Failures of DPMI mapping and LDT allocation are not modelled; the code ignores their results.
- Logging: what a script handler logs is a `Display` value: its level and text, or for the reads and the `wm32` trace the values it formats. The hex formatting of those lines is left out. The log lines of detection, the test registry and the drivers are left out. `Print*` pass argument 1 as the format string; the model logs it verbatim.
- HexArgs.StrToL16: `long` is taken to be 32 bits wide, as on the 32-bit DOS target; `ParseSaturates` and `ParseNegated` rest on that width.
- The `crystal_hz` field and the clock conversions use floating point and are left out.
- Loading GPUS files (`GPUS_Load`), `nv_generic_tests.c` and `main_help.c` are not part of this model. The hooks are modelled for the two drivers, and each tag is modelled as a constant.
- File output of the dumps is left out. Whether the file opens and whether the buffer is allocated are parameters; the buffer contents are modelled.
- Command-line tokenising, the verb lookup in `Script_RunCommand` and `Command_Argv` are not part of this model. The model takes the tokens as given, and an index past the end reads as the empty string.
- The per-bit register field definitions of the two reference headers are left out; the driver code never uses them.
- Whether `mmio_*` reaches the Rage 128 registers through the BAR2 selector is assumed; the window is a byte map.
- The little-endian byte order of the windows is an assumption of the host model.
- The vendor, device and revision reads in both inits are only logged, so they are left out.
- The test functions are taken as given: `RunTest` and `Run` call them through the parameter `invoke`, which stands for `test_function()`.
- Voodoo3Core.Voodoo3Driver: `originalPciCommand` is a 16-bit value where the C field is `uint32_t`. Only a 16-bit command is ever stored in it.
- GpuPlay.TagOf: no round trip for arbitrary four-character strings is proved. Only the concrete tags and the byte-level round trips are proved.
- The report lines of both manufacture-information dumps are left out; the model returns the values they print.

## Findings

| source | as written | input that shows it | evidently intended | confidence | as-written member | corrected member |
|---|---|---|---|---|---|---|
| src/core/script/gpu_script_commands.c:87 (also 142, 174) | the `uint32_t` range counter steps by 4 (or 2) and wraps modulo 2^32 | `wmrange32 0 -1 0`: the end offset is 0xFFFFFFFF and the counter never exceeds 0xFFFFFFFC, so the loop never ends | the loop stops after the last block below the end offset | not executed | ScriptCommands.SourceLoopNeverExits, ScriptCommands.WrappingRangeExample | ScriptCommands.WriteMmioRange32, ScriptCommands.SourceStepAgrees |

The corrected halves use an unbounded offset: `Fill` makes the stores while
the offset is below the end, and the loop ends. `SourceStepAgrees` shows that
this is the source's step wherever the counter does not wrap.
`WriteVramRange16` and `WriteVramRange32` use the same correction.
