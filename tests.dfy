/** The test registry: which tests exist for which card, and running a selected test. */
module Tests {
  import opened GpuPlay

  /** The test handlers a row can name; NullTest is NULL. */
  datatype TestFunction =
    | NullTest
    | NvGenericDumpPciSpace
    | NvGenericDumpMmio
    | NvGenericDumpVbios
    | R128DumpMfgInfo
    | R128DumpMmio
    | Voodoo3DumpMfgInfo
    | Voodoo3DumpMmio

  datatype TestRow = TestRow(
    requiredVendorId: int,
    requiredDeviceId: int,
    name: string,
    description: string,
    testFunction: TestFunction)

  const NvTests: seq<TestRow> := [
    TestRow(PCI_VENDOR_GENERIC, PCI_DEVICE_GENERIC, "NV_DumpPCI", "NV Generic - Dump PCI", NvGenericDumpPciSpace),
    TestRow(PCI_VENDOR_GENERIC, PCI_DEVICE_GENERIC, "NV_DumpMMIO", "NV Generic - Dump MMIO", NvGenericDumpMmio),
    TestRow(PCI_VENDOR_GENERIC, PCI_DEVICE_GENERIC, "NV_DumpVBIOS", "NV Generic - Dump VBIOS", NvGenericDumpVbios),
    TestRow(PCI_VENDOR_ATI, PCI_DEVICE_RAGE128_PRO_PF, "R128_DumpMfgInfo", "Rage128 Pro PF - Dump Mfg Info", R128DumpMfgInfo),
    TestRow(PCI_VENDOR_ATI, PCI_DEVICE_RAGE128_PRO_PF, "R128_DumpMMIO", "Rage128 Pro PF - Dump MMIO", R128DumpMmio),
    TestRow(PCI_VENDOR_ATI, PCI_DEVICE_RAGE128_PRO_PR, "R128_DumpMfgInfo", "Rage128 Pro PR - Dump Mfg Info", R128DumpMfgInfo),
    TestRow(PCI_VENDOR_ATI, PCI_DEVICE_RAGE128_PRO_PR, "R128_DumpMMIO", "Rage128 Pro PR - Dump MMIO", R128DumpMmio),
    TestRow(PCI_VENDOR_3DFX, PCI_DEVICE_VOODOO3, "Voodoo3_DumpMfgInfo", "Voodoo3 - Dump Mfg Info", Voodoo3DumpMfgInfo),
    TestRow(PCI_VENDOR_3DFX, PCI_DEVICE_VOODOO3, "Voodoo3_DumpMMIO", "Voodoo3 - Dump MMIO", Voodoo3DumpMmio),
    TestRow(PCI_VENDOR_3DFX, PCI_DEVICE_BANSHEE, "Voodoo3_DumpMfgInfo", "Voodoo Banshee - Dump Mfg Info", Voodoo3DumpMfgInfo),
    TestRow(PCI_VENDOR_3DFX, PCI_DEVICE_BANSHEE, "Voodoo3_DumpMMIO", "Voodoo Banshee - Dump MMIO", Voodoo3DumpMmio),
    TestRow(0x0000, 0x0000, "", "", NullTest)
  ]

  /** Row k is reached by the scan: no row up to and including it has a NULL handler. */
  predicate Scanned(k: int)
    requires 0 <= k < |NvTests|
  {
    forall j | 0 <= j <= k :: NvTests[j].testFunction != NullTest
  }

  predicate Matches(row: TestRow, name: string, vendorId: int, deviceId: int)
  {
    row.name == name && row.requiredVendorId == vendorId && row.requiredDeviceId == deviceId
  }

  /** Some scanned row carries the name and requires exactly these ids. */
  predicate Available(name: string, vendorId: int, deviceId: int)
  {
    exists k | 0 <= k < |NvTests| :: Scanned(k) && Matches(NvTests[k], name, vendorId, deviceId)
  }

  /** The scan stops at row 11, the first one with a NULL handler. */
  lemma ScannedRows()
    ensures forall k | 0 <= k < |NvTests| :: Scanned(k) <==> k < 11
  {
    assert NvTests[11].testFunction == NullTest;
  }

  /**
   * Looks the test up in the static table for the bound device, as the
   * availability check does, stopping at the first row with a NULL handler.
   */
  method IsAvailableForGpu(dev: Device, testName: string) returns (available: bool)
    ensures available <==> Available(testName, dev.deviceInfo.vendorId, dev.deviceInfo.deviceId)
  {
    var vendorId := dev.deviceInfo.vendorId;
    var deviceId := dev.deviceInfo.deviceId;
    var testNumber := 0;
    var test := NvTests[testNumber];
    while test.testFunction != NullTest
      invariant 0 <= testNumber < |NvTests|
      invariant test == NvTests[testNumber]
      invariant forall j | 0 <= j < testNumber :: NvTests[j].testFunction != NullTest
      invariant forall j | 0 <= j < testNumber :: !Matches(NvTests[j], testName, vendorId, deviceId)
      decreases |NvTests| - testNumber
    {
      if test.name == testName && vendorId == test.requiredVendorId && deviceId == test.requiredDeviceId {
        assert Scanned(testNumber);
        return true;
      }
      testNumber := testNumber + 1;
      test := NvTests[testNumber];
    }
    available := false;
    assert forall k | 0 <= k < |NvTests| && Scanned(k) :: k < testNumber;
  }

  /** A generic test is available exactly when both bound ids are zero. */
  lemma GenericTestsNeedZeroIds(name: string, vendorId: int, deviceId: int)
    requires name == "NV_DumpPCI" || name == "NV_DumpMMIO" || name == "NV_DumpVBIOS"
    ensures Available(name, vendorId, deviceId) <==> vendorId == 0 && deviceId == 0
  {
    ScannedRows();
    if vendorId == 0 && deviceId == 0 {
      var k := if name == "NV_DumpPCI" then 0 else if name == "NV_DumpMMIO" then 1 else 2;
      assert Matches(NvTests[k], name, vendorId, deviceId);
    }
  }

  /** A Rage 128 Pro sees exactly its two tests. */
  lemma Rage128Tests(name: string, deviceId: int)
    requires deviceId == PCI_DEVICE_RAGE128_PRO_PF || deviceId == PCI_DEVICE_RAGE128_PRO_PR
    ensures Available(name, PCI_VENDOR_ATI, deviceId) <==>
              name == "R128_DumpMfgInfo" || name == "R128_DumpMMIO"
  {
    ScannedRows();
    var base := if deviceId == PCI_DEVICE_RAGE128_PRO_PF then 3 else 5;
    if name == "R128_DumpMfgInfo" {
      assert Matches(NvTests[base], name, PCI_VENDOR_ATI, deviceId);
    } else if name == "R128_DumpMMIO" {
      assert Matches(NvTests[base + 1], name, PCI_VENDOR_ATI, deviceId);
    }
  }

  /** A Voodoo3 or a Banshee sees exactly its two tests. */
  lemma Voodoo3Tests(name: string, deviceId: int)
    requires deviceId == PCI_DEVICE_VOODOO3 || deviceId == PCI_DEVICE_BANSHEE
    ensures Available(name, PCI_VENDOR_3DFX, deviceId) <==>
              name == "Voodoo3_DumpMfgInfo" || name == "Voodoo3_DumpMMIO"
  {
    ScannedRows();
    var base := if deviceId == PCI_DEVICE_VOODOO3 then 7 else 9;
    if name == "Voodoo3_DumpMfgInfo" {
      assert Matches(NvTests[base], name, PCI_VENDOR_3DFX, deviceId);
    } else if name == "Voodoo3_DumpMMIO" {
      assert Matches(NvTests[base + 1], name, PCI_VENDOR_3DFX, deviceId);
    }
  }

  /** Names resolve by ids: with a Voodoo3 bound, the Rage 128 test of the same kind is unavailable. */
  lemma Voodoo3CannotRunR128Test()
    ensures !Available("R128_DumpMfgInfo", PCI_VENDOR_3DFX, PCI_DEVICE_VOODOO3)
    ensures Available("Voodoo3_DumpMfgInfo", PCI_VENDOR_3DFX, PCI_DEVICE_VOODOO3)
  {
    Voodoo3Tests("R128_DumpMfgInfo", PCI_DEVICE_VOODOO3);
    Voodoo3Tests("Voodoo3_DumpMfgInfo", PCI_DEVICE_VOODOO3);
  }

  /**
   * The scan ends at the NULL handler, not at zero ids: the zero-id generic
   * rows are passed over, and the sentinel row is never matched although its
   * name and ids would match.
   */
  lemma ScanEndsAtNullHandler()
    ensures Matches(NvTests[|NvTests| - 1], "", 0, 0)
    ensures !Available("", 0, 0)
    ensures Available("R128_DumpMMIO", PCI_VENDOR_ATI, PCI_DEVICE_RAGE128_PRO_PF)
  {
    ScannedRows();
    assert Matches(NvTests[4], "R128_DumpMMIO", PCI_VENDOR_ATI, PCI_DEVICE_RAGE128_PRO_PF);
  }

  // ---------------------------------------------------------------------
  // The loaded test list

  /** The contents of one loaded test list entry. */
  datatype TestEntry = TestEntry(name: string, testFunction: TestFunction)

  /** The index of the first entry called name, if any. */
  function FindTest(tests: seq<TestEntry>, name: string): (r: Option<nat>)
    ensures r.Some? ==> r.value < |tests| && tests[r.value].name == name
  {
    if |tests| == 0 then None
    else if tests[0].name == name then Some(0)
    else
      var r := FindTest(tests[1..], name);
      if r.Some? then Some(r.value + 1) else None
  }

  lemma {:induction false} FindTestIsFirst(tests: seq<TestEntry>, name: string)
    ensures FindTest(tests, name).None? <==> forall i | 0 <= i < |tests| :: tests[i].name != name
    ensures FindTest(tests, name).Some? ==>
              forall i | 0 <= i < FindTest(tests, name).value :: tests[i].name != name
  {
    if |tests| > 0 && tests[0].name != name {
      FindTestIsFirst(tests[1..], name);
      assert forall i | 1 <= i < |tests| :: tests[i] == tests[1..][i - 1];
    }
  }

  class ConfigTestEntry {
    var name: string
    var testFunction: TestFunction
    var next: ConfigTestEntry?
  }

  /** The node reached from n by following next k times, or null once the list ends. */
  ghost function Walk(n: ConfigTestEntry?, k: nat): ConfigTestEntry?
    reads *
    decreases k
  {
    if k == 0 || n == null then n else Walk(n.next, k - 1)
  }

  /** The singly linked list of tests the configuration loaded, from its head. */
  class TestList {
    var head: ConfigTestEntry?
    ghost var entries: seq<ConfigTestEntry>

    ghost predicate Valid()
      reads this, entries
    {
      (if |entries| == 0 then head == null else head == entries[0])
      && forall i | 0 <= i < |entries| ::
           entries[i].next == if i + 1 < |entries| then entries[i + 1] else null
    }

    ghost function Contents(): (c: seq<TestEntry>)
      reads this, entries
      ensures |c| == |entries|
      ensures forall i | 0 <= i < |entries| ::
                c[i] == TestEntry(entries[i].name, entries[i].testFunction)
    {
      seq(|entries|, i requires 0 <= i < |entries| reads this, entries =>
        TestEntry(entries[i].name, entries[i].testFunction))
    }

    /** Node i of the list, or null past its end. */
    ghost function At(i: nat): ConfigTestEntry?
      reads this
    {
      if i < |entries| then entries[i] else null
    }

    /**
     * Contents is the list as read from its head: following next k times
     * reaches the node Contents()[k] describes, and the list ends after
     * |Contents()| nodes.
     */
    lemma ContentsFromHead(k: nat)
      requires Valid()
      ensures k < |Contents()| ==>
                Walk(head, k) != null
                && Contents()[k] == TestEntry(Walk(head, k).name, Walk(head, k).testFunction)
      ensures Walk(head, |Contents()|) == null
    {
      if k < |entries| {
        WalkFrom(0, k);
      }
      WalkFrom(0, |entries|);
    }

    lemma {:induction false} WalkFrom(i: nat, j: nat)
      requires Valid() && i + j <= |entries|
      ensures Walk(At(i), j) == At(i + j)
      decreases j
    {
      if j > 0 {
        assert entries[i].next == if i + 1 < |entries| then entries[i + 1] else null;
        assert Walk(At(i), j) == Walk(At(i + 1), j - 1);
        WalkFrom(i + 1, j - 1);
      }
    }
  }

  /** Walks the list from its head and returns the first entry called testName, or null. */
  method Get(tests: TestList, testName: string) returns (entry: ConfigTestEntry?)
    requires tests.Valid()
    ensures entry == null <==> FindTest(tests.Contents(), testName).None?
    ensures entry != null ==> entry == tests.entries[FindTest(tests.Contents(), testName).value]
  {
    FindTestIsFirst(tests.Contents(), testName);
    entry := tests.head;
    ghost var k := 0;
    while entry != null
      invariant 0 <= k <= |tests.entries|
      invariant entry == if k < |tests.entries| then tests.entries[k] else null
      invariant forall j | 0 <= j < k :: tests.entries[j].name != testName
      decreases |tests.entries| - k
    {
      if entry.name == testName {
        assert forall j | 0 <= j < k :: tests.Contents()[j].name != testName;
        FindTestAt(tests.Contents(), testName, k);
        return;
      }
      entry := entry.next;
      k := k + 1;
    }
  }

  lemma {:induction false} FindTestAt(tests: seq<TestEntry>, name: string, k: nat)
    requires k < |tests| && tests[k].name == name
    requires forall j | 0 <= j < k :: tests[j].name != name
    ensures FindTest(tests, name) == Some(k)
  {
    if k > 0 {
      FindTestAt(tests[1..], name, k - 1);
    }
  }

  /**
   * Runs a selected test: the result of its handler, or false when it has
   * none. invoke stands for calling a handler.
   */
  method Run(test: ConfigTestEntry, invoke: TestFunction -> bool) returns (success: bool)
    ensures test.testFunction == NullTest ==> !success
    ensures test.testFunction != NullTest ==> success == invoke(test.testFunction)
  {
    if test.testFunction != NullTest {
      success := invoke(test.testFunction);
      return;
    }
    return false;
  }
}
