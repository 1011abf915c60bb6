/** Detection: the first registry row whose card is present becomes the bound device. */
module GpuDetect {
  import opened GpuPlay
  import opened GpuList

  /** Whether the probe (device id, vendor id) of row k answers present. */
  predicate Probe(present: (int, int) -> bool, k: nat)
    requires k < |SupportedDevices|
  {
    present(SupportedDevices[k].deviceId, SupportedDevices[k].vendorId)
  }

  /**
   * The row detection binds, scanning from row k: each row is probed in turn,
   * and the scan gives up after probing a row whose vendor id is zero.
   */
  function FirstHitFrom(present: (int, int) -> bool, k: nat): (hit: Option<nat>)
    ensures hit.Some? ==> k <= hit.value < |SupportedDevices| && Probe(present, hit.value)
    decreases |SupportedDevices| - k
  {
    if k >= |SupportedDevices| then None
    else if Probe(present, k) then Some(k)
    else if SupportedDevices[k].vendorId == 0 then None
    else FirstHitFrom(present, k + 1)
  }

  function FirstHit(present: (int, int) -> bool): (hit: Option<nat>)
    ensures hit.Some? ==> hit.value < |SupportedDevices| && Probe(present, hit.value)
  {
    FirstHitFrom(present, 0)
  }

  /**
   * The row found is the lowest-index row, up to and including the sentinel,
   * whose probe succeeds; no row is found only when every one of them fails.
   */
  lemma {:induction false} FirstHitFromIsLeast(present: (int, int) -> bool, k: nat)
    requires k <= SentinelIndex
    ensures FirstHitFrom(present, k).Some? ==>
      var h := FirstHitFrom(present, k).value;
      k <= h <= SentinelIndex && Probe(present, h)
      && forall j | k <= j < h :: !Probe(present, j)
    ensures FirstHitFrom(present, k).None? ==>
      forall j | k <= j <= SentinelIndex :: !Probe(present, j)
    decreases SentinelIndex - k
  {
    SentinelIsFirstZeroVendor();
    if !Probe(present, k) && k < SentinelIndex {
      FirstHitFromIsLeast(present, k + 1);
    }
  }

  lemma FirstHitIsLeast(present: (int, int) -> bool)
    ensures FirstHit(present).Some? ==>
      var h := FirstHit(present).value;
      h <= SentinelIndex && Probe(present, h) && forall j | 0 <= j < h :: !Probe(present, j)
    ensures FirstHit(present).None? ==> forall j | 0 <= j <= SentinelIndex :: !Probe(present, j)
  {
    FirstHitFromIsLeast(present, 0);
  }

  /** Probes that answer alike for every registry row lead to the same binding. */
  lemma {:induction false} SameProbesSameHit(p: (int, int) -> bool, q: (int, int) -> bool, k: nat)
    requires forall j | 0 <= j < |SupportedDevices| :: Probe(p, j) == Probe(q, j)
    ensures FirstHitFrom(p, k) == FirstHitFrom(q, k)
    decreases |SupportedDevices| - k
  {
    if k < |SupportedDevices| && !Probe(p, k) && SupportedDevices[k].vendorId != 0 {
      SameProbesSameHit(p, q, k + 1);
    }
  }

  /** When only the all-zero ids answer present, the sentinel row itself is bound. */
  lemma SentinelCanBeBound(present: (int, int) -> bool)
    requires forall d, v :: present(d, v) <==> d == 0 && v == 0
    ensures FirstHit(present) == Some(SentinelIndex)
  {
  }

  /** A Banshee next to a Voodoo3 is not chosen: the Voodoo3 row comes first. */
  lemma Voodoo3BeforeBanshee(present: (int, int) -> bool)
    requires present(PCI_DEVICE_VOODOO3, PCI_VENDOR_3DFX) && present(PCI_DEVICE_BANSHEE, PCI_VENDOR_3DFX)
    requires !present(PCI_DEVICE_RAGE128_PRO_PF, PCI_VENDOR_ATI)
    requires !present(PCI_DEVICE_RAGE128_PRO_PR, PCI_VENDOR_ATI)
    ensures FirstHit(present) == Some(2)
    ensures SupportedDevices[2].name == "3Dfx Voodoo3"
  {
  }

  /**
   * Scans the registry as detection does: the loop tests the vendor id of the
   * row loaded in the previous round, so the sentinel row is probed too.
   * Only the bound row of the device changes.
   */
  method Detect(dev: Device, present: (int, int) -> bool) returns (found: bool)
    modifies dev`deviceInfo
    ensures found <==> FirstHit(present).Some?
    ensures found ==> dev.deviceInfo == SupportedDevices[FirstHit(present).value]
    ensures !found ==> dev.deviceInfo == old(dev.deviceInfo)
  {
    SentinelIsFirstZeroVendor();
    var info := SupportedDevices[0];
    var i: nat := 0;
    while info.vendorId != 0
      invariant i <= SentinelIndex + 1
      invariant info == SupportedDevices[if i == 0 then 0 else i - 1]
      invariant i <= SentinelIndex || info.vendorId == 0
      invariant FirstHit(present) == FirstHitFrom(present, i)
      invariant dev.deviceInfo == old(dev.deviceInfo)
      decreases SentinelIndex + 1 - i
    {
      info := SupportedDevices[i];
      if present(info.deviceId, info.vendorId) {
        dev.deviceInfo := info;
        return true;
      }
      i := i + 1;
    }
    return false;
  }
}
