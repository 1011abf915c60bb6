/** The registry of supported cards, terminated by an all-zero row. */
module GpuList {
  import opened GpuPlay

  const SupportedDevices: seq<DeviceInfo> := [
    DeviceInfo(PCI_DEVICE_RAGE128_PRO_PF, PCI_VENDOR_ATI, "Rage 128 Pro (PF)",
               R128Init, R128Shutdown, R128SectionApplies, R128SectionParse),
    DeviceInfo(PCI_DEVICE_RAGE128_PRO_PR, PCI_VENDOR_ATI, "Rage 128 Pro (PR)",
               R128Init, R128Shutdown, R128SectionApplies, R128SectionParse),
    DeviceInfo(PCI_DEVICE_VOODOO3, PCI_VENDOR_3DFX, "3Dfx Voodoo3",
               Voodoo3Init, Voodoo3Shutdown, Voodoo3SectionApplies, Voodoo3SectionParse),
    DeviceInfo(PCI_DEVICE_BANSHEE, PCI_VENDOR_3DFX, "3Dfx Voodoo Banshee",
               Voodoo3Init, Voodoo3Shutdown, Voodoo3SectionApplies, Voodoo3SectionParse),
    EmptyDeviceInfo
  ]

  /** Index of the sentinel row. */
  const SentinelIndex: nat := 4

  /** Four real rows in the order Rage 128 Pro PF, PR, Voodoo3, Banshee, then the sentinel. */
  lemma RegistryLayout()
    ensures |SupportedDevices| == SentinelIndex + 1
    ensures SupportedDevices[0].deviceId == PCI_DEVICE_RAGE128_PRO_PF
    ensures SupportedDevices[1].deviceId == PCI_DEVICE_RAGE128_PRO_PR
    ensures SupportedDevices[2].deviceId == PCI_DEVICE_VOODOO3
    ensures SupportedDevices[3].deviceId == PCI_DEVICE_BANSHEE
    ensures forall k | 0 <= k < 2 :: SupportedDevices[k].vendorId == PCI_VENDOR_ATI
    ensures forall k | 2 <= k < 4 :: SupportedDevices[k].vendorId == PCI_VENDOR_3DFX
    ensures SupportedDevices[SentinelIndex] == EmptyDeviceInfo
  {
  }

  /** The sentinel is the first, and only, row whose vendor id is zero. */
  lemma SentinelIsFirstZeroVendor()
    ensures forall k | 0 <= k < SentinelIndex :: SupportedDevices[k].vendorId != 0
    ensures SupportedDevices[SentinelIndex].vendorId == 0
  {
  }

  /** The generic test ids equal the sentinel's ids. */
  lemma GenericIdsAreSentinelIds()
    ensures PCI_VENDOR_GENERIC == 0 && PCI_DEVICE_GENERIC == 0
    ensures SupportedDevices[SentinelIndex].vendorId == PCI_VENDOR_GENERIC
    ensures SupportedDevices[SentinelIndex].deviceId == PCI_DEVICE_GENERIC
  {
  }

  lemma IdPairsDistinct()
    ensures forall i, j | 0 <= i < j < SentinelIndex ::
      (SupportedDevices[i].vendorId, SupportedDevices[i].deviceId)
      != (SupportedDevices[j].vendorId, SupportedDevices[j].deviceId)
  {
  }

  /** ATI rows carry the Rage 128 driver, 3Dfx rows the Voodoo3 driver. */
  lemma DriversFollowVendor()
    ensures forall k | 0 <= k < SentinelIndex && SupportedDevices[k].vendorId == PCI_VENDOR_ATI ::
      SupportedDevices[k].initFunction == R128Init
      && SupportedDevices[k].shutdownFunction == R128Shutdown
      && SupportedDevices[k].gpusSectionApplies == R128SectionApplies
      && SupportedDevices[k].gpusSectionParse == R128SectionParse
    ensures forall k | 0 <= k < SentinelIndex && SupportedDevices[k].vendorId == PCI_VENDOR_3DFX ::
      SupportedDevices[k].initFunction == Voodoo3Init
      && SupportedDevices[k].shutdownFunction == Voodoo3Shutdown
      && SupportedDevices[k].gpusSectionApplies == Voodoo3SectionApplies
      && SupportedDevices[k].gpusSectionParse == Voodoo3SectionParse
  {
  }
}
