/** The flat hardware profile of one lshw document: `HardwareInfo`, its
    `parse`, and the module-level `normalize` that turns a `ValueError` into
    `None`. */
module HardwareProfile {
  import opened Wrappers
  import opened Documents
  import opened HardwareErrors
  import opened HardwareTree
  import opened HardwareSystem
  import opened HardwareCpu
  import opened HardwareMemory
  import opened HardwareStorage
  import opened HardwareNetwork
  import opened HardwarePci

  // ---------------------------------------------------------------------
  // `HardwareInfo.__init__`

  /** What the extractor keeps of its input: the `node` name and the `data`
      tree under the `hardware` wrapper. */
  datatype HardwareInfo = HardwareInfo(node: Json, data: Json)

  /** The input holds a `hardware` mapping. */
  predicate HasHardwareWrapper(raw: Json) {
    match Get(raw, "hardware")
    case Some(JObj(_)) => true
    case _ => false
  }

  /** `HardwareInfo.__init__`: the wrapper's `node` (empty text when missing)
      and `data` (an empty mapping when missing); a `ValueError` without the
      wrapper. */
  function HardwareInfoOf(raw: Json): (r: Result<HardwareInfo, ValueError>)
    ensures r.Failure? <==> !HasHardwareWrapper(raw)
    ensures r.Failure? ==> r.error == MissingHardwareWrapper
  {
    match Get(raw, "hardware")
    case Some(JObj(fields)) =>
      var wrapper := JObj(fields);
      Success(HardwareInfo(GetOr(wrapper, "node", JStr("")), GetOr(wrapper, "data", JObj([]))))
    case _ => Failure(MissingHardwareWrapper)
  }

  /** The wrapper gives back the name and the tree put into it, and their
      defaults when they are left out. */
  lemma HardwareInfoRoundTrip(node: Json, data: Json)
    ensures HardwareInfoOf(JObj([("hardware", JObj([("node", node), ("data", data)]))]))
      == Success(HardwareInfo(node, data))
    ensures HardwareInfoOf(JObj([("hardware", JObj([]))])) == Success(HardwareInfo(JStr(""), JObj([])))
  {
    var fields := [("node", node), ("data", data)];
    assert fields[1..] == [("data", data)];
    assert Lookup(fields, "data") == Lookup([("data", data)], "data");
  }

  // ---------------------------------------------------------------------
  // `HardwareInfo.parse`

  /** The flat profile: `node`, the system, BIOS, CPU and memory keys, the
      storage devices, the network interfaces and the five PCI lists. */
  datatype Profile = Profile(
    node: Json,
    system: SystemInfo,
    bios: BiosInfo,
    cpu: CpuInfo,
    memory: MemoryInfo,
    storageDevices: seq<StorageDevice>,
    networkInterfaces: seq<NetworkInterface>,
    pci: PciDevices)

  /** `parse`: the sections in the order the source fills them; the CPU
      section is the only one that can raise. */
  function ProfileOf(info: HardwareInfo): (r: Result<Profile, ValueError>)
    ensures r.Failure? <==> CpuInfoOf(info.data).Failure?
  {
    var data := info.data;
    match CpuInfoOf(data)
    case Failure(e) => Failure(e)
    case Success(cpu) =>
      Success(Profile(
        info.node, SystemInfoOf(data), BiosInfoOf(data), cpu, MemoryInfoOf(data),
        StorageDevicesOf(data), NetworkInterfacesOf(data), PciDevicesOf(data)))
  }

  /** A tree that is a bare `system` root without children has no
      processor, no memory, no device and no interface: zero sockets and zero
      bytes. */
  lemma BareRootProfile(node: Json, data: Json)
    requires data.JObj? && Children(data) == [] && ClassIs(data, "system")
    ensures ProfileOf(HardwareInfo(node, data)).Success?
    ensures var p := ProfileOf(HardwareInfo(node, data)).value;
      && p.node == node && p.cpu.sockets == 0 && p.cpu.totalCores == 0
      && p.memory.totalBytes == 0 && p.memory.dimmCount == 0
      && p.networkInterfaces == [] && p.storageDevices == []
  {
    assert PreOrder(data) == [data];
    NoProcessors(data);
    assert FindByClass(data, "memory") == [];
    assert FindByClass(data, "network") == [];
    assert FindByClass(data, "disk") == [];
    assert FindByClass(data, "storage") == [];
  }

  /** `parse`, calling each extractor in turn. */
  method Parse(info: HardwareInfo) returns (r: Result<Profile, ValueError>)
    ensures r == ProfileOf(info)
  {
    var data := info.data;
    var system := SystemInfoOf(data);
    var bios := BiosInfoOf(data);
    var cpu := ExtractCpuInfo(data);
    if cpu.Failure? {
      return Failure(cpu.error);
    }
    var memory := ExtractMemoryInfo(data);
    var storage := ExtractStorageDevices(data);
    var network := ExtractNetworkInterfaces(data);
    var pci := ExtractPciDevices(data);
    r := Success(Profile(info.node, system, bios, cpu.value, memory, storage, network, pci));
  }

  // ---------------------------------------------------------------------
  // Module-level `normalize`

  /** `normalize`: the profile, or `None` when construction or parsing raises
      a `ValueError`. */
  function Normalize(raw: Json): Option<Profile> {
    match HardwareInfoOf(raw)
    case Failure(_) => None
    case Success(info) =>
      match ProfileOf(info)
      case Failure(_) => None
      case Success(p) => Some(p)
  }

  /** `normalize` gives `None` exactly when the `hardware` wrapper is missing
      or some processor of the tree has a cores or threads text that is not an
      integer; otherwise its profile carries the wrapper's node name. */
  lemma NormalizeFails(raw: Json)
    ensures Normalize(raw).None? <==>
      (!HasHardwareWrapper(raw)
       || exists n | n in PreOrder(HardwareInfoOf(raw).value.data) ::
            ClassIs(n, "processor") && CpuCounts(n).Failure?)
    ensures Normalize(raw).Some? ==> Normalize(raw).value.node == HardwareInfoOf(raw).value.node
  {
    if HasHardwareWrapper(raw) {
      CpuInfoFails(HardwareInfoOf(raw).value.data);
    }
  }

  /** `normalize`: construction, then `parse`, with a `ValueError` from
      either caught. */
  method NormalizeHardware(raw: Json) returns (r: Option<Profile>)
    ensures r == Normalize(raw)
  {
    var info := HardwareInfoOf(raw);
    if info.Failure? {
      return None;
    }
    var profile := Parse(info.value);
    if profile.Failure? {
      return None;
    }
    r := Some(profile.value);
  }
}
