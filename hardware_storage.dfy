/** The storage devices of the profile (`_extract_storage_devices` and
    `_parse_storage_device`): every sized `disk` node, then every sized `disk`
    or `volume` child of a `storage` node. */
module HardwareStorage {
  import opened Wrappers
  import opened Text
  import opened Documents
  import opened HardwareParsers
  import opened HardwareTree
  import opened Sequences

  /** One entry of `storage_devices`; `size_gb` is kept in bytes. */
  datatype StorageDevice = StorageDevice(
    kind: string,
    description: Json,
    vendor: Option<string>,
    vendorId: Option<string>,
    model: Option<string>,
    deviceId: Option<string>,
    sizeBytes: int,
    version: Json,
    firmware: Json,
    businfo: Json)

  /** The text of a field read with a `""` default. */
  function AsText(v: Json): string {
    if v.JStr? then v.s else ""
  }

  /** The device type, from the bus address and the description, both
      lower-cased: the first of nvme, scsi, virtio and sata that matches, else
      unknown. */
  function StorageKind(businfo: string, description: string): (kind: string)
    ensures kind in ["nvme", "scsi", "virtio", "sata", "unknown"]
    ensures var bus, text := Lower(businfo), Lower(description);
      var nvme := Contains(bus, "nvme") || Contains(text, "nvme");
      var scsi := !nvme && Contains(bus, "scsi");
      var virtio := !nvme && !scsi && Contains(bus, "virtio");
      var sata := !nvme && !scsi && !virtio && (Contains(bus, "sata") || Contains(text, "ata"));
      && (kind == "nvme" <==> nvme)
      && (kind == "scsi" <==> scsi)
      && (kind == "virtio" <==> virtio)
      && (kind == "sata" <==> sata)
      && (kind == "unknown" <==> !nvme && !scsi && !virtio && !sata)
  {
    var bus := Lower(businfo);
    var text := Lower(description);
    if Contains(bus, "nvme") || Contains(text, "nvme") then "nvme"
    else if Contains(bus, "scsi") then "scsi"
    else if Contains(bus, "virtio") then "virtio"
    else if Contains(bus, "sata") || Contains(text, "ata") then "sata"
    else "unknown"
  }

  /** A description that mentions SATA is enough for the `sata` type (it
      contains `ata`), unless the bus address names another bus first; and the
      type is `unknown` only when no bus is named where the test looks for it. */
  lemma StorageKindOfSata(businfo: string, description: string)
    ensures var bus, text := Lower(businfo), Lower(description);
      var otherBus := Contains(bus, "nvme") || Contains(text, "nvme") || Contains(bus, "scsi") || Contains(bus, "virtio");
      && (Contains(text, "sata") && !otherBus ==> StorageKind(businfo, description) == "sata")
      && (StorageKind(businfo, description) == "unknown" ==>
           !otherBus && !Contains(bus, "sata") && !Contains(text, "sata") && !Contains(text, "ata"))
  {
    var text := Lower(description);
    if Contains(text, "sata") {
      ContainsTail(text, "sata", 1);
      assert "sata"[1..] == "ata";
    }
  }

  /** `firmware`, else the configuration's `firmware` when the node's own is
      falsy and the configuration (default `{}`) is a mapping. */
  function StorageFirmware(node: Json): Json {
    var firmware := GetOrNull(node, "firmware");
    var config := GetOr(node, "configuration", JObj([]));
    if config.JObj? && !Truthy(firmware) then GetOrNull(config, "firmware") else firmware
  }

  /** `_parse_storage_device`: `None` for a node without a size. */
  function StorageDeviceOf(node: Json): (r: Option<StorageDevice>)
    ensures r.None? <==> !Truthy(GetOrNull(node, "size"))
    ensures r.Some? ==>
      r.value.vendorId == FallbackId(ParseVendorString(TextOf(node, "vendor")).1, ParseProductString(TextOf(node, "product")).1)
  {
    var size := GetOrNull(node, "size");
    if !Truthy(size) then None
    else
      var businfo := GetOr(node, "businfo", JStr(""));
      var description := GetOr(node, "description", JStr(""));
      var vendor := ParseVendorString(TextOf(node, "vendor"));
      var product := ParseProductString(TextOf(node, "product"));
      Some(StorageDevice(
        StorageKind(AsText(businfo), AsText(description)),
        description, vendor.0, FallbackId(vendor.1, product.1), product.0, product.2,
        Number(size), GetOrNull(node, "version"), StorageFirmware(node), businfo))
  }

  /** The devices of some nodes, in order, sizeless ones dropped. */
  function Devices(nodes: seq<Json>): (r: seq<StorageDevice>)
    ensures |r| <= |nodes|
  {
    if |nodes| == 0 then []
    else
      var last := StorageDeviceOf(nodes[|nodes| - 1]);
      Devices(nodes[..|nodes| - 1]) + (if last.Some? then [last.value] else [])
  }

  /** The children of a storage controller that the second pass looks at. */
  predicate IsVolumeOrDisk(c: Json) {
    ClassIs(c, "volume") || ClassIs(c, "disk")
  }

  /** The devices of the sized volumes and disks among a controller's
      children, in order. */
  function ChildDevices(children: seq<Json>): (r: seq<StorageDevice>)
    ensures |r| <= |children|
  {
    if |children| == 0 then []
    else
      var last := children[|children| - 1];
      ChildDevices(children[..|children| - 1])
        + (if IsVolumeOrDisk(last) && StorageDeviceOf(last).Some? then [StorageDeviceOf(last).value] else [])
  }

  /** The devices the second pass finds under the storage controllers. */
  function ControllerDevices(controllers: seq<Json>): seq<StorageDevice> {
    if |controllers| == 0 then []
    else
      ControllerDevices(controllers[..|controllers| - 1])
        + ChildDevices(Children(controllers[|controllers| - 1]))
  }

  /** `_extract_storage_devices`. */
  function StorageDevicesOf(data: Json): seq<StorageDevice> {
    Devices(FindByClass(data, "disk")) + ControllerDevices(FindByClass(data, "storage"))
  }

  // ---------------------------------------------------------------------
  // Where a device ends up

  lemma {:induction false} DeviceInDevices(nodes: seq<Json>, k: nat)
    requires k < |nodes| && StorageDeviceOf(nodes[k]).Some?
    ensures StorageDeviceOf(nodes[k]).value in Devices(nodes)
  {
    if k < |nodes| - 1 {
      assert nodes[..|nodes| - 1][k] == nodes[k];
      DeviceInDevices(nodes[..|nodes| - 1], k);
    }
  }

  lemma {:induction false} ChildDeviceKept(children: seq<Json>, k: nat)
    requires k < |children| && IsVolumeOrDisk(children[k]) && StorageDeviceOf(children[k]).Some?
    ensures StorageDeviceOf(children[k]).value in ChildDevices(children)
  {
    if k < |children| - 1 {
      assert children[..|children| - 1][k] == children[k];
      ChildDeviceKept(children[..|children| - 1], k);
    }
  }

  lemma {:induction false} DeviceUnderController(controllers: seq<Json>, j: nat, d: StorageDevice)
    requires j < |controllers| && d in ChildDevices(Children(controllers[j]))
    ensures d in ControllerDevices(controllers)
  {
    if j < |controllers| - 1 {
      assert controllers[..|controllers| - 1][j] == controllers[j];
      DeviceUnderController(controllers[..|controllers| - 1], j, d);
    }
  }

  /** The disk search lists the device of every sized disk of the tree. */
  lemma InDiskPass(data: Json, disk: Json)
    requires disk in PreOrder(data) && ClassIs(disk, "disk") && StorageDeviceOf(disk).Some?
    ensures StorageDeviceOf(disk).value in Devices(FindByClass(data, "disk"))
  {
    var disks := FindByClass(data, "disk");
    FindByClassMembers(data, "disk", disk);
    var k :| 0 <= k < |disks| && disks[k] == disk;
    DeviceInDevices(disks, k);
  }

  /** The controller pass lists the device of every sized disk or volume
      directly under a storage node of the tree. */
  lemma InControllerPass(data: Json, controller: Json, child: Json)
    requires controller in PreOrder(data) && ClassIs(controller, "storage")
    requires child in Children(controller) && IsVolumeOrDisk(child) && StorageDeviceOf(child).Some?
    ensures StorageDeviceOf(child).value in ControllerDevices(FindByClass(data, "storage"))
  {
    var controllers := FindByClass(data, "storage");
    FindByClassMembers(data, "storage", controller);
    var j :| 0 <= j < |controllers| && controllers[j] == controller;
    var children := Children(controller);
    var c :| 0 <= c < |children| && children[c] == child;
    ChildDeviceKept(children, c);
    DeviceUnderController(controllers, j, StorageDeviceOf(child).value);
  }

  lemma InBothHalves<T>(first: seq<T>, second: seq<T>, x: T) returns (i: nat, j: nat)
    requires x in first && x in second
    ensures i < j < |first + second| && (first + second)[i] == x && (first + second)[j] == x
  {
    i :| 0 <= i < |first| && first[i] == x;
    var k :| 0 <= k < |second| && second[k] == x;
    j := |first| + k;
  }

  /** A sized `disk` that is a direct child of a `storage` node is listed
      twice: once by the search for disks and once again by the pass over the
      storage controllers' children. */
  lemma DiskUnderControllerListedTwice(data: Json, controller: Json, disk: Json)
    requires controller in PreOrder(data) && ClassIs(controller, "storage")
    requires disk in Children(controller) && ClassIs(disk, "disk")
    requires StorageDeviceOf(disk).Some?
    ensures var devices := StorageDevicesOf(data);
      exists i, j | 0 <= i < j < |devices| ::
        devices[i] == StorageDeviceOf(disk).value && devices[j] == StorageDeviceOf(disk).value
  {
    var d := StorageDeviceOf(disk).value;
    ChildInPreOrder(data, controller, disk);
    InDiskPass(data, disk);
    InControllerPass(data, controller, disk);
    var first, second := Devices(FindByClass(data, "disk")), ControllerDevices(FindByClass(data, "storage"));
    var i, j := InBothHalves(first, second, d);
    var devices := StorageDevicesOf(data);
    assert devices == first + second;
    assert devices[i] == d && devices[j] == d;
  }

  // ---------------------------------------------------------------------
  // The extraction loops

  /** Appends the device of each sized node, in order. */
  method AppendDevices(devices: seq<StorageDevice>, nodes: seq<Json>) returns (r: seq<StorageDevice>)
    ensures r == devices + Devices(nodes)
  {
    r := devices;
    var i := 0;
    while i < |nodes|
      invariant 0 <= i <= |nodes|
      invariant r == devices + Devices(nodes[..i])
    {
      r := AppendNode(devices, r, nodes, i);
      i := i + 1;
    }
    assert nodes[..i] == nodes;
  }

  /** The body of the loop over disk nodes. */
  method AppendNode(devices: seq<StorageDevice>, r: seq<StorageDevice>, nodes: seq<Json>, i: nat)
    returns (r': seq<StorageDevice>)
    requires i < |nodes| && r == devices + Devices(nodes[..i])
    ensures r' == devices + Devices(nodes[..i + 1])
  {
    assert nodes[..i + 1][..i] == nodes[..i];
    var info := StorageDeviceOf(nodes[i]);
    if info.Some? {
      r' := r + [info.value];
      ConcatAssociative(devices, Devices(nodes[..i]), [info.value]);
    } else {
      r' := r;
      assert Devices(nodes[..i]) + [] == Devices(nodes[..i]);
    }
  }

  /** The inner loop over one controller's children. */
  method AppendControllerDevices(devices: seq<StorageDevice>, controller: Json) returns (r: seq<StorageDevice>)
    ensures r == devices + ChildDevices(Children(controller))
  {
    var children := Children(controller);
    r := devices;
    var i := 0;
    while i < |children|
      invariant 0 <= i <= |children|
      invariant r == devices + ChildDevices(children[..i])
    {
      r := AppendChild(devices, r, children, i);
      i := i + 1;
    }
    assert children[..i] == children;
  }

  /** The body of the inner loop: a sized volume or disk is appended. */
  method AppendChild(devices: seq<StorageDevice>, r: seq<StorageDevice>, children: seq<Json>, i: nat)
    returns (r': seq<StorageDevice>)
    requires i < |children| && r == devices + ChildDevices(children[..i])
    ensures r' == devices + ChildDevices(children[..i + 1])
  {
    assert children[..i + 1][..i] == children[..i];
    var child := children[i];
    r' := r;
    ghost var appended := false;
    if ClassIs(child, "volume") || ClassIs(child, "disk") {
      var info := StorageDeviceOf(child);
      if info.Some? {
        r' := r + [info.value];
        appended := true;
        ConcatAssociative(devices, ChildDevices(children[..i]), [info.value]);
      }
    }
    if !appended {
      assert ChildDevices(children[..i]) + [] == ChildDevices(children[..i]);
    }
  }

  lemma DevicesAppendOne(nodes: seq<Json>, x: Json)
    ensures Devices(nodes + [x]) == Devices(nodes) + (if StorageDeviceOf(x).Some? then [StorageDeviceOf(x).value] else [])
  {
    assert (nodes + [x])[..|nodes|] == nodes;
  }

  /** `_extract_storage_devices`: the disks, then each controller's volumes and
      disks, appended to one list. */
  method ExtractStorageDevices(data: Json) returns (devices: seq<StorageDevice>)
    ensures devices == StorageDevicesOf(data)
  {
    var diskNodes := FindNodesByClass(data, "disk");
    var storageNodes := FindNodesByClass(data, "storage");
    devices := AppendDevices([], diskNodes);
    devices := AppendAllControllers(devices, storageNodes);
    assert [] + Devices(diskNodes) == Devices(diskNodes);
  }

  /** The outer loop over the storage controllers. */
  method AppendAllControllers(devices: seq<StorageDevice>, controllers: seq<Json>) returns (r: seq<StorageDevice>)
    ensures r == devices + ControllerDevices(controllers)
  {
    r := devices;
    var i := 0;
    while i < |controllers|
      invariant 0 <= i <= |controllers|
      invariant r == devices + ControllerDevices(controllers[..i])
    {
      r := AppendController(devices, r, controllers, i);
      i := i + 1;
    }
    assert controllers[..i] == controllers;
  }

  /** The body of the outer loop: one more controller's devices appended. */
  method AppendController(devices: seq<StorageDevice>, r: seq<StorageDevice>, controllers: seq<Json>, i: nat)
    returns (r': seq<StorageDevice>)
    requires i < |controllers| && r == devices + ControllerDevices(controllers[..i])
    ensures r' == devices + ControllerDevices(controllers[..i + 1])
  {
    assert controllers[..i + 1][..i] == controllers[..i];
    r' := AppendControllerDevices(r, controllers[i]);
    ConcatAssociative(devices, ControllerDevices(controllers[..i]), ChildDevices(Children(controllers[i])));
  }
}
