/** The PCI part of the profile (`_extract_pci_devices`): every mapping node of
    the tree whose bus address starts with `pci@` is sorted into one of five
    lists, storage, network, usb, accelerator or other, unless its class is
    one that other parts of the profile describe. */
module HardwarePci {
  import opened Wrappers
  import opened Text
  import opened Documents
  import opened HardwareParsers
  import opened HardwareTree
  import opened HardwareNetwork
  import opened Sequences

  // ---------------------------------------------------------------------
  // `_categorize_pci_device`

  /** The five keys of the dictionary the devices are sorted into. */
  datatype PciCategory = Storage | Network | Usb | Accelerator | Other

  /** Classes left to the processor, memory, storage and system summaries. */
  predicate IsSkippedClass(node: Json) {
    ClassIs(node, "processor") || ClassIs(node, "memory") || ClassIs(node, "disk") || ClassIs(node, "system")
  }

  /** The words that mark an accelerator (5G RAN, FPGA, GPU compute) in the
      lower-cased description. */
  const AcceleratorKeywords: seq<string> :=
    ["accelerator", "processing accelerators", "fpga", "programmable logic",
     "3d controller", "gpu", "signal processing", "dsp"]

  predicate MentionsAccelerator(description: string) {
    exists k | 0 <= k < |AcceleratorKeywords| :: Contains(description, AcceleratorKeywords[k])
  }

  /** The description as the categorisation reads it: lower-cased, empty when
      missing. */
  function LowerDescription(node: Json): string {
    Lower(TextOr(node, "description", ""))
  }

  /** `_categorize_pci_device`: `None` for a skipped class; otherwise network
      by class, then accelerator by description, then storage by class, then
      usb for a bus whose description says so, else other. */
  function CategorizePciDevice(node: Json): (r: Option<PciCategory>)
    ensures r.None? <==> IsSkippedClass(node)
    ensures ClassIs(node, "network") ==> r == Some(Network)
    ensures r == Some(Network) ==> ClassIs(node, "network")
    ensures r == Some(Accelerator) <==> !IsSkippedClass(node) && !ClassIs(node, "network") && MentionsAccelerator(LowerDescription(node))
    ensures r == Some(Storage) ==> ClassIs(node, "storage") && !MentionsAccelerator(LowerDescription(node))
    ensures r == Some(Usb) ==> ClassIs(node, "bus") && Contains(LowerDescription(node), "usb")
  {
    var description := LowerDescription(node);
    if IsSkippedClass(node) then None
    else if ClassIs(node, "network") then Some(Network)
    else if MentionsAccelerator(description) then Some(Accelerator)
    else if ClassIs(node, "storage") then Some(Storage)
    else if Contains(description, "usb") && ClassIs(node, "bus") then Some(Usb)
    else Some(Other)
  }

  /** No class outside the four skipped ones is dropped, and the `bridge`,
      `display`, `multimedia`, `generic` and unknown classes all land in other
      unless the description names an accelerator; a storage controller is an
      accelerator when its description says so. */
  lemma CategoryOfClass(node: Json)
    ensures !IsSkippedClass(node) ==> CategorizePciDevice(node).Some?
    ensures ClassIs(node, "storage") ==>
      CategorizePciDevice(node) == (if MentionsAccelerator(LowerDescription(node)) then Some(Accelerator) else Some(Storage))
    ensures !IsSkippedClass(node) && !ClassIs(node, "network") && !ClassIs(node, "storage") && !ClassIs(node, "bus")
      ==> CategorizePciDevice(node) == (if MentionsAccelerator(LowerDescription(node)) then Some(Accelerator) else Some(Other))
    ensures ClassIs(node, "bus") ==>
      var description := LowerDescription(node);
      CategorizePciDevice(node) ==
        (if MentionsAccelerator(description) then Some(Accelerator)
         else if Contains(description, "usb") then Some(Usb)
         else Some(Other))
  {
  }

  /** Text that contains a word contains every piece of the word. */
  lemma ContainsPiece(s: string, w: string, i: nat, j: nat)
    requires Contains(s, w) && i <= j <= |w|
    ensures Contains(s, w[i..j])
  {
    var at := ContainsWitness(s, w);
    forall m | 0 <= m < j - i
      ensures s[at + i..at + j][m] == w[i..j][m]
    {
      assert s[at..at + |w|][i + m] == w[i + m];
    }
    assert s[at + i..at + j] == w[i..j];
    ContainsAt(s, w[i..j], at + i);
  }

  /** The keyword `processing accelerators` never decides anything: every
      description that contains it also contains `accelerator`. */
  lemma ProcessingAcceleratorsRedundant(description: string)
    requires Contains(description, "processing accelerators")
    ensures Contains(description, "accelerator")
  {
    ContainsPiece(description, "processing accelerators", 11, 22);
    assert "processing accelerators"[11..22] == "accelerator";
  }

  // ---------------------------------------------------------------------
  // `_parse_pci_device`

  /** The entry of one PCI device. */
  datatype PciDevice = PciDevice(
    description: Json,
    vendor: Option<string>,
    vendorId: Option<string>,
    model: Option<string>,
    deviceId: Option<string>,
    subvendorId: Option<string>,
    subdeviceId: Option<string>,
    isVirtualFunction: bool,
    businfo: Json,
    logicalName: Json)

  /** `_parse_pci_device`. */
  function PciDeviceOf(node: Json): PciDevice {
    var vendor := ParseVendorString(TextOf(node, "vendor"));
    var product := ParseProductString(TextOf(node, "product"));
    var config := GetOr(node, "configuration", JObj([]));
    var businfo := GetOr(node, "businfo", JStr(""));
    PciDevice(
      GetOr(node, "description", JStr("")),
      vendor.0, FallbackId(vendor.1, product.1), product.0, product.2,
      SubsystemOf(config, "subvendor", "vendor"), SubsystemOf(config, "subdevice", "device"),
      IsVirtualFunction(BusText(businfo)),
      businfo,
      GetOrNull(node, "logicalname"))
  }

  /** The device entry agrees with the interface entry of the same node on
      every field both have. */
  lemma DeviceMatchesInterface(node: Json)
    ensures var d, i := PciDeviceOf(node), NetworkInterfaceOf(node);
      && d.description == i.description && d.vendor == i.vendor && d.vendorId == i.vendorId
      && d.model == i.model && d.deviceId == i.deviceId
      && d.subvendorId == i.subvendorId && d.subdeviceId == i.subdeviceId
      && d.isVirtualFunction == i.isVirtualFunction && d.businfo == i.businfo
  {
  }

  // ---------------------------------------------------------------------
  // The traversal as a specification

  /** Only nodes whose bus address starts with `pci@` are considered. */
  predicate IsPciNode(node: Json) {
    StartsWith(TextOr(node, "businfo", ""), "pci@")
  }

  /** What one node contributes: its category and entry when it is a PCI
      device that is not skipped. */
  function OwnEntry(node: Json): (r: seq<(PciCategory, PciDevice)>)
    ensures |r| <= 1
    ensures |r| == 1 <==> IsPciNode(node) && !IsSkippedClass(node)
  {
    if IsPciNode(node) then
      match CategorizePciDevice(node)
      case Some(c) => [(c, PciDeviceOf(node))]
      case None => []
    else []
  }

  /** The devices `_categorize_pci_recursive` appends, with their categories,
      in the order it appends them. */
  function PciEntries(node: Json): seq<(PciCategory, PciDevice)>
    decreases Size(node), 1
  {
    if !node.JObj? then []
    else
      ChildrenSmaller(node);
      OwnEntry(node) + PciEntriesList(Children(node))
  }

  function PciEntriesList(items: seq<Json>): seq<(PciCategory, PciDevice)>
    decreases ItemsSize(items), 2
  {
    if |items| == 0 then []
    else
      TailSmaller(items);
      PciEntries(items[0]) + PciEntriesList(items[1..])
  }

  /** The entries of a list of nodes, node by node. */
  function EntriesOf(nodes: seq<Json>): seq<(PciCategory, PciDevice)> {
    if |nodes| == 0 then [] else OwnEntry(nodes[0]) + EntriesOf(nodes[1..])
  }

  lemma {:induction false} EntriesOfAppend(a: seq<Json>, b: seq<Json>)
    ensures EntriesOf(a + b) == EntriesOf(a) + EntriesOf(b)
  {
    if |a| > 0 {
      assert (a + b)[1..] == a[1..] + b;
      EntriesOfAppend(a[1..], b);
      ConcatAssociative(OwnEntry(a[0]), EntriesOf(a[1..]), EntriesOf(b));
    } else {
      assert a + b == b;
    }
  }

  /** The traversal visits the nodes in pre-order. */
  lemma {:induction false} PciEntriesIsPreOrder(node: Json)
    ensures PciEntries(node) == EntriesOf(PreOrder(node))
    decreases Size(node), 1
  {
    if node.JObj? {
      ChildrenSmaller(node);
      PciEntriesListIsPreOrder(Children(node));
      EntriesOfAppend([node], PreOrderList(Children(node)));
      assert EntriesOf([node]) == OwnEntry(node) + EntriesOf([]);
    }
  }

  lemma {:induction false} PciEntriesListIsPreOrder(items: seq<Json>)
    ensures PciEntriesList(items) == EntriesOf(PreOrderList(items))
    decreases ItemsSize(items), 2
  {
    if |items| > 0 {
      TailSmaller(items);
      PciEntriesIsPreOrder(items[0]);
      PciEntriesListIsPreOrder(items[1..]);
      EntriesOfAppend(PreOrder(items[0]), PreOrderList(items[1..]));
    }
  }

  /** An entry comes from exactly one node of the list, and every PCI node of
      a kept class gives one. */
  lemma {:induction false} EntriesOfMembers(nodes: seq<Json>, c: PciCategory, d: PciDevice)
    ensures (c, d) in EntriesOf(nodes) <==>
      exists k | 0 <= k < |nodes| :: OwnEntry(nodes[k]) == [(c, d)]
  {
    if |nodes| > 0 {
      EntriesOfMembers(nodes[1..], c, d);
      if (c, d) in EntriesOf(nodes[1..]) {
        var k :| 0 <= k < |nodes[1..]| && OwnEntry(nodes[1..][k]) == [(c, d)];
        assert OwnEntry(nodes[k + 1]) == [(c, d)];
      }
      if exists k | 0 <= k < |nodes| :: OwnEntry(nodes[k]) == [(c, d)] {
        var k :| 0 <= k < |nodes| && OwnEntry(nodes[k]) == [(c, d)];
        if k > 0 {
          assert nodes[1..][k - 1] == nodes[k];
        }
      }
    }
  }

  lemma {:induction false} PciEntriesListAppend(items: seq<Json>, x: Json)
    ensures PciEntriesList(items + [x]) == PciEntriesList(items) + PciEntries(x)
    decreases |items|
  {
    if |items| == 0 {
      assert PciEntriesList([x]) == PciEntries(x) + PciEntriesList([]);
    } else {
      assert (items + [x])[1..] == items[1..] + [x];
      PciEntriesListAppend(items[1..], x);
      ConcatAssociative(PciEntries(items[0]), PciEntriesList(items[1..]), PciEntries(x));
    }
  }

  // ---------------------------------------------------------------------
  // The five lists

  /** The devices of one category, in order. */
  function InCategory(entries: seq<(PciCategory, PciDevice)>, c: PciCategory): (r: seq<PciDevice>)
    ensures |r| <= |entries|
  {
    if |entries| == 0 then []
    else (if entries[0].0 == c then [entries[0].1] else []) + InCategory(entries[1..], c)
  }

  lemma {:induction false} InCategoryAppend(a: seq<(PciCategory, PciDevice)>, b: seq<(PciCategory, PciDevice)>, c: PciCategory)
    ensures InCategory(a + b, c) == InCategory(a, c) + InCategory(b, c)
  {
    if |a| > 0 {
      assert (a + b)[1..] == a[1..] + b;
      InCategoryAppend(a[1..], b, c);
      ConcatAssociative(if a[0].0 == c then [a[0].1] else [], InCategory(a[1..], c), InCategory(b, c));
    } else {
      assert a + b == b;
    }
  }

  /** A device is in a category's list exactly when it was entered under that
      category. */
  lemma {:induction false} InCategoryMembers(entries: seq<(PciCategory, PciDevice)>, c: PciCategory, d: PciDevice)
    ensures d in InCategory(entries, c) <==> (c, d) in entries
  {
    if |entries| > 0 {
      InCategoryMembers(entries[1..], c, d);
      assert entries == [entries[0]] + entries[1..];
    }
  }

  /** The result of `_extract_pci_devices`. */
  datatype PciDevices = PciDevices(
    storage: seq<PciDevice>,
    network: seq<PciDevice>,
    usb: seq<PciDevice>,
    accelerator: seq<PciDevice>,
    other: seq<PciDevice>)

  const NoPciDevices: PciDevices := PciDevices([], [], [], [], [])

  /** The list a category names. */
  function Bucket(devices: PciDevices, c: PciCategory): seq<PciDevice> {
    match c
    case Storage => devices.storage
    case Network => devices.network
    case Usb => devices.usb
    case Accelerator => devices.accelerator
    case Other => devices.other
  }

  function TotalCount(devices: PciDevices): nat {
    |devices.storage| + |devices.network| + |devices.usb| + |devices.accelerator| + |devices.other|
  }

  /** Five lists with some entries appended, each to the list of its
      category. */
  function Place(devices: PciDevices, entries: seq<(PciCategory, PciDevice)>): (r: PciDevices)
    ensures forall c :: Bucket(r, c) == Bucket(devices, c) + InCategory(entries, c)
  {
    PciDevices(
      devices.storage + InCategory(entries, Storage),
      devices.network + InCategory(entries, Network),
      devices.usb + InCategory(entries, Usb),
      devices.accelerator + InCategory(entries, Accelerator),
      devices.other + InCategory(entries, Other))
  }

  /** The lists with one device added to the end of one of them. */
  function WithAppended(devices: PciDevices, c: PciCategory, d: PciDevice): PciDevices {
    match c
    case Storage => devices.(storage := devices.storage + [d])
    case Network => devices.(network := devices.network + [d])
    case Usb => devices.(usb := devices.usb + [d])
    case Accelerator => devices.(accelerator := devices.accelerator + [d])
    case Other => devices.(other := devices.other + [d])
  }

  /** Placing one entry appends its device to its category's list and leaves
      the four others as they are. */
  lemma PlaceOne(devices: PciDevices, c: PciCategory, d: PciDevice)
    ensures Place(devices, [(c, d)]) == WithAppended(devices, c, d)
  {
    assert forall k :: InCategory([(c, d)], k) == (if k == c then [d] else []) + InCategory([], k) by {
      assert [(c, d)][1..] == [];
    }
    assert forall k :: InCategory([], k) == [];
    assert forall ds: seq<PciDevice> :: ds + [] == ds;
  }

  /** Placing two runs of entries one after the other places their
      concatenation. */
  lemma PlaceAppend(devices: PciDevices, a: seq<(PciCategory, PciDevice)>, b: seq<(PciCategory, PciDevice)>)
    ensures Place(Place(devices, a), b) == Place(devices, a + b)
  {
    InCategoryAppend(a, b, Storage);
    InCategoryAppend(a, b, Network);
    InCategoryAppend(a, b, Usb);
    InCategoryAppend(a, b, Accelerator);
    InCategoryAppend(a, b, Other);
    ConcatAssociative(devices.storage, InCategory(a, Storage), InCategory(b, Storage));
    ConcatAssociative(devices.network, InCategory(a, Network), InCategory(b, Network));
    ConcatAssociative(devices.usb, InCategory(a, Usb), InCategory(b, Usb));
    ConcatAssociative(devices.accelerator, InCategory(a, Accelerator), InCategory(b, Accelerator));
    ConcatAssociative(devices.other, InCategory(a, Other), InCategory(b, Other));
  }

  /** Every entry lands in exactly one list: placing adds as many devices as
      there are entries. */
  lemma {:induction false} PlaceCount(devices: PciDevices, entries: seq<(PciCategory, PciDevice)>)
    ensures TotalCount(Place(devices, entries)) == TotalCount(devices) + |entries|
  {
    if |entries| > 0 {
      PlaceCount(devices, entries[1..]);
    }
  }

  /** `_extract_pci_devices`. */
  function PciDevicesOf(data: Json): PciDevices {
    Place(NoPciDevices, PciEntries(data))
  }

  /** The entries of the tree are the entries of its nodes in pre-order. */
  lemma EntryFromNode(data: Json, c: PciCategory, d: PciDevice)
    ensures (c, d) in PciEntries(data) <==>
      exists k | 0 <= k < |PreOrder(data)| :: OwnEntry(PreOrder(data)[k]) == [(c, d)]
  {
    PciEntriesIsPreOrder(data);
    EntriesOfMembers(PreOrder(data), c, d);
  }

  lemma BucketOfTree(data: Json, c: PciCategory, d: PciDevice)
    ensures d in Bucket(PciDevicesOf(data), c) <==> (c, d) in PciEntries(data)
  {
    assert Bucket(PciDevicesOf(data), c) == [] + InCategory(PciEntries(data), c);
    InCategoryMembers(PciEntries(data), c, d);
  }

  /** Completeness: a PCI device node of the tree whose class is kept is
      listed under its category. */
  lemma PciNodeListed(data: Json, n: Json)
    requires n in PreOrder(data) && IsPciNode(n) && CategorizePciDevice(n).Some?
    ensures PciDeviceOf(n) in Bucket(PciDevicesOf(data), CategorizePciDevice(n).value)
  {
    var c, d := CategorizePciDevice(n).value, PciDeviceOf(n);
    var k :| 0 <= k < |PreOrder(data)| && PreOrder(data)[k] == n;
    assert OwnEntry(PreOrder(data)[k]) == [(c, d)];
    EntryFromNode(data, c, d);
    BucketOfTree(data, c, d);
  }

  /** Soundness: every listed device is the entry of a PCI device node of the
      tree whose category is that list's. */
  lemma ListedFromPciNode(data: Json, c: PciCategory, d: PciDevice)
    requires d in Bucket(PciDevicesOf(data), c)
    ensures exists n | n in PreOrder(data) :: IsPciNode(n) && CategorizePciDevice(n) == Some(c) && d == PciDeviceOf(n)
  {
    BucketOfTree(data, c, d);
    EntryFromNode(data, c, d);
    var k :| 0 <= k < |PreOrder(data)| && OwnEntry(PreOrder(data)[k]) == [(c, d)];
    var n := PreOrder(data)[k];
    assert IsPciNode(n) && CategorizePciDevice(n) == Some(c) && d == PciDeviceOf(n);
  }

  /** The five lists together hold one device per PCI node of a kept class. */
  lemma PciDeviceCount(data: Json)
    ensures TotalCount(PciDevicesOf(data)) == |EntriesOf(PreOrder(data))|
  {
    PciEntriesIsPreOrder(data);
    PlaceCount(NoPciDevices, PciEntries(data));
  }

  /** A network card on the PCI bus is reported twice: as an interface and as
      a PCI network controller. */
  lemma NetworkCardListedTwice(data: Json, n: Json)
    requires n in PreOrder(data) && ClassIs(n, "network") && IsPciNode(n)
    ensures NetworkInterfaceOf(n) in NetworkInterfacesOf(data)
    ensures PciDeviceOf(n) in PciDevicesOf(data).network
  {
    NetworkNodeHasInterface(data, n);
    PciNodeListed(data, n);
  }

  // ---------------------------------------------------------------------
  // The dictionary of five lists, filled in place

  /** The `result` dictionary `_categorize_pci_recursive` appends to. */
  class PciBuckets {
    var storage: seq<PciDevice>
    var network: seq<PciDevice>
    var usb: seq<PciDevice>
    var accelerator: seq<PciDevice>
    var other: seq<PciDevice>

    function Contents(): PciDevices
      reads this
    {
      PciDevices(storage, network, usb, accelerator, other)
    }

    /** The five empty lists. */
    constructor ()
      ensures Contents() == NoPciDevices
    {
      storage, network, usb, accelerator, other := [], [], [], [], [];
    }

    /** `result[category].append(device_info)`. */
    method Append(c: PciCategory, d: PciDevice)
      modifies this
      ensures Contents() == Place(old(Contents()), [(c, d)])
    {
      PlaceOne(Contents(), c, d);
      match c
      case Storage => storage := storage + [d];
      case Network => network := network + [d];
      case Usb => usb := usb + [d];
      case Accelerator => accelerator := accelerator + [d];
      case Other => other := other + [d];
    }

    /** The node's own part of `_categorize_pci_recursive`. */
    method CategorizeNode(node: Json)
      modifies this
      ensures Contents() == Place(old(Contents()), OwnEntry(node))
    {
      var businfo := TextOr(node, "businfo", "");
      if StartsWith(businfo, "pci@") {
        var category := CategorizePciDevice(node);
        if category.Some? {
          var info := PciDeviceOf(node);
          Append(category.value, info);
          return;
        }
      }
      assert Place(Contents(), []) == Contents();
    }

    /** `_categorize_pci_recursive`: the node itself, then each child's
        subtree in order. */
    method CategorizeRecursive(node: Json)
      modifies this
      ensures Contents() == Place(old(Contents()), PciEntries(node))
      decreases Size(node), 1
    {
      if !node.JObj? {
        assert Place(Contents(), []) == Contents();
        return;
      }
      CategorizeNode(node);
      CategorizeChildren(node);
      ChildrenSmaller(node);
      PlaceAppend(old(Contents()), OwnEntry(node), PciEntriesList(Children(node)));
    }

    /** The loop of `_categorize_pci_recursive` over the children. */
    method CategorizeChildren(node: Json)
      modifies this
      ensures Contents() == Place(old(Contents()), PciEntriesList(Children(node)))
      decreases Size(node), 0
    {
      var children := Children(node);
      var i := 0;
      assert Place(Contents(), []) == Contents();
      while i < |children|
        invariant 0 <= i <= |children|
        invariant Contents() == Place(old(Contents()), PciEntriesList(children[..i]))
      {
        ChildSmaller(node, i);
        CategorizeRecursive(children[i]);
        PlaceStep(old(Contents()), children, i);
        i := i + 1;
      }
      assert children[..i] == children;
    }
  }

  /** One more child subtree placed after the first `i`. */
  lemma PlaceStep(start: PciDevices, children: seq<Json>, i: nat)
    requires i < |children|
    ensures Place(Place(start, PciEntriesList(children[..i])), PciEntries(children[i]))
      == Place(start, PciEntriesList(children[..i + 1]))
  {
    PlaceAppend(start, PciEntriesList(children[..i]), PciEntries(children[i]));
    PciEntriesListAppend(children[..i], children[i]);
    assert children[..i + 1] == children[..i] + [children[i]];
  }

  /** `_extract_pci_devices`: five empty lists, then the whole tree. */
  method ExtractPciDevices(data: Json) returns (r: PciDevices)
    ensures r == PciDevicesOf(data)
  {
    var buckets := new PciBuckets();
    buckets.CategorizeRecursive(data);
    r := buckets.Contents();
  }
}
