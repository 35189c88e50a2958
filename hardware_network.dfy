/** The network interfaces of the profile (`_extract_network_interfaces` and
    `_parse_network_interface`): one entry per `network` node of the tree. */
module HardwareNetwork {
  import opened Wrappers
  import opened Text
  import opened Documents
  import opened HardwareParsers
  import opened HardwareTree
  import opened Sequences

  /** One entry of `network_interfaces`.  The four `firmware_*` keys the source
      adds only for a non-empty value are `None` when absent. */
  datatype NetworkInterface = NetworkInterface(
    description: Json,
    vendor: Option<string>,
    vendorId: Option<string>,
    model: Option<string>,
    deviceId: Option<string>,
    subvendorId: Option<string>,
    subdeviceId: Option<string>,
    logicalName: Json,
    linkStatus: Option<bool>,
    duplex: Json,
    autonegotiation: Option<bool>,
    speedMbps: Option<int>,
    driver: Json,
    driverVersion: Json,
    firmware: Json,
    firmwareVersion: Option<string>,
    isVirtualFunction: bool,
    businfo: Json,
    firmwareBootcode: Option<string>,
    firmwareNvm: Option<string>,
    firmwarePsid: Option<string>,
    firmwareNcsi: Option<string>)

  // ---------------------------------------------------------------------
  // The interface name

  /** A `network` child whose `logicalname` ends the search. */
  predicate IsNamedNetwork(c: Json) {
    ClassIs(c, "network") && Truthy(GetOrNull(c, "logicalname"))
  }

  /** The search through the children, `current` being the name found so far:
      each `network` child overwrites it, and the first truthy one ends the
      search. */
  function ChildLogicalName(children: seq<Json>, current: Json): Json {
    if |children| == 0 then current
    else if ClassIs(children[0], "network") then
      var name := GetOrNull(children[0], "logicalname");
      if Truthy(name) then name else ChildLogicalName(children[1..], name)
    else ChildLogicalName(children[1..], current)
  }

  /** `logical_name`: the node's own when truthy, else the children's. */
  function LogicalNameOf(node: Json): Json {
    var own := GetOrNull(node, "logicalname");
    if Truthy(own) then own else ChildLogicalName(Children(node), own)
  }

  /** The first named `network` child gives the name. */
  lemma {:induction false} ChildLogicalNameFirst(children: seq<Json>, current: Json, k: nat)
    requires k < |children| && IsNamedNetwork(children[k])
    requires forall j | 0 <= j < k :: !IsNamedNetwork(children[j])
    ensures ChildLogicalName(children, current) == GetOrNull(children[k], "logicalname")
  {
    if k > 0 {
      assert !IsNamedNetwork(children[0]);
      assert forall j | 0 <= j < k - 1 :: children[1..][j] == children[j + 1];
      var next := if ClassIs(children[0], "network") then GetOrNull(children[0], "logicalname") else current;
      ChildLogicalNameFirst(children[1..], next, k - 1);
    }
  }

  /** Without a named `network` child the name stays falsy, and it is the
      starting value when there is no `network` child at all. */
  lemma {:induction false} ChildLogicalNameNone(children: seq<Json>, current: Json)
    requires !Truthy(current)
    requires forall k | 0 <= k < |children| :: !IsNamedNetwork(children[k])
    ensures !Truthy(ChildLogicalName(children, current))
    ensures (forall k | 0 <= k < |children| :: !ClassIs(children[k], "network"))
      ==> ChildLogicalName(children, current) == current
  {
    if |children| > 0 {
      assert forall k | 0 <= k < |children| - 1 :: children[1..][k] == children[k + 1];
      var next := if ClassIs(children[0], "network") then GetOrNull(children[0], "logicalname") else current;
      ChildLogicalNameNone(children[1..], next);
    }
  }

  /** `_parse_network_interface`'s search for the interface name, as a loop
      that stops at the first truthy name of a `network` child. */
  method FindLogicalName(node: Json) returns (name: Json)
    ensures name == LogicalNameOf(node)
  {
    name := GetOrNull(node, "logicalname");
    if Truthy(name) {
      return;
    }
    var children := Children(node);
    ghost var own := name;
    var i := 0;
    while i < |children|
      invariant 0 <= i <= |children|
      invariant !Truthy(name)
      invariant ChildLogicalName(children[i..], name) == ChildLogicalName(children, own)
    {
      assert children[i..][1..] == children[i + 1..];
      var child := children[i];
      if ClassIs(child, "network") {
        name := GetOrNull(child, "logicalname");
        if Truthy(name) {
          return;
        }
      }
      i := i + 1;
    }
  }

  // ---------------------------------------------------------------------
  // Link, duplex and autonegotiation

  /** A `yes`/`no` (or `on`/`off`) setting as a boolean; anything else is
      `None`. */
  function Switch(v: Json, on: string, off: string): (r: Option<bool>)
    requires on != off
    ensures r == Some(true) <==> v == JStr(on)
    ensures r == Some(false) <==> v == JStr(off)
  {
    if v == JStr(on) then Some(true)
    else if v == JStr(off) then Some(false)
    else None
  }

  // ---------------------------------------------------------------------
  // Speed

  /** The speed the configuration states, in Mbit/s. */
  function ConfigSpeed(config: Json): Option<int> {
    match TextOf(config, "speed")
    case Some(s) => if s != "" then SpeedSearch(s, 0) else None
    case None => None
  }

  /** The speed of the first capability key that names one. */
  function FirstKeySpeed(keys: seq<string>): Option<int> {
    if |keys| == 0 then None
    else if CapabilityKeySpeed(keys[0]).Some? then CapabilityKeySpeed(keys[0])
    else FirstKeySpeed(keys[1..])
  }

  /** `FirstKeySpeed` is the speed of the first key with one, and `None` when
      no key has one. */
  lemma {:induction false} FirstKeySpeedIsFirst(keys: seq<string>)
    ensures var r := FirstKeySpeed(keys);
      && (r.None? <==> forall k | 0 <= k < |keys| :: CapabilityKeySpeed(keys[k]).None?)
      && (r.Some? ==> exists k | 0 <= k < |keys| ::
            (&& CapabilityKeySpeed(keys[k]) == r
             && forall j | 0 <= j < k :: CapabilityKeySpeed(keys[j]).None?))
  {
    if |keys| > 0 && CapabilityKeySpeed(keys[0]).None? {
      FirstKeySpeedIsFirst(keys[1..]);
      assert forall k | 1 <= k < |keys| :: keys[k] == keys[1..][k - 1];
      if FirstKeySpeed(keys).Some? {
        var k :| 0 <= k < |keys[1..]| && CapabilityKeySpeed(keys[1..][k]) == FirstKeySpeed(keys)
          && forall j | 0 <= j < k :: CapabilityKeySpeed(keys[1..][j]).None?;
        assert CapabilityKeySpeed(keys[k + 1]) == FirstKeySpeed(keys);
      }
    }
  }

  /** The loop over the capability keys, stopping at the first with a speed. */
  method FirstCapabilitySpeed(keys: seq<string>) returns (speed: Option<int>)
    ensures speed == FirstKeySpeed(keys)
  {
    var i := 0;
    while i < |keys|
      invariant 0 <= i <= |keys|
      invariant FirstKeySpeed(keys[i..]) == FirstKeySpeed(keys)
    {
      assert keys[i..][1..] == keys[i + 1..];
      var found := CapabilityKeySpeed(keys[i]);
      if found.Some? {
        return found;
      }
      i := i + 1;
    }
    return None;
  }

  /** `speed_mbps`: the configured speed, unless it is missing or zero, in
      which case the first capability key with a speed gives it; without one
      the configured value stays. */
  function SpeedOf(node: Json, config: Json): Option<int> {
    var configured := ConfigSpeed(config);
    if configured.Some? && configured.value != 0 then configured
    else
      var capabilities := GetOr(node, "capabilities", JObj([]));
      if capabilities.JObj? && FirstKeySpeed(Keys(capabilities.fields)).Some? then
        FirstKeySpeed(Keys(capabilities.fields))
      else configured
  }

  /** The speed block of `_parse_network_interface`. */
  method ParseSpeed(node: Json, config: Json) returns (speed: Option<int>)
    ensures speed == SpeedOf(node, config)
  {
    speed := ConfigSpeed(config);
    if speed.Some? && speed.value != 0 {
      return;
    }
    var capabilities := GetOr(node, "capabilities", JObj([]));
    if capabilities.JObj? {
      var found := FirstCapabilitySpeed(Keys(capabilities.fields));
      if found.Some? {
        speed := found;
      }
    }
  }

  /** A non-zero configured speed wins over the capabilities. */
  lemma ConfiguredSpeedWins(node: Json, config: Json, n: nat, gap: string, unit: string, rest: string)
    requires n > 0 && AllSpace(gap) && (unit == "Gbit" || unit == "Mbit")
    requires TextOf(config, "speed") == Some(NatToDecimal(n) + gap + unit + rest)
    ensures SpeedOf(node, config) == Some(if unit == "Gbit" then n * 1000 else n)
  {
    SpeedRoundTrip(n, gap, unit, rest);
  }

  /** Without a usable configured speed (none, or zero) the first capability
      key with a speed gives it; when no key has one, or the capabilities are
      not a mapping, the configured value is kept as it was. */
  lemma CapabilitySpeedFallback(node: Json, config: Json)
    requires ConfigSpeed(config).None? || ConfigSpeed(config) == Some(0)
    ensures var capabilities := GetOr(node, "capabilities", JObj([]));
      capabilities.JObj? && FirstKeySpeed(Keys(capabilities.fields)).Some? ==>
        SpeedOf(node, config) == FirstKeySpeed(Keys(capabilities.fields))
    ensures var capabilities := GetOr(node, "capabilities", JObj([]));
      capabilities.JObj? && FirstKeySpeed(Keys(capabilities.fields)).None? ==>
        SpeedOf(node, config) == ConfigSpeed(config)
    ensures !GetOr(node, "capabilities", JObj([])).JObj? ==> SpeedOf(node, config) == ConfigSpeed(config)
  {
  }

  // ---------------------------------------------------------------------
  // Subsystem ids and firmware

  /** `subvendor_id` / `subdevice_id`: the first field, else the second, with
      `0x` removed and upper-cased; `None` when both are falsy. */
  function SubsystemOf(config: Json, key: string, fallback: string): (r: Option<string>)
    ensures var v := PyOr(GetOrNull(config, key), GetOrNull(config, fallback));
      r.Some? <==> (v.JStr? && Truthy(v))
  {
    match PyOr(GetOrNull(config, key), GetOrNull(config, fallback))
    case JStr(s) => if s != "" then Some(SubsystemId(s)) else None
    case _ => None
  }

  /** The subsystem field wins over the plain one when it is set. */
  lemma SubsystemPrecedence(config: Json, key: string, fallback: string)
    ensures GetOrNull(config, key).JStr? && Truthy(GetOrNull(config, key))
      ==> SubsystemOf(config, key, fallback) == Some(SubsystemId(GetOrNull(config, key).s))
    ensures !Truthy(GetOrNull(config, key)) && GetOrNull(config, fallback).JStr? && Truthy(GetOrNull(config, fallback))
      ==> SubsystemOf(config, key, fallback) == Some(SubsystemId(GetOrNull(config, fallback).s))
  {
  }

  /** A vendor-specific firmware field, kept only when non-empty. */
  function NonEmpty(v: Option<string>): (r: Option<string>)
    ensures r.Some? <==> v.Some? && v.value != ""
    ensures r.Some? ==> r == v
  {
    if v.Some? && v.value != "" then v else None
  }

  /** The bus address as `_is_virtual_function` reads it. */
  function BusText(businfo: Json): Option<string> {
    if businfo.JStr? then Some(businfo.s) else None
  }

  // ---------------------------------------------------------------------
  // One interface

  /** `_parse_network_interface`. */
  function NetworkInterfaceOf(node: Json): NetworkInterface {
    var vendor := ParseVendorString(TextOf(node, "vendor"));
    var product := ParseProductString(TextOf(node, "product"));
    var config := GetOr(node, "configuration", JObj([]));
    var businfo := GetOr(node, "businfo", JStr(""));
    var firmware := ParseFirmwareString(TextOf(config, "firmware"), vendor.0);
    NetworkInterface(
      GetOr(node, "description", JStr("")),
      vendor.0, FallbackId(vendor.1, product.1), product.0, product.2,
      SubsystemOf(config, "subvendor", "vendor"), SubsystemOf(config, "subdevice", "device"),
      LogicalNameOf(node),
      Switch(GetOrNull(config, "link"), "yes", "no"),
      GetOrNull(config, "duplex"),
      Switch(GetOrNull(config, "autonegotiation"), "on", "off"),
      SpeedOf(node, config),
      GetOrNull(config, "driver"), GetOrNull(config, "driverversion"), GetOrNull(config, "firmware"),
      firmware.primary,
      IsVirtualFunction(BusText(businfo)),
      businfo,
      NonEmpty(firmware.bootcode), NonEmpty(firmware.nvm), NonEmpty(firmware.psid), NonEmpty(firmware.ncsi))
  }

  /** `_parse_network_interface`, with its two loops. */
  method ParseNetworkInterface(node: Json) returns (r: NetworkInterface)
    ensures r == NetworkInterfaceOf(node)
  {
    var config := GetOr(node, "configuration", JObj([]));
    var logicalName := FindLogicalName(node);
    var speed := ParseSpeed(node, config);
    var vendor := ParseVendorString(TextOf(node, "vendor"));
    var product := ParseProductString(TextOf(node, "product"));
    var businfo := GetOr(node, "businfo", JStr(""));
    var firmware := ParseFirmwareString(TextOf(config, "firmware"), vendor.0);
    r := NetworkInterface(
      GetOr(node, "description", JStr("")),
      vendor.0, FallbackId(vendor.1, product.1), product.0, product.2,
      SubsystemOf(config, "subvendor", "vendor"), SubsystemOf(config, "subdevice", "device"),
      logicalName,
      Switch(GetOrNull(config, "link"), "yes", "no"),
      GetOrNull(config, "duplex"),
      Switch(GetOrNull(config, "autonegotiation"), "on", "off"),
      speed,
      GetOrNull(config, "driver"), GetOrNull(config, "driverversion"), GetOrNull(config, "firmware"),
      firmware.primary,
      IsVirtualFunction(BusText(businfo)),
      businfo,
      NonEmpty(firmware.bootcode), NonEmpty(firmware.nvm), NonEmpty(firmware.psid), NonEmpty(firmware.ncsi));
  }

  /** The interface name comes from the node, else from its first named
      `network` child, and is falsy when neither has one. */
  lemma LogicalNameSources(node: Json)
    ensures var own, children := GetOrNull(node, "logicalname"), Children(node);
      && (Truthy(own) ==> NetworkInterfaceOf(node).logicalName == own)
      && ((!Truthy(own) && forall k | 0 <= k < |children| :: !IsNamedNetwork(children[k]))
          ==> !Truthy(NetworkInterfaceOf(node).logicalName))
  {
    var own, children := GetOrNull(node, "logicalname"), Children(node);
    if !Truthy(own) && (forall k | 0 <= k < |children| :: !IsNamedNetwork(children[k])) {
      ChildLogicalNameNone(children, own);
    }
  }

  /** A node without a name of its own takes the name of its first named
      `network` child. */
  lemma LogicalNameFromChild(node: Json, k: nat)
    requires !Truthy(GetOrNull(node, "logicalname"))
    requires k < |Children(node)| && IsNamedNetwork(Children(node)[k])
    requires forall j | 0 <= j < k :: !IsNamedNetwork(Children(node)[j])
    ensures NetworkInterfaceOf(node).logicalName == GetOrNull(Children(node)[k], "logicalname")
  {
    ChildLogicalNameFirst(Children(node), GetOrNull(node, "logicalname"), k);
  }

  /** Only a `pci@` bus address can mark a virtual function, and the
      vendor-specific firmware fields are never empty. */
  lemma InterfaceFields(node: Json)
    ensures var r := NetworkInterfaceOf(node);
      && (r.isVirtualFunction ==> r.businfo.JStr? && StartsWith(r.businfo.s, "pci@"))
      && (r.firmwareBootcode.Some? ==> r.firmwareBootcode.value != "")
      && (r.firmwareNvm.Some? ==> r.firmwareNvm.value != "")
      && (r.firmwarePsid.Some? ==> r.firmwarePsid.value != "")
      && (r.firmwareNcsi.Some? ==> r.firmwareNcsi.value != "")
      && (var fw := GetOrNull(GetOr(node, "configuration", JObj([])), "firmware");
          r.firmwareVersion.Some? <==> (fw.JStr? && Truthy(fw)))
  {
  }

  // ---------------------------------------------------------------------
  // All interfaces

  /** One interface per node, in order. */
  function Interfaces(nodes: seq<Json>): seq<NetworkInterface> {
    Map(NetworkInterfaceOf, nodes)
  }

  /** `_extract_network_interfaces`. */
  function NetworkInterfacesOf(data: Json): seq<NetworkInterface> {
    Interfaces(FindByClass(data, "network"))
  }

  /** Every `network` node of the tree gives an interface, none is dropped,
      and they come in pre-order. */
  lemma EveryNetworkNodeListed(data: Json)
    ensures var nodes := OfClass(PreOrder(data), "network");
      && |NetworkInterfacesOf(data)| == |nodes|
      && forall k | 0 <= k < |nodes| :: NetworkInterfacesOf(data)[k] == NetworkInterfaceOf(nodes[k])
  {
    FindByClassIsPreOrder(data, "network");
  }

  /** A `network` node of the tree is never dropped. */
  lemma NetworkNodeHasInterface(data: Json, n: Json)
    requires n in PreOrder(data) && ClassIs(n, "network")
    ensures NetworkInterfaceOf(n) in NetworkInterfacesOf(data)
  {
    var nodes := FindByClass(data, "network");
    FindByClassMembers(data, "network", n);
    var k :| 0 <= k < |nodes| && nodes[k] == n;
    assert NetworkInterfacesOf(data)[k] == NetworkInterfaceOf(n);
  }

  /** `_extract_network_interfaces`: every node is appended, since the parsed
      entry is never empty. */
  method ExtractNetworkInterfaces(data: Json) returns (interfaces: seq<NetworkInterface>)
    ensures interfaces == NetworkInterfacesOf(data)
  {
    var nodes := FindNodesByClass(data, "network");
    interfaces := [];
    var i := 0;
    while i < |nodes|
      invariant 0 <= i <= |nodes|
      invariant interfaces == Interfaces(nodes[..i])
    {
      var info := ParseNetworkInterface(nodes[i]);
      MapAppendOne(NetworkInterfaceOf, nodes, i);
      interfaces := interfaces + [info];
      i := i + 1;
    }
    assert nodes[..i] == nodes;
  }
}
