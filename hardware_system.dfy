/** The system and BIOS summaries of the profile (`_extract_system_info` and
    `_extract_bios_info`). */
module HardwareSystem {
  import opened Wrappers
  import opened Text
  import opened Documents
  import opened HardwareParsers
  import opened HardwareTree

  // ---------------------------------------------------------------------
  // System

  /** `system_vendor`, `system_model`, `system_sku` and `system_family`. */
  datatype SystemInfo = SystemInfo(vendor: Json, model: Option<string>, sku: Option<string>, family: Json)

  /** `_extract_system_info`: vendor as found on the root, model and SKU read
      from the root's product text, family from the root's configuration when
      that is a mapping. */
  function SystemInfoOf(data: Json): (r: SystemInfo)
    ensures r.family != JNull ==> HasKey(GetOr(data, "configuration", JObj([])), "family")
  {
    var parsed := ParseSystemModel(TextOf(data, "product"));
    var config := GetOr(data, "configuration", JObj([]));
    SystemInfo(GetOrNull(data, "vendor"), parsed.0, parsed.1, GetOrNull(config, "family"))
  }

  /** Without a `configuration` mapping the family is `None`. */
  lemma FamilyNeedsConfiguration(data: Json)
    requires !HasKey(data, "configuration") || !Get(data, "configuration").value.JObj?
    ensures SystemInfoOf(data).family == JNull
  {
  }

  /** A root whose product reads `"base (paren)"` gives that base as the model
      and the SKU read from the parenthetical. */
  lemma SystemModelOfRoot(data: Json, base: string, paren: string)
    requires TextOf(data, "product") == Some(base + " (" + paren + ")")
    requires |base| > 0 && '\n' !in base && '(' !in base && Strip(base) == base
    requires |paren| > 0 && ')' !in paren && Strip(paren) == paren
    ensures SystemInfoOf(data).model == Some(base) && SystemInfoOf(data).sku == SkuOf(paren)
  {
    SystemModelCanonical(base, paren);
  }

  // ---------------------------------------------------------------------
  // BIOS

  /** `bios_vendor`, `bios_version`, `bios_date` and `bios_type`. */
  datatype BiosInfo = BiosInfo(vendor: Json, version: Json, date: Json, biosType: Option<string>)

  const NoBios: BiosInfo := BiosInfo(JNull, JNull, JNull, None)

  /** The firmware kind: UEFI when the upper-cased description says so or a
      `uefi` capability is present, else EFI when the description says so,
      else legacy BIOS. */
  function BiosType(firmware: Json): (t: string)
    ensures t == "UEFI" || t == "EFI" || t == "BIOS"
    ensures var description := Upper(TextOr(firmware, "description", ""));
      var uefi := Contains(description, "UEFI") || HasKey(GetOr(firmware, "capabilities", JObj([])), "uefi");
      && (t == "UEFI" <==> uefi)
      && (t == "EFI" <==> !uefi && Contains(description, "EFI"))
  {
    var description := Upper(TextOr(firmware, "description", ""));
    var capabilities := GetOr(firmware, "capabilities", JObj([]));
    if Contains(description, "UEFI") || HasKey(capabilities, "uefi") then "UEFI"
    else if Contains(description, "EFI") then "EFI"
    else "BIOS"
  }

  /** Legacy BIOS is reported exactly when nothing mentions EFI: the
      description, in any case, does not contain `EFI` (which `UEFI` does), and
      there is no `uefi` capability. */
  lemma BiosTypeLegacy(firmware: Json)
    ensures var description := Upper(TextOr(firmware, "description", ""));
      (BiosType(firmware) == "BIOS") ==
      (!Contains(description, "EFI") && !HasKey(GetOr(firmware, "capabilities", JObj([])), "uefi"))
  {
    var description := Upper(TextOr(firmware, "description", ""));
    if Contains(description, "UEFI") {
      ContainsTail(description, "UEFI", 1);
      assert "UEFI"[1..] == "EFI";
    }
  }

  /** `_extract_bios_info`. */
  function BiosInfoOf(data: Json): BiosInfo {
    match FindFirmware(data)
    case None => NoBios
    case Some(fw) =>
      BiosInfo(GetOrNull(fw, "vendor"), GetOrNull(fw, "version"), GetOrNull(fw, "date"), Some(BiosType(fw)))
  }

  /** The BIOS fields come from the first firmware node of the tree in
      pre-order, and are all `None` when the tree has none. */
  lemma BiosFromFirstFirmware(data: Json)
    ensures var nodes := PreOrder(data);
      && (BiosInfoOf(data) == NoBios <==> forall k | 0 <= k < |nodes| :: !IsFirmwareNode(nodes[k]))
      && (BiosInfoOf(data) != NoBios ==> exists k | 0 <= k < |nodes| ::
            && IsFirmwareNode(nodes[k])
            && (forall j | 0 <= j < k :: !IsFirmwareNode(nodes[j]))
            && BiosInfoOf(data).vendor == GetOrNull(nodes[k], "vendor")
            && BiosInfoOf(data).biosType == Some(BiosType(nodes[k])))
  {
    FindFirmwareIsFirst(data);
  }
}
