/** The type normalizer (`LshwNormalizer`): it checks the `{hardware: {data:
    {id, class}}}` wrapper, rewrites the leaf values of the `data` tree into
    canonical types by field name, and rebuilds the wrapper.  Keys and list
    lengths never change. */
module LshwNormalizer {
  import opened Wrappers
  import opened Text
  import opened Documents

  /** Fields that are always numeric. */
  const NumericFields: set<string> := {
    "latency", "cores", "enabledcores", "microcode", "threads", "level",
    "ansiversion", "size", "capacity", "width", "clock", "units", "depth",
    "FATs", "logicalsectorsize", "sectorsize"
  }

  /** Fields that are always boolean. */
  const BooleanFields: set<string> := {
    "claimed", "disabled", "boot", "broadcast", "link", "multicast", "slave",
    "removable", "audio", "dvd"
  }

  /** Capabilities that are flags. */
  const CapabilityBooleanPatterns: seq<string> := [
    "pci", "pciexpress", "pm", "msi", "msix", "bus_master", "cap_list", "rom",
    "fb", "pnp", "upgrade", "shadowing", "cdboot", "bootselect", "edd", "usb",
    "netboot", "acpi", "biosbootspecification", "uefi", "escd",
    "virtualmachine", "smp", "vsyscall32", "gpt-1_00", "partitioned",
    "partitioned:gpt", "nofs", "fat", "initialized", "journaled",
    "extended_attributes", "large_files", "huge_files", "dir_nlink", "recover",
    "extents", "ethernet", "physical", "removable", "audio", "dvd"
  ]

  const TrueWords: seq<string> := ["true", "yes", "1", "on"]
  const FalseWords: seq<string> := ["false", "no", "0", "off"]

  /** The tokens a capability string is read as a boolean from directly. */
  const ExplicitCapabilityWords: seq<string> := ["true", "false", "yes", "no", "1", "0"]

  /** Substrings that make a descriptive capability string mean "absent". */
  const NegativeWords: seq<string> := [" no ", "not ", "none", "disabled", "unsupported", "unavailable"]

  /** `is_valid_lshw`: a mapping holding `hardware`, a mapping holding `data`,
      a mapping holding both `id` and `class`. */
  predicate IsValidLshw(data: Json) {
    && HasKey(data, "hardware")
    && var hardware := Get(data, "hardware").value;
    && HasKey(hardware, "data")
    && var lshw := Get(hardware, "data").value;
    && HasKey(lshw, "id") && HasKey(lshw, "class")
  }

  // ---------------------------------------------------------------------
  // Leaf coercions

  /** `normalize_boolean`. */
  function NormalizeBoolean(value: Json): (r: Json)
    ensures r.JBool? || r == value
    ensures value.JBool? ==> r == value
    ensures value.JInt? ==> r == JBool(value.i != 0)
    ensures value.JStr? ==> (r == JBool(true) <==> Strip(Lower(value.s)) in TrueWords)
    ensures value.JStr? ==> (r == JBool(false) <==> Strip(Lower(value.s)) in FalseWords)
    ensures !value.JBool? && !value.JInt? && !value.JStr? ==> r == value
  {
    match value
    case JBool(_) => value
    case JStr(s) =>
      var word := Strip(Lower(s));
      if word in TrueWords then JBool(true)
      else if word in FalseWords then JBool(false)
      else value
    case JInt(n) => JBool(n != 0)
    case _ => value
  }

  /** `normalize_numeric` on its integer path: an integer string becomes that
      integer, everything else is kept. */
  function NormalizeNumeric(value: Json): (r: Json)
    ensures r.JInt? || r == value
    ensures value.JStr? && PyInt(value.s).Some? ==> r == JInt(PyInt(value.s).value)
    ensures value.JStr? && PyInt(value.s).None? ==> r == value
    ensures !value.JStr? ==> r == value
  {
    match value
    case JStr(s) =>
      (match PyInt(s)
       case Some(n) => JInt(n)
       case None => value)
    case _ => value
  }

  /** `normalize_logicalname`: a list stays, a string becomes a one-element list,
      anything else stays. */
  function NormalizeLogicalname(value: Json): (r: Json)
    ensures value.JArr? ==> r == value
    ensures value.JStr? ==> r == JArr([value])
    ensures !value.JArr? && !value.JStr? ==> r == value
  {
    match value
    case JArr(_) => value
    case JStr(_) => JArr([value])
    case _ => value
  }

  lemma NormalizeBooleanIdempotent(value: Json)
    ensures NormalizeBoolean(NormalizeBoolean(value)) == NormalizeBoolean(value)
  {
  }

  lemma NormalizeNumericIdempotent(value: Json)
    ensures NormalizeNumeric(NormalizeNumeric(value)) == NormalizeNumeric(value)
  {
  }

  /** A decimal-integer string is normalized to the integer it denotes. */
  lemma NormalizeNumericOfDecimal(n: int)
    ensures NormalizeNumeric(JStr(IntToDecimal(n))) == JInt(n)
  {
    PyIntOfDecimal(n);
  }

  // ---------------------------------------------------------------------
  // Python's str() of a value, for `physid` and `version`

  /** `str(value)`. */
  function PyStr(value: Json): string {
    match value
    case JStr(s) => s
    case _ => PyRepr(value)
  }

  /** `repr(value)` as Python prints lists and dicts of JSON values. */
  function PyRepr(value: Json): string
    decreases value
  {
    match value
    case JNull => "None"
    case JBool(b) => if b then "True" else "False"
    case JInt(n) => IntToDecimal(n)
    case JStr(s) => StrRepr(s)
    case JArr(items) => "[" + ReprItems(items) + "]"
    case JObj(fields) => "{" + ReprFields(fields) + "}"
  }

  function ReprItems(items: seq<Json>): string
    decreases items
  {
    if |items| == 0 then ""
    else if |items| == 1 then PyRepr(items[0])
    else PyRepr(items[0]) + ", " + ReprItems(items[1..])
  }

  function ReprFields(fields: seq<(string, Json)>): string
    decreases fields
  {
    if |fields| == 0 then ""
    else
      assert fields[0].1 < fields[0];
      var entry := StrRepr(fields[0].0) + ": " + PyRepr(fields[0].1);
      if |fields| == 1 then entry else entry + ", " + ReprFields(fields[1..])
  }

  /** `repr(s)`: single quotes unless the text holds a single quote and no
      double quote; backslash, the quote, tab, newline, carriage return and the
      other ASCII control characters are escaped. */
  function StrRepr(s: string): string {
    var quote := if '\'' in s && '"' !in s then '"' else '\'';
    [quote] + EscapeText(s, quote) + [quote]
  }

  function EscapeText(s: string, quote: char): string {
    if |s| == 0 then "" else EscapeChar(s[0], quote) + EscapeText(s[1..], quote)
  }

  function EscapeChar(c: char, quote: char): string {
    if c == quote || c == '\\' then ['\\', c]
    else if c == '\t' then "\\t"
    else if c == '\n' then "\\n"
    else if c == '\r' then "\\r"
    else if c < ' ' || c as int == 0x7F then "\\x" + [HexChar(c as int / 16), HexChar(c as int % 16)]
    else [c]
  }

  function HexChar(d: nat): char
    requires d < 16
  {
    if d < 10 then ('0' as int + d) as char else ('a' as int + d - 10) as char
  }

  // ---------------------------------------------------------------------
  // The recursive walk

  /** `normalize_node`. */
  function NormalizedNode(node: Json): (r: Json)
    ensures node.JObj? <==> r.JObj?
    ensures node.JArr? <==> r.JArr?
    ensures !node.JObj? && !node.JArr? ==> r == node
    decreases node, 0
  {
    match node
    case JObj(fields) => JObj(NormalizedFields(fields))
    case JArr(items) => JArr(NormalizedItems(items))
    case _ => node
  }

  /** The list comprehension of `normalize_node`: mappings and lists are walked,
      other items are kept. */
  function NormalizedItems(items: seq<Json>): (r: seq<Json>)
    ensures |r| == |items|
    decreases items, 0
  {
    if |items| == 0 then []
    else
      var item := items[0];
      [if item.JObj? || item.JArr? then NormalizedNode(item) else item] + NormalizedItems(items[1..])
  }

  /** The per-key loop of `normalize_node`. */
  function NormalizedFields(fields: seq<(string, Json)>): (r: seq<(string, Json)>)
    ensures Keys(r) == Keys(fields)
    decreases fields, 0
  {
    if |fields| == 0 then []
    else
      assert fields[0].1 < fields[0];
      [(fields[0].0, NormalizedValue(fields[0].0, fields[0].1))] + NormalizedFields(fields[1..])
  }

  /** The keys some coercion rule is attached to. */
  predicate IsCoercedKey(key: string) {
    key == "logicalname" || key == "physid" || key == "version" || key in BooleanFields || key in NumericFields
  }

  /** The value `normalize_node` stores under `key`; the first rule that applies
      wins, so a coercion rule shadows the recursion into a nested mapping. */
  function NormalizedValue(key: string, value: Json): (r: Json)
    ensures (key in BooleanFields || key in NumericFields || key == "logicalname") && value.JObj? ==> r == value
    ensures !IsCoercedKey(key) && !value.JObj? && !value.JArr? ==> r == value
    decreases value, 1
  {
    if key == "configuration" && value.JObj? then JObj(NormalizedConfiguration(value.fields))
    else if key == "capabilities" && value.JObj? then JObj(NormalizedCapabilities(value.fields))
    else if key == "logicalname" then NormalizeLogicalname(value)
    else if key == "physid" || key == "version" then (if value.JNull? then value else JStr(PyStr(value)))
    else if key in BooleanFields then NormalizeBoolean(value)
    else if key in NumericFields then NormalizeNumeric(value)
    else if value.JObj? then NormalizedNode(value)
    else if value.JArr? then JArr(NormalizedItems(value.items))
    else value
  }

  /** `normalize_configuration`: only the boolean and numeric field rules, no recursion. */
  function NormalizedConfiguration(config: seq<(string, Json)>): (r: seq<(string, Json)>)
    ensures Keys(r) == Keys(config)
    ensures forall k | 0 <= k < |config| :: r[k].1 == ConfigurationValue(config[k].0, config[k].1)
  {
    if |config| == 0 then []
    else [(config[0].0, ConfigurationValue(config[0].0, config[0].1))] + NormalizedConfiguration(config[1..])
  }

  function ConfigurationValue(key: string, value: Json): Json {
    if key in BooleanFields then NormalizeBoolean(value)
    else if key in NumericFields then NormalizeNumeric(value)
    else value
  }

  /** `normalize_capabilities`. */
  function NormalizedCapabilities(capabilities: seq<(string, Json)>): (r: seq<(string, Json)>)
    ensures Keys(r) == Keys(capabilities)
    ensures forall k | 0 <= k < |capabilities| :: r[k].1 == CapabilityValue(capabilities[k].0, capabilities[k].1)
  {
    if |capabilities| == 0 then []
    else [(capabilities[0].0, CapabilityValue(capabilities[0].0, capabilities[0].1))]
         + NormalizedCapabilities(capabilities[1..])
  }

  predicate HasNegativeWord(text: string) {
    exists i | 0 <= i < |NegativeWords| :: Contains(text, NegativeWords[i])
  }

  /** The capability heuristic: a flag (known name, or already a boolean) given
      as a string is read as a boolean, explicitly or from negative words. */
  function CapabilityValue(key: string, value: Json): (r: Json)
    ensures !(key in CapabilityBooleanPatterns && value.JStr?) ==> r == value
    ensures key in CapabilityBooleanPatterns && value.JStr? ==>
      var word := Strip(Lower(value.s));
      r == JBool(if word in ExplicitCapabilityWords then word in TrueWords else !HasNegativeWord(word))
  {
    if key in CapabilityBooleanPatterns || value.JBool? then
      if value.JStr? then
        var word := Strip(Lower(value.s));
        if word in ExplicitCapabilityWords then NormalizeBoolean(value)
        else if HasNegativeWord(word) then JBool(false)
        else JBool(true)
      else value
    else value
  }

  /** `normalize`: the empty mapping for an invalid capture, otherwise the
      wrapper rebuilt around the normalized `data` tree. */
  function Normalized(inputName: string, inputData: Json): (r: Json) {
    if !IsValidLshw(inputData) then JObj([])
    else
      var hardware := Get(inputData, "hardware").value;
      Rebuilt(GetOrNull(hardware, "node"), NormalizedNode(Get(hardware, "data").value),
              GetOr(hardware, "error", JStr("")))
  }

  /** The output wrapper `{hardware: {node, data, error}}`. */
  function Rebuilt(node: Json, data: Json, error: Json): (r: Json)
    ensures Get(r, "hardware").Some?
    ensures var hardware := Get(r, "hardware").value;
      hardware.JObj? && Keys(hardware.fields) == ["node", "data", "error"] &&
      Get(hardware, "node") == Some(node) && Get(hardware, "data") == Some(data) &&
      Get(hardware, "error") == Some(error)
  {
    var inner := [("node", node), ("data", data), ("error", error)];
    assert "node"[0] != "data"[0] && "node"[0] != "error"[0] && "data"[0] != "error"[0];
    assert Lookup(inner, "data") == Lookup(inner[1..], "data");
    assert Lookup(inner, "error") == Lookup(inner[1..][1..], "error");
    JObj([("hardware", JObj(inner))])
  }

  // ---------------------------------------------------------------------
  // The source's loops, which fill a fresh mapping key by key

  method NormalizeNode(node: Json) returns (normalized: Json)
    ensures normalized == NormalizedNode(node)
    decreases node, 0
  {
    match node {
      case JObj(fields) =>
        var entries: seq<(string, Json)> := [];
        for i := 0 to |fields|
          invariant |entries| == i
          invariant forall k | 0 <= k < i :: entries[k] == (fields[k].0, NormalizedValue(fields[k].0, fields[k].1))
        {
          assert fields[i].1 < fields[i];
          var v := NormalizeValue(fields[i].0, fields[i].1);
          entries := entries + [(fields[i].0, v)];
        }
        normalized := JObj(entries);
        NormalizedFieldsAt(fields);
        assert entries == NormalizedFields(fields);
      case JArr(items) =>
        var out: seq<Json> := [];
        for i := 0 to |items|
          invariant |out| == i
          invariant forall k | 0 <= k < i :: out[k] == NormalizedNode(items[k])
        {
          var item := items[i];
          if item.JObj? || item.JArr? {
            item := NormalizeNode(items[i]);
          }
          out := out + [item];
        }
        normalized := JArr(out);
        NormalizedItemsAt(items);
        assert out == NormalizedItems(items);
      case _ =>
        normalized := node;
    }
  }

  /** One step of the per-key loop of `normalize_node`. */
  method NormalizeValue(key: string, value: Json) returns (v: Json)
    ensures v == NormalizedValue(key, value)
    decreases value, 1
  {
    if key == "configuration" && value.JObj? {
      var c := NormalizeConfiguration(value.fields);
      v := JObj(c);
    } else if key == "capabilities" && value.JObj? {
      var c := NormalizeCapabilities(value.fields);
      v := JObj(c);
    } else if key == "logicalname" {
      v := NormalizeLogicalname(value);
    } else if key == "physid" || key == "version" {
      v := if value.JNull? then value else JStr(PyStr(value));
    } else if key in BooleanFields {
      v := NormalizeBoolean(value);
    } else if key in NumericFields {
      v := NormalizeNumeric(value);
    } else if value.JObj? || value.JArr? {
      v := NormalizeNode(value);
    } else {
      v := value;
    }
  }

  method NormalizeConfiguration(config: seq<(string, Json)>) returns (normalized: seq<(string, Json)>)
    ensures normalized == NormalizedConfiguration(config)
  {
    normalized := [];
    for i := 0 to |config|
      invariant |normalized| == i
      invariant forall k | 0 <= k < i :: normalized[k] == (config[k].0, ConfigurationValue(config[k].0, config[k].1))
    {
      var key, value := config[i].0, config[i].1;
      if key in BooleanFields {
        value := NormalizeBoolean(value);
      } else if key in NumericFields {
        value := NormalizeNumeric(value);
      }
      normalized := normalized + [(key, value)];
    }
    assert normalized == NormalizedConfiguration(config);
  }

  method NormalizeCapabilities(capabilities: seq<(string, Json)>) returns (normalized: seq<(string, Json)>)
    ensures normalized == NormalizedCapabilities(capabilities)
  {
    normalized := [];
    for i := 0 to |capabilities|
      invariant |normalized| == i
      invariant forall k | 0 <= k < i :: normalized[k] == (capabilities[k].0, CapabilityValue(capabilities[k].0, capabilities[k].1))
    {
      var key, value := capabilities[i].0, capabilities[i].1;
      if key in CapabilityBooleanPatterns || value.JBool? {
        if value.JStr? {
          var word := Strip(Lower(value.s));
          if word in ExplicitCapabilityWords {
            value := NormalizeBoolean(value);
          } else if HasNegativeWord(word) {
            value := JBool(false);
          } else {
            value := JBool(true);
          }
        }
      }
      normalized := normalized + [(key, value)];
    }
    assert normalized == NormalizedCapabilities(capabilities);
  }

  method Normalize(inputName: string, inputData: Json) returns (result: Json)
    ensures result == Normalized(inputName, inputData)
  {
    if !IsValidLshw(inputData) {
      return JObj([]);
    }
    var hardware := Get(inputData, "hardware").value;
    var lshw := NormalizeNode(Get(hardware, "data").value);
    result := Rebuilt(GetOrNull(hardware, "node"), lshw, GetOr(hardware, "error", JStr("")));
  }

  // ---------------------------------------------------------------------
  // Properties

  lemma {:induction false} NormalizedItemsAt(items: seq<Json>)
    ensures forall k | 0 <= k < |items| :: NormalizedItems(items)[k] == NormalizedNode(items[k])
  {
    if |items| > 0 {
      NormalizedItemsAt(items[1..]);
      assert forall k | 1 <= k < |items| :: NormalizedItems(items)[k] == NormalizedItems(items[1..])[k - 1];
    }
  }

  lemma {:induction false} NormalizedFieldsAt(fields: seq<(string, Json)>)
    ensures forall k | 0 <= k < |fields| :: NormalizedFields(fields)[k].1 == NormalizedValue(fields[k].0, fields[k].1)
  {
    if |fields| > 0 {
      NormalizedFieldsAt(fields[1..]);
      assert forall k | 1 <= k < |fields| :: NormalizedFields(fields)[k] == NormalizedFields(fields[1..])[k - 1];
    }
  }

  // ---------------------------------------------------------------------
  // Shape: keys and list lengths are never changed

  /** `after` has the shape of `before`: the same keys in the same order in
      every mapping, the same length in every list, scalars outside coerced
      fields untouched, and a coerced field either kept or turned into the
      field's canonical type. */
  ghost predicate SameShape(before: Json, after: Json)
    decreases before, 0
  {
    match before
    case JObj(fields) => after.JObj? && Keys(after.fields) == Keys(fields) && FieldsSameShape(fields, after.fields)
    case JArr(items) => after.JArr? && ItemsSameShape(items, after.items)
    case _ => after == before
  }

  ghost predicate ItemsSameShape(before: seq<Json>, after: seq<Json>)
    decreases before, 0
  {
    |before| == |after| &&
    (|before| == 0 || (SameShape(before[0], after[0]) && ItemsSameShape(before[1..], after[1..])))
  }

  ghost predicate FieldsSameShape(before: seq<(string, Json)>, after: seq<(string, Json)>)
    decreases before, 0
  {
    |before| == |after| &&
    (|before| == 0 ||
     (assert before[0].1 < before[0];
      ValueSameShape(before[0].0, before[0].1, after[0].1) && FieldsSameShape(before[1..], after[1..])))
  }

  ghost predicate ValueSameShape(key: string, before: Json, after: Json)
    decreases before, 1
  {
    if (key == "configuration" || key == "capabilities") && before.JObj? then
      after.JObj? && Keys(after.fields) == Keys(before.fields)
    else if key == "logicalname" then after == before || after == JArr([before])
    else if key == "physid" || key == "version" then after == before || after.JStr?
    else if key in BooleanFields then after == before || after.JBool?
    else if key in NumericFields then after == before || after.JInt?
    else SameShape(before, after)
  }

  lemma {:induction false} NodeKeepsShape(node: Json)
    ensures SameShape(node, NormalizedNode(node))
    decreases node, 0
  {
    match node
    case JObj(fields) => FieldsKeepShape(fields);
    case JArr(items) => ItemsKeepShape(items);
    case _ =>
  }

  lemma {:induction false} ItemsKeepShape(items: seq<Json>)
    ensures ItemsSameShape(items, NormalizedItems(items))
    decreases items, 0
  {
    if |items| > 0 {
      if items[0].JObj? || items[0].JArr? {
        NodeKeepsShape(items[0]);
      }
      ItemsKeepShape(items[1..]);
      assert NormalizedItems(items)[1..] == NormalizedItems(items[1..]);
    }
  }

  lemma {:induction false} FieldsKeepShape(fields: seq<(string, Json)>)
    ensures FieldsSameShape(fields, NormalizedFields(fields))
    decreases fields, 0
  {
    if |fields| > 0 {
      assert fields[0].1 < fields[0];
      ValueKeepsShape(fields[0].0, fields[0].1);
      FieldsKeepShape(fields[1..]);
      assert NormalizedFields(fields)[1..] == NormalizedFields(fields[1..]);
    }
  }

  lemma {:induction false} ValueKeepsShape(key: string, value: Json)
    ensures ValueSameShape(key, value, NormalizedValue(key, value))
    decreases value, 1
  {
    if (key == "configuration" || key == "capabilities") && value.JObj? {
    } else if !IsCoercedKey(key) {
      if value.JObj? {
        NodeKeepsShape(value);
      } else if value.JArr? {
        ItemsKeepShape(value.items);
      }
    }
  }

  // ---------------------------------------------------------------------
  // Idempotence: normalizing a normalized tree changes nothing

  lemma ConfigurationIdempotent(config: seq<(string, Json)>)
    ensures NormalizedConfiguration(NormalizedConfiguration(config)) == NormalizedConfiguration(config)
  {
    var once := NormalizedConfiguration(config);
    var twice := NormalizedConfiguration(once);
    forall k | 0 <= k < |config|
      ensures twice[k] == once[k]
    {
      NormalizeBooleanIdempotent(config[k].1);
      NormalizeNumericIdempotent(config[k].1);
      assert Keys(twice)[k] == Keys(once)[k];
    }
  }

  lemma CapabilitiesIdempotent(capabilities: seq<(string, Json)>)
    ensures NormalizedCapabilities(NormalizedCapabilities(capabilities)) == NormalizedCapabilities(capabilities)
  {
    var once := NormalizedCapabilities(capabilities);
    var twice := NormalizedCapabilities(once);
    forall k | 0 <= k < |capabilities|
      ensures twice[k] == once[k]
    {
      assert Keys(twice)[k] == Keys(once)[k];
    }
  }

  lemma {:induction false} NodeIdempotent(node: Json)
    ensures NormalizedNode(NormalizedNode(node)) == NormalizedNode(node)
    decreases node, 0
  {
    match node
    case JObj(fields) => FieldsIdempotent(fields);
    case JArr(items) => ItemsIdempotent(items);
    case _ =>
  }

  lemma {:induction false} ItemsIdempotent(items: seq<Json>)
    ensures NormalizedItems(NormalizedItems(items)) == NormalizedItems(items)
    decreases items, 0
  {
    if |items| > 0 {
      var once := NormalizedItems(items);
      assert once[1..] == NormalizedItems(items[1..]);
      if items[0].JObj? || items[0].JArr? {
        NodeIdempotent(items[0]);
      }
      ItemsIdempotent(items[1..]);
    }
  }

  lemma {:induction false} FieldsIdempotent(fields: seq<(string, Json)>)
    ensures NormalizedFields(NormalizedFields(fields)) == NormalizedFields(fields)
    decreases fields, 0
  {
    if |fields| > 0 {
      var once := NormalizedFields(fields);
      assert once[1..] == NormalizedFields(fields[1..]);
      assert fields[0].1 < fields[0];
      ValueIdempotent(fields[0].0, fields[0].1);
      FieldsIdempotent(fields[1..]);
    }
  }

  lemma {:induction false} ValueIdempotent(key: string, value: Json)
    ensures NormalizedValue(key, NormalizedValue(key, value)) == NormalizedValue(key, value)
    decreases value, 1
  {
    if key == "configuration" && value.JObj? {
      ConfigurationIdempotent(value.fields);
    } else if key == "capabilities" && value.JObj? {
      CapabilitiesIdempotent(value.fields);
    } else if key == "logicalname" || key == "physid" || key == "version" {
    } else if key in BooleanFields {
      NormalizeBooleanIdempotent(value);
    } else if key in NumericFields {
      NormalizeNumericIdempotent(value);
    } else if value.JObj? {
      NodeIdempotent(value);
    } else if value.JArr? {
      ItemsIdempotent(value.items);
    }
  }

  // ---------------------------------------------------------------------
  // The whole transformation

  /** The output is the empty mapping exactly when the input is not a valid capture. */
  lemma NormalizedRejectsExactlyInvalid(inputName: string, inputData: Json)
    ensures Normalized(inputName, inputData) == JObj([]) <==> !IsValidLshw(inputData)
  {
  }

  /** A valid capture is normalized into a valid capture whose `data` tree has
      the shape of the input's. */
  lemma NormalizedKeepsShape(inputName: string, inputData: Json)
    requires IsValidLshw(inputData)
    ensures var out := Normalized(inputName, inputData);
      IsValidLshw(out) &&
      SameShape(Get(Get(inputData, "hardware").value, "data").value,
                Get(Get(out, "hardware").value, "data").value)
  {
    NodeKeepsShape(Get(Get(inputData, "hardware").value, "data").value);
  }

  /** Normalizing twice gives what normalizing once gives. */
  lemma NormalizeIdempotent(inputName: string, inputData: Json)
    ensures Normalized(inputName, Normalized(inputName, inputData)) == Normalized(inputName, inputData)
  {
    if IsValidLshw(inputData) {
      var hardware := Get(inputData, "hardware").value;
      var data := Get(hardware, "data").value;
      NodeKeepsShape(data);
      NodeIdempotent(data);
    }
  }

  /** Inside `configuration` nothing recurses: a field outside the boolean and
      numeric sets, and any nested mapping, is kept as it is. */
  lemma ConfigurationNotRecursed(config: seq<(string, Json)>, k: nat)
    requires k < |config|
    requires config[k].1.JObj? || !(config[k].0 in BooleanFields || config[k].0 in NumericFields)
    ensures NormalizedValue("configuration", JObj(config)).fields[k] == config[k]
  {
    assert Keys(NormalizedConfiguration(config))[k] == config[k].0;
  }

  /** A descriptive capability string holding a negative word anywhere, even
      inside another word such as "nonexistent", reads as absent. */
  lemma NegativeWordAnywhere(key: string, text: string, i: nat)
    requires key in CapabilityBooleanPatterns
    requires Strip(Lower(text)) !in ExplicitCapabilityWords
    requires i + 4 <= |Strip(Lower(text))| && Strip(Lower(text))[i..i + 4] == "none"
    ensures CapabilityValue(key, JStr(text)) == JBool(false)
  {
    ContainsAt(Strip(Lower(text)), NegativeWords[2], i);
  }

  /** An empty capability string reads as present. */
  lemma EmptyCapabilityIsPresent()
    ensures CapabilityValue("pm", JStr("")) == JBool(true)
  {
    assert Strip(Lower("")) == "";
    forall i | 0 <= i < |NegativeWords|
      ensures !Contains("", NegativeWords[i])
    {
    }
  }
}
