/** The small text grammars of the hardware extractor, one recognizer per
    regular expression of the source.  Each recognizer follows how Python's
    `re` engine settles that particular pattern: a lazy `(.+?)` group is
    extended one character at a time until the rest of the pattern matches
    (and cannot cross a newline), greedy runs of one character class are
    maximal, and `$` matches at the end or before one final newline. */
module HardwareParsers {
  import opened Wrappers
  import opened Text

  // ---------------------------------------------------------------------
  // Regular-expression building blocks

  /** `$`: the end of the text, or just before a newline that ends it. */
  predicate AtEnd(s: string, i: nat) {
    i == |s| || (i + 1 == |s| && s[i] == '\n')
  }

  /** No newline among `s[a..b]`: what `.` may match. */
  predicate NoNewline(s: string, a: nat, b: nat) {
    forall k | a <= k < b && k < |s| :: s[k] != '\n'
  }

  /** `^(.+?)` followed by the rest of a pattern, which `tail(m)` recognizes when
      the group ends at `m`: the first end, at least `m`, the engine accepts.
      The search gives up at a newline, which `.` does not match. */
  function FirstLazyEnd(s: string, tail: nat -> bool, m: nat): (r: Option<nat>)
    requires 1 <= m
    ensures r.Some? ==> m <= r.value <= |s| && tail(r.value) && NoNewline(s, m - 1, r.value)
    ensures r.Some? ==> forall j | m <= j < r.value :: !tail(j)
    ensures r.None? ==> forall j | m <= j <= |s| && NoNewline(s, m - 1, j) :: !tail(j)
    decreases |s| + 1 - m
  {
    if m > |s| || s[m - 1] == '\n' then None
    else if tail(m) then Some(m)
    else FirstLazyEnd(s, tail, m + 1)
  }

  predicate NotCloseParen(c: char) { c != ')' }

  predicate NotSemicolon(c: char) { c != ';' }

  /** `[\d.]`. */
  predicate IsDigitOrDot(c: char) { IsDigit(c) || c == '.' }

  /** `[,\s]`. */
  predicate IsCommaOrSpace(c: char) { c == ',' || IsSpace(c) }

  // ---------------------------------------------------------------------
  // `_parse_vendor_string`: `^(.+?)\s*\[([0-9A-Fa-f]+)\]$`

  predicate VendorTail(s: string, m: nat) {
    m <= |s| &&
    var q := m + SpaceRun(s, m);
    q < |s| && s[q] == '[' &&
    var h := Run(s, q + 1, IsHexDigit);
    0 < h && q + 1 + h < |s| && s[q + 1 + h] == ']' && AtEnd(s, q + 2 + h)
  }

  function VendorIdAt(s: string, m: nat): (id: string)
    requires VendorTail(s, m)
    ensures IsHex(id)
  {
    var q := m + SpaceRun(s, m);
    s[q + 1..q + 1 + Run(s, q + 1, IsHexDigit)]
  }

  /** `(name, id)`: the name stripped and the hexadecimal id upper-cased; the
      text itself and no id when it does not end in `[hex]`; nothing for an
      absent or empty text. */
  function ParseVendorString(vendor: Option<string>): (r: (Option<string>, Option<string>))
    ensures r.0.None? <==> vendor.None? || vendor.value == ""
    ensures r.1.Some? ==> r.0.Some? && |r.1.value| > 0
    ensures r.0.Some? && r.1.None? ==> r.0 == vendor
  {
    if vendor.None? || vendor.value == "" then (None, None)
    else
      var s := vendor.value;
      match FirstLazyEnd(s, (j: nat) => VendorTail(s, j), 1)
      case Some(m) => (Some(Strip(s[..m])), Some(Upper(VendorIdAt(s, m))))
      case None => (Some(s), None)
  }

  // ---------------------------------------------------------------------
  // `_parse_product_string`: `^(.+?)\s*\[([0-9A-Fa-f]+):([0-9A-Fa-f]+)\]$`

  predicate ProductTail(s: string, m: nat) {
    m <= |s| &&
    var q := m + SpaceRun(s, m);
    q < |s| && s[q] == '[' &&
    var h1 := Run(s, q + 1, IsHexDigit);
    0 < h1 && q + 1 + h1 < |s| && s[q + 1 + h1] == ':' &&
    var h2 := Run(s, q + 2 + h1, IsHexDigit);
    0 < h2 && q + 2 + h1 + h2 < |s| && s[q + 2 + h1 + h2] == ']' && AtEnd(s, q + 3 + h1 + h2)
  }

  function ProductIdsAt(s: string, m: nat): (ids: (string, string))
    requires ProductTail(s, m)
    ensures IsHex(ids.0) && IsHex(ids.1)
  {
    var q := m + SpaceRun(s, m);
    var h1 := Run(s, q + 1, IsHexDigit);
    var h2 := Run(s, q + 2 + h1, IsHexDigit);
    (s[q + 1..q + 1 + h1], s[q + 2 + h1..q + 2 + h1 + h2])
  }

  /** `(model, vendor id, device id)`, like the vendor parser with two ids. */
  function ParseProductString(product: Option<string>): (r: (Option<string>, Option<string>, Option<string>))
    ensures r.0.None? <==> product.None? || product.value == ""
    ensures r.1.Some? <==> r.2.Some?
    ensures r.1.Some? ==> r.0.Some? && |r.1.value| > 0 && |r.2.value| > 0
    ensures r.0.Some? && r.1.None? ==> r.0 == product
  {
    if product.None? || product.value == "" then (None, None, None)
    else
      var s := product.value;
      match FirstLazyEnd(s, (j: nat) => ProductTail(s, j), 1)
      case Some(m) =>
        var ids := ProductIdsAt(s, m);
        (Some(Strip(s[..m])), Some(Upper(ids.0)), Some(Upper(ids.1)))
      case None => (Some(s), None, None)
  }

  // ---------------------------------------------------------------------
  // `_parse_system_model`: `^(.+?)\s*\(([^)]+)\)$`, then `SKU=([^;]+)`

  predicate ModelTail(s: string, m: nat) {
    m <= |s| &&
    var q := m + SpaceRun(s, m);
    q < |s| && s[q] == '(' &&
    var p := Run(s, q + 1, NotCloseParen);
    0 < p && q + 1 + p < |s| && s[q + 1 + p] == ')' && AtEnd(s, q + 2 + p)
  }

  function ParenAt(s: string, m: nat): string
    requires ModelTail(s, m)
  {
    var q := m + SpaceRun(s, m);
    s[q + 1..q + 1 + Run(s, q + 1, NotCloseParen)]
  }

  /** `re.search(r"SKU=([^;]+)", t)` from position `i` on: the leftmost `SKU=`
      followed by at least one character other than `;`, and that maximal run. */
  function SkuSearch(t: string, i: nat): (r: Option<string>)
    requires i <= |t|
    ensures r.Some? ==> |r.value| > 0 && ';' !in r.value
    decreases |t| - i
  {
    if i + 4 >= |t| then None
    else if t[i..i + 4] == "SKU=" && t[i + 4] != ';' then
      Some(t[i + 4..i + 4 + Run(t, i + 4, NotSemicolon)])
    else SkuSearch(t, i + 1)
  }

  /** The SKU read from the stripped parenthetical: the `SKU=` value, nothing
      for `NotProvided`, and the whole parenthetical when there is no `SKU=`
      value. */
  function SkuOf(paren: string): Option<string> {
    if Contains(paren, "SKU=") && SkuSearch(paren, 0).Some? then
      var sku := Strip(SkuSearch(paren, 0).value);
      if sku == "NotProvided" then None else Some(sku)
    else Some(paren)
  }

  /** `(model, sku)`. */
  function ParseSystemModel(product: Option<string>): (r: (Option<string>, Option<string>))
    ensures r.0.None? <==> product.None? || product.value == ""
    ensures r.0.None? ==> r.1.None?
  {
    if product.None? || product.value == "" then (None, None)
    else
      var s := product.value;
      match FirstLazyEnd(s, (j: nat) => ModelTail(s, j), 1)
      case Some(m) => (Some(Strip(s[..m])), SkuOf(Strip(ParenAt(s, m))))
      case None => (Some(s), None)
  }

  /** The vendor id of a storage device or network interface: its own, else
      the one in the product text. */
  function FallbackId(own: Option<string>, fromProduct: Option<string>): (id: Option<string>)
    ensures own.Some? ==> id == own
    ensures own.None? ==> id == fromProduct
  {
    if own.None? && fromProduct.Some? then fromProduct else own
  }

  // ---------------------------------------------------------------------
  // `_parse_firmware_string`

  /** The parsed firmware string; a field is `None` where the source leaves it
      `None` or does not set it. */
  datatype Firmware = Firmware(
    primary: Option<string>,
    extended: Option<string>,
    bootcode: Option<string>,
    nvm: Option<string>,
    psid: Option<string>,
    ncsi: Option<string>)

  const NoFirmware: Firmware := Firmware(None, None, None, None, None, None)

  /** Dispatch on the first vendor substring found in the lower-cased vendor
      name: broadcom, intel, mellanox, red hat or virtio, anything else. */
  function ParseFirmwareString(firmware: Option<string>, vendorName: Option<string>): (r: Firmware)
    ensures firmware.None? || firmware.value == "" ==> r == NoFirmware
    ensures firmware.Some? && firmware.value != "" ==> r.primary.Some?
  {
    if firmware.None? || firmware.value == "" then NoFirmware
    else
      var fw := firmware.value;
      var vendorLower := Lower(if vendorName.Some? then vendorName.value else "");
      if Contains(vendorLower, "broadcom") then BroadcomFirmware(fw)
      else if Contains(vendorLower, "intel") then IntelFirmware(fw)
      else if Contains(vendorLower, "mellanox") then MellanoxFirmware(fw)
      else if Contains(vendorLower, "red hat") || Contains(vendorLower, "virtio") then
        NoFirmware.(primary := Some(fw))
      else GenericFirmware(fw)
  }

  /** `re.search(r"NCSI\s+(v[\d.]+)", s)` from position `i` on. */
  function NcsiSearch(s: string, i: nat): Option<string>
    requires i <= |s|
    decreases |s| - i
  {
    if i + 4 > |s| then None
    else if s[i..i + 4] == "NCSI" then
      var sp := SpaceRun(s, i + 4);
      var v := i + 4 + sp;
      if 0 < sp && v < |s| && s[v] == 'v' && 0 < Run(s, v + 1, IsDigitOrDot) then
        Some(s[v..v + 1 + Run(s, v + 1, IsDigitOrDot)])
      else NcsiSearch(s, i + 1)
    else NcsiSearch(s, i + 1)
  }

  /** Broadcom: the first whitespace token, the token after the first `bc`, the
      `NCSI` version and the remaining tokens. */
  function BroadcomFirmware(fw: string): Firmware {
    var parts := Split(fw);
    var bootcode :=
      match IndexOf(parts, "bc")
      case Some(i) => if i + 1 < |parts| then Some(parts[i + 1]) else None
      case None => None;
    NoFirmware.(
      primary := Some(if |parts| > 0 then parts[0] else fw),
      bootcode := bootcode,
      ncsi := if Contains(fw, "NCSI") then NcsiSearch(fw, 0) else None,
      extended := if |parts| > 1 then Some(Join(" ", parts[1..])) else None)
  }

  /** Intel: tokens separated by commas and whitespace; with three or more the
      last one is the NVM version.  The pieces `re.split` gives hold no
      whitespace, so stripping them and dropping the empty ones leaves the
      maximal non-separator runs. */
  function IntelFirmware(fw: string): Firmware {
    var parts := Tokens(Strip(fw), IsCommaOrSpace);
    var primary := Some(if |parts| > 0 then parts[0] else fw);
    if |parts| >= 3 then
      NoFirmware.(primary := primary, nvm := Some(parts[|parts| - 1]),
                  extended := Some("NVM " + parts[|parts| - 1]))
    else if |parts| > 1 then
      NoFirmware.(primary := primary, extended := Some(Join(" ", parts[1..])))
    else NoFirmware.(primary := primary)
  }

  /** Mellanox: `^([\d.]+)\s*\(([^)]+)\)`, the version and the PSID. */
  function MellanoxFirmware(fw: string): Firmware {
    var d := Run(fw, 0, IsDigitOrDot);
    var q := d + SpaceRun(fw, d);
    if 0 < d && q < |fw| && fw[q] == '(' && 0 < Run(fw, q + 1, NotCloseParen)
       && q + 1 + Run(fw, q + 1, NotCloseParen) < |fw| then
      var psid := fw[q + 1..q + 1 + Run(fw, q + 1, NotCloseParen)];
      NoFirmware.(primary := Some(fw[..d]), psid := Some(psid), extended := Some("PSID: " + psid))
    else NoFirmware.(primary := Some(fw))
  }

  /** Any other vendor: the first whitespace token and the rest. */
  function GenericFirmware(fw: string): Firmware {
    var parts := Split(fw);
    NoFirmware.(
      primary := Some(if |parts| > 0 then parts[0] else fw),
      extended := if |parts| > 1 then Some(Join(" ", parts[1..])) else None)
  }

  // ---------------------------------------------------------------------
  // `_is_virtual_function`: `pci@[hex]+:([hex]+):([hex]+)\.([hex]+)`

  /** The device field of a `pci@domain:bus:device.function` prefix. */
  function PciDeviceField(s: string): (r: Option<string>)
    ensures r.Some? ==> IsHex(r.value)
  {
    if !StartsWith(s, "pci@") then None
    else
      var a := Run(s, 4, IsHexDigit);
      if a == 0 || 4 + a >= |s| || s[4 + a] != ':' then None
      else
        var b := Run(s, 5 + a, IsHexDigit);
        if b == 0 || 5 + a + b >= |s| || s[5 + a + b] != ':' then None
        else
          var c := Run(s, 6 + a + b, IsHexDigit);
          if c == 0 || 6 + a + b + c >= |s| || s[6 + a + b + c] != '.' then None
          else if Run(s, 7 + a + b + c, IsHexDigit) == 0 then None
          else Some(s[6 + a + b..6 + a + b + c])
  }

  /** A virtual function has a PCI address whose device field is not `00`. */
  predicate IsVirtualFunction(businfo: Option<string>) {
    && businfo.Some? && businfo.value != "" && StartsWith(businfo.value, "pci@")
    && match PciDeviceField(businfo.value)
       case Some(device) => device != "00"
       case None => false
  }

  // ---------------------------------------------------------------------
  // Network speed: `(\d+)\s*(Gbit|Mbit)` and `(\d+)gbit`

  /** The pattern anchored at `i`, in Mbit/s. */
  function SpeedAt(s: string, i: nat): Option<int>
    requires i <= |s|
  {
    var d := Run(s, i, IsDigit);
    var q := i + d + SpaceRun(s, i + d);
    if d == 0 || q + 4 > |s| then None
    else if s[q..q + 4] == "Gbit" then Some(DecimalValue(s[i..i + d]) * 1000)
    else if s[q..q + 4] == "Mbit" then Some(DecimalValue(s[i..i + d]))
    else None
  }

  /** `re.search` of the speed pattern: the leftmost position where it matches. */
  function SpeedSearch(s: string, i: nat): (r: Option<int>)
    requires i <= |s|
    ensures r.Some? ==> r.value >= 0
    decreases |s| - i
  {
    if i == |s| then None
    else match SpeedAt(s, i)
      case Some(v) => Some(v)
      case None => SpeedSearch(s, i + 1)
  }

  /** `(\d+)gbit` anchored at `i`, in Mbit/s. */
  function GbitAt(s: string, i: nat): Option<int>
    requires i <= |s|
  {
    var d := Run(s, i, IsDigit);
    if 0 < d && i + d + 4 <= |s| && s[i + d..i + d + 4] == "gbit" then
      Some(DecimalValue(s[i..i + d]) * 1000)
    else None
  }

  function GbitSearch(s: string, i: nat): Option<int>
    requires i <= |s|
    decreases |s| - i
  {
    if i == |s| then None
    else match GbitAt(s, i)
      case Some(v) => Some(v)
      case None => GbitSearch(s, i + 1)
  }

  /** The speed of a capability key, when its lower-cased text holds `gbit`
      preceded by digits. */
  function CapabilityKeySpeed(key: string): Option<int> {
    var lower := Lower(key);
    if Contains(lower, "gbit") then GbitSearch(lower, 0) else None
  }

  /** `text.replace("0x", "").upper()`, for subsystem ids. */
  function SubsystemId(text: string): (r: string)
    ensures forall k | 0 <= k < |r| :: !('a' <= r[k] <= 'z')
  {
    Upper(RemoveAll(text, "0x"))
  }

  // ---------------------------------------------------------------------
  // Round trips

  /** Python's `.` matches every character of a newline-free prefix. */
  lemma NoNewlineInPrefix(s: string, x: string)
    requires |x| <= |s| && s[..|x|] == x && '\n' !in x
    ensures NoNewline(s, 0, |x|)
  {
    assert forall k | 0 <= k < |x| :: s[k] == x[k];
  }

  lemma NoCharInPrefix(s: string, x: string, c: char)
    requires |x| <= |s| && s[..|x|] == x && c !in x
    ensures forall k | 0 <= k < |x| :: s[k] != c
  {
    assert forall k | 0 <= k < |x| :: s[k] == x[k];
  }

  /** A tail that matches at `n` makes the lazy search succeed, at `n` or before. */
  lemma LazyEndFound(s: string, tail: nat -> bool, n: nat)
    requires 1 <= n <= |s| && tail(n) && NoNewline(s, 0, n)
    ensures FirstLazyEnd(s, tail, 1).Some? && FirstLazyEnd(s, tail, 1).value <= n
  {
  }

  /** Whitespace between the end of the group and the end of `x` is dropped by
      `strip()`. */
  lemma GroupStrip(s: string, x: string, m: nat)
    requires |x| <= |s| && s[..|x|] == x && m <= |x|
    requires forall k | m <= k < |x| :: IsSpace(s[k])
    ensures Strip(s[..m]) == Strip(x)
  {
    assert s[..m] == x[..m];
    assert AllSpace(x[m..]) by {
      forall k | 0 <= k < |x[m..]| ensures IsSpace(x[m..][k]) {
        assert x[m..][k] == s[m + k];
      }
    }
    StripTrailingSpace(x, m);
  }

  /** One space, then the opening character at `n + 1`: the whitespace run at
      `n` has length one. */
  lemma OneSpace(s: string, n: nat)
    requires n + 1 < |s| && s[n] == ' ' && !IsSpace(s[n + 1])
    ensures SpaceRun(s, n) == 1
  {
    assert IsSpace(s[n]);
  }

  /** `" [h]"` at `n`, ending the text, is a vendor tail with id `h`. */
  lemma VendorTailAt(s: string, n: nat, h: string)
    requires n + 3 + |h| == |s| && IsHex(h)
    requires s[n] == ' ' && s[n + 1] == '[' && s[n + 2..n + 2 + |h|] == h && s[n + 2 + |h|] == ']'
    ensures VendorTail(s, n) && VendorIdAt(s, n) == h
  {
    OneSpace(s, n);
    RunOver(s, n + 2, h, IsHexDigit);
  }

  /** `" [h1:h2]"` at `n`, ending the text, is a product tail with ids `h1`, `h2`. */
  lemma ProductTailAt(s: string, n: nat, h1: string, h2: string)
    requires n + 4 + |h1| + |h2| == |s| && IsHex(h1) && IsHex(h2)
    requires s[n] == ' ' && s[n + 1] == '[' && s[n + 2..n + 2 + |h1|] == h1 && s[n + 2 + |h1|] == ':'
    requires s[n + 3 + |h1|..n + 3 + |h1| + |h2|] == h2 && s[n + 3 + |h1| + |h2|] == ']'
    ensures ProductTail(s, n) && ProductIdsAt(s, n) == (h1, h2)
  {
    OneSpace(s, n);
    RunOver(s, n + 2, h1, IsHexDigit);
    RunOver(s, n + 3 + |h1|, h2, IsHexDigit);
    assert ProductTail(s, n);
  }

  /** The ids depend only on where the bracket opens. */
  lemma ProductIdsShift(s: string, m: nat, n: nat)
    requires ProductTail(s, m) && ProductTail(s, n)
    requires m + SpaceRun(s, m) == n + SpaceRun(s, n)
    ensures ProductIdsAt(s, m) == ProductIdsAt(s, n)
  {
  }

  /** In `x + " [" + …` the lazy group of a match ends within `x`, with only
      whitespace between its end and the bracket. */
  lemma BracketPinned(s: string, n: nat, m: nat)
    requires n + 2 < |s| && m <= n
    requires s[n] == ' ' && s[n + 1] == '['
    requires VendorTail(s, m) || ProductTail(s, m)
    ensures m + SpaceRun(s, m) == n + 1
  {
    assert !IsHexDigit(s[n]) && !IsSpace(s[n + 1]);
  }

  /** `"X [hex]"` is read back as the stripped name and the upper-cased id. */
  lemma VendorRoundTrip(x: string, h: string)
    requires |x| > 0 && '\n' !in x && IsHex(h)
    ensures ParseVendorString(Some(x + " [" + h + "]")) == (Some(Strip(x)), Some(Upper(h)))
  {
    var s := x + " [" + h + "]";
    var n := |x|;
    assert s[..n] == x;
    assert s[n..] == " [" + h + "]";
    assert s[n + 2..n + 2 + |h|] == h;
    VendorTailAt(s, n, h);
    NoNewlineInPrefix(s, x);
    var tail := (j: nat) => VendorTail(s, j);
    LazyEndFound(s, tail, n);
    var m := FirstLazyEnd(s, tail, 1).value;
    BracketPinned(s, n, m);
    GroupStrip(s, x, m);
  }

  lemma ProductLayout(x: string, v: string, d: string)
    ensures var s := x + " [" + v + ":" + d + "]"; var n := |x|;
      && |s| == n + 4 + |v| + |d| && s[..n] == x
      && s[n] == ' ' && s[n + 1] == '[' && s[n + 2..n + 2 + |v|] == v && s[n + 2 + |v|] == ':'
      && s[n + 3 + |v|..n + 3 + |v| + |d|] == d && s[n + 3 + |v| + |d|] == ']'
  {
    var w := " [" + v + ":" + d + "]";
    var s := x + w;
    assert s == x + " [" + v + ":" + d + "]";
    var n := |x|;
    assert s[..n] == x && s[n..] == w;
    assert w[2..2 + |v|] == v && w[3 + |v|..3 + |v| + |d|] == d;
    assert s[n + 2..n + 2 + |v|] == w[2..2 + |v|];
    assert s[n + 3 + |v|..n + 3 + |v| + |d|] == w[3 + |v|..3 + |v| + |d|];
  }

  /** `"X [h1:h2]"` is read back as the stripped model and both upper-cased ids. */
  lemma ProductRoundTrip(x: string, v: string, d: string)
    requires |x| > 0 && '\n' !in x && IsHex(v) && IsHex(d)
    ensures ParseProductString(Some(x + " [" + v + ":" + d + "]"))
         == (Some(Strip(x)), Some(Upper(v)), Some(Upper(d)))
  {
    var s := x + " [" + v + ":" + d + "]";
    var m := ProductMatch(x, v, d);
    ProductOfMatch(s, m, Strip(x), v, d);
  }

  /** Where the lazy group of the product pattern ends in `"X [h1:h2]"`, and
      what it and the brackets hold. */
  lemma ProductMatch(x: string, v: string, d: string) returns (m: nat)
    requires |x| > 0 && '\n' !in x && IsHex(v) && IsHex(d)
    ensures var s := x + " [" + v + ":" + d + "]";
      && FirstLazyEnd(s, (j: nat) => ProductTail(s, j), 1) == Some(m)
      && ProductTail(s, m) && Strip(s[..m]) == Strip(x) && ProductIdsAt(s, m) == (v, d)
  {
    var s := x + " [" + v + ":" + d + "]";
    var n := |x|;
    ProductLayout(x, v, d);
    ProductTailAt(s, n, v, d);
    NoNewlineInPrefix(s, x);
    var tail := (j: nat) => ProductTail(s, j);
    LazyEndFound(s, tail, n);
    m := FirstLazyEnd(s, tail, 1).value;
    BracketPinned(s, n, m);
    OneSpace(s, n);
    ProductIdsShift(s, m, n);
    GroupStrip(s, x, m);
  }

  /** The reading of a product text once the product pattern has matched. */
  lemma ProductOfMatch(s: string, m: nat, model: string, v: string, d: string)
    requires s != ""
    requires FirstLazyEnd(s, (j: nat) => ProductTail(s, j), 1) == Some(m)
    requires ProductTail(s, m) && Strip(s[..m]) == model && ProductIdsAt(s, m) == (v, d)
    ensures ParseProductString(Some(s)) == (Some(model), Some(Upper(v)), Some(Upper(d)))
  {
  }

  /** `" (p)"` at `n`, ending the text, is a model tail around `p`. */
  lemma ModelTailAt(s: string, n: nat, p: string)
    requires n + 3 + |p| == |s| && |p| > 0 && ')' !in p
    requires s[n] == ' ' && s[n + 1] == '(' && s[n + 2..n + 2 + |p|] == p && s[n + 2 + |p|] == ')'
    ensures ModelTail(s, n) && ParenAt(s, n) == p
  {
    OneSpace(s, n);
    assert forall k | 0 <= k < |p| :: NotCloseParen(p[k]);
    RunOver(s, n + 2, p, NotCloseParen);
  }

  /** With no `(` before `n`, a model tail starts its parenthesis at `n + 1`. */
  lemma ParenPinned(s: string, n: nat, m: nat)
    requires n + 2 < |s| && m <= n
    requires s[n] == ' ' && s[n + 1] == '('
    requires forall k | 0 <= k < n :: s[k] != '('
    requires ModelTail(s, m)
    ensures m + SpaceRun(s, m) == n + 1
  {
    assert !IsSpace(s[n + 1]);
  }

  lemma ParenShift(s: string, m: nat, n: nat)
    requires ModelTail(s, m) && ModelTail(s, n)
    requires m + SpaceRun(s, m) == n + SpaceRun(s, n)
    ensures ParenAt(s, m) == ParenAt(s, n)
  {
  }

  lemma ModelLayout(b: string, p: string)
    ensures var s := b + " (" + p + ")"; var n := |b|;
      && |s| == n + 3 + |p| && s[..n] == b
      && s[n] == ' ' && s[n + 1] == '(' && s[n + 2..n + 2 + |p|] == p && s[n + 2 + |p|] == ')'
  {
    var w := " (" + p + ")";
    var s := b + w;
    assert s == b + " (" + p + ")";
    assert s[..|b|] == b && s[|b|..] == w;
    assert w[2..2 + |p|] == p;
    assert s[|b| + 2..|b| + 2 + |p|] == w[2..2 + |p|];
  }

  /** `"B (P)"`, with no `(` in the base and no `)` in the parenthetical, is read
      as the stripped base and the SKU of the stripped parenthetical. */
  lemma SystemModelRoundTrip(b: string, p: string)
    requires |b| > 0 && '\n' !in b && '(' !in b
    requires |p| > 0 && ')' !in p
    ensures ParseSystemModel(Some(b + " (" + p + ")")) == (Some(Strip(b)), SkuOf(Strip(p)))
  {
    var s := b + " (" + p + ")";
    var m := ModelMatch(b, p);
    SystemModelOfMatch(s, m, Strip(b), p);
  }

  /** Where the lazy group of the model pattern ends in `"B (P)"`, and what it
      and the parenthetical hold. */
  lemma ModelMatch(b: string, p: string) returns (m: nat)
    requires |b| > 0 && '\n' !in b && '(' !in b
    requires |p| > 0 && ')' !in p
    ensures var s := b + " (" + p + ")";
      && FirstLazyEnd(s, (j: nat) => ModelTail(s, j), 1) == Some(m)
      && ModelTail(s, m) && Strip(s[..m]) == Strip(b) && ParenAt(s, m) == p
  {
    var s := b + " (" + p + ")";
    var n := |b|;
    ModelLayout(b, p);
    ModelTailAt(s, n, p);
    NoNewlineInPrefix(s, b);
    var tail := (j: nat) => ModelTail(s, j);
    LazyEndFound(s, tail, n);
    m := FirstLazyEnd(s, tail, 1).value;
    NoCharInPrefix(s, b, '(');
    ParenPinned(s, n, m);
    OneSpace(s, n);
    ParenShift(s, m, n);
    GroupStrip(s, b, m);
  }

  /** The reading of a product text once the model pattern has matched. */
  lemma SystemModelOfMatch(s: string, m: nat, base: string, paren: string)
    requires s != ""
    requires FirstLazyEnd(s, (j: nat) => ModelTail(s, j), 1) == Some(m)
    requires ModelTail(s, m) && Strip(s[..m]) == base && ParenAt(s, m) == paren
    ensures ParseSystemModel(Some(s)) == (Some(base), SkuOf(Strip(paren)))
  {
  }

  /** `SKU=` at the start, then a value free of `;`, ended by `;` or the end,
      is found as that value. */
  lemma SkuAtStart(value: string, rest: string)
    requires |value| > 0 && ';' !in value
    requires rest == [] || rest[0] == ';'
    ensures SkuSearch("SKU=" + value + rest, 0) == Some(value)
  {
    var t := "SKU=" + value + rest;
    assert t[..4] == "SKU=";
    assert t[4..4 + |value|] == value;
    assert forall k | 0 <= k < |value| :: NotSemicolon(value[k]);
    RunOver(t, 4, value, NotSemicolon);
  }

  /** Broadcom: a space-joined list of tokens is read as its first token, the
      rest as extended text, and the token after the first `bc` as bootcode. */
  lemma BroadcomRoundTrip(parts: seq<string>)
    requires |parts| > 0
    requires forall k | 0 <= k < |parts| :: |parts[k]| > 0
    requires forall k, j | 0 <= k < |parts| && 0 <= j < |parts[k]| :: !IsSpace(parts[k][j])
    ensures var r := BroadcomFirmware(Join(" ", parts));
      && r.primary == Some(parts[0])
      && r.extended == (if |parts| > 1 then Some(Join(" ", parts[1..])) else None)
      && (forall i | 0 <= i < |parts| - 1 && parts[i] == "bc" && "bc" !in parts[..i] :: r.bootcode == Some(parts[i + 1]))
  {
    TokensOfJoin(' ', parts, IsSpace);
    BroadcomOfTokens(Join(" ", parts), parts);
  }

  /** The Broadcom reading of a text whose whitespace tokens are known. */
  lemma BroadcomOfTokens(fw: string, parts: seq<string>)
    requires Split(fw) == parts && |parts| > 0
    ensures var r := BroadcomFirmware(fw);
      && r.primary == Some(parts[0])
      && r.extended == (if |parts| > 1 then Some(Join(" ", parts[1..])) else None)
      && (forall i | 0 <= i < |parts| - 1 && parts[i] == "bc" && "bc" !in parts[..i] :: r.bootcode == Some(parts[i + 1]))
  {
  }

  /** Intel: three or more tokens joined by spaces give the last as NVM version. */
  lemma IntelRoundTrip(parts: seq<string>)
    requires |parts| >= 3
    requires forall k | 0 <= k < |parts| :: |parts[k]| > 0
    requires forall k, j | 0 <= k < |parts| && 0 <= j < |parts[k]| :: !IsCommaOrSpace(parts[k][j])
    ensures var r := IntelFirmware(Join(" ", parts));
      && r.primary == Some(parts[0])
      && r.nvm == Some(parts[|parts| - 1])
      && r.extended == Some("NVM " + parts[|parts| - 1])
  {
    var s := Join(" ", parts);
    JoinIsStripped(parts);
    TokensOfJoin(' ', parts, IsCommaOrSpace);
    IntelOfTokens(s, parts);
  }

  lemma IntelOfTokens(fw: string, parts: seq<string>)
    requires Tokens(Strip(fw), IsCommaOrSpace) == parts && |parts| >= 3
    ensures var r := IntelFirmware(fw);
      && r.primary == Some(parts[0])
      && r.nvm == Some(parts[|parts| - 1])
      && r.extended == Some("NVM " + parts[|parts| - 1])
  {
  }

  /** Tokens free of separators, joined by spaces, have nothing to strip. */
  lemma JoinIsStripped(parts: seq<string>)
    requires |parts| > 0
    requires forall k | 0 <= k < |parts| :: |parts[k]| > 0
    requires !IsSpace(parts[0][0]) && !IsSpace(parts[|parts| - 1][|parts[|parts| - 1]| - 1])
    ensures Strip(Join(" ", parts)) == Join(" ", parts)
  {
    JoinEnds(" ", parts);
    StripUnchanged(Join(" ", parts));
  }

  /** The joined text starts with the first token and ends with the last. */
  lemma {:induction false} JoinEnds(sep: string, parts: seq<string>)
    requires |parts| > 0
    requires forall k | 0 <= k < |parts| :: |parts[k]| > 0
    ensures |Join(sep, parts)| > 0
    ensures Join(sep, parts)[0] == parts[0][0]
    ensures Join(sep, parts)[|Join(sep, parts)| - 1] == parts[|parts| - 1][|parts[|parts| - 1]| - 1]
    decreases |parts|
  {
    if |parts| > 1 {
      JoinEnds(sep, parts[1..]);
    }
  }

  /** Mellanox: `"ver (PSID)"` gives the version and the PSID. */
  lemma MellanoxRoundTrip(version: string, psid: string, rest: string)
    requires IsDottedNumber(version)
    requires |psid| > 0 && ')' !in psid
    ensures var r := MellanoxFirmware(version + " (" + psid + ")" + rest);
      r.primary == Some(version) && r.psid == Some(psid) && r.extended == Some("PSID: " + psid)
  {
    var fw := version + " (" + psid + ")" + rest;
    var n := |version|;
    assert fw[..n] == version;
    assert fw[n] == ' ' && fw[n + 1] == '(' && fw[n + 2 + |psid|] == ')';
    assert fw[n + 2..n + 2 + |psid|] == psid;
    assert forall k | 0 <= k < n :: IsDigitOrDot(version[k]);
    RunOver(fw, 0, version, IsDigitOrDot);
    assert SpaceRun(fw, n) == 1 by {
      assert IsSpace(fw[n]) && !IsSpace(fw[n + 1]);
    }
    assert forall k | 0 <= k < |psid| :: NotCloseParen(psid[k]);
    RunOver(fw, n + 2, psid, NotCloseParen);
    MellanoxOfPieces(fw, version, psid);
  }

  /** The Mellanox reading once the runs of the pattern are measured. */
  lemma MellanoxOfPieces(fw: string, version: string, psid: string)
    requires var n := |version|;
      && 0 < n && n + 2 + |psid| < |fw| && 0 < |psid|
      && Run(fw, 0, IsDigitOrDot) == n && SpaceRun(fw, n) == 1 && fw[n + 1] == '('
      && Run(fw, n + 2, NotCloseParen) == |psid|
      && fw[..n] == version && fw[n + 2..n + 2 + |psid|] == psid
    ensures var r := MellanoxFirmware(fw);
      r.primary == Some(version) && r.psid == Some(psid) && r.extended == Some("PSID: " + psid)
  {
  }

  /** From `i` on, `s` holds `x`, then the character `c`, then `y`. */
  lemma PieceAt(s: string, i: nat, x: string, c: char, y: string)
    requires i <= |s| && s[i..] == x + [c] + y
    ensures i + |x| < |s| && s[i..i + |x|] == x && s[i + |x|] == c && s[i + |x| + 1..] == y
  {
    assert s[i..][..|x|] == x;
    assert s[i..][|x|] == c;
    assert s[i..][|x| + 1..] == y;
  }

  /** Where the pieces of `pci@D:B:V.F…` sit, as offsets into the text after
      `pci@`. */
  lemma PciLayout(domain: string, bus: string, device: string, func: string, rest: string)
    requires |func| > 0
    ensures var s := "pci@" + domain + ":" + bus + ":" + device + "." + func + rest;
      var a, b, c := |domain|, |bus|, |device|;
      && |s| > 7 + a + b + c && s[..4] == "pci@"
      && s[4..4 + a] == domain && s[4 + a] == ':'
      && s[5 + a..5 + a + b] == bus && s[5 + a + b] == ':'
      && s[6 + a + b..6 + a + b + c] == device && s[6 + a + b + c] == '.'
      && s[7 + a + b + c] == func[0]
  {
    var r0 := domain + ":" + bus + ":" + device + "." + func + rest;
    var s := "pci@" + domain + ":" + bus + ":" + device + "." + func + rest;
    assert s == "pci@" + r0;
    AddressLayout(s, domain, bus, device, func, rest);
  }

  lemma AddressLayout(s: string, domain: string, bus: string, device: string, func: string, rest: string)
    requires |func| > 0
    requires s == "pci@" + (domain + ":" + bus + ":" + device + "." + func + rest)
    ensures var a, b, c := |domain|, |bus|, |device|;
      && |s| > 7 + a + b + c && s[..4] == "pci@"
      && s[4..4 + a] == domain && s[4 + a] == ':'
      && s[5 + a..5 + a + b] == bus && s[5 + a + b] == ':'
      && s[6 + a + b..6 + a + b + c] == device && s[6 + a + b + c] == '.'
      && s[7 + a + b + c] == func[0]
  {
    var r3 := func + rest;
    var r2 := device + "." + r3;
    var r1 := bus + ":" + r2;
    var r0 := domain + ":" + r1;
    assert r0 == domain + ":" + bus + ":" + device + "." + func + rest;
    assert s[..4] == "pci@" && s[4..] == r0;
    PiecesAt(s, domain, bus, device, r0, r1, r2, r3);
  }

  lemma PiecesAt(s: string, domain: string, bus: string, device: string, r0: string, r1: string, r2: string, r3: string)
    requires |s| >= 4 && s[4..] == r0 && |r3| > 0
    requires r0 == domain + ":" + r1 && r1 == bus + ":" + r2 && r2 == device + "." + r3
    ensures var a, b, c := |domain|, |bus|, |device|;
      && |s| > 7 + a + b + c
      && s[4..4 + a] == domain && s[4 + a] == ':'
      && s[5 + a..5 + a + b] == bus && s[5 + a + b] == ':'
      && s[6 + a + b..6 + a + b + c] == device && s[6 + a + b + c] == '.'
      && s[7 + a + b + c] == r3[0]
  {
    var a, b, c := |domain|, |bus|, |device|;
    PieceAt(s, 4, domain, ':', r1);
    PieceAt(s, 5 + a, bus, ':', r2);
    PieceAt(s, 6 + a + b, device, '.', r3);
    assert s[7 + a + b + c..][0] == r3[0];
  }

  /** The device field, once the runs of the address are known. */
  lemma PciDeviceFieldOfRuns(s: string, a: nat, b: nat, c: nat)
    requires 7 + a + b + c < |s| && StartsWith(s, "pci@")
    requires 0 < a && Run(s, 4, IsHexDigit) == a && s[4 + a] == ':'
    requires 0 < b && Run(s, 5 + a, IsHexDigit) == b && s[5 + a + b] == ':'
    requires 0 < c && Run(s, 6 + a + b, IsHexDigit) == c && s[6 + a + b + c] == '.'
    requires IsHexDigit(s[7 + a + b + c])
    ensures PciDeviceField(s) == Some(s[6 + a + b..6 + a + b + c])
  {
  }

  /** `pci@D:B:V.F` is a virtual function exactly when its device field V is
      not `00`. */
  lemma VirtualFunctionRoundTrip(domain: string, bus: string, device: string, func: string, rest: string)
    requires IsHex(domain) && IsHex(bus) && IsHex(device) && IsHex(func)
    ensures IsVirtualFunction(Some("pci@" + domain + ":" + bus + ":" + device + "." + func + rest))
        <==> device != "00"
  {
    var s := "pci@" + domain + ":" + bus + ":" + device + "." + func + rest;
    PciRuns(s, domain, bus, device, func, rest);
    VirtualFunctionOfRuns(s, |domain|, |bus|, |device|, device);
  }

  /** The hex runs of `pci@D:B:V.F…` end at the separators. */
  lemma PciRuns(s: string, domain: string, bus: string, device: string, func: string, rest: string)
    requires IsHex(domain) && IsHex(bus) && IsHex(device) && IsHex(func)
    requires s == "pci@" + domain + ":" + bus + ":" + device + "." + func + rest
    ensures var a, b, c := |domain|, |bus|, |device|;
      && 7 + a + b + c < |s| && StartsWith(s, "pci@")
      && 0 < a && Run(s, 4, IsHexDigit) == a && s[4 + a] == ':'
      && 0 < b && Run(s, 5 + a, IsHexDigit) == b && s[5 + a + b] == ':'
      && 0 < c && Run(s, 6 + a + b, IsHexDigit) == c && s[6 + a + b + c] == '.'
      && IsHexDigit(s[7 + a + b + c])
      && s[6 + a + b..6 + a + b + c] == device
  {
    var a, b := |domain|, |bus|;
    PciLayout(domain, bus, device, func, rest);
    RunOver(s, 4, domain, IsHexDigit);
    RunOver(s, 5 + a, bus, IsHexDigit);
    RunOver(s, 6 + a + b, device, IsHexDigit);
  }

  /** Once the runs of the address are known, the device field decides. */
  lemma VirtualFunctionOfRuns(s: string, a: nat, b: nat, c: nat, device: string)
    requires 7 + a + b + c < |s| && StartsWith(s, "pci@")
    requires 0 < a && Run(s, 4, IsHexDigit) == a && s[4 + a] == ':'
    requires 0 < b && Run(s, 5 + a, IsHexDigit) == b && s[5 + a + b] == ':'
    requires 0 < c && Run(s, 6 + a + b, IsHexDigit) == c && s[6 + a + b + c] == '.'
    requires IsHexDigit(s[7 + a + b + c])
    requires s[6 + a + b..6 + a + b + c] == device
    ensures IsVirtualFunction(Some(s)) <==> device != "00"
  {
    PciDeviceFieldOfRuns(s, a, b, c);
  }

  /** Without the `pci@` prefix no address is a virtual function. */
  lemma NonPciIsNotVirtualFunction(businfo: Option<string>)
    requires businfo.None? || !StartsWith(businfo.value, "pci@")
    ensures !IsVirtualFunction(businfo)
  {
  }

  /** `"N Gbit…"` is N*1000 Mbit/s and `"N Mbit…"` is N Mbit/s. */
  lemma SpeedRoundTrip(n: nat, gap: string, unit: string, rest: string)
    requires AllSpace(gap)
    requires unit == "Gbit" || unit == "Mbit"
    ensures SpeedSearch(NatToDecimal(n) + gap + unit + rest, 0)
         == Some(if unit == "Gbit" then n * 1000 else n)
  {
    var digits := NatToDecimal(n);
    var s := digits + gap + unit + rest;
    var d := |digits|;
    assert s[..d] == digits;
    assert s[d..d + |gap|] == gap;
    assert s[d + |gap|..d + |gap| + 4] == unit;
    assert !IsDigit(s[d]) by {
      if |gap| > 0 { assert IsSpace(s[d]); } else { assert s[d] == unit[0]; }
    }
    RunOver(s, 0, digits, IsDigit);
    assert !IsSpace(s[d + |gap|]) by { assert s[d + |gap|] == unit[0]; }
    assert forall k | 0 <= k < |gap| :: IsSpace(gap[k]);
    RunOver(s, d, gap, IsSpace);
    DecimalValueOfNat(n);
    SpeedOfPieces(s, d, |gap|, unit, n);
  }

  /** The speed read at the start once the digit and space runs are measured. */
  lemma SpeedOfPieces(s: string, d: nat, g: nat, unit: string, n: nat)
    requires 0 < d && d + g + 4 <= |s|
    requires Run(s, 0, IsDigit) == d && SpaceRun(s, d) == g
    requires s[d + g..d + g + 4] == unit && (unit == "Gbit" || unit == "Mbit")
    requires DecimalValue(s[..d]) == n
    ensures SpeedSearch(s, 0) == Some(if unit == "Gbit" then n * 1000 else n)
  {
    SpeedAtPieces(s, d, g, unit, n);
  }

  lemma SpeedAtPieces(s: string, d: nat, g: nat, unit: string, n: nat)
    requires 0 < d && d + g + 4 <= |s|
    requires Run(s, 0, IsDigit) == d && SpaceRun(s, d) == g
    requires s[d + g..d + g + 4] == unit && (unit == "Gbit" || unit == "Mbit")
    requires DecimalValue(s[..d]) == n
    ensures SpeedAt(s, 0) == Some(if unit == "Gbit" then n * 1000 else n)
  {
    var q := d + g;
    assert s[0..d] == s[..d];
    if unit == "Gbit" {
      assert s[q..q + 4] == "Gbit";
    } else {
      assert s[q..q + 4] != "Gbit" by {
        assert s[q..q + 4][0] == 'M';
      }
      assert s[q..q + 4] == "Mbit";
    }
  }

  /** Every `0x` of an id that holds no other `0x` is removed, and the rest upper-cased. */
  lemma SubsystemIdOfPrefixed(hex: string)
    requires !Contains(hex, "0x")
    ensures SubsystemId("0x" + hex) == Upper(hex)
    ensures SubsystemId(hex) == Upper(hex)
  {
    RemoveAllAbsent(hex, "0x");
    assert ("0x" + hex)[2..] == hex;
  }

  // ---------------------------------------------------------------------
  // Texts the parsers do not decompose

  /** A vendor text without `[` has no id and is kept as it is. */
  lemma VendorWithoutId(s: string)
    requires s != "" && '[' !in s
    ensures ParseVendorString(Some(s)) == (Some(s), None)
  {
    forall j: nat ensures !VendorTail(s, j) {
    }
  }

  /** A product text without `[` has no ids and is kept as it is. */
  lemma ProductWithoutIds(s: string)
    requires s != "" && '[' !in s
    ensures ParseProductString(Some(s)) == (Some(s), None, None)
  {
    forall j: nat ensures !ProductTail(s, j) {
    }
  }

  /** A model text without `(` has no SKU and is kept as it is. */
  lemma SystemModelWithoutParenthesis(s: string)
    requires s != "" && '(' !in s
    ensures ParseSystemModel(Some(s)) == (Some(s), None)
  {
    forall j: nat ensures !ModelTail(s, j) {
    }
  }

  /** A parenthetical without `SKU=` is the SKU as a whole. */
  lemma SkuOfPartNumber(paren: string)
    requires !Contains(paren, "SKU=")
    ensures SkuOf(paren) == Some(paren)
  {
  }

  /** `SKU=v;…` gives `v`, or nothing when `v` is `NotProvided`. */
  lemma SkuOfDell(value: string, rest: string)
    requires |value| > 0 && ';' !in value && !IsSpace(value[0]) && !IsSpace(value[|value| - 1])
    requires rest == [] || rest[0] == ';'
    ensures SkuOf("SKU=" + value + rest) == if value == "NotProvided" then None else Some(value)
  {
    var t := "SKU=" + value + rest;
    SkuAtStart(value, rest);
    assert t[..4] == "SKU=";
    ContainsAt(t, "SKU=", 0);
    StripUnchanged(value);
  }

  // ---------------------------------------------------------------------
  // Canonical texts are read back exactly

  /** A stripped name and an upper-case id, formatted as `"name [id]"`, are read
      back unchanged. */
  lemma VendorCanonical(name: string, id: string)
    requires |name| > 0 && '\n' !in name && Strip(name) == name
    requires IsHex(id) && Upper(id) == id
    ensures ParseVendorString(Some(name + " [" + id + "]")) == (Some(name), Some(id))
  {
    VendorRoundTrip(name, id);
  }

  /** The same for `"model [vendor:device]"`. */
  lemma ProductCanonical(model: string, v: string, d: string)
    requires |model| > 0 && '\n' !in model && Strip(model) == model
    requires IsHex(v) && Upper(v) == v && IsHex(d) && Upper(d) == d
    ensures ParseProductString(Some(model + " [" + v + ":" + d + "]")) == (Some(model), Some(v), Some(d))
  {
    ProductRoundTrip(model, v, d);
  }

  /** The same for `"base (paren)"`: the base comes back, and the SKU read from
      the parenthetical. */
  lemma SystemModelCanonical(base: string, paren: string)
    requires |base| > 0 && '\n' !in base && '(' !in base && Strip(base) == base
    requires |paren| > 0 && ')' !in paren && Strip(paren) == paren
    ensures ParseSystemModel(Some(base + " (" + paren + ")")) == (Some(base), SkuOf(paren))
  {
    SystemModelRoundTrip(base, paren);
  }

  // ---------------------------------------------------------------------
  // The dispatch of the firmware parser on the vendor name

  /** The dispatch of the firmware parser on a vendor name: the first of
      broadcom, intel, mellanox and red hat / virtio that the lower-cased vendor
      name contains picks the parser; red hat and virtio keep the whole string
      as the primary version and nothing else. */
  lemma FirmwareDispatch(fw: string, vendor: string, key: string)
    requires fw != ""
    requires key in ["broadcom", "intel", "mellanox", "red hat", "virtio"] && Contains(Lower(vendor), key)
    requires key != "broadcom" ==> !Contains(Lower(vendor), "broadcom")
    requires key in ["mellanox", "red hat", "virtio"] ==> !Contains(Lower(vendor), "intel")
    requires key in ["red hat", "virtio"] ==> !Contains(Lower(vendor), "mellanox")
    ensures ParseFirmwareString(Some(fw), Some(vendor)) ==
      if key == "broadcom" then BroadcomFirmware(fw)
      else if key == "intel" then IntelFirmware(fw)
      else if key == "mellanox" then MellanoxFirmware(fw)
      else NoFirmware.(primary := Some(fw))
  {
  }

  /** A vendor name (or none) that names none of the known vendors gets the
      generic parser. */
  lemma FirmwareDispatchGeneric(fw: string, vendor: Option<string>)
    requires fw != ""
    requires var lower := Lower(if vendor.Some? then vendor.value else "");
      && !Contains(lower, "broadcom") && !Contains(lower, "intel") && !Contains(lower, "mellanox")
      && !Contains(lower, "red hat") && !Contains(lower, "virtio")
    ensures ParseFirmwareString(Some(fw), vendor) == GenericFirmware(fw)
  {
  }

  /** The `NCSI` search finds nothing before a prefix that does not contain
      `NCSI` and is followed by a space. */
  lemma {:induction false} NcsiSkipsPrefix(s: string, p: string, i: nat)
    requires |p| + 5 <= |s| && s[..|p|] == p && s[|p|] == ' '
    requires !Contains(p, "NCSI")
    requires i <= |p|
    ensures NcsiSearch(s, i) == NcsiSearch(s, |p| + 1)
    decreases |p| - i
  {
    if i + 4 <= |p| {
      if s[i..i + 4] == "NCSI" {
        assert p[i..i + 4] == s[i..i + 4];
        ContainsAt(p, "NCSI", i);
      }
    } else {
      assert s[i..i + 4][|p| - i] == ' ';
    }
    if i < |p| {
      NcsiSkipsPrefix(s, p, i + 1);
    }
  }

  /** `NCSI v<digits and dots>` at `j`, followed by something else, matches
      there. */
  lemma NcsiFoundAt(s: string, j: nat, d: string)
    requires j + 6 + |d| <= |s| && s[j..j + 4] == "NCSI" && s[j + 4] == ' ' && s[j + 5] == 'v'
    requires s[j + 6..j + 6 + |d|] == d && IsDottedNumber(d)
    requires j + 6 + |d| == |s| || !IsDigitOrDot(s[j + 6 + |d|])
    ensures NcsiSearch(s, j) == Some("v" + d)
  {
    OneSpace(s, j + 4);
    RunOver(s, j + 6, d, IsDigitOrDot);
    assert s[j + 5..j + 6 + |d|] == "v" + d;
  }

  /** A Broadcom string `"<prefix> NCSI v<digits and dots>..."` reports
      `v<digits and dots>` as its NCSI version, the whole run of digits and
      dots, when the prefix does not itself mention `NCSI`. */
  lemma BroadcomNcsi(fw: string, p: string, d: string, rest: string)
    requires fw == p + " NCSI v" + d + rest
    requires !Contains(p, "NCSI")
    requires IsDottedNumber(d)
    requires rest == "" || !IsDigitOrDot(rest[0])
    ensures BroadcomFirmware(fw).ncsi == Some("v" + d)
  {
    var j := |p| + 1;
    assert fw[..|p|] == p && fw[|p|..j + 6] == " NCSI v";
    assert fw[j + 6..j + 6 + |d|] == d && fw[j + 6 + |d|..] == rest;
    assert fw[j..j + 4] == "NCSI";
    ContainsAt(fw, "NCSI", j);
    NcsiSkipsPrefix(fw, p, 0);
    NcsiFoundAt(fw, j, d);
  }

  /** A text in which the first two characters of `w` never follow each other
      does not contain `w`. */
  lemma {:induction false} NoBigram(s: string, w: string)
    requires |w| >= 2
    requires forall k | 0 <= k < |s| - 1 && s[k] == w[0] :: s[k + 1] != w[1]
    ensures !Contains(s, w)
    decreases |s|
  {
    if |w| <= |s| {
      assert s[..|w|][0] == s[0] && s[..|w|][1] == s[1];
      assert s[..|w|] != w;
      var t := s[1..];
      forall k | 0 <= k < |t| - 1 && t[k] == w[0] ensures t[k + 1] != w[1] {
        assert s[k + 1] == w[0];
      }
      NoBigram(t, w);
    }
  }

  /** Broadcom firmware, as the parser reads it for a Broadcom vendor name. */
  lemma BroadcomFirmwareOf(parts: seq<string>, vendor: string)
    requires |parts| > 2 && parts[0] != "bc" && parts[1] == "bc"
    requires forall k | 0 <= k < |parts| :: |parts[k]| > 0
    requires forall k, j | 0 <= k < |parts| && 0 <= j < |parts[k]| :: !IsSpace(parts[k][j])
    requires Contains(Lower(vendor), "broadcom")
    ensures var r := ParseFirmwareString(Some(Join(" ", parts)), Some(vendor));
      r.primary == Some(parts[0]) && r.bootcode == Some(parts[2])
  {
    BroadcomRoundTrip(parts);
    assert parts[..1] == [parts[0]];
    JoinEnds(" ", parts);
    FirmwareDispatch(Join(" ", parts), vendor, "broadcom");
  }

  /** Intel firmware of three or more tokens, for an Intel vendor name. */
  lemma IntelFirmwareOf(parts: seq<string>, vendor: string)
    requires |parts| >= 3
    requires forall k | 0 <= k < |parts| :: |parts[k]| > 0
    requires forall k, j | 0 <= k < |parts| && 0 <= j < |parts[k]| :: !IsCommaOrSpace(parts[k][j])
    requires Contains(Lower(vendor), "intel") && !Contains(Lower(vendor), "broadcom")
    ensures var r := ParseFirmwareString(Some(Join(" ", parts)), Some(vendor));
      r.primary == Some(parts[0]) && r.nvm == Some(parts[|parts| - 1])
  {
    IntelRoundTrip(parts);
    JoinEnds(" ", parts);
    FirmwareDispatch(Join(" ", parts), vendor, "intel");
  }

  /** Mellanox firmware `"version (psid)"`, for a Mellanox vendor name. */
  lemma MellanoxFirmwareOf(version: string, psid: string, vendor: string)
    requires IsDottedNumber(version) && |psid| > 0 && ')' !in psid
    requires Contains(Lower(vendor), "mellanox")
    requires !Contains(Lower(vendor), "broadcom") && !Contains(Lower(vendor), "intel")
    ensures var r := ParseFirmwareString(Some(version + " (" + psid + ")"), Some(vendor));
      r.primary == Some(version) && r.psid == Some(psid)
  {
    var fw := version + " (" + psid + ")";
    assert fw == version + " (" + psid + ")" + "";
    MellanoxRoundTrip(version, psid, "");
    FirmwareDispatch(fw, vendor, "mellanox");
  }

  // ---------------------------------------------------------------------
  // The examples of the source's tests

  lemma VendorExample(name: string, id: string)
    requires name == "Intel Corporation" && id == "8086"
    ensures ParseVendorString(Some(name + " [" + id + "]")) == (Some(name), Some(id))
  {
    StripUnchanged(name);
    assert Upper(id) == id;
    VendorCanonical(name, id);
  }

  lemma ProductExample(model: string, v: string, d: string)
    requires model == "NetXtreme BCM5720" && v == "14E4" && d == "165F"
    ensures ParseProductString(Some(model + " [" + v + ":" + d + "]")) == (Some(model), Some(v), Some(d))
  {
    StripUnchanged(model);
    assert Upper(v) == v && Upper(d) == d;
    ProductCanonical(model, v, d);
  }

  lemma PartNumberExample(base: string, part: string)
    requires base == "ProLiant DL110 Gen11" && part == "P54277-B21"
    ensures ParseSystemModel(Some(base + " (" + part + ")")) == (Some(base), Some(part))
  {
    PartNumberBase(base);
    PartNumberPart(part);
    PartNumberWithoutSku(part);
    SkuOfPartNumber(part);
    SystemModelCanonical(base, part);
  }

  lemma DellExample(base: string, sku: string, rest: string)
    requires base == "PowerEdge R750" && rest == ";ModelName=PowerEdge R750"
    requires sku == "090E" || sku == "NotProvided"
    ensures ParseSystemModel(Some(base + " (" + ("SKU=" + sku + rest) + ")"))
         == (Some(base), if sku == "NotProvided" then None else Some(sku))
  {
    DellParts(base, sku, rest);
    SkuOfDell(sku, rest);
    SystemModelCanonical(base, "SKU=" + sku + rest);
  }

  lemma BroadcomExample(parts: seq<string>, vendor: string)
    requires parts == ["FFV21.80.8", "bc", "5720-v1.39"] && vendor == "Broadcom Inc."
    ensures var r := ParseFirmwareString(Some(Join(" ", parts)), Some(vendor));
      r.primary == Some(parts[0]) && r.bootcode == Some(parts[2])
  {
    BroadcomWords(vendor, parts);
    BroadcomFirmwareOf(parts, vendor);
  }

  lemma IntelExample(parts: seq<string>, vendor: string)
    requires parts == ["4.20", "0x8001778b", "22.0.9"] && vendor == "Intel Corporation"
    ensures var r := ParseFirmwareString(Some(Join(" ", parts)), Some(vendor));
      r.primary == Some(parts[0]) && r.nvm == Some(parts[2])
  {
    IntelWords(vendor, parts);
    IntelFirmwareOf(parts, vendor);
  }

  lemma MellanoxExample(version: string, psid: string, vendor: string)
    requires version == "14.32.2004" && psid == "DEL0000000015" && vendor == "Mellanox Technologies"
    ensures var r := ParseFirmwareString(Some(version + " (" + psid + ")"), Some(vendor));
      r.primary == Some(version) && r.psid == Some(psid)
  {
    MellanoxWords(vendor);
    assert IsDottedNumber(version) && ')' !in psid;
    MellanoxFirmwareOf(version, psid, vendor);
  }

  lemma VirtualFunctionExamples(domain: string, bus: string, fn: string, device: string)
    requires domain == "0000" && bus == "9d" && fn in ["0", "3", "5"]
    requires device in ["00", "01", "02"]
    ensures IsVirtualFunction(Some("pci@" + domain + ":" + bus + ":" + device + "." + fn + ""))
      <==> device != "00"
  {
    VirtualFunctionRoundTrip(domain, bus, device, fn, "");
  }

  lemma NonPciExamples(cpu: string, scsi: string)
    requires cpu == "cpu@0" && scsi == "scsi@0:0.0.0"
    ensures !IsVirtualFunction(Some(cpu)) && !IsVirtualFunction(Some(scsi))
    ensures !IsVirtualFunction(None) && !IsVirtualFunction(Some(""))
  {
    assert cpu[0] != 'p' && scsi[0] != 'p';
  }

  // ---------------------------------------------------------------------
  // Facts about the literal strings of the examples above.  They only
  // serve the example lemmas and state nothing about the parsers.

  lemma PartNumberBase(base: string)
    requires base == "ProLiant DL110 Gen11"
    ensures Strip(base) == base && '(' !in base && '\n' !in base
  {
    PartNumberBaseChars(base);
    StripUnchanged(base);
  }

  lemma PartNumberBaseChars(base: string)
    requires base == "ProLiant DL110 Gen11"
    ensures '(' !in base && '\n' !in base && !IsSpace(base[0]) && !IsSpace(base[|base| - 1])
  {
  }

  lemma PartNumberPart(part: string)
    requires part == "P54277-B21"
    ensures Strip(part) == part && ')' !in part
  {
    StripUnchanged(part);
  }

  lemma PartNumberWithoutSku(part: string)
    requires part == "P54277-B21"
    ensures !Contains(part, "SKU=")
  {
    NoBigram(part, "SKU=");
  }

  lemma DellBase(base: string)
    requires base == "PowerEdge R750"
    ensures Strip(base) == base && '(' !in base && '\n' !in base
  {
    StripUnchanged(base);
  }

  lemma DellSku(sku: string)
    requires sku == "090E" || sku == "NotProvided"
    ensures |sku| > 0 && ';' !in sku && !IsSpace(sku[0]) && !IsSpace(sku[|sku| - 1])
  {
  }

  lemma DellParen(sku: string, rest: string)
    requires sku == "090E" || sku == "NotProvided"
    requires rest == ";ModelName=PowerEdge R750"
    ensures var paren := "SKU=" + sku + rest; ')' !in paren && Strip(paren) == paren
  {
    DellParenChars(sku, rest);
    StripUnchanged("SKU=" + sku + rest);
  }

  lemma DellParenChars(sku: string, rest: string)
    requires sku == "090E" || sku == "NotProvided"
    requires rest == ";ModelName=PowerEdge R750"
    ensures var paren := "SKU=" + sku + rest;
      ')' !in paren && !IsSpace(paren[0]) && !IsSpace(paren[|paren| - 1])
  {
    var paren := "SKU=" + sku + rest;
    assert paren[0] == 'S' && paren[|paren| - 1] == rest[|rest| - 1];
  }

  lemma DellParts(base: string, sku: string, rest: string)
    requires base == "PowerEdge R750" && rest == ";ModelName=PowerEdge R750"
    requires sku == "090E" || sku == "NotProvided"
    ensures Strip(base) == base && '(' !in base && '\n' !in base
    ensures |sku| > 0 && ';' !in sku && !IsSpace(sku[0]) && !IsSpace(sku[|sku| - 1]) && rest[0] == ';'
    ensures var paren := "SKU=" + sku + rest; ')' !in paren && Strip(paren) == paren
  {
    DellBase(base);
    DellSku(sku);
    DellParen(sku, rest);
  }

  lemma BroadcomWords(vendor: string, parts: seq<string>)
    requires vendor == "Broadcom Inc." && parts == ["FFV21.80.8", "bc", "5720-v1.39"]
    ensures Contains(Lower(vendor), "broadcom")
    ensures forall k, j | 0 <= k < |parts| && 0 <= j < |parts[k]| :: !IsSpace(parts[k][j])
  {
    BroadcomLower(vendor);
    forall k, j | 0 <= k < |parts| && 0 <= j < |parts[k]|
      ensures !IsSpace(parts[k][j])
    {
      NoSpaceInToken(parts[k], j);
    }
  }

  lemma BroadcomLower(vendor: string)
    requires vendor == "Broadcom Inc."
    ensures Contains(Lower(vendor), "broadcom")
  {
    assert Lower(vendor) == "broadcom inc.";
    ContainsAt(Lower(vendor), "broadcom", 0);
  }

  lemma NoSpaceInToken(token: string, j: nat)
    requires token in ["FFV21.80.8", "bc", "5720-v1.39"] && j < |token|
    ensures !IsSpace(token[j])
  {
  }

  lemma IntelLower(vendor: string)
    requires vendor == "Intel Corporation"
    ensures Lower(vendor) == "intel corporation"
  {
  }

  lemma IntelLowerWords(lower: string)
    requires lower == "intel corporation"
    ensures Contains(lower, "intel") && !Contains(lower, "broadcom")
  {
    ContainsAt(lower, "intel", 0);
    NoBigram(lower, "broadcom");
  }

  lemma IntelTokens(parts: seq<string>)
    requires parts == ["4.20", "0x8001778b", "22.0.9"]
    ensures forall k, j | 0 <= k < |parts| && 0 <= j < |parts[k]| :: !IsCommaOrSpace(parts[k][j])
  {
  }

  lemma IntelWords(vendor: string, parts: seq<string>)
    requires vendor == "Intel Corporation" && parts == ["4.20", "0x8001778b", "22.0.9"]
    ensures Contains(Lower(vendor), "intel") && !Contains(Lower(vendor), "broadcom")
    ensures forall k, j | 0 <= k < |parts| && 0 <= j < |parts[k]| :: !IsCommaOrSpace(parts[k][j])
  {
    IntelLower(vendor);
    IntelLowerWords(Lower(vendor));
    IntelTokens(parts);
  }

  lemma MellanoxLower(vendor: string)
    requires vendor == "Mellanox Technologies"
    ensures Lower(vendor) == "mellanox technologies"
  {
  }

  lemma MellanoxLowerWords(lower: string)
    requires lower == "mellanox technologies"
    ensures Contains(lower, "mellanox")
    ensures !Contains(lower, "broadcom") && !Contains(lower, "intel")
  {
    ContainsAt(lower, "mellanox", 0);
    MellanoxLacks(lower, "broadcom");
    MellanoxLacks(lower, "intel");
  }

  lemma MellanoxLacks(lower: string, word: string)
    requires lower == "mellanox technologies" && word in ["broadcom", "intel"]
    ensures !Contains(lower, word)
  {
    NoBigram(lower, word);
  }

  lemma MellanoxWords(vendor: string)
    requires vendor == "Mellanox Technologies"
    ensures Contains(Lower(vendor), "mellanox")
    ensures !Contains(Lower(vendor), "broadcom") && !Contains(Lower(vendor), "intel")
  {
    MellanoxLower(vendor);
    MellanoxLowerWords(Lower(vendor));
  }
}
