# dci-analytics lshw normalization, modelled in Dafny

dci-analytics post-processes the hardware captures that DCI jobs upload. A
capture is the JSON that `lshw -json` prints, wrapped as
`{"hardware": {"node": ..., "data": <lshw tree>}}`. Two passes are modelled:

* **The type normalizer** (`LshwNormalizer`, in
  `dci_analytics/synchronizers/normalization_jobs_extra.py`). It checks that a
  capture is a real lshw output. It then walks the whole tree and coerces a
  fixed set of fields:
  * boolean fields become booleans;
  * numeric fields become integers;
  * `logicalname` becomes a list;
  * `physid` and `version` become text;
  * `configuration` and `capabilities` mappings get their own rules.

  Finally it rebuilds the wrapper around the normalized tree.
* **The hardware profile extractor** (`HardwareInfo`, in
  `dci_analytics/synchronizers/normalization_jobs_extra_hardware.py`). It turns
  a capture into one flat record:
  * node name, system vendor/model/SKU/family and BIOS fields;
  * CPU sockets, cores, threads and frequency;
  * memory total and DIMM count;
  * storage devices and network interfaces;
  * PCI devices sorted into five lists.

  The small text grammars it reads with regular expressions are modelled too:
  vendor `"Name [id]"`, product `"Model [v:d]"`, system model
  `"Base (SKU=...)"`, vendor-specific firmware strings, PCI addresses and link
  speeds.

The model works on a JSON value type (`Documents.Json`) that keeps the order
of keys. Mapping lookups follow `dict.get`, and Python truthiness is written
out. Strings are `seq<char>`, and every regular expression is a hand-written
recognizer for its one pattern. `\d` is read as the ASCII digits only. Within
that, each recognizer follows these rules of Python's `re` engine:
* a lazy group ends at the first place where the rest matches;
* `.` does not match a newline;
* `$` also matches before a final newline.

Each extractor that the source writes as a loop is a `method` with a `while`
loop. The method is proved equal to a specification function, and the
properties are proved about that function. The PCI pass appends to five lists
in place, so it is the class `HardwarePci.PciBuckets`.

Modules, one per concern:
* `Wrappers`, `Sequences`, `Text` and `Documents`: support.
* `LshwNormalizer`: the type normalizer.
* `HardwareErrors`: the two `ValueError`s.
* `HardwareParsers`: the text grammars.
* `HardwareTree`: pre-order search by class and the firmware node.
* `HardwareSystem`, `HardwareCpu`, `HardwareMemory`, `HardwareStorage`,
  `HardwareNetwork`, `HardwarePci`: one module per extractor.
* `HardwareProfile`: `__init__`, `parse` and module-level `normalize`.

## Model

| member | source | states |
|---|---|---|
| `LshwNormalizer.NormalizeBoolean` | dci_analytics/synchronizers/normalization_jobs_extra.py:138-152 | A boolean is kept. An integer becomes `value != 0`. A string becomes `true`/`false` exactly when its stripped lower-case form is one of the true or false words. Any other value is returned as it is. |
| `LshwNormalizer.NormalizeNumeric` | dci_analytics/synchronizers/normalization_jobs_extra.py:154-177 | A string of optional surrounding whitespace, an optional sign and ASCII decimal digits (single underscores allowed between digits) becomes that integer. Any other string and any non-string are kept. The result is an integer or the input unchanged. |
| `LshwNormalizer.NormalizeLogicalname` | dci_analytics/synchronizers/normalization_jobs_extra.py:179-185 | A list stays, a string becomes a one-element list, and anything else is kept. |
| `LshwNormalizer.NormalizeBooleanIdempotent` | dci_analytics/synchronizers/normalization_jobs_extra.py:138-152 | Coercing a boolean field twice gives what coercing once gives. |
| `LshwNormalizer.NormalizeNumericIdempotent` | dci_analytics/synchronizers/normalization_jobs_extra.py:154-177 | Coercing a numeric field twice gives what coercing once gives. |
| `LshwNormalizer.NormalizeNumericOfDecimal` | dci_analytics/synchronizers/normalization_jobs_extra.py:160-166 | The decimal text of any integer, negative ones included, is normalized back to that integer. |
| `LshwNormalizer.NormalizedNode` | dci_analytics/synchronizers/normalization_jobs_extra.py:187-244 | Mappings stay mappings, lists stay lists, and every scalar at the top is returned unchanged. |
| `LshwNormalizer.NormalizedItems` | dci_analytics/synchronizers/normalization_jobs_extra.py:233-241 | The list comprehension keeps the length of the list. |
| `LshwNormalizer.NormalizedFields` | dci_analytics/synchronizers/normalization_jobs_extra.py:189-231 | The per-key loop keeps the keys, in their order. |
| `LshwNormalizer.NormalizedValue` | dci_analytics/synchronizers/normalization_jobs_extra.py:194-229 | A boolean, numeric or `logicalname` field that holds a mapping is kept. A scalar under a key that has no rule is kept. |
| `LshwNormalizer.NormalizedConfiguration` | dci_analytics/synchronizers/normalization_jobs_extra.py:246-262 | Keys and order are kept. Each value gets only the boolean or numeric rule of its key, with no recursion. |
| `LshwNormalizer.NormalizedCapabilities` | dci_analytics/synchronizers/normalization_jobs_extra.py:264-301 | Keys and order are kept. Each value is the capability heuristic applied to its key and value. |
| `LshwNormalizer.CapabilityValue` | dci_analytics/synchronizers/normalization_jobs_extra.py:270-299 | Only strings under a flag name are rewritten. An explicit yes/no word goes through the boolean rule. Any other text is `false` exactly when it contains a negative word. |
| `LshwNormalizer.Rebuilt` | dci_analytics/synchronizers/normalization_jobs_extra.py:327-333 | The output wrapper has exactly the keys `node`, `data` and `error`, in that order, holding the given values. |
| `LshwNormalizer.NormalizeNode` | dci_analytics/synchronizers/normalization_jobs_extra.py:187-244 | The loop that fills a fresh mapping key by key computes `NormalizedNode`. |
| `LshwNormalizer.NormalizeValue` | dci_analytics/synchronizers/normalization_jobs_extra.py:194-229 | One step of the per-key loop computes `NormalizedValue`. |
| `LshwNormalizer.NormalizeConfiguration` | dci_analytics/synchronizers/normalization_jobs_extra.py:246-262 | The configuration loop computes `NormalizedConfiguration`. |
| `LshwNormalizer.NormalizeCapabilities` | dci_analytics/synchronizers/normalization_jobs_extra.py:264-301 | The capabilities loop computes `NormalizedCapabilities`. |
| `LshwNormalizer.Normalize` | dci_analytics/synchronizers/normalization_jobs_extra.py:303-343 | `normalize` computes the empty mapping for an invalid capture, and otherwise the rebuilt wrapper. |
| `LshwNormalizer.NormalizedItemsAt` | dci_analytics/synchronizers/normalization_jobs_extra.py:233-241 | Element `k` of a normalized list is element `k` normalized. |
| `LshwNormalizer.NormalizedFieldsAt` | dci_analytics/synchronizers/normalization_jobs_extra.py:189-231 | Value `k` of a normalized mapping is `NormalizedValue` of key `k` and value `k`. |
| `LshwNormalizer.NodeKeepsShape` | dci_analytics/synchronizers/normalization_jobs_extra.py:187-244 | Every mapping keeps its keys in order, and every list keeps its length. A scalar under a key without a rule is untouched. A coerced field is either kept or turned into its rule's type: boolean, integer, text, or a one-element `logicalname` list. |
| `LshwNormalizer.ItemsKeepShape` | dci_analytics/synchronizers/normalization_jobs_extra.py:218-227 | Shape is preserved for lists (mutually inductive with `NodeKeepsShape`). |
| `LshwNormalizer.FieldsKeepShape` | dci_analytics/synchronizers/normalization_jobs_extra.py:189-231 | Shape is preserved for mappings. |
| `LshwNormalizer.ValueKeepsShape` | dci_analytics/synchronizers/normalization_jobs_extra.py:194-229 | Shape is preserved for one keyed value, under every rule. |
| `LshwNormalizer.ConfigurationIdempotent` | dci_analytics/synchronizers/normalization_jobs_extra.py:246-262 | Normalizing a configuration twice equals normalizing it once. |
| `LshwNormalizer.CapabilitiesIdempotent` | dci_analytics/synchronizers/normalization_jobs_extra.py:264-301 | Normalizing capabilities twice equals normalizing them once. |
| `LshwNormalizer.NodeIdempotent` | dci_analytics/synchronizers/normalization_jobs_extra.py:187-244 | Normalizing a tree twice equals normalizing it once. |
| `LshwNormalizer.ItemsIdempotent` | dci_analytics/synchronizers/normalization_jobs_extra.py:218-227 | Idempotence holds for lists. |
| `LshwNormalizer.FieldsIdempotent` | dci_analytics/synchronizers/normalization_jobs_extra.py:189-231 | Idempotence holds for mappings. |
| `LshwNormalizer.ValueIdempotent` | dci_analytics/synchronizers/normalization_jobs_extra.py:194-229 | Idempotence holds for one keyed value, including `physid`/`version` text and `logicalname` lists. |
| `LshwNormalizer.NormalizedRejectsExactlyInvalid` | dci_analytics/synchronizers/normalization_jobs_extra.py:107-136 | The output is the empty mapping exactly when `is_valid_lshw` rejects the input. |
| `LshwNormalizer.NormalizedKeepsShape` | dci_analytics/synchronizers/normalization_jobs_extra.py:303-333 | A valid capture becomes a valid capture whose `data` tree has the input's shape. |
| `LshwNormalizer.NormalizeIdempotent` | dci_analytics/synchronizers/normalization_jobs_extra.py:303-343 | Normalizing a capture twice gives the same result as normalizing it once. |
| `LshwNormalizer.ConfigurationNotRecursed` | dci_analytics/synchronizers/normalization_jobs_extra.py:246-262 | Inside `configuration`, a nested mapping or a field outside the two sets is kept verbatim. |
| `LshwNormalizer.NegativeWordAnywhere` | dci_analytics/synchronizers/normalization_jobs_extra.py:275-297 | A descriptive capability text that contains `none` anywhere, even inside a longer word, reads as `false`. |
| `LshwNormalizer.EmptyCapabilityIsPresent` | dci_analytics/synchronizers/normalization_jobs_extra.py:294-297 | An empty capability string under a flag name reads as `true`. |
| `Text.Strip` | dci_analytics/synchronizers/normalization_jobs_extra_hardware.py:131 | `str.strip()`: the result neither starts nor ends with whitespace. |
| `Text.StripIsSlice` | dci_analytics/synchronizers/normalization_jobs_extra_hardware.py:131 | What `strip()` leaves is a slice of the text with only whitespace before and after it; with `Text.Strip`, this fixes the result. |
| `Text.Tokens` | dci_analytics/synchronizers/normalization_jobs_extra_hardware.py:211-212 | The non-empty maximal runs of non-separators. The result is empty exactly when the text is all separators. |
| `Text.TokensOfJoin` | dci_analytics/synchronizers/normalization_jobs_extra_hardware.py:211-212 | Splitting a separator-joined list of separator-free tokens gives the tokens back. |
| `Text.PyIntOfDecimal` | dci_analytics/synchronizers/normalization_jobs_extra_hardware.py:424-428 | Python's `int()` reads the decimal text of any integer back as that integer. |
| `HardwareParsers.FirstLazyEnd` | dci_analytics/synchronizers/normalization_jobs_extra_hardware.py:129 | The lazy group `^(.+?)` ends at the first place, at or after the minimum, where the rest of the pattern matches. It gives up at a newline. |
| `HardwareParsers.ParseVendorString` | dci_analytics/synchronizers/normalization_jobs_extra_hardware.py:114-132 | No name exactly for an absent or empty text. An id implies a name and is non-empty. Without an id, the text is returned unchanged. |
| `HardwareParsers.ParseProductString` | dci_analytics/synchronizers/normalization_jobs_extra_hardware.py:134-156 | No model exactly for an absent or empty text. The two ids are both present or both absent. Without ids, the text is returned unchanged. |
| `HardwareParsers.SkuSearch` | dci_analytics/synchronizers/normalization_jobs_extra_hardware.py:302 | A value found after `SKU=` is non-empty and holds no `;`. |
| `HardwareParsers.ParseSystemModel` | dci_analytics/synchronizers/normalization_jobs_extra_hardware.py:269-312 | No model exactly for an absent or empty text, and then no SKU either. |
| `HardwareParsers.FallbackId` | dci_analytics/synchronizers/normalization_jobs_extra_hardware.py:528-530 | The vendor id is the device's own when present, and otherwise the one from the product text. |
| `HardwareParsers.ParseFirmwareString` | dci_analytics/synchronizers/normalization_jobs_extra_hardware.py:158-246 | An absent or empty firmware string gives no fields at all. Any other string gives a primary version. |
| `HardwareParsers.PciDeviceField` | dci_analytics/synchronizers/normalization_jobs_extra_hardware.py:335-341 | The device field read from a `pci@D:B:V.F` address is a hexadecimal string. |
| `HardwareParsers.SpeedSearch` | dci_analytics/synchronizers/normalization_jobs_extra_hardware.py:628-632 | A speed found in the text is never negative. |
| `HardwareParsers.SubsystemId` | dci_analytics/synchronizers/normalization_jobs_extra_hardware.py:662-667 | A subsystem id holds no lower-case letter. |
| `HardwareParsers.VendorRoundTrip` | dci_analytics/synchronizers/normalization_jobs_extra_hardware.py:114-132 | `"X [hex]"` reads back as `X` stripped and the id upper-cased, for any newline-free `X`. |
| `HardwareParsers.ProductRoundTrip` | dci_analytics/synchronizers/normalization_jobs_extra_hardware.py:134-156 | `"X [v:d]"` reads back as `X` stripped and both ids upper-cased. |
| `HardwareParsers.SystemModelRoundTrip` | dci_analytics/synchronizers/normalization_jobs_extra_hardware.py:269-312 | `"B (P)"`, with no `(` in `B` and no `)` in `P`, reads back as `B` stripped and the SKU of `P` stripped. |
| `HardwareParsers.SkuAtStart` | dci_analytics/synchronizers/normalization_jobs_extra_hardware.py:301-304 | `SKU=` followed by a value free of `;` is found as that value. |
| `HardwareParsers.SkuOfPartNumber` | dci_analytics/synchronizers/normalization_jobs_extra_hardware.py:310-312 | A parenthetical without `SKU=` is itself the SKU. |
| `HardwareParsers.SkuOfDell` | dci_analytics/synchronizers/normalization_jobs_extra_hardware.py:300-308 | `SKU=v;...` gives `v`, and gives nothing when `v` is `NotProvided`. |
| `HardwareParsers.VendorWithoutId` | dci_analytics/synchronizers/normalization_jobs_extra_hardware.py:129-132 | A vendor text without `[` is returned unchanged, with no id. |
| `HardwareParsers.ProductWithoutIds` | dci_analytics/synchronizers/normalization_jobs_extra_hardware.py:149-156 | A product text without `[` is returned unchanged, with no ids. |
| `HardwareParsers.SystemModelWithoutParenthesis` | dci_analytics/synchronizers/normalization_jobs_extra_hardware.py:293-295 | A model text without `(` is returned unchanged, with no SKU. |
| `HardwareParsers.VendorCanonical` | dci_analytics/synchronizers/normalization_jobs_extra_hardware.py:114-132 | A stripped name and an upper-case id, formatted as `"name [id]"`, are parsed back unchanged. |
| `HardwareParsers.ProductCanonical` | dci_analytics/synchronizers/normalization_jobs_extra_hardware.py:134-156 | A stripped model and upper-case ids, formatted as `"model [v:d]"`, are parsed back unchanged. |
| `HardwareParsers.SystemModelCanonical` | dci_analytics/synchronizers/normalization_jobs_extra_hardware.py:269-312 | A stripped base and parenthetical, formatted as `"base (paren)"`, give the base and the parenthetical's SKU. |
| `HardwareParsers.BroadcomNcsi` | dci_analytics/synchronizers/normalization_jobs_extra_hardware.py:196-201 | In `"<prefix> NCSI v<digits and dots><rest>"`, where the prefix lacks `NCSI` and the rest does not go on with a digit or dot, the NCSI version is `v` and the whole run of digits and dots. |
| `HardwareParsers.BroadcomRoundTrip` | dci_analytics/synchronizers/normalization_jobs_extra_hardware.py:187-205 | For space-joined tokens: the primary is the first token; the extended text is the rest, rejoined; the bootcode is the token after the first `bc`. |
| `HardwareParsers.IntelRoundTrip` | dci_analytics/synchronizers/normalization_jobs_extra_hardware.py:209-221 | Three or more tokens give the first as primary and the last as NVM version, and `NVM <last>` as extended text. |
| `HardwareParsers.MellanoxRoundTrip` | dci_analytics/synchronizers/normalization_jobs_extra_hardware.py:225-233 | `"ver (PSID)..."` gives the version, the PSID and `PSID: <PSID>`. |
| `HardwareParsers.FirmwareDispatch` | dci_analytics/synchronizers/normalization_jobs_extra_hardware.py:183-244 | The vendor name picks the grammar, checking broadcom, then intel, then mellanox, then red hat or virtio. Red hat and virtio keep the whole string as the primary version and set nothing else. |
| `HardwareParsers.FirmwareDispatchGeneric` | dci_analytics/synchronizers/normalization_jobs_extra_hardware.py:239-244 | A vendor name, or none, that contains none of the five names gets the generic parser. |
| `HardwareParsers.BroadcomFirmwareOf` | dci_analytics/synchronizers/normalization_jobs_extra_hardware.py:187-205 | For a Broadcom vendor name, `"P bc B ..."` gives primary `P` and bootcode `B`. |
| `HardwareParsers.IntelFirmwareOf` | dci_analytics/synchronizers/normalization_jobs_extra_hardware.py:209-221 | For an Intel vendor name, three or more tokens give the first as primary and the last as NVM. |
| `HardwareParsers.MellanoxFirmwareOf` | dci_analytics/synchronizers/normalization_jobs_extra_hardware.py:225-233 | For a Mellanox vendor name, `"version (psid)"` gives that version and PSID. |
| `HardwareParsers.VirtualFunctionRoundTrip` | dci_analytics/synchronizers/normalization_jobs_extra_hardware.py:314-344 | `pci@D:B:V.F...` with hexadecimal fields is a virtual function exactly when `V` is not `00`. |
| `HardwareParsers.NonPciIsNotVirtualFunction` | dci_analytics/synchronizers/normalization_jobs_extra_hardware.py:329-330 | No address without the `pci@` prefix, and no absent address, is a virtual function. |
| `HardwareParsers.SpeedRoundTrip` | dci_analytics/synchronizers/normalization_jobs_extra_hardware.py:628-632 | `"N Gbit..."` reads as `N*1000` and `"N Mbit..."` as `N`, whatever whitespace separates number and unit. |
| `HardwareParsers.SubsystemIdOfPrefixed` | dci_analytics/synchronizers/normalization_jobs_extra_hardware.py:662-667 | An id with or without a `0x` prefix gives the same upper-cased digits. |
| `HardwareParsers.VendorExample` | tests/synchronizers/test_normalization_jobs_extra_hardware.py:440-445 | `Intel Corporation [8086]` parses as the name and `8086`. |
| `HardwareParsers.ProductExample` | tests/synchronizers/test_normalization_jobs_extra_hardware.py:465-473 | `NetXtreme BCM5720 [14E4:165F]` parses as the model and both ids. |
| `HardwareParsers.PartNumberExample` | tests/synchronizers/test_normalization_jobs_extra_hardware.py:504-509 | `ProLiant DL110 Gen11 (P54277-B21)` gives the part number as SKU. |
| `HardwareParsers.DellExample` | tests/synchronizers/test_normalization_jobs_extra_hardware.py:495-532 | The Dell model text gives `090E`, and gives no SKU for `NotProvided`. |
| `HardwareParsers.BroadcomExample` | tests/synchronizers/test_normalization_jobs_extra_hardware.py:538-545 | `FFV21.80.8 bc 5720-v1.39` from Broadcom gives primary `FFV21.80.8` and bootcode `5720-v1.39`. |
| `HardwareParsers.IntelExample` | tests/synchronizers/test_normalization_jobs_extra_hardware.py:547-554 | `4.20 0x8001778b 22.0.9` from Intel gives primary `4.20` and NVM `22.0.9`. |
| `HardwareParsers.MellanoxExample` | tests/synchronizers/test_normalization_jobs_extra_hardware.py:556-563 | `14.32.2004 (DEL0000000015)` from Mellanox gives that version and PSID. |
| `HardwareParsers.VirtualFunctionExamples` | tests/synchronizers/test_normalization_jobs_extra_hardware.py:575-585 | On bus `0000:9d`, device `00` is a physical function and `01`/`02` are virtual functions. |
| `HardwareParsers.NonPciExamples` | tests/synchronizers/test_normalization_jobs_extra_hardware.py:587-593 | `cpu@0`, `scsi@0:0.0.0`, `None` and `""` are not virtual functions. |
| `HardwareTree.PreOrder` | dci_analytics/synchronizers/normalization_jobs_extra_hardware.py:98-112 | The walk visits only mappings, and a mapping comes first in its own walk. |
| `HardwareTree.OfClassMembers` | dci_analytics/synchronizers/normalization_jobs_extra_hardware.py:104-105 | A node is selected exactly when it is in the list and has the class. |
| `HardwareTree.OfClassAppend` | dci_analytics/synchronizers/normalization_jobs_extra_hardware.py:104-110 | Selection distributes over concatenation. |
| `HardwareTree.FindByClassIsPreOrder` | dci_analytics/synchronizers/normalization_jobs_extra_hardware.py:85-112 | `_find_nodes_by_class` returns the nodes of that class, in pre-order. |
| `HardwareTree.FindInListIsPreOrder` | dci_analytics/synchronizers/normalization_jobs_extra_hardware.py:107-110 | The same holds for the loop over the children. |
| `HardwareTree.FindByClassMembers` | dci_analytics/synchronizers/normalization_jobs_extra_hardware.py:85-112 | A node is found exactly when it is in the tree and has the class. |
| `HardwareTree.FindNodesByClass` | dci_analytics/synchronizers/normalization_jobs_extra_hardware.py:85-112 | The recursive method with its `extend` loop computes the class search. |
| `HardwareTree.FindInChildren` | dci_analytics/synchronizers/normalization_jobs_extra_hardware.py:107-110 | The loop over the children computes the search over the list. |
| `HardwareTree.FirstFirmware` | dci_analytics/synchronizers/normalization_jobs_extra_hardware.py:356-365 | Gives nothing exactly when no node is a firmware node. Otherwise gives a firmware node with none before it. |
| `HardwareTree.FindFirmwareIsFirst` | dci_analytics/synchronizers/normalization_jobs_extra_hardware.py:356-365 | `find_firmware` returns the first firmware node in pre-order. |
| `HardwareTree.ChildInPreOrder` | dci_analytics/synchronizers/normalization_jobs_extra_hardware.py:107-110 | A mapping child of a visited node is visited too. |
| `HardwareSystem.SystemInfoOf` | dci_analytics/synchronizers/normalization_jobs_extra_hardware.py:248-267 | A family is reported only when the configuration mapping has `family`. |
| `HardwareSystem.FamilyNeedsConfiguration` | tests/synchronizers/test_normalization_jobs_extra_hardware.py:814-829 | Without a configuration mapping, the family is `None`. |
| `HardwareSystem.SystemModelOfRoot` | dci_analytics/synchronizers/normalization_jobs_extra_hardware.py:250-258 | The root's `"base (paren)"` product gives model `base` and the SKU of `paren`. |
| `HardwareSystem.BiosType` | dci_analytics/synchronizers/normalization_jobs_extra_hardware.py:374-385 | The type is one of `UEFI`, `EFI` or `BIOS`. It is `UEFI` exactly when the upper-cased description contains `UEFI` or the capabilities have a `uefi` key. It is `EFI` exactly when that fails and the description contains `EFI`. |
| `HardwareSystem.BiosTypeLegacy` | dci_analytics/synchronizers/normalization_jobs_extra_hardware.py:374-385 | The type is `BIOS` exactly when the upper-cased description lacks `EFI` and the capabilities lack `uefi`. |
| `HardwareSystem.BiosFromFirstFirmware` | dci_analytics/synchronizers/normalization_jobs_extra_hardware.py:346-387 | The BIOS fields are all `None` exactly when the tree has no firmware node. Otherwise they come from the first firmware node in pre-order. |
| `HardwareCpu.Megahertz` | dci_analytics/synchronizers/normalization_jobs_extra_hardware.py:409-410 | Hz to MHz, truncated toward zero: the sign is kept and the remainder is below one MHz. |
| `HardwareCpu.Frequency` | dci_analytics/synchronizers/normalization_jobs_extra_hardware.py:409-410 | There is no frequency exactly when `size` is falsy. |
| `HardwareCpu.CountOf` | dci_analytics/synchronizers/normalization_jobs_extra_hardware.py:418-429 | A falsy or missing count adds 0. A non-zero integer adds itself, and `true` adds 1. A non-empty text fails exactly when `int()` refuses it, and otherwise adds the integer `int()` reads. Only a text count can fail. |
| `HardwareCpu.CountOfText` | tests/synchronizers/test_normalization_jobs_extra_hardware.py:831-861 | A count given as the decimal text of `n` adds `n`. |
| `HardwareCpu.AddTotalsAssociative` | dci_analytics/synchronizers/normalization_jobs_extra_hardware.py:417-429 | Adding per-processor totals is associative, failure included. |
| `HardwareCpu.TotalsAppend` | dci_analytics/synchronizers/normalization_jobs_extra_hardware.py:417-429 | The totals over two runs of processors combine. |
| `HardwareCpu.SocketsAreProcessors` | dci_analytics/synchronizers/normalization_jobs_extra_hardware.py:413 | `cpu_sockets` is the number of processor nodes in the tree. |
| `HardwareCpu.NoProcessors` | dci_analytics/synchronizers/normalization_jobs_extra_hardware.py:393-401 | A tree without processors gives the all-empty CPU record. |
| `HardwareCpu.CpuCountsError` | dci_analytics/synchronizers/normalization_jobs_extra_hardware.py:424-429 | A processor fails exactly when its cores or threads text is not an integer, and the failure is that error. |
| `HardwareCpu.TotalsFailWhenOneFails` | dci_analytics/synchronizers/normalization_jobs_extra_hardware.py:417-429 | The totals fail exactly when some processor's counts fail. |
| `HardwareCpu.CpuInfoFails` | dci_analytics/synchronizers/normalization_jobs_extra_hardware.py:389-438 | `_extract_cpu_info` raises exactly when some processor node of the tree has a count text that `int()` refuses. |
| `HardwareCpu.ExtractCpuInfo` | dci_analytics/synchronizers/normalization_jobs_extra_hardware.py:389-438 | The loop computes the CPU record, or the error. |
| `HardwareCpu.AddCpu` | dci_analytics/synchronizers/normalization_jobs_extra_hardware.py:418-429 | One loop step adds one processor's counts. |
| `HardwareMemory.DimmCount` | dci_analytics/synchronizers/normalization_jobs_extra_hardware.py:463-466 | There are never more DIMMs than children. |
| `HardwareMemory.MemoryTotalsAppend` | dci_analytics/synchronizers/normalization_jobs_extra_hardware.py:448-466 | Bytes and DIMM counts over two runs of memory nodes add up. |
| `HardwareMemory.BytesFromSystemMemory` | dci_analytics/synchronizers/normalization_jobs_extra_hardware.py:451-460 | A non-zero total comes from some system-memory node that has a size. |
| `HardwareMemory.MemoryBytesFromTree` | dci_analytics/synchronizers/normalization_jobs_extra_hardware.py:440-470 | Non-zero bytes imply a `memory` node of the tree that passes the id and description test. |
| `HardwareMemory.DimmIsMemoryNode` | dci_analytics/synchronizers/normalization_jobs_extra_hardware.py:462-466 | A counted DIMM is itself found by the memory class search. |
| `HardwareMemory.CountDimms` | dci_analytics/synchronizers/normalization_jobs_extra_hardware.py:463-466 | The loop over children counts the populated DIMMs. |
| `HardwareMemory.ExtractMemoryInfo` | dci_analytics/synchronizers/normalization_jobs_extra_hardware.py:440-470 | The loop over memory nodes computes the byte total and the DIMM count. |
| `HardwareMemory.MemoryNodeTotals` | dci_analytics/synchronizers/normalization_jobs_extra_hardware.py:449-466 | One memory node contributes its system bytes and its DIMMs. |
| `HardwareStorage.StorageKind` | dci_analytics/synchronizers/normalization_jobs_extra_hardware.py:510-519 | The type is one of `nvme`, `scsi`, `virtio`, `sata` or `unknown`. Each holds exactly when its test passes and every earlier one fails, in the order nvme (bus or description), scsi (bus), virtio (bus), sata (`sata` in the bus or `ata` in the description). `unknown` holds exactly when all four fail. |
| `HardwareStorage.StorageKindOfSata` | dci_analytics/synchronizers/normalization_jobs_extra_hardware.py:510-519 | `sata` in the description wins once nvme, scsi and virtio are ruled out. `unknown` means no test matched. |
| `HardwareStorage.StorageDeviceOf` | dci_analytics/synchronizers/normalization_jobs_extra_hardware.py:499-554 | No device exactly when `size` is falsy. Otherwise the vendor id falls back to the product's. |
| `HardwareStorage.Devices` | dci_analytics/synchronizers/normalization_jobs_extra_hardware.py:482-485 | The disk pass gives at most one device per node. |
| `HardwareStorage.ChildDevices` | dci_analytics/synchronizers/normalization_jobs_extra_hardware.py:490-495 | The controller pass gives at most one device per child. |
| `HardwareStorage.DeviceInDevices` | dci_analytics/synchronizers/normalization_jobs_extra_hardware.py:482-485 | Every sized disk node gives a device in the disk pass. |
| `HardwareStorage.ChildDeviceKept` | dci_analytics/synchronizers/normalization_jobs_extra_hardware.py:490-495 | Every sized volume or disk child gives a device. |
| `HardwareStorage.InDiskPass` | dci_analytics/synchronizers/normalization_jobs_extra_hardware.py:477-485 | A sized disk anywhere in the tree is listed. |
| `HardwareStorage.InControllerPass` | dci_analytics/synchronizers/normalization_jobs_extra_hardware.py:479-495 | A sized volume or disk child of any storage controller is listed. |
| `HardwareStorage.DiskUnderControllerListedTwice` | dci_analytics/synchronizers/normalization_jobs_extra_hardware.py:472-497 | A sized disk directly under a storage controller appears twice in `storage_devices`, once per pass. |
| `HardwareStorage.DevicesAppendOne` | dci_analytics/synchronizers/normalization_jobs_extra_hardware.py:482-485 | One more node adds its device, if it has one, at the end. |
| `HardwareStorage.ExtractStorageDevices` | dci_analytics/synchronizers/normalization_jobs_extra_hardware.py:472-497 | The two loops compute the disk pass followed by the controller pass. |
| `HardwareStorage.AppendDevices` | dci_analytics/synchronizers/normalization_jobs_extra_hardware.py:482-485 | The disk loop appends the disk devices. |
| `HardwareStorage.AppendAllControllers` | dci_analytics/synchronizers/normalization_jobs_extra_hardware.py:488-495 | The controller loop appends the controllers' devices. |
| `HardwareStorage.AppendControllerDevices` | dci_analytics/synchronizers/normalization_jobs_extra_hardware.py:490-495 | The inner loop appends one controller's devices. |
| `HardwareNetwork.ChildLogicalNameFirst` | dci_analytics/synchronizers/normalization_jobs_extra_hardware.py:588-594 | The first `network` child with a name gives the name. |
| `HardwareNetwork.ChildLogicalNameNone` | dci_analytics/synchronizers/normalization_jobs_extra_hardware.py:588-594 | Without a named `network` child, the name stays falsy. It is unchanged when there is no `network` child at all. |
| `HardwareNetwork.FindLogicalName` | dci_analytics/synchronizers/normalization_jobs_extra_hardware.py:585-594 | The loop computes the logical name. |
| `HardwareNetwork.Switch` | dci_analytics/synchronizers/normalization_jobs_extra_hardware.py:605-620 | `true` exactly for the on-word, `false` exactly for the off-word, and `None` otherwise. |
| `HardwareNetwork.FirstKeySpeedIsFirst` | dci_analytics/synchronizers/normalization_jobs_extra_hardware.py:636-643 | The speed comes from the first capability key that has one. There is none exactly when no key has one. |
| `HardwareNetwork.FirstCapabilitySpeed` | dci_analytics/synchronizers/normalization_jobs_extra_hardware.py:638-643 | The loop with `break` computes the first key speed. |
| `HardwareNetwork.ParseSpeed` | dci_analytics/synchronizers/normalization_jobs_extra_hardware.py:622-643 | The speed block computes the speed. |
| `HardwareNetwork.ConfiguredSpeedWins` | dci_analytics/synchronizers/normalization_jobs_extra_hardware.py:622-635 | A non-zero configured `N Gbit`/`N Mbit` is the speed, whatever the capabilities say. |
| `HardwareNetwork.CapabilitySpeedFallback` | dci_analytics/synchronizers/normalization_jobs_extra_hardware.py:634-643 | With no configured speed, or a configured speed of 0, the first capability key with a speed gives the speed. When no key has one, or the capabilities are not a mapping, the configured value is kept. |
| `HardwareNetwork.SubsystemOf` | dci_analytics/synchronizers/normalization_jobs_extra_hardware.py:659-667 | A subsystem id exists exactly when the `or` of the two keys is a non-empty text. |
| `HardwareNetwork.SubsystemPrecedence` | dci_analytics/synchronizers/normalization_jobs_extra_hardware.py:659-667 | `subvendor` is preferred to `vendor`, and `subdevice` to `device`. |
| `HardwareNetwork.NonEmpty` | dci_analytics/synchronizers/normalization_jobs_extra_hardware.py:698-706 | An extra firmware field is present exactly when it is non-empty. |
| `HardwareNetwork.ParseNetworkInterface` | dci_analytics/synchronizers/normalization_jobs_extra_hardware.py:569-708 | The method computes the interface record. |
| `HardwareNetwork.LogicalNameSources` | dci_analytics/synchronizers/normalization_jobs_extra_hardware.py:585-594 | The node's own truthy name wins. With no named `network` child, the name is falsy. |
| `HardwareNetwork.LogicalNameFromChild` | dci_analytics/synchronizers/normalization_jobs_extra_hardware.py:587-594 | A node without a name takes the name of its first named `network` child. |
| `HardwareNetwork.InterfaceFields` | dci_analytics/synchronizers/normalization_jobs_extra_hardware.py:669-706 | A virtual function has a `pci@` address. The extras are never empty. There is a firmware version exactly when the configured firmware is a non-empty text. |
| `HardwareNetwork.EveryNetworkNodeListed` | dci_analytics/synchronizers/normalization_jobs_extra_hardware.py:556-567 | One interface per `network` node of the tree, in pre-order. |
| `HardwareNetwork.NetworkNodeHasInterface` | dci_analytics/synchronizers/normalization_jobs_extra_hardware.py:556-567 | Every `network` node's interface is listed. |
| `HardwareNetwork.ExtractNetworkInterfaces` | dci_analytics/synchronizers/normalization_jobs_extra_hardware.py:556-567 | The loop computes the interface list. |
| `HardwarePci.CategorizePciDevice` | dci_analytics/synchronizers/normalization_jobs_extra_hardware.py:748-796 | Skipped exactly for processor, memory, disk or system. Network exactly by class. Accelerator exactly when an unskipped non-network node's description has a keyword. Storage implies the storage class. USB implies a `bus` whose description says `usb`. |
| `HardwarePci.CategoryOfClass` | dci_analytics/synchronizers/normalization_jobs_extra_hardware.py:780-796 | No kept class is dropped. Storage is storage unless a keyword makes it an accelerator. A `bus` node is an accelerator when a keyword says so, else USB when its description says `usb`, else other. Every other class is `other` unless a keyword makes it an accelerator. |
| `HardwarePci.ProcessingAcceleratorsRedundant` | dci_analytics/synchronizers/normalization_jobs_extra_hardware.py:767-777 | The keyword `processing accelerators` never decides on its own, since `accelerator` already matches. |
| `HardwarePci.DeviceMatchesInterface` | dci_analytics/synchronizers/normalization_jobs_extra_hardware.py:798-846 | A PCI entry agrees with the network interface of the same node on every shared field. |
| `HardwarePci.OwnEntry` | dci_analytics/synchronizers/normalization_jobs_extra_hardware.py:733-741 | A node contributes one entry exactly when it is a PCI node with a kept class. |
| `HardwarePci.PciEntriesIsPreOrder` | dci_analytics/synchronizers/normalization_jobs_extra_hardware.py:726-746 | The recursion visits the nodes in pre-order. |
| `HardwarePci.EntriesOfMembers` | dci_analytics/synchronizers/normalization_jobs_extra_hardware.py:733-741 | An entry is listed exactly when some node contributes it. |
| `HardwarePci.InCategoryMembers` | dci_analytics/synchronizers/normalization_jobs_extra_hardware.py:741 | A device is in a category's list exactly when its entry has that category. |
| `HardwarePci.Place` | dci_analytics/synchronizers/normalization_jobs_extra_hardware.py:741 | Each list grows by exactly the entries of its category, in order. |
| `HardwarePci.PlaceOne` | dci_analytics/synchronizers/normalization_jobs_extra_hardware.py:741 | Appending one entry touches only its category's list. |
| `HardwarePci.PlaceAppend` | dci_analytics/synchronizers/normalization_jobs_extra_hardware.py:741-746 | Placing entries in two rounds equals placing them in one. |
| `HardwarePci.PlaceCount` | dci_analytics/synchronizers/normalization_jobs_extra_hardware.py:741 | The five lists together grow by the number of entries. |
| `HardwarePci.BucketOfTree` | dci_analytics/synchronizers/normalization_jobs_extra_hardware.py:710-724 | A device is in a category's list exactly when the walk produced it with that category. |
| `HardwarePci.PciNodeListed` | dci_analytics/synchronizers/normalization_jobs_extra_hardware.py:726-746 | Every PCI node of the tree with a kept class is listed under its category. |
| `HardwarePci.ListedFromPciNode` | dci_analytics/synchronizers/normalization_jobs_extra_hardware.py:726-746 | Every listed device comes from a PCI node of that category. |
| `HardwarePci.PciDeviceCount` | dci_analytics/synchronizers/normalization_jobs_extra_hardware.py:710-746 | The five lists together hold one device per PCI node with a kept class. |
| `HardwarePci.NetworkCardListedTwice` | dci_analytics/synchronizers/normalization_jobs_extra_hardware.py:758-764 | A PCI network node appears both among the interfaces and in the PCI network list. |
| `HardwarePci.PciBuckets.constructor` | dci_analytics/synchronizers/normalization_jobs_extra_hardware.py:712-718 | All five lists start empty. |
| `HardwarePci.PciBuckets.Append` | dci_analytics/synchronizers/normalization_jobs_extra_hardware.py:741 | `result[category].append(device_info)` places exactly that entry. |
| `HardwarePci.PciBuckets.CategorizeNode` | dci_analytics/synchronizers/normalization_jobs_extra_hardware.py:733-741 | The node's own entry, if any, is placed. |
| `HardwarePci.PciBuckets.CategorizeRecursive` | dci_analytics/synchronizers/normalization_jobs_extra_hardware.py:726-746 | The recursion places the entries of the whole subtree in pre-order. |
| `HardwarePci.PciBuckets.CategorizeChildren` | dci_analytics/synchronizers/normalization_jobs_extra_hardware.py:744-746 | The loop over the children places their subtrees' entries in order. |
| `HardwarePci.ExtractPciDevices` | dci_analytics/synchronizers/normalization_jobs_extra_hardware.py:710-724 | The in-place walk computes the five lists. |
| `HardwareProfile.HardwareInfoOf` | dci_analytics/synchronizers/normalization_jobs_extra_hardware.py:40-57 | Fails exactly when there is no `hardware` mapping, with the missing-wrapper error. |
| `HardwareProfile.HardwareInfoRoundTrip` | dci_analytics/synchronizers/normalization_jobs_extra_hardware.py:49-52 | The wrapper's `node` and `data` come back. An empty wrapper gives `""` and `{}`. |
| `HardwareProfile.ProfileOf` | dci_analytics/synchronizers/normalization_jobs_extra_hardware.py:59-83 | `parse` fails exactly when the CPU section fails. |
| `HardwareProfile.BareRootProfile` | tests/synchronizers/test_normalization_jobs_extra_hardware.py:796-812 | A childless `system` root gives the node, zero sockets, cores, bytes and DIMMs, and no devices or interfaces. |
| `HardwareProfile.Parse` | dci_analytics/synchronizers/normalization_jobs_extra_hardware.py:59-83 | The method computes the profile, or the error. |
| `HardwareProfile.NormalizeFails` | dci_analytics/synchronizers/normalization_jobs_extra_hardware.py:849-865 | `normalize` gives `None` exactly when the wrapper is missing or some processor has a non-integer count text. Otherwise the profile carries the wrapper's node. |
| `HardwareProfile.NormalizeHardware` | dci_analytics/synchronizers/normalization_jobs_extra_hardware.py:849-865 | The method computes `normalize`. |

## Left out

- Floating point: `memory_total_gb` and the storage `size_gb` are kept as byte counts. The rounding to GiB with one decimal is not modelled.
- `HardwareCpu.Megahertz`: divides exactly on integers. It does not model the float division that precedes `int()` for sizes beyond 2^53 Hz.
- The float fallback of `normalize_numeric`: a string that only `float()` accepts, such as `"1.5"` or `"inf"`, is modelled as kept unchanged.
- Text fields that are not strings are treated as absent: `vendor`, `product`, `description`, `businfo`, `firmware`, `speed`, subsystem ids and the like. The source raises `AttributeError`/`TypeError` on some of them, and `normalize` does not catch those errors.
- A raw capture that is not a mapping, a `data` tree whose nodes are not mappings where the source calls `.get` on them, and a `size` that is not a number are outside the model. They make the source raise exceptions other than `ValueError`.
- `LshwNormalizer.NormalizeNumeric`, `Text.PyInt`, `HardwareCpu.CountOf` and `HardwareCpu.CpuInfoFails`: Python's `int()` also accepts non-ASCII Unicode decimal digits, and refuses texts of more than 4300 digits. The model reads ASCII digits only, so such a Unicode text stays a string (or makes the CPU count fail) where the source gives an integer. It also has no digit limit, so a text of more than 4300 digits becomes an integer where the source falls back to `float()`.
- `HardwareParsers.SpeedSearch` and `HardwareParsers.GbitSearch`: the digit run of a link speed is read with no size limit. The source reads it with `int()` (lines 630 and 642 of the hardware module), which raises `ValueError` on more than 4300 digits.
- `HardwareParsers.SpeedRoundTrip`: holds for every N in the model. In the source, an N of more than 4300 digits makes `int()` at line 630 raise `ValueError`, so no speed comes back.
- `HardwareNetwork.ConfiguredSpeedWins`: a configured speed whose digit run is longer than 4300 digits makes the source raise `ValueError` at line 630. The model returns that speed.
- `HardwareNetwork.CapabilitySpeedFallback`: a capability key whose digit run is longer than 4300 digits makes the source raise `ValueError` at line 642. The model returns that speed.
- `HardwareProfile.NormalizeFails`: the source's `normalize` also returns `None` when a network speed, configured or from a capability key, has a digit run longer than 4300 digits, because the `ValueError` from lines 630 and 642 escapes `parse`. The model's failure cases leave this out, and it returns a profile there.
- `LshwNormalizer.PyRepr`: `repr()` of a string escapes only the quote, the backslash, the ASCII control characters and DEL. Python also escapes the non-printable non-ASCII characters, such as U+0085 and U+2028.
- The `\d` and `\s` classes of the recognizers use ASCII digits and the whitespace of `str.isspace()`. Python's `\d` also matches non-ASCII Unicode decimal digits.
- A `children` value that is not a list. The three tree walkers (lines 99-101 and 107-109, 357-361, 730-731 and 743-745 of the hardware module) skip it, as the model does. A `null`, a number or a boolean makes them raise `TypeError`. A string or a mapping makes them recurse into each character or key, which they then skip as not a mapping. The three direct loops over a node's children, for DIMMs (lines 463-464), controller volumes (lines 490-491) and a network node's children (lines 589-590), behave differently. There a `null`, a number or a boolean raises `TypeError`, and a non-empty string or mapping raises `AttributeError` on `.get`. The model treats every such value as having no children.
- `HardwareCpu.CountOf`: a truthy list or mapping as `cores` or `threads` makes the source raise `TypeError` when it adds it to the total (lines 424-429). The model adds 0, through `Documents.Number`.
- The JSON value type has no floating-point case. A float in the input, such as a `size` or `capacity` of `1.5`, cannot be represented.
- Case mapping is ASCII only. Python's `lower()`/`upper()` on non-ASCII letters is not modelled.
- Logging and the `input_name` argument, which only feeds log and error messages, are left out.
- The `except json.JSONDecodeError` / `except Exception` branches of `LshwNormalizer.normalize` are not modelled. A `RecursionError` on very deeply nested input would reach `except Exception`; the model has no recursion limit, so it normalizes such input.
- Regular expressions are modelled by hand-written recognizers, one per pattern, not by a general regex engine.
- `HardwareNetwork.NonEmpty`: a `firmware_*` extra key that the source leaves out of the result mapping is modelled as `None` in a fixed-field record.
- Storage device records keep `description` and `businfo` as the raw JSON values, as the source does. Only the type test reads them as text.
- The dictionary shapes of the results (key names such as `cpu_total_cores`) are records with fixed fields, one field per key.
