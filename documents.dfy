/** The JSON documents both transformations read and write.  A mapping keeps
    its keys in insertion order, as a Python `dict` does; the lookups below give
    the first entry for a key, which is the only one in a document decoded from
    JSON text. */
module Documents {
  import opened Wrappers

  datatype Json =
    | JNull
    | JBool(b: bool)
    | JInt(i: int)
    | JStr(s: string)
    | JArr(items: seq<Json>)
    | JObj(fields: seq<(string, Json)>)

  function Keys(fields: seq<(string, Json)>): (ks: seq<string>)
    ensures |ks| == |fields| && forall i | 0 <= i < |fields| :: ks[i] == fields[i].0
  {
    seq(|fields|, i requires 0 <= i < |fields| => fields[i].0)
  }

  /** The value stored under `key`, if any. */
  function Lookup(fields: seq<(string, Json)>, key: string): (r: Option<Json>)
    ensures r.None? <==> key !in Keys(fields)
  {
    if |fields| == 0 then None
    else if fields[0].0 == key then Some(fields[0].1)
    else
      assert Keys(fields) == [fields[0].0] + Keys(fields[1..]);
      Lookup(fields[1..], key)
  }

  /** `node.get(key)` on a mapping; `None` when `node` is not a mapping. */
  function Get(node: Json, key: string): Option<Json> {
    if node.JObj? then Lookup(node.fields, key) else None
  }

  predicate HasKey(node: Json, key: string) {
    node.JObj? && key in Keys(node.fields)
  }

  /** `node.get(key, default)`. */
  function GetOr(node: Json, key: string, default: Json): (r: Json)
    ensures HasKey(node, key) ==> Some(r) == Get(node, key)
    ensures !HasKey(node, key) ==> r == default
  {
    match Get(node, key)
    case Some(v) => v
    case None => default
  }

  /** `node.get(key)`, with Python's `None` written `JNull`. */
  function GetOrNull(node: Json, key: string): Json {
    GetOr(node, key, JNull)
  }

  /** Python truthiness: `None`, `False`, `0`, `""`, `[]` and `{}` are false. */
  predicate Truthy(v: Json) {
    match v
    case JNull => false
    case JBool(b) => b
    case JInt(i) => i != 0
    case JStr(s) => s != ""
    case JArr(items) => items != []
    case JObj(fields) => fields != []
  }

  /** Python's `a or b`: `a` when it is truthy, else `b`. */
  function PyOr(a: Json, b: Json): (r: Json)
    ensures Truthy(r) <==> Truthy(a) || Truthy(b)
    ensures Truthy(a) ==> r == a
  {
    if Truthy(a) then a else b
  }

  /** A text field that the source reads as a string: `None` when it is absent,
      null or not a string. */
  function TextOf(node: Json, key: string): Option<string> {
    match Get(node, key)
    case Some(JStr(s)) => Some(s)
    case _ => None
  }

  /** `node.get(key, default)` for a field the source uses as a string. */
  function TextOr(node: Json, key: string, default: string): string {
    match TextOf(node, key)
    case Some(s) => s
    case None => default
  }

  /** `node.get("class") == name`. */
  predicate ClassIs(node: Json, name: string) {
    Get(node, "class") == Some(JStr(name))
  }

  /** The list iterated by `for child in node.get("children", [])`. */
  function Children(node: Json): seq<Json> {
    match Get(node, "children")
    case Some(JArr(items)) => items
    case _ => []
  }

  /** An integer-valued field: an integer, or a boolean counted as 0 or 1. */
  function Number(v: Json): int {
    match v
    case JInt(i) => i
    case JBool(b) => if b then 1 else 0
    case _ => 0
  }

  // ---------------------------------------------------------------------
  // A size measure, so that walks over `children` can be shown to terminate

  function Size(j: Json): (n: nat)
    ensures n >= 1
    decreases j
  {
    match j
    case JArr(items) => 1 + ItemsSize(items)
    case JObj(fields) => 1 + FieldsSize(fields)
    case _ => 1
  }

  function ItemsSize(items: seq<Json>): nat
    decreases items
  {
    if |items| == 0 then 0 else Size(items[0]) + ItemsSize(items[1..])
  }

  function FieldsSize(fields: seq<(string, Json)>): nat
    decreases fields
  {
    if |fields| == 0 then 0
    else
      assert fields[0].1 < fields[0];
      Size(fields[0].1) + FieldsSize(fields[1..])
  }

  lemma {:induction false} ItemSmaller(items: seq<Json>, i: nat)
    requires i < |items|
    ensures Size(items[i]) <= ItemsSize(items)
  {
    if i > 0 {
      ItemSmaller(items[1..], i - 1);
    }
  }

  lemma {:induction false} LookupSmaller(fields: seq<(string, Json)>, key: string)
    requires Lookup(fields, key).Some?
    ensures Size(Lookup(fields, key).value) <= FieldsSize(fields)
  {
    if fields[0].0 != key {
      LookupSmaller(fields[1..], key);
    }
  }

  /** Every child is smaller than its parent. */
  lemma ChildSmaller(node: Json, i: nat)
    requires i < |Children(node)|
    ensures Size(Children(node)[i]) < Size(node)
  {
    LookupSmaller(node.fields, "children");
    ItemSmaller(Children(node), i);
  }

  /** A node's children together are smaller than the node. */
  lemma ChildrenSmaller(node: Json)
    ensures ItemsSize(Children(node)) < Size(node)
  {
    match Get(node, "children")
    case Some(JArr(items)) =>
      LookupSmaller(node.fields, "children");
    case _ =>
  }

  /** Dropping the first item makes a list smaller. */
  lemma TailSmaller(items: seq<Json>)
    requires |items| > 0
    ensures Size(items[0]) <= ItemsSize(items) && ItemsSize(items[1..]) < ItemsSize(items)
  {
  }
}
