/** The two searches of the extractor over the lshw tree: every node of a class
    (`_find_nodes_by_class`), and the first firmware node (`find_firmware`
    inside `_extract_bios_info`).  Both visit the tree in pre-order, root
    first, and skip list items that are not mappings. */
module HardwareTree {
  import opened Wrappers
  import opened Documents

  // ---------------------------------------------------------------------
  // Pre-order, the reference order of both searches

  /** Every mapping node of the tree, root first, then the children's
      subtrees from left to right. */
  function PreOrder(node: Json): (r: seq<Json>)
    ensures forall k | 0 <= k < |r| :: r[k].JObj?
    ensures node.JObj? ==> |r| > 0 && r[0] == node
    decreases Size(node), 1
  {
    if !node.JObj? then []
    else
      ChildrenSmaller(node);
      [node] + PreOrderList(Children(node))
  }

  function PreOrderList(items: seq<Json>): (r: seq<Json>)
    ensures forall k | 0 <= k < |r| :: r[k].JObj?
    decreases ItemsSize(items), 2
  {
    if |items| == 0 then []
    else
      TailSmaller(items);
      PreOrder(items[0]) + PreOrderList(items[1..])
  }

  /** The nodes of `nodes` whose class is `cls`, in their order. */
  function OfClass(nodes: seq<Json>, cls: string): (r: seq<Json>)
    ensures |r| <= |nodes|
  {
    if |nodes| == 0 then []
    else (if ClassIs(nodes[0], cls) then [nodes[0]] else []) + OfClass(nodes[1..], cls)
  }

  /** `OfClass` keeps exactly the nodes of the class. */
  lemma {:induction false} OfClassMembers(nodes: seq<Json>, cls: string, n: Json)
    ensures n in OfClass(nodes, cls) <==> n in nodes && ClassIs(n, cls)
  {
    if |nodes| > 0 {
      OfClassMembers(nodes[1..], cls, n);
      assert nodes == [nodes[0]] + nodes[1..];
    }
  }

  lemma {:induction false} OfClassAppend(a: seq<Json>, b: seq<Json>, cls: string)
    ensures OfClass(a + b, cls) == OfClass(a, cls) + OfClass(b, cls)
  {
    if |a| > 0 {
      assert (a + b)[1..] == a[1..] + b;
      OfClassAppend(a[1..], b, cls);
    } else {
      assert a + b == b;
    }
  }

  // ---------------------------------------------------------------------
  // `_find_nodes_by_class`

  /** The nodes `_find_nodes_by_class(node, cls)` returns. */
  function FindByClass(node: Json, cls: string): (r: seq<Json>)
    decreases Size(node), 1
  {
    if !node.JObj? then []
    else
      ChildrenSmaller(node);
      (if ClassIs(node, cls) then [node] else []) + FindInList(Children(node), cls)
  }

  function FindInList(items: seq<Json>, cls: string): (r: seq<Json>)
    decreases ItemsSize(items), 2
  {
    if |items| == 0 then []
    else
      TailSmaller(items);
      FindByClass(items[0], cls) + FindInList(items[1..], cls)
  }

  /** The search returns exactly the nodes of class `cls`, in pre-order: the
      root when it matches, then the matches of each child's subtree. */
  lemma {:induction false} FindByClassIsPreOrder(node: Json, cls: string)
    ensures FindByClass(node, cls) == OfClass(PreOrder(node), cls)
    decreases Size(node), 1
  {
    if node.JObj? {
      ChildrenSmaller(node);
      FindInListIsPreOrder(Children(node), cls);
      OfClassAppend([node], PreOrderList(Children(node)), cls);
    }
  }

  lemma {:induction false} FindInListIsPreOrder(items: seq<Json>, cls: string)
    ensures FindInList(items, cls) == OfClass(PreOrderList(items), cls)
    decreases ItemsSize(items), 2
  {
    if |items| > 0 {
      TailSmaller(items);
      FindByClassIsPreOrder(items[0], cls);
      FindInListIsPreOrder(items[1..], cls);
      OfClassAppend(PreOrder(items[0]), PreOrderList(items[1..]), cls);
    }
  }

  /** Soundness and completeness of the search: a node is found exactly when it
      is a node of the tree whose class is `cls`. */
  lemma FindByClassMembers(node: Json, cls: string, n: Json)
    ensures n in FindByClass(node, cls) <==> n in PreOrder(node) && ClassIs(n, cls)
  {
    FindByClassIsPreOrder(node, cls);
    OfClassMembers(PreOrder(node), cls, n);
  }

  lemma {:induction false} FindInListAppend(items: seq<Json>, x: Json, cls: string)
    ensures FindInList(items + [x], cls) == FindInList(items, cls) + FindByClass(x, cls)
    decreases |items|
  {
    if |items| == 0 {
      assert FindInList([x], cls) == FindByClass(x, cls) + FindInList([], cls);
    } else {
      assert (items + [x])[1..] == items[1..] + [x];
      FindInListAppend(items[1..], x, cls);
    }
  }

  /** `_find_nodes_by_class`: the node itself when it matches, then the
      results of each child. */
  method FindNodesByClass(node: Json, cls: string) returns (results: seq<Json>)
    ensures results == FindByClass(node, cls)
    decreases Size(node), 1
  {
    if !node.JObj? {
      return [];
    }
    results := [];
    if ClassIs(node, cls) {
      results := results + [node];
    }
    var found := FindInChildren(node, cls);
    results := results + found;
  }

  /** The loop of `_find_nodes_by_class`: the result list is extended child by
      child. */
  method FindInChildren(node: Json, cls: string) returns (results: seq<Json>)
    ensures results == FindInList(Children(node), cls)
    decreases Size(node), 0
  {
    results := [];
    var children := Children(node);
    var i := 0;
    while i < |children|
      invariant 0 <= i <= |children|
      invariant results == FindInList(children[..i], cls)
    {
      ChildSmaller(node, i);
      var found := FindNodesByClass(children[i], cls);
      Extend(children, i, cls);
      results := results + found;
      i := i + 1;
    }
    assert children[..i] == children;
  }

  lemma Extend(children: seq<Json>, i: nat, cls: string)
    requires i < |children|
    ensures FindInList(children[..i + 1], cls) == FindInList(children[..i], cls) + FindByClass(children[i], cls)
  {
    FindInListAppend(children[..i], children[i], cls);
    assert children[..i + 1] == children[..i] + [children[i]];
  }

  // ---------------------------------------------------------------------
  // `find_firmware`

  /** The node `find_firmware` looks for. */
  predicate IsFirmwareNode(n: Json) {
    Get(n, "id") == Some(JStr("firmware")) && ClassIs(n, "memory")
  }

  /** The first firmware node of a list, if any. */
  function FirstFirmware(nodes: seq<Json>): (r: Option<Json>)
    ensures r.None? <==> forall k | 0 <= k < |nodes| :: !IsFirmwareNode(nodes[k])
    ensures r.Some? ==> exists k | 0 <= k < |nodes| ::
      (nodes[k] == r.value && IsFirmwareNode(r.value) && forall j | 0 <= j < k :: !IsFirmwareNode(nodes[j]))
  {
    if |nodes| == 0 then None
    else if IsFirmwareNode(nodes[0]) then Some(nodes[0])
    else
      var r := FirstFirmware(nodes[1..]);
      assert forall k | 1 <= k < |nodes| :: nodes[k] == nodes[1..][k - 1];
      r
  }

  lemma {:induction false} FirstFirmwareAppend(a: seq<Json>, b: seq<Json>)
    ensures FirstFirmware(a + b) == if FirstFirmware(a).Some? then FirstFirmware(a) else FirstFirmware(b)
  {
    if |a| > 0 {
      assert (a + b)[0] == a[0] && (a + b)[1..] == a[1..] + b;
      FirstFirmwareAppend(a[1..], b);
    } else {
      assert a + b == b;
    }
  }

  /** `find_firmware`: the node itself, else the first child subtree that
      holds one. */
  function FindFirmware(node: Json): Option<Json>
    decreases Size(node), 1
  {
    if !node.JObj? then None
    else if IsFirmwareNode(node) then Some(node)
    else
      ChildrenSmaller(node);
      FindFirmwareIn(Children(node))
  }

  function FindFirmwareIn(items: seq<Json>): Option<Json>
    decreases ItemsSize(items), 2
  {
    if |items| == 0 then None
    else
      TailSmaller(items);
      match FindFirmware(items[0])
      case Some(f) => Some(f)
      case None => FindFirmwareIn(items[1..])
  }

  /** The firmware node found is the first firmware node in pre-order. */
  lemma {:induction false} FindFirmwareIsFirst(node: Json)
    ensures FindFirmware(node) == FirstFirmware(PreOrder(node))
    decreases Size(node), 1
  {
    if node.JObj? {
      ChildrenSmaller(node);
      FindFirmwareInIsFirst(Children(node));
      FirstFirmwareAppend([node], PreOrderList(Children(node)));
    }
  }

  lemma {:induction false} FindFirmwareInIsFirst(items: seq<Json>)
    ensures FindFirmwareIn(items) == FirstFirmware(PreOrderList(items))
    decreases ItemsSize(items), 2
  {
    if |items| > 0 {
      TailSmaller(items);
      FindFirmwareIsFirst(items[0]);
      FindFirmwareInIsFirst(items[1..]);
      FirstFirmwareAppend(PreOrder(items[0]), PreOrderList(items[1..]));
    }
  }

  // ---------------------------------------------------------------------
  // Where the nodes of a subtree sit

  /** A mapping child of a node of the tree is a node of the tree. */
  lemma {:induction false} ChildInPreOrder(root: Json, n: Json, c: Json)
    requires n in PreOrder(root) && c in Children(n) && c.JObj?
    ensures c in PreOrder(root)
    decreases Size(root), 1
  {
    ChildrenSmaller(root);
    if n == root {
      ChildInList(Children(root), c);
    } else {
      ChildInPreOrderList(Children(root), n, c);
    }
  }

  lemma {:induction false} ChildInPreOrderList(items: seq<Json>, n: Json, c: Json)
    requires n in PreOrderList(items) && c in Children(n) && c.JObj?
    ensures c in PreOrderList(items)
    decreases ItemsSize(items), 2
  {
    TailSmaller(items);
    if n in PreOrder(items[0]) {
      ChildInPreOrder(items[0], n, c);
    } else {
      ChildInPreOrderList(items[1..], n, c);
    }
  }

  /** A mapping item of a list is the root of its own pre-order, which is part
      of the list's pre-order. */
  lemma {:induction false} ChildInList(items: seq<Json>, c: Json)
    requires c in items && c.JObj?
    ensures c in PreOrderList(items)
  {
    if items[0] == c {
      assert PreOrder(c)[0] == c;
    } else {
      ChildInList(items[1..], c);
    }
  }
}
