/** The memory summary of the profile (`_extract_memory_info`): the bytes of
    the system-memory nodes and the number of populated DIMMs. */
module HardwareMemory {
  import opened Wrappers
  import opened Text
  import opened Documents
  import opened HardwareTree

  /** `memory_total_gb`, kept in bytes, and `memory_dimm_count`. */
  datatype MemoryInfo = MemoryInfo(totalBytes: int, dimmCount: nat)

  /** A memory node whose size is counted: id `memory`, or an id starting with
      `memory:` whose description mentions `System Memory`. */
  predicate IsSystemMemory(n: Json) {
    var id := GetOr(n, "id", JStr(""));
    id == JStr("memory")
      || (id.JStr? && StartsWith(id.s, "memory:") && Contains(TextOr(n, "description", ""), "System Memory"))
  }

  /** The bytes one memory node adds to the total. */
  function SystemBytes(n: Json): int {
    var size := GetOrNull(n, "size");
    if IsSystemMemory(n) && Truthy(size) then Number(size) else 0
  }

  /** A populated DIMM: a child of class `memory` with a size. */
  predicate IsDimm(c: Json) {
    ClassIs(c, "memory") && Truthy(GetOrNull(c, "size"))
  }

  /** The populated DIMMs among some children. */
  function DimmCount(children: seq<Json>): (n: nat)
    ensures n <= |children|
  {
    if |children| == 0 then 0
    else DimmCount(children[..|children| - 1]) + (if IsDimm(children[|children| - 1]) then 1 else 0)
  }

  /** What the memory nodes add up to, in order. */
  function MemoryTotals(nodes: seq<Json>): MemoryInfo {
    if |nodes| == 0 then MemoryInfo(0, 0)
    else
      var before := MemoryTotals(nodes[..|nodes| - 1]);
      var last := nodes[|nodes| - 1];
      MemoryInfo(before.totalBytes + SystemBytes(last), before.dimmCount + DimmCount(Children(last)))
  }

  /** `_extract_memory_info`. */
  function MemoryInfoOf(data: Json): MemoryInfo {
    MemoryTotals(FindByClass(data, "memory"))
  }

  /** Totals over two runs of memory nodes add up. */
  lemma {:induction false} MemoryTotalsAppend(a: seq<Json>, b: seq<Json>)
    ensures MemoryTotals(a + b).totalBytes == MemoryTotals(a).totalBytes + MemoryTotals(b).totalBytes
    ensures MemoryTotals(a + b).dimmCount == MemoryTotals(a).dimmCount + MemoryTotals(b).dimmCount
    decreases |b|
  {
    if |b| == 0 {
      assert a + b == a;
    } else {
      var b' := b[..|b| - 1];
      assert (a + b)[..|a + b| - 1] == a + b';
      assert (a + b)[|a + b| - 1] == b[|b| - 1];
      MemoryTotalsAppend(a, b');
    }
  }

  /** Only system-memory nodes contribute bytes: a total that is not zero
      comes from some node of class `memory` that passes the id and
      description test and has a size. */
  lemma {:induction false} BytesFromSystemMemory(nodes: seq<Json>)
    requires MemoryTotals(nodes).totalBytes != 0
    ensures exists k | 0 <= k < |nodes| :: IsSystemMemory(nodes[k]) && Truthy(GetOrNull(nodes[k], "size"))
  {
    var last := nodes[|nodes| - 1];
    if SystemBytes(last) == 0 {
      BytesFromSystemMemory(nodes[..|nodes| - 1]);
      var k :| 0 <= k < |nodes| - 1 && IsSystemMemory(nodes[..|nodes| - 1][k])
        && Truthy(GetOrNull(nodes[..|nodes| - 1][k], "size"));
      assert nodes[..|nodes| - 1][k] == nodes[k];
    }
  }

  /** The bytes of the tree come from its system-memory nodes. */
  lemma MemoryBytesFromTree(data: Json)
    requires MemoryInfoOf(data).totalBytes != 0
    ensures exists n :: n in PreOrder(data) && ClassIs(n, "memory") && IsSystemMemory(n)
  {
    var nodes := FindByClass(data, "memory");
    BytesFromSystemMemory(nodes);
    var k :| 0 <= k < |nodes| && IsSystemMemory(nodes[k]) && Truthy(GetOrNull(nodes[k], "size"));
    FindByClassMembers(data, "memory", nodes[k]);
  }

  /** A counted DIMM is itself a memory node of the tree, found by the same
      class search (a populated DIMM is therefore also visited as a memory
      node, where its own size counts only if it passes the id test). */
  lemma DimmIsMemoryNode(data: Json, n: Json, c: Json)
    requires n in FindByClass(data, "memory") && c in Children(n) && IsDimm(c)
    ensures c in FindByClass(data, "memory")
  {
    FindByClassMembers(data, "memory", n);
    ChildInPreOrder(data, n, c);
    FindByClassMembers(data, "memory", c);
  }

  /** The loop over one memory node's children. */
  method CountDimms(children: seq<Json>) returns (count: nat)
    ensures count == DimmCount(children)
  {
    count := 0;
    var i := 0;
    while i < |children|
      invariant 0 <= i <= |children|
      invariant count == DimmCount(children[..i])
    {
      assert children[..i + 1][..i] == children[..i];
      if ClassIs(children[i], "memory") && Truthy(GetOrNull(children[i], "size")) {
        count := count + 1;
      }
      i := i + 1;
    }
    assert children[..i] == children;
  }

  /** The extraction loop: the running byte total and DIMM count over the
      memory nodes in order. */
  method ExtractMemoryInfo(data: Json) returns (m: MemoryInfo)
    ensures m == MemoryInfoOf(data)
  {
    var memoryNodes := FindNodesByClass(data, "memory");
    var totalBytes, dimmCount := 0, 0;
    var i := 0;
    while i < |memoryNodes|
      invariant 0 <= i <= |memoryNodes|
      invariant MemoryTotals(memoryNodes[..i]) == MemoryInfo(totalBytes, dimmCount)
    {
      assert memoryNodes[..i + 1][..i] == memoryNodes[..i];
      var bytes, dimms := MemoryNodeTotals(memoryNodes[i]);
      totalBytes := totalBytes + bytes;
      dimmCount := dimmCount + dimms;
      i := i + 1;
    }
    assert memoryNodes[..i] == memoryNodes;
    m := MemoryInfo(totalBytes, dimmCount);
  }

  /** The body of the loop over memory nodes: the node's own bytes when it is
      system memory with a size, and its populated DIMMs. */
  method MemoryNodeTotals(node: Json) returns (bytes: int, dimms: nat)
    ensures bytes == SystemBytes(node) && dimms == DimmCount(Children(node))
  {
    bytes := 0;
    var id := GetOr(node, "id", JStr(""));
    if id == JStr("memory") || (id.JStr? && StartsWith(id.s, "memory:")) {
      var description := TextOr(node, "description", "");
      if Contains(description, "System Memory") || id == JStr("memory") {
        var size := GetOrNull(node, "size");
        if Truthy(size) {
          bytes := Number(size);
        }
      }
    }
    dimms := CountDimms(Children(node));
  }
}
