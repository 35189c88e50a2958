/** The CPU summary of the profile (`_extract_cpu_info`): vendor, model and
    frequency of the first processor, and the number of processors with their
    cores and threads added up. */
module HardwareCpu {
  import opened Wrappers
  import opened Text
  import opened Documents
  import opened HardwareErrors
  import opened HardwareParsers
  import opened HardwareTree

  /** `cpu_vendor`, `cpu_model`, `cpu_sockets`, `cpu_total_cores`,
      `cpu_total_threads` and `cpu_frequency_mhz`. */
  datatype CpuInfo = CpuInfo(
    vendor: Option<string>,
    model: Json,
    sockets: nat,
    totalCores: int,
    totalThreads: int,
    frequencyMhz: Option<int>)

  const NoCpu: CpuInfo := CpuInfo(None, JNull, 0, 0, 0, None)

  function Abs(n: int): nat { if n < 0 then -n else n }

  /** `int(hz / 1000000)`: the quotient truncated toward zero. */
  function Megahertz(hz: int): (mhz: int)
    ensures (hz >= 0 ==> mhz >= 0) && (hz <= 0 ==> mhz <= 0)
    ensures Abs(mhz) * 1000000 <= Abs(hz) < (Abs(mhz) + 1) * 1000000
  {
    if hz >= 0 then hz / 1000000 else -((-hz) / 1000000)
  }

  /** `cpu_frequency_mhz` from the first processor's `size`: `None` when the
      size is missing or zero. */
  function Frequency(size: Json): (r: Option<int>)
    ensures r.None? <==> !Truthy(size)
  {
    if Truthy(size) then Some(Megahertz(Number(size))) else None
  }

  /** The configuration mapping of a processor; a missing one reads as `{}`. */
  function ConfigurationOf(cpu: Json): Json {
    GetOr(cpu, "configuration", JObj([]))
  }

  /** What one processor adds to a total: nothing for a missing or falsy count,
      the number itself, or `int()` of a text, which can fail. */
  function CountOf(config: Json, key: string): (r: Result<int, ValueError>)
    ensures !Truthy(GetOrNull(config, key)) ==> r == Success(0)
    ensures r.Failure? ==> GetOrNull(config, key).JStr?
    ensures var v := GetOrNull(config, key); v.JInt? && Truthy(v) ==> r == Success(v.i)
    ensures GetOrNull(config, key) == JBool(true) ==> r == Success(1)
    ensures var v := GetOrNull(config, key);
      v.JStr? && Truthy(v) ==>
        && (r.Failure? <==> PyInt(v.s).None?)
        && (r.Success? ==> r.value == PyInt(v.s).value)
  {
    var v := GetOrNull(config, key);
    if !Truthy(v) then Success(0)
    else if v.JStr? then
      match PyInt(v.s)
      case Some(n) => Success(n)
      case None => Failure(NotAnInteger)
    else Success(Number(v))
  }

  /** A count written as the decimal text of `n` adds `n`. */
  lemma CountOfText(config: Json, key: string, n: int)
    requires GetOrNull(config, key) == JStr(IntToDecimal(n))
    ensures CountOf(config, key) == Success(n)
  {
    PyIntOfDecimal(n);
  }

  /** Adds two partial totals; the first failure wins. */
  function AddTotals(a: Result<(int, int), ValueError>, b: Result<(int, int), ValueError>): Result<(int, int), ValueError> {
    match a
    case Failure(e) => Failure(e)
    case Success(x) =>
      match b
      case Failure(e) => Failure(e)
      case Success(y) => Success((x.0 + y.0, x.1 + y.1))
  }

  /** The cores and threads of one processor, cores read first. */
  function CpuCounts(cpu: Json): Result<(int, int), ValueError> {
    var config := ConfigurationOf(cpu);
    match CountOf(config, "cores")
    case Failure(e) => Failure(e)
    case Success(c) =>
      match CountOf(config, "threads")
      case Failure(e) => Failure(e)
      case Success(t) => Success((c, t))
  }

  /** Cores and threads added over the processors in order. */
  function Totals(cpus: seq<Json>): Result<(int, int), ValueError> {
    if |cpus| == 0 then Success((0, 0))
    else AddTotals(Totals(cpus[..|cpus| - 1]), CpuCounts(cpus[|cpus| - 1]))
  }

  lemma AddTotalsAssociative(a: Result<(int, int), ValueError>, b: Result<(int, int), ValueError>, c: Result<(int, int), ValueError>)
    ensures AddTotals(AddTotals(a, b), c) == AddTotals(a, AddTotals(b, c))
  {
  }

  /** Totals over two runs of processors add up, whatever the split. */
  lemma {:induction false} TotalsAppend(a: seq<Json>, b: seq<Json>)
    ensures Totals(a + b) == AddTotals(Totals(a), Totals(b))
    decreases |b|
  {
    if |b| == 0 {
      assert a + b == a;
      assert AddTotals(Totals(a), Success((0, 0))) == Totals(a);
    } else {
      var b' := b[..|b| - 1];
      var last := b[|b| - 1];
      assert (a + b)[..|a + b| - 1] == a + b';
      assert (a + b)[|a + b| - 1] == last;
      assert Totals(a + b) == AddTotals(Totals(a + b'), CpuCounts(last));
      TotalsAppend(a, b');
      AddTotalsAssociative(Totals(a), Totals(b'), CpuCounts(last));
    }
  }

  /** One processor's counts are its total. */
  lemma TotalsOfOne(cpu: Json)
    ensures Totals([cpu]) == CpuCounts(cpu)
  {
    assert [cpu][..0] == [];
  }

  /** `_extract_cpu_info`. */
  function CpuInfoOf(data: Json): Result<CpuInfo, ValueError> {
    var cpus := FindByClass(data, "processor");
    if |cpus| == 0 then Success(NoCpu)
    else
      var first := cpus[0];
      match Totals(cpus)
      case Failure(e) => Failure(e)
      case Success(t) =>
        Success(CpuInfo(
          ParseVendorString(TextOf(first, "vendor")).0,
          GetOrNull(first, "product"),
          |cpus|, t.0, t.1,
          Frequency(GetOrNull(first, "size"))))
  }

  /** `cpu_sockets` is the number of processor nodes of the tree. */
  lemma SocketsAreProcessors(data: Json)
    requires CpuInfoOf(data).Success?
    ensures CpuInfoOf(data).value.sockets == |OfClass(PreOrder(data), "processor")|
  {
    FindByClassIsPreOrder(data, "processor");
  }

  /** A tree without processors gives zero sockets, cores and threads. */
  lemma NoProcessors(data: Json)
    requires forall k | 0 <= k < |PreOrder(data)| :: !ClassIs(PreOrder(data)[k], "processor")
    ensures CpuInfoOf(data) == Success(NoCpu)
  {
    var cpus := FindByClass(data, "processor");
    if |cpus| > 0 {
      FindByClassMembers(data, "processor", cpus[0]);
    }
  }

  /** The only error a processor's counts raise is `int()` of a text. */
  lemma CpuCountsError(cpu: Json)
    ensures CpuCounts(cpu).Failure? ==> CpuCounts(cpu).error == NotAnInteger
    ensures CpuCounts(cpu).Failure? <==>
      CountOf(ConfigurationOf(cpu), "cores").Failure? || CountOf(ConfigurationOf(cpu), "threads").Failure?
  {
  }

  /** The totals fail exactly when some processor's counts fail, and then
      with `NotAnInteger`. */
  lemma {:induction false} TotalsFailWhenOneFails(cpus: seq<Json>)
    ensures Totals(cpus).Failure? <==> exists k | 0 <= k < |cpus| :: CpuCounts(cpus[k]).Failure?
    ensures Totals(cpus).Failure? ==> Totals(cpus).error == NotAnInteger
  {
    if |cpus| > 0 {
      var init, last := cpus[..|cpus| - 1], cpus[|cpus| - 1];
      assert Totals(cpus) == AddTotals(Totals(init), CpuCounts(last));
      TotalsFailWhenOneFails(init);
      CpuCountsError(last);
      ghost var before := exists k | 0 <= k < |init| :: CpuCounts(init[k]).Failure?;
      ghost var anywhere := exists k | 0 <= k < |cpus| :: CpuCounts(cpus[k]).Failure?;
      if before {
        var k :| 0 <= k < |init| && CpuCounts(init[k]).Failure?;
        assert cpus[k] == init[k];
      }
      if anywhere {
        var k :| 0 <= k < |cpus| && CpuCounts(cpus[k]).Failure?;
        if k < |init| {
          assert init[k] == cpus[k];
        }
      }
      assert anywhere <==> before || CpuCounts(last).Failure?;
    }
  }

  /** `_extract_cpu_info` raises exactly when some processor node of the tree
      has a cores or threads text that is not an integer. */
  lemma CpuInfoFails(data: Json)
    ensures CpuInfoOf(data).Failure? <==>
      exists n | n in PreOrder(data) :: ClassIs(n, "processor") && CpuCounts(n).Failure?
    ensures CpuInfoOf(data).Failure? ==> CpuInfoOf(data).error == NotAnInteger
  {
    var cpus := FindByClass(data, "processor");
    TotalsFailWhenOneFails(cpus);
    if exists n | n in PreOrder(data) :: ClassIs(n, "processor") && CpuCounts(n).Failure? {
      var n :| n in PreOrder(data) && ClassIs(n, "processor") && CpuCounts(n).Failure?;
      FindByClassMembers(data, "processor", n);
      var k :| 0 <= k < |cpus| && cpus[k] == n;
    }
    if CpuInfoOf(data).Failure? {
      var k :| 0 <= k < |cpus| && CpuCounts(cpus[k]).Failure?;
      FindByClassMembers(data, "processor", cpus[k]);
    }
  }

  /** The extraction loop: processors in order, the running totals kept in two
      variables, and the first `int()` failure ending it. */
  method ExtractCpuInfo(data: Json) returns (r: Result<CpuInfo, ValueError>)
    ensures r == CpuInfoOf(data)
  {
    var cpus := FindNodesByClass(data, "processor");
    if |cpus| == 0 {
      return Success(NoCpu);
    }
    var first := cpus[0];
    var vendor := ParseVendorString(TextOf(first, "vendor")).0;
    var model := GetOrNull(first, "product");
    var frequency := Frequency(GetOrNull(first, "size"));
    var totalCores, totalThreads := 0, 0;
    var i := 0;
    while i < |cpus|
      invariant 0 <= i <= |cpus|
      invariant Totals(cpus[..i]) == Success((totalCores, totalThreads))
    {
      var next := AddCpu(cpus[i], totalCores, totalThreads);
      TotalsStep(cpus, i);
      if next.Failure? {
        TotalsFailure(cpus, i + 1);
        CpuInfoOfFailure(data, next.error);
        return Failure(next.error);
      }
      totalCores, totalThreads := next.value.0, next.value.1;
      i := i + 1;
    }
    assert cpus[..i] == cpus;
    CpuInfoOfSuccess(data, totalCores, totalThreads);
    r := Success(CpuInfo(vendor, model, |cpus|, totalCores, totalThreads, frequency));
  }

  /** The body of the loop over processors: the processor's cores, then its
      threads, added to the running totals. */
  method AddCpu(cpu: Json, totalCores: int, totalThreads: int) returns (r: Result<(int, int), ValueError>)
    ensures r == AddTotals(Success((totalCores, totalThreads)), CpuCounts(cpu))
  {
    var config := ConfigurationOf(cpu);
    var cores := CountOf(config, "cores");
    if cores.Failure? {
      return Failure(cores.error);
    }
    var threads := CountOf(config, "threads");
    if threads.Failure? {
      return Failure(threads.error);
    }
    r := Success((totalCores + cores.value, totalThreads + threads.value));
  }

  lemma CpuInfoOfSuccess(data: Json, cores: int, threads: int)
    requires |FindByClass(data, "processor")| > 0
    requires Totals(FindByClass(data, "processor")) == Success((cores, threads))
    ensures var cpus := FindByClass(data, "processor");
      CpuInfoOf(data) == Success(CpuInfo(
        ParseVendorString(TextOf(cpus[0], "vendor")).0, GetOrNull(cpus[0], "product"),
        |cpus|, cores, threads, Frequency(GetOrNull(cpus[0], "size"))))
  {
  }

  lemma CpuInfoOfFailure(data: Json, e: ValueError)
    requires |FindByClass(data, "processor")| > 0
    requires Totals(FindByClass(data, "processor")) == Failure(e)
    ensures CpuInfoOf(data) == Failure(e)
  {
  }

  lemma TotalsStep(cpus: seq<Json>, i: nat)
    requires i < |cpus|
    ensures Totals(cpus[..i + 1]) == AddTotals(Totals(cpus[..i]), CpuCounts(cpus[i]))
  {
    assert cpus[..i + 1][..i] == cpus[..i];
  }

  /** A failure among the first processors is the failure of the whole. */
  lemma TotalsFailure(cpus: seq<Json>, i: nat)
    requires i <= |cpus| && Totals(cpus[..i]).Failure?
    ensures Totals(cpus) == Totals(cpus[..i])
  {
    TotalsAppend(cpus[..i], cpus[i..]);
    assert cpus[..i] + cpus[i..] == cpus;
  }
}
