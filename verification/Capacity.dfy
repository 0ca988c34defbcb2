/** How many hosted control planes the worker nodes can carry. Arithmetic is over the reals, with the
    infinities and the NaN that a division by zero gives in Go. */
module Capacity {
  import opened Basics

  /** HCPSizingBaseline */
  datatype Baseline = Baseline(
    cpuRequest: real, memoryRequest: real, pods: real, incrementalCpu: real, incrementalMemory: real,
    idleCpu: real, idleMemory: real, minimumQps: real, mediumQps: real, highQps: real)

  datatype Float = NaN | NegInf | Finite(value: real) | PosInf

  function Share(amount: real, cost: real): real
    requires cost != 0.0
  {
    amount / cost
  }

  /** The division of two float64 numbers, zero being positive */
  function Divide(amount: real, cost: real): Float {
    if cost != 0.0 then Finite(Share(amount, cost))
    else if amount > 0.0 then PosInf
    else if amount < 0.0 then NegInf
    else NaN
  }

  /** math.Min */
  function Min(a: Float, b: Float): Float {
    if a.NegInf? || b.NegInf? then NegInf
    else if a.NaN? || b.NaN? then NaN
    else if a.PosInf? then b
    else if b.PosInf? then a
    else if a.value <= b.value then a else b
  }

  function CpuUsage(b: Baseline, rate: real): real {
    b.idleCpu + rate / 1000.0 * b.incrementalCpu
  }

  function MemoryUsage(b: Baseline, rate: real): real {
    b.idleMemory + rate / 1000.0 * b.incrementalMemory
  }

  datatype Resources = Resources(cpus: real, memory: real, pods: real)

  /** calculateMaxHCPs */
  function MaxHCPs(b: Baseline, r: Resources, rate: real, loadBased: bool): Float {
    var byCpu, byMemory := Divide(r.cpus, b.cpuRequest), Divide(r.memory, b.memoryRequest);
    var byPods := Divide(r.pods, b.pods);
    var byCpuUsage := if loadBased then Divide(r.cpus, CpuUsage(b, rate)) else byCpu;
    var byMemoryUsage := if loadBased then Divide(r.memory, MemoryUsage(b, rate)) else byMemory;
    Min(byCpu, Min(byCpuUsage, Min(byMemory, Min(byMemoryUsage, byPods))))
  }

  /** int(math.Floor(...)): none when the float is not finite, as the conversion then depends on the platform */
  function Floor(x: Float): Option<int> {
    if x.Finite? then Some(x.value.Floor) else None
  }

  /** A published figure */
  function Capacity(b: Baseline, r: Resources, rate: real, loadBased: bool): Option<int> {
    Floor(MaxHCPs(b, r, rate, loadBased))
  }

  // ---- what a figure means ----

  predicate Within(x: real, cost: real, amount: real) {
    x * cost <= amount
  }

  /** x times every cost stays within its resource. */
  predicate Fits(b: Baseline, r: Resources, rate: real, loadBased: bool, x: real) {
    && Within(x, b.cpuRequest, r.cpus) && Within(x, b.memoryRequest, r.memory) && Within(x, b.pods, r.pods)
    && (loadBased ==> Within(x, CpuUsage(b, rate), r.cpus) && Within(x, MemoryUsage(b, rate), r.memory))
  }

  /** The cost is positive, or it is zero and there is some of the resource. */
  predicate Determined(cost: real, amount: real) {
    cost > 0.0 || (cost == 0.0 && amount > 0.0)
  }

  predicate AllDetermined(b: Baseline, r: Resources, rate: real, loadBased: bool) {
    && Determined(b.cpuRequest, r.cpus) && Determined(b.memoryRequest, r.memory) && Determined(b.pods, r.pods)
    && (loadBased ==> Determined(CpuUsage(b, rate), r.cpus) && Determined(MemoryUsage(b, rate), r.memory))
  }

  predicate AtMost(x: real, f: Float) {
    f.PosInf? || (f.Finite? && x <= f.value)
  }

  lemma Quotient(x: real, cost: real, amount: real)
    requires cost > 0.0
    ensures x <= Share(amount, cost) <==> Within(x, cost, amount)
  {
    var q := amount / cost;
    assert q * cost == amount;
    if x <= q {
      assert (q - x) * cost >= 0.0;
    } else {
      assert (x - q) * cost > 0.0;
    }
  }

  lemma DivideFits(x: real, cost: real, amount: real)
    requires Determined(cost, amount)
    ensures var f := Divide(amount, cost);
      !f.NaN? && !f.NegInf? && (AtMost(x, f) <==> Within(x, cost, amount))
  {
    if cost > 0.0 {
      Quotient(x, cost, amount);
    }
  }

  lemma MaxFits(b: Baseline, r: Resources, rate: real, loadBased: bool, x: real)
    requires AllDetermined(b, r, rate, loadBased)
    ensures var f := MaxHCPs(b, r, rate, loadBased);
      !f.NaN? && !f.NegInf? && (AtMost(x, f) <==> Fits(b, r, rate, loadBased, x))
  {
    hide Divide, Within, CpuUsage, MemoryUsage, Determined;
    DivideFits(x, b.cpuRequest, r.cpus);
    DivideFits(x, b.memoryRequest, r.memory);
    DivideFits(x, b.pods, r.pods);
    if loadBased {
      DivideFits(x, CpuUsage(b, rate), r.cpus);
      DivideFits(x, MemoryUsage(b, rate), r.memory);
    }
  }

  /** The capacity is the true maximum: a number of hosted control planes fits every resource exactly when
      it is at most the capacity; and any number does when there is no figure because all costs are zero. */
  lemma CapacityIsMaximum(b: Baseline, r: Resources, rate: real, loadBased: bool, n: int)
    requires AllDetermined(b, r, rate, loadBased)
    ensures var c := Capacity(b, r, rate, loadBased);
      Fits(b, r, rate, loadBased, n as real) <==> c.None? || n <= c.value
  {
    hide MaxHCPs, Fits, AllDetermined;
    MaxFits(b, r, rate, loadBased, n as real);
  }

  predicate NonNegative(r: Resources) {
    r.cpus >= 0.0 && r.memory >= 0.0 && r.pods >= 0.0
  }

  predicate NonNegativeCosts(b: Baseline, rate: real, loadBased: bool) {
    && b.cpuRequest >= 0.0 && b.memoryRequest >= 0.0 && b.pods >= 0.0
    && (loadBased ==> CpuUsage(b, rate) >= 0.0 && MemoryUsage(b, rate) >= 0.0)
  }

  /** With nothing negative the formula gives NaN exactly when some cost is zero and so is its resource. Then
      the figure means nothing, although such a resource sets no limit. */
  lemma UndeterminedExactly(b: Baseline, r: Resources, rate: real, loadBased: bool)
    requires NonNegative(r) && NonNegativeCosts(b, rate, loadBased)
    ensures MaxHCPs(b, r, rate, loadBased).NaN? <==> !AllDetermined(b, r, rate, loadBased)
    ensures !MaxHCPs(b, r, rate, loadBased).NegInf?
  {
    hide Share, CpuUsage, MemoryUsage;
  }

  lemma FitsZero(b: Baseline, r: Resources, rate: real, loadBased: bool)
    requires AllDetermined(b, r, rate, loadBased) && NonNegative(r)
    ensures AtMost(0.0, MaxHCPs(b, r, rate, loadBased))
  {
    hide MaxHCPs, CpuUsage, MemoryUsage, AllDetermined;
    MaxFits(b, r, rate, loadBased, 0.0);
  }

  // ---- comparing figures ----

  /** No figure is no limit. */
  predicate NoMore(a: Option<int>, b: Option<int>) {
    b.None? || (a.Some? && a.value <= b.value)
  }

  lemma FloorMonotone(a: Float, b: Float)
    requires AtMost(0.0, a) && forall x: real :: x >= 0.0 && AtMost(x, a) ==> AtMost(x, b)
    ensures NoMore(Floor(a), Floor(b))
  {
    if a.Finite? {
      assert AtMost(a.value, a);
    } else if b.Finite? {
      assert AtMost((if b.value >= 0.0 then b.value else 0.0) + 1.0, a);
    }
  }

  lemma CheaperFits(x: real, cost: real, cost': real, amount: real)
    requires x >= 0.0 && cost <= cost' && Within(x, cost', amount)
    ensures Within(x, cost, amount)
  {
    assert x * (cost' - cost) >= 0.0;
  }

  lemma UsageGrows(idle: real, increment: real, rate: real, rate': real)
    requires rate <= rate' && increment >= 0.0
    ensures idle + rate / 1000.0 * increment <= idle + rate' / 1000.0 * increment
  {
    assert (rate' / 1000.0 - rate / 1000.0) * increment >= 0.0;
  }

  /** More load never raises the capacity, and counting requests only never gives less than load. */
  lemma LoadLowersCapacity(b: Baseline, r: Resources, rate: real, rate': real, loadBased: bool)
    requires 0.0 <= rate <= rate' && b.incrementalCpu >= 0.0 && b.incrementalMemory >= 0.0 && NonNegative(r)
    requires AllDetermined(b, r, rate, loadBased) && AllDetermined(b, r, rate', true)
    ensures NoMore(Capacity(b, r, rate', true), Capacity(b, r, rate, loadBased))
  {
    hide MaxHCPs, Within, AllDetermined;
    FitsZero(b, r, rate', true);
    assert CpuUsage(b, rate) <= CpuUsage(b, rate') by {
      UsageGrows(b.idleCpu, b.incrementalCpu, rate, rate');
    }
    assert MemoryUsage(b, rate) <= MemoryUsage(b, rate') by {
      UsageGrows(b.idleMemory, b.incrementalMemory, rate, rate');
    }
    hide CpuUsage, MemoryUsage;
    forall x: real | x >= 0.0 && AtMost(x, MaxHCPs(b, r, rate', true))
      ensures AtMost(x, MaxHCPs(b, r, rate, loadBased))
    {
      MaxFits(b, r, rate', true, x);
      CheaperFits(x, CpuUsage(b, rate), CpuUsage(b, rate'), r.cpus);
      CheaperFits(x, MemoryUsage(b, rate), MemoryUsage(b, rate'), r.memory);
      MaxFits(b, r, rate, loadBased, x);
    }
    FloorMonotone(MaxHCPs(b, r, rate', true), MaxHCPs(b, r, rate, loadBased));
  }

  /** More resources never lower the capacity. */
  lemma ResourcesRaiseCapacity(b: Baseline, r: Resources, r': Resources, rate: real, loadBased: bool)
    requires AllDetermined(b, r, rate, loadBased) && NonNegative(r)
    requires r.cpus <= r'.cpus && r.memory <= r'.memory && r.pods <= r'.pods
    ensures NoMore(Capacity(b, r, rate, loadBased), Capacity(b, r', rate, loadBased))
  {
    hide MaxHCPs, CpuUsage, MemoryUsage;
    FitsZero(b, r, rate, loadBased);
    assert AllDetermined(b, r', rate, loadBased);
    forall x: real | x >= 0.0 && AtMost(x, MaxHCPs(b, r, rate, loadBased))
      ensures AtMost(x, MaxHCPs(b, r', rate, loadBased))
    {
      MaxFits(b, r, rate, loadBased, x);
      MaxFits(b, r', rate, loadBased, x);
    }
    FloorMonotone(MaxHCPs(b, r, rate, loadBased), MaxHCPs(b, r', rate, loadBased));
  }

  // ---- the worker nodes ----

  /** The sum of the nodes' capacities, memory in bytes. */
  function Total(nodes: seq<Resources>): Resources {
    if nodes == [] then Resources(0.0, 0.0, 0.0)
    else
      var t, n := Total(nodes[..|nodes| - 1]), nodes[|nodes| - 1];
      Resources(t.cpus + n.cpus, t.memory + n.memory, t.pods + n.pods)
  }

  function InGigabytes(r: Resources, gigabyte: real): Resources
    requires gigabyte > 0.0
  {
    r.(memory := Share(r.memory, gigabyte))
  }

  /** The part of calculateCapacitiesToHostHCPs that follows the node list */
  method CalculateCapacities(b: Baseline, nodes: seq<Resources>, gigabyte: real, averageQps: real)
    returns (request: Option<int>, low: Option<int>, medium: Option<int>, high: Option<int>, average: Option<int>)
    requires gigabyte > 0.0
    ensures var r := InGigabytes(Total(nodes), gigabyte);
      && request == Capacity(b, r, 0.0, false) && low == Capacity(b, r, b.minimumQps, true)
      && medium == Capacity(b, r, b.mediumQps, true) && high == Capacity(b, r, b.highQps, true)
      && average == Capacity(b, r, averageQps, true)
  {
    hide MaxHCPs;
    var cpus, memory, pods := 0.0, 0.0, 0.0;
    for i := 0 to |nodes|
      invariant Resources(cpus, memory, pods) == Total(nodes[..i])
    {
      assert nodes[..i + 1][..i] == nodes[..i];
      cpus, memory, pods := cpus + nodes[i].cpus, memory + nodes[i].memory, pods + nodes[i].pods;
    }
    assert nodes[..|nodes|] == nodes;
    memory := memory / gigabyte;
    var r := Resources(cpus, memory, pods);
    request := Floor(MaxHCPs(b, r, 0.0, false));
    low := Floor(MaxHCPs(b, r, b.minimumQps, true));
    medium := Floor(MaxHCPs(b, r, b.mediumQps, true));
    high := Floor(MaxHCPs(b, r, b.highQps, true));
    average := Floor(MaxHCPs(b, r, averageQps, true));
  }

  lemma {:induction false} TotalNonNegative(nodes: seq<Resources>)
    requires forall n <- nodes :: NonNegative(n)
    ensures NonNegative(Total(nodes))
  {
    if nodes != [] {
      TotalNonNegative(nodes[..|nodes| - 1]);
      assert NonNegative(nodes[|nodes| - 1]);
    }
  }

  lemma ShareNonNegative(amount: real, cost: real)
    requires amount >= 0.0 && cost > 0.0
    ensures Share(amount, cost) >= 0.0
  {
    Quotient(0.0, cost, amount);
  }

  lemma RequestsDetermined(b: Baseline, r: Resources, rate: real)
    requires AllDetermined(b, r, rate, true)
    ensures AllDetermined(b, r, 0.0, false)
  {
    hide Determined;
  }

  /** The published figures are ordered: requests only, low, medium, high load. */
  lemma CapacitiesOrdered(b: Baseline, nodes: seq<Resources>, gigabyte: real)
    requires gigabyte > 0.0 && (forall n <- nodes :: NonNegative(n))
    requires 0.0 <= b.minimumQps <= b.mediumQps <= b.highQps && b.incrementalCpu >= 0.0 && b.incrementalMemory >= 0.0
    requires var r := InGigabytes(Total(nodes), gigabyte);
      && AllDetermined(b, r, b.minimumQps, true) && AllDetermined(b, r, b.mediumQps, true)
      && AllDetermined(b, r, b.highQps, true)
    ensures var r := InGigabytes(Total(nodes), gigabyte);
      && NoMore(Capacity(b, r, b.minimumQps, true), Capacity(b, r, 0.0, false))
      && NoMore(Capacity(b, r, b.mediumQps, true), Capacity(b, r, b.minimumQps, true))
      && NoMore(Capacity(b, r, b.highQps, true), Capacity(b, r, b.mediumQps, true))
  {
    hide Capacity, NoMore, Share, AllDetermined, Total;
    TotalNonNegative(nodes);
    var r := InGigabytes(Total(nodes), gigabyte);
    ShareNonNegative(Total(nodes).memory, gigabyte);
    RequestsDetermined(b, r, b.minimumQps);
    LoadLowersCapacity(b, r, 0.0, b.minimumQps, false);
    LoadLowersCapacity(b, r, b.minimumQps, b.mediumQps, true);
    LoadLowersCapacity(b, r, b.mediumQps, b.highQps, true);
  }

  lemma ShareMonotone(a: real, b: real, cost: real)
    requires a <= b && cost > 0.0
    ensures Share(a, cost) <= Share(b, cost)
  {
    var x := Share(a, cost);
    assert x * cost == a;
    Quotient(x, cost, b);
  }

  /** Adding a node never lowers a figure. */
  lemma AddingANode(b: Baseline, nodes: seq<Resources>, node: Resources, gigabyte: real, rate: real, loadBased: bool)
    requires gigabyte > 0.0 && NonNegative(node) && (forall n <- nodes :: NonNegative(n))
    requires AllDetermined(b, InGigabytes(Total(nodes), gigabyte), rate, loadBased)
    ensures NoMore(Capacity(b, InGigabytes(Total(nodes), gigabyte), rate, loadBased),
                   Capacity(b, InGigabytes(Total(nodes + [node]), gigabyte), rate, loadBased))
  {
    hide Capacity, NoMore, Share, AllDetermined;
    assert (nodes + [node])[..|nodes|] == nodes;
    TotalNonNegative(nodes);
    var t, t' := Total(nodes), Total(nodes + [node]);
    ShareNonNegative(t.memory, gigabyte);
    ShareMonotone(t.memory, t'.memory, gigabyte);
    ResourcesRaiseCapacity(b, InGigabytes(t, gigabyte), InGigabytes(t', gigabyte), rate, loadBased);
  }

  // ---- the average load ----

  /** A hosted control plane: ready or not, and the answer to its query: none when it failed, else
      its samples, where one that cannot be read counts as the minimum. Without a Prometheus client
      no query has an answer. */
  datatype Plane = Plane(ready: bool, samples: Option<seq<Option<real>>>)

  predicate Counted(p: Plane) {
    p.ready && p.samples.Some?
  }

  function SampleSum(samples: seq<Option<real>>, minimum: real): real {
    if samples == [] then 0.0
    else
      var last := samples[|samples| - 1];
      SampleSum(samples[..|samples| - 1], minimum) + (if last.Some? then last.value else minimum)
  }

  function LoadSum(planes: seq<Plane>, minimum: real): real {
    if planes == [] then 0.0
    else
      var p := planes[|planes| - 1];
      LoadSum(planes[..|planes| - 1], minimum) + (if Counted(p) then SampleSum(p.samples.value, minimum) else 0.0)
  }

  function CountedPlanes(planes: seq<Plane>): nat {
    if planes == [] then 0
    else CountedPlanes(planes[..|planes| - 1]) + (if Counted(planes[|planes| - 1]) then 1 else 0)
  }

  method AddSamples(samples: seq<Option<real>>, minimum: real, before: real) returns (total: real)
    ensures total == before + SampleSum(samples, minimum)
  {
    total := before;
    for j := 0 to |samples|
      invariant total == before + SampleSum(samples[..j], minimum)
    {
      assert samples[..j + 1][..j] == samples[..j];
      total := total + if samples[j].Some? then samples[j].value else minimum;
    }
    assert samples[..|samples|] == samples;
  }

  /** The average load calculateCapacitiesToHostHCPs works with: the sum starts at the minimum. */
  method AverageQps(planes: seq<Plane>, minimum: real) returns (average: real)
    ensures var n := CountedPlanes(planes);
      average == if n == 0 then minimum else Share(minimum + LoadSum(planes, minimum), n as real)
  {
    hide SampleSum, Share;
    var total, count := minimum, 0;
    for i := 0 to |planes|
      invariant total == minimum + LoadSum(planes[..i], minimum) && count == CountedPlanes(planes[..i])
    {
      assert planes[..i + 1][..i] == planes[..i];
      var p := planes[i];
      if p.ready && p.samples.Some? {
        total := AddSamples(p.samples.value, minimum, total);
        count := count + 1;
      }
    }
    assert planes[..|planes|] == planes;
    average := if count > 0 then Share(total, count as real) else minimum;
  }

  /** That average is not the mean of the planes' loads: it exceeds it by the minimum's share, and so
      is the mean exactly when the minimum is zero. */
  lemma AverageIsNotTheMean(planes: seq<Plane>, minimum: real)
    requires CountedPlanes(planes) > 0
    ensures var n := CountedPlanes(planes) as real;
      var average, mean := Share(minimum + LoadSum(planes, minimum), n), Share(LoadSum(planes, minimum), n);
      && average - mean == Share(minimum, n)
      && (average == mean <==> minimum == 0.0)
  {
    hide LoadSum, Share;
    ShareOfSum(minimum, LoadSum(planes, minimum), CountedPlanes(planes) as real);
    ShareIsZero(minimum, CountedPlanes(planes) as real);
  }

  lemma ShareOfSum(a: real, b: real, n: real)
    requires n != 0.0
    ensures Share(a + b, n) == Share(a, n) + Share(b, n)
  {
    var x, y := Share(a, n), Share(b, n);
    assert x * n == a && y * n == b;
    assert (x + y) * n == a + b;
  }

  lemma ShareIsZero(a: real, n: real)
    requires n != 0.0
    ensures Share(a, n) == 0.0 <==> a == 0.0
  {
    assert Share(a, n) * n == a;
  }
}
