/** The sizing figures in terms of the baseline's numbers, the nodes and the samples. */
module SizingLaws {
  import opened Basics
  import opened Capacity

  /** Positive costs: what one hosted control plane requests, its pods, and under load what it uses at the rate */
  predicate CostsArePositive(b: Baseline, rate: real, loadBased: bool) {
    && b.cpuRequest > 0.0 && b.memoryRequest > 0.0 && b.pods > 0.0
    && (loadBased ==>
          && b.idleCpu + rate / 1000.0 * b.incrementalCpu > 0.0
          && b.idleMemory + rate / 1000.0 * b.incrementalMemory > 0.0)
  }

  /** x times all of it is there. */
  predicate IsThere(b: Baseline, r: Resources, rate: real, loadBased: bool, x: real) {
    && x * b.cpuRequest <= r.cpus && x * b.memoryRequest <= r.memory && x * b.pods <= r.pods
    && (loadBased ==>
          && x * (b.idleCpu + rate / 1000.0 * b.incrementalCpu) <= r.cpus
          && x * (b.idleMemory + rate / 1000.0 * b.incrementalMemory) <= r.memory)
  }

  /** A figure in full: n hosted control planes are within it exactly when n times what one takes is there. */
  lemma FigureInFull(b: Baseline, r: Resources, rate: real, loadBased: bool, n: int)
    requires CostsArePositive(b, rate, loadBased)
    ensures var c := Capacity.Capacity(b, r, rate, loadBased);
      c.Some? && (n <= c.value <==> IsThere(b, r, rate, loadBased, n as real))
  {
    hide CostsArePositive, IsThere, Capacity.Capacity, AllDetermined, Fits;
    PositiveIsDetermined(b, r, rate, loadBased);
    FitsInFull(b, r, rate, loadBased, n as real);
    CapacityIsMaximum(b, r, rate, loadBased, n);
  }

  lemma PositiveIsDetermined(b: Baseline, r: Resources, rate: real, loadBased: bool)
    requires CostsArePositive(b, rate, loadBased)
    ensures AllDetermined(b, r, rate, loadBased) && Capacity.Capacity(b, r, rate, loadBased).Some?
  {
    assert loadBased ==> CpuUsage(b, rate) > 0.0 && MemoryUsage(b, rate) > 0.0;
    hide CpuUsage, MemoryUsage, Share;
  }

  lemma FitsInFull(b: Baseline, r: Resources, rate: real, loadBased: bool, x: real)
    ensures Fits(b, r, rate, loadBased, x) <==> IsThere(b, r, rate, loadBased, x)
  {
    WithinIs(x, b.cpuRequest, r.cpus);
    WithinIs(x, b.memoryRequest, r.memory);
    WithinIs(x, b.pods, r.pods);
    WithinIs(x, b.idleCpu + rate / 1000.0 * b.incrementalCpu, r.cpus);
    WithinIs(x, b.idleMemory + rate / 1000.0 * b.incrementalMemory, r.memory);
    hide Within;
  }

  lemma WithinIs(x: real, cost: real, amount: real)
    ensures Within(x, cost, amount) <==> x * cost <= amount
  {
  }

  /** The nodes' capacities add up, whichever way the list is cut. */
  lemma {:induction false} TotalOf(a: seq<Resources>, b: seq<Resources>, n: Resources)
    ensures Total([]) == Resources(0.0, 0.0, 0.0)
    ensures Total([n]) == n
    ensures var x, y := Total(a), Total(b);
      Total(a + b) == Resources(x.cpus + y.cpus, x.memory + y.memory, x.pods + y.pods)
  {
    assert [n][..0] == [];
    if b == [] {
      assert a + b == a;
    } else {
      assert (a + b)[..|a + b| - 1] == a + b[..|b| - 1];
      TotalOf(a, b[..|b| - 1], n);
    }
  }

  /** A sample counts as it is, and as the minimum when it cannot be read; samples add up. */
  lemma {:induction false} SamplesOf(a: seq<Option<real>>, b: seq<Option<real>>, x: real, minimum: real)
    ensures SampleSum([], minimum) == 0.0
    ensures SampleSum([Some(x)], minimum) == x && SampleSum([None], minimum) == minimum
    ensures SampleSum(a + b, minimum) == SampleSum(a, minimum) + SampleSum(b, minimum)
  {
    assert [Some(x)][..0] == [];
    var nothing: seq<Option<real>> := [None];
    assert nothing[..0] == [];
    if b == [] {
      assert a + b == a;
    } else {
      assert (a + b)[..|a + b| - 1] == a + b[..|b| - 1];
      SamplesOf(a, b[..|b| - 1], x, minimum);
    }
  }

  /** A hosted control plane counts when it is ready and its query was answered, with the sum of its samples;
      planes add up. */
  lemma {:induction false} PlanesOf(a: seq<Plane>, b: seq<Plane>, p: Plane, minimum: real)
    ensures LoadSum([], minimum) == 0.0 && CountedPlanes([]) == 0
    ensures LoadSum([p], minimum) == if p.ready && p.samples.Some? then SampleSum(p.samples.value, minimum) else 0.0
    ensures CountedPlanes([p]) == if p.ready && p.samples.Some? then 1 else 0
    ensures LoadSum(a + b, minimum) == LoadSum(a, minimum) + LoadSum(b, minimum)
    ensures CountedPlanes(a + b) == CountedPlanes(a) + CountedPlanes(b)
  {
    hide SampleSum;
    assert [p][..0] == [];
    if b == [] {
      assert a + b == a;
    } else {
      assert (a + b)[..|a + b| - 1] == a + b[..|b| - 1];
      PlanesOf(a, b[..|b| - 1], p, minimum);
    }
  }

  /** Memory is counted in gigabytes: no more than that many of them are there. */
  lemma GigabytesOf(r: Resources, gigabyte: real, x: real)
    requires gigabyte > 0.0
    ensures var q := InGigabytes(r, gigabyte);
      q.cpus == r.cpus && q.pods == r.pods && (x <= q.memory <==> x * gigabyte <= r.memory)
  {
    Quotient(x, gigabyte, r.memory);
  }
}
