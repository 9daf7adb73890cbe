// pkg/providers/instancetype/types.go: reservation brackets, allocatable memory
// and pod capacity. Floats are modelled as reals, memory sizes in Mi.
module Capacity {
  import opened Text
  import opened Catalogue

  // ---- tax brackets -------------------------------------------------------------

  datatype Bracket = Bracket(lowerBound: real, recommended: real, rate: real)
  {
    function At(amount: real): real { recommended + rate * (amount - lowerBound) }
  }

  type TaxBrackets = seq<Bracket>

  ghost predicate Sorted(t: TaxBrackets) {
    forall i, j :: 0 <= i < j < |t| ==> t[i].lowerBound < t[j].lowerBound
  }

  // k is how many brackets the loop passes before it breaks.
  ghost predicate BreaksAt(t: TaxBrackets, amount: real, k: nat) {
    k <= |t| && (forall i :: 0 <= i < k ==> t[i].lowerBound <= amount) && (k < |t| ==> t[k].lowerBound > amount)
  }

  function Cut(t: TaxBrackets, amount: real): (k: nat)
    ensures BreaksAt(t, amount, k)
  {
    if t == [] || t[0].lowerBound > amount then 0
    else
      var k := Cut(t[1..], amount);
      assert forall i :: 0 < i < k + 1 ==> t[i] == t[1..][i - 1];
      k + 1
  }

  function Tax(t: TaxBrackets, amount: real): real {
    var k := Cut(t, amount);
    if k == 0 then 0.0 else t[k - 1].At(amount)
  }

  lemma CutUnique(t: TaxBrackets, amount: real, k: nat)
    requires BreaksAt(t, amount, k)
    ensures Cut(t, amount) == k
  {
    var c := Cut(t, amount);
    if c < |t| { var next := t[c]; }
    if k < |t| { var next := t[k]; }
  }

  // The early break finds the last bracket that does not start above the amount.
  lemma TaxIsLastBracket(t: TaxBrackets, amount: real, k: nat)
    requires Sorted(t) && k < |t|
    requires t[k].lowerBound <= amount
    requires forall i :: k < i < |t| ==> t[i].lowerBound > amount
    ensures Tax(t, amount) == t[k].At(amount)
  {
    assert BreaksAt(t, amount, k + 1);
    CutUnique(t, amount, k + 1);
  }

  method Calculate(t: TaxBrackets, amount: real) returns (tax: real)
    ensures tax == Tax(t, amount)
  {
    tax := 0.0;
    var i := 0;
    while i < |t|
      invariant 0 <= i <= |t|
      invariant forall j :: 0 <= j < i ==> t[j].lowerBound <= amount
      invariant tax == if i == 0 then 0.0 else t[i - 1].At(amount)
    {
      if t[i].lowerBound > amount {
        break;
      }
      tax := t[i].recommended + t[i].rate * (amount - t[i].lowerBound);
      i := i + 1;
    }
    CutUnique(t, amount, i);
  }

  // No bracket falls, and each starts at or above where the one before it ends.
  ghost predicate Rising(t: TaxBrackets) {
    && (t != [] ==> t[0].recommended >= 0.0)
    && (forall i :: 0 <= i < |t| ==> t[i].rate >= 0.0)
    && (forall i :: 0 <= i < |t| - 1 ==> t[i].At(t[i + 1].lowerBound) <= t[i + 1].recommended)
  }

  lemma AtStart(br: Bracket)
    ensures br.At(br.lowerBound) == br.recommended
  {
  }

  lemma AtShift(br: Bracket, amount: real, d: real)
    ensures br.At(amount - d) == br.At(amount) - br.rate * d
  {
  }

  lemma AtMonotone(br: Bracket, a: real, b: real)
    requires br.rate >= 0.0 && a <= b
    ensures br.At(a) <= br.At(b)
  {
    assert br.rate * (b - a) >= 0.0;
    assert br.At(b) - br.At(a) == br.rate * (b - a);
  }

  lemma {:induction false} RisingChain(t: TaxBrackets, i: nat, j: nat, a: real, b: real)
    requires Sorted(t) && Rising(t) && i <= j < |t|
    requires t[i].lowerBound <= a <= b && t[j].lowerBound <= b
    requires i < j ==> a <= t[i + 1].lowerBound
    ensures t[i].At(a) <= t[j].At(b)
    decreases j - i
  {
    if i == j {
      AtMonotone(t[i], a, b);
    } else {
      AtMonotone(t[i], a, t[i + 1].lowerBound);
      var step := t[i + 1].lowerBound;
      AtMonotone(t[i + 1], step, b);
      AtStart(t[i + 1]);
      RisingChain(t, i + 1, j, step, b);
    }
  }

  lemma RisingIsMonotone(t: TaxBrackets, a: real, b: real)
    requires Sorted(t) && Rising(t) && a <= b
    ensures Tax(t, a) <= Tax(t, b)
  {
    var i, j := Cut(t, a), Cut(t, b);
    if j < |t| { var next := t[j]; }
    if j > 0 {
      if i > 0 {
        RisingChain(t, i - 1, j - 1, a, b);
      } else {
        RisingChain(t, 0, j - 1, t[0].lowerBound, b);
        AtStart(t[0]);
      }
    }
  }

  lemma TaxWithin(t: TaxBrackets, i: nat, amount: real)
    requires Sorted(t) && i < |t| && t[i].lowerBound <= amount
    requires i + 1 < |t| ==> amount < t[i + 1].lowerBound
    ensures Tax(t, amount) == t[i].At(amount)
  {
    forall j | i < j < |t| ensures t[j].lowerBound > amount {
      assert t[i + 1].lowerBound <= t[j].lowerBound;
    }
    TaxIsLastBracket(t, amount, i);
  }

  ghost predicate MonotoneTax(t: TaxBrackets) {
    forall a, b :: a <= b ==> Tax(t, a) <= Tax(t, b)
  }

  // In a monotone table the first bracket does not start below zero, ...
  lemma FirstNotNegative(t: TaxBrackets)
    requires Sorted(t) && MonotoneTax(t) && t != []
    ensures t[0].recommended >= 0.0
  {
    var lo := t[0].lowerBound;
    TaxWithin(t, 0, lo);
    CutUnique(t, lo - 1.0, 0);
    assert Tax(t, lo - 1.0) <= Tax(t, lo);
    AtStart(t[0]);
  }

  // ... no rate is negative, ...
  lemma RatesNotNegative(t: TaxBrackets, i: nat)
    requires Sorted(t) && MonotoneTax(t) && i < |t|
    ensures t[i].rate >= 0.0
  {
    var lo := t[i].lowerBound;
    var half := if i + 1 < |t| then (t[i + 1].lowerBound - lo) / 2.0 else 1.0;
    assert half > 0.0;
    TaxWithin(t, i, lo);
    TaxWithin(t, i, lo + half);
    assert Tax(t, lo) <= Tax(t, lo + half);
    assert t[i].At(lo + half) - t[i].At(lo) == t[i].rate * half;
    PositiveFactor(t[i].rate, half);
  }

  lemma PositiveFactor(rate: real, x: real)
    requires x > 0.0 && rate * x >= 0.0
    ensures rate >= 0.0
  {
    assert rate == (rate * x) / x;
  }

  lemma TaxRises(t: TaxBrackets, a: real, b: real)
    requires MonotoneTax(t) && a <= b
    ensures Tax(t, a) <= Tax(t, b)
  {
  }

  // ... and, since amounts close below a boundary are taxed no more than the
  // boundary itself, ...
  lemma BelowBoundary(t: TaxBrackets, i: nat, amount: real)
    requires Sorted(t) && MonotoneTax(t) && i + 1 < |t| && t[i].lowerBound <= amount < t[i + 1].lowerBound
    ensures t[i].At(amount) <= t[i + 1].recommended
  {
    TaxWithin(t, i, amount);
    TaxWithin(t, i + 1, t[i + 1].lowerBound);
    AtStart(t[i + 1]);
    TaxRises(t, amount, t[i + 1].lowerBound);
  }

  // ... no bracket starts below the end of the one before it.
  lemma StepsNotFalling(t: TaxBrackets, i: nat)
    requires Sorted(t) && MonotoneTax(t) && i + 1 < |t|
    ensures t[i].At(t[i + 1].lowerBound) <= t[i + 1].recommended
  {
    RatesNotNegative(t, i);
    var excess := t[i].At(t[i + 1].lowerBound) - t[i + 1].recommended;
    if excess > 0.0 {
      var step := SmallStep(t[i].rate, t[i + 1].lowerBound - t[i].lowerBound, excess);
      BelowBoundary(t, i, t[i + 1].lowerBound - step);
      AtShift(t[i], t[i + 1].lowerBound, step);
    }
  }

  function SmallStep(r: real, width: real, excess: real): (step: real)
    requires r >= 0.0 && width > 0.0 && excess > 0.0
    ensures 0.0 < step <= width && r * step < excess
  {
    if r * width < excess then width
    else
      var half := excess / (2.0 * r);
      assert r * half == excess / 2.0;
      assert half <= width by { HalfFits(r, half, width, excess); }
      half
  }

  lemma HalfFits(r: real, half: real, width: real, excess: real)
    requires r > 0.0 && excess > 0.0 && r * half == excess / 2.0 && r * width >= excess
    ensures half <= width
  {
    assert r * (width - half) >= 0.0;
    PositiveFactor(width - half, r);
  }

  // The tax of a table sorted by lower bound never falls, over all amounts,
  // exactly when the table is rising.
  lemma TaxMonotoneIffRising(t: TaxBrackets)
    requires Sorted(t)
    ensures MonotoneTax(t) <==> Rising(t)
  {
    if Rising(t) {
      forall a, b | a <= b ensures Tax(t, a) <= Tax(t, b) { RisingIsMonotone(t, a, b); }
    }
    if MonotoneTax(t) {
      if t != [] { FirstNotNegative(t); }
      forall i | 0 <= i < |t| ensures t[i].rate >= 0.0 { RatesNotNegative(t, i); }
      forall i | 0 <= i < |t| - 1
        ensures t[i].At(t[i + 1].lowerBound) <= t[i + 1].recommended
      {
        StepsNotFalling(t, i);
      }
    }
  }

  // The shipped tables.
  const RESERVED_MEMORY_TAX_GI: TaxBrackets :=
    [Bracket(2.0, 1.0, 0.0), Bracket(4.0, 1.0, 0.0), Bracket(8.0, 1.0, 0.0), Bracket(16.0, 2.0, 0.0),
      Bracket(128.0, 9.0, 0.02)]

  const RESERVED_CPU_TAX_VCPU: TaxBrackets :=
    [Bracket(1.0, 0.06, 0.0), Bracket(2.0, 0.07, 0.0), Bracket(3.0, 0.08, 0.0), Bracket(4.0, 0.085, 0.0),
      Bracket(5.0, 0.09, 0.0025)]

  // A bracket with no rate ends where it starts.
  lemma FlatBracket(br: Bracket, amount: real)
    requires br.rate == 0.0
    ensures br.At(amount) == br.recommended
  {
  }

  // Tables that are flat up to their last bracket.
  lemma FlatTableRising(t: TaxBrackets)
    requires forall i :: 0 <= i < |t| ==> t[i].recommended >= 0.0 && t[i].rate >= 0.0
    requires forall i :: 0 <= i < |t| - 1 ==> t[i].rate == 0.0 && t[i].recommended <= t[i + 1].recommended
    ensures Rising(t)
  {
    forall i | 0 <= i < |t| - 1 ensures t[i].At(t[i + 1].lowerBound) <= t[i + 1].recommended {
      FlatBracket(t[i], t[i + 1].lowerBound);
    }
  }

  lemma MemoryTableRising()
    ensures Sorted(RESERVED_MEMORY_TAX_GI) && Rising(RESERVED_MEMORY_TAX_GI)
  {
    FlatTableRising(RESERVED_MEMORY_TAX_GI);
  }

  lemma CpuTableRising()
    ensures Sorted(RESERVED_CPU_TAX_VCPU) && Rising(RESERVED_CPU_TAX_VCPU)
  {
    FlatTableRising(RESERVED_CPU_TAX_VCPU);
  }

  lemma ShippedTablesMonotone()
    ensures MonotoneTax(RESERVED_MEMORY_TAX_GI) && MonotoneTax(RESERVED_CPU_TAX_VCPU)
  {
    MemoryTableRising();
    CpuTableRising();
    TaxMonotoneIffRising(RESERVED_MEMORY_TAX_GI);
    TaxMonotoneIffRising(RESERVED_CPU_TAX_VCPU);
  }

  // The CPU reserve, in thousandths of a vCPU.
  function KubeReservedCpu(vcpus: nat): int { Trunc(1000.0 * Tax(RESERVED_CPU_TAX_VCPU, vcpus as real)) }

  lemma CpuCut(n: nat)
    ensures Cut(RESERVED_CPU_TAX_VCPU, n as real) == if n < 5 then n else 5
  {
    var k := if n < 5 then n else 5;
    assert BreaksAt(RESERVED_CPU_TAX_VCPU, n as real, k);
    CutUnique(RESERVED_CPU_TAX_VCPU, n as real, k);
  }

  lemma KubeReservedCpuTable(n: nat)
    ensures KubeReservedCpu(n) ==
            if n == 0 then 0 else if n == 1 then 60 else if n == 2 then 70 else if n == 3 then 80
            else if n == 4 then 85 else (90.0 + 2.5 * (n - 5) as real).Floor
  {
    CpuCut(n);
    if 0 < n < 5 { FlatBracket(RESERVED_CPU_TAX_VCPU[n - 1], n as real); }
    LastCpuBracket(n);
  }

  lemma LastCpuBracket(n: nat)
    ensures 1000.0 * Bracket(5.0, 0.09, 0.0025).At(n as real) == 90.0 + 2.5 * (n - 5) as real
  {
  }

  // ---- allocatable memory with default kubelet settings, in Mi ---------------------

  function Ceil(x: real): int { -((-x).Floor) }

  // The VM's own share: memory times the overhead fraction, rounded up to Mi.
  function Overhead(memGi: nat, overhead: real): int { Ceil(memGi as real * 1024.0 * overhead) }

  function MemoryCapacity(memGi: nat, overhead: real): int { memGi * 1024 - Overhead(memGi, overhead) }

  function KubeReservedMemory(memGi: nat): int { Trunc(1024.0 * Tax(RESERVED_MEMORY_TAX_GI, memGi as real)) }

  const SYSTEM_RESERVED_MEMORY := 100
  const EVICTION_MEMORY := 100

  function Allocatable(memGi: nat, overhead: real): int {
    MemoryCapacity(memGi, overhead) - KubeReservedMemory(memGi) - SYSTEM_RESERVED_MEMORY - EVICTION_MEMORY
  }

  lemma MemoryCut(g: nat)
    ensures Cut(RESERVED_MEMORY_TAX_GI, g as real)
            == if g < 2 then 0 else if g < 4 then 1 else if g < 8 then 2 else if g < 16 then 3 else if g < 128 then 4
               else 5
  {
    var k := if g < 2 then 0 else if g < 4 then 1 else if g < 8 then 2 else if g < 16 then 3 else if g < 128 then 4
      else 5;
    assert BreaksAt(RESERVED_MEMORY_TAX_GI, g as real, k);
    CutUnique(RESERVED_MEMORY_TAX_GI, g as real, k);
  }

  lemma KubeReservedTable(g: nat)
    ensures KubeReservedMemory(g) ==
            if g < 2 then 0 else if g < 16 then 1024 else if g < 128 then 2048
            else (9216.0 + 20.48 * (g - 128) as real).Floor
  {
    MemoryCut(g);
    var k := Cut(RESERVED_MEMORY_TAX_GI, g as real);
    if 0 < k < 5 { FlatBracket(RESERVED_MEMORY_TAX_GI[k - 1], g as real); }
    LastBracketTax(g);
  }

  lemma LastBracketTax(g: nat)
    ensures 1024.0 * Bracket(128.0, 9.0, 0.02).At(g as real) == 9216.0 + 20.48 * (g - 128) as real
  {
  }

  // Without VM overhead, what is left is the memory less 200 Mi and the reserve.
  lemma AllocatableIs(g: nat)
    ensures Allocatable(g, 0.0) ==
            if g < 2 then 1024 * g - 200 else if g < 16 then 1024 * g - 1224 else if g < 128 then 1024 * g - 2248
            else 1024 * g - 200 - (9216.0 + 20.48 * (g - 128) as real).Floor
  {
    KubeReservedTable(g);
    assert g as real * 1024.0 * 0.0 == 0.0;
  }

  // The largest overhead fraction every machine size can bear; 2 Gi is tightest.
  const MAX_OVERHEAD: real := 824.0 / 2048.0

  lemma OverheadBound(g: nat, overhead: real)
    requires overhead <= MAX_OVERHEAD
    ensures Overhead(g, overhead) <= 412 * g
  {
    ProductBound(g as real, overhead, MAX_OVERHEAD);
    CeilBound(g as real * 1024.0 * overhead, 412 * g);
  }

  lemma ProductBound(x: real, a: real, b: real)
    requires x >= 0.0 && a <= b
    ensures x * 1024.0 * a <= x * 1024.0 * b
  {
    assert x * (b - a) >= 0.0;
  }

  lemma CeilBound(x: real, n: int)
    requires x <= n as real
    ensures Ceil(x) <= n
  {
  }

  lemma AllocatableAtBound(g: nat, overhead: real)
    requires g >= 1 && overhead <= MAX_OVERHEAD
    ensures Allocatable(g, overhead) >= 0
  {
    OverheadBound(g, overhead);
    KubeReservedTable(g);
  }

  // Every size of at least 1 Gi keeps some memory for pods exactly when the
  // configured overhead is at most 824/2048 (about 0.402).
  lemma AllocatableNonNegative(overhead: real)
    ensures (forall g: nat :: g >= 1 ==> Allocatable(g, overhead) >= 0) <==> overhead <= MAX_OVERHEAD
  {
    if overhead <= MAX_OVERHEAD {
      forall g: nat | g >= 1 ensures Allocatable(g, overhead) >= 0 { AllocatableAtBound(g, overhead); }
    } else {
      KubeReservedTable(2);
      assert Allocatable(2, overhead) < 0;
    }
  }

  lemma OverheadStep(g: nat, overhead: real)
    requires 0.0 <= overhead <= 1003.0 / 1024.0
    ensures 0 <= Overhead(g + 1, overhead) - Overhead(g, overhead) <= 1003
  {
    var x, d := g as real * 1024.0 * overhead, 1024.0 * overhead;
    assert (g + 1) as real * 1024.0 * overhead == x + d;
    assert 0.0 <= d <= 1003.0;
  }

  // One more Gi never costs allocatable memory except where the reserve jumps:
  // always at 128 Gi, and at 2 and 16 Gi when the overhead grows in that step.
  lemma AllocatableDrops(g: nat, overhead: real)
    requires 0.0 <= overhead <= 1003.0 / 1024.0
    ensures Allocatable(g + 1, overhead) < Allocatable(g, overhead)
            <==> g + 1 == 128 || (g + 1 in {2, 16} && Overhead(g, overhead) < Overhead(g + 1, overhead))
  {
    OverheadStep(g, overhead);
    KubeReservedTable(g);
    KubeReservedTable(g + 1);
  }

  // ---- pods --------------------------------------------------------------------------------

  datatype Kubelet = Kubelet(maxPods: Option<int>, podsPerCore: Option<int>)

  function Pods(size: Size, kc: Kubelet): int {
    var limit := if kc.maxPods.Some? then kc.maxPods.value else 110;
    var count := if kc.podsPerCore.Some? then Min(kc.podsPerCore.value * size.calcCpu, limit) else limit;
    Min(count, (size.calMaxVnic - 1) * 31)
  }

  // The least of the limits: what is configured, or 110; so many per vCPU, if
  // configured; and 31 for every VNIC but the first.
  lemma PodsIsLeast(size: Size, kc: Kubelet)
    ensures var limits := {31 * (size.calMaxVnic - 1), if kc.maxPods.Some? then kc.maxPods.value else 110}
                          + if kc.podsPerCore.Some? then {kc.podsPerCore.value * size.calcCpu} else {};
            Pods(size, kc) in limits && forall limit :: limit in limits ==> Pods(size, kc) <= limit
  {
  }

  // imagefamily/resolver.go: an unset maxPods is passed to the kubelet as the
  // capacity the scheduler was told.
  function LaunchedKubelet(size: Size, kc: Kubelet): Kubelet {
    if kc.maxPods.None? then kc.(maxPods := Some(Pods(size, kc))) else kc
  }

  // What a kubelet started with maxPods and podsPerCore admits on these cores.
  function EffectivePods(kc: Kubelet, cores: int): int
    requires kc.maxPods.Some?
  {
    if kc.podsPerCore.Some? then Min(kc.maxPods.value, kc.podsPerCore.value * cores) else kc.maxPods.value
  }

  lemma PodsWithinKubeletLimit(size: Size, kc: Kubelet)
    ensures Pods(size, kc) <= EffectivePods(LaunchedKubelet(size, kc), size.calcCpu)
    ensures kc.maxPods.None? ==> Pods(size, kc) == EffectivePods(LaunchedKubelet(size, kc), size.calcCpu)
  {
  }

  // The capacity is a count at all exactly when the size has a VNIC.
  lemma PodsNonNegative(size: Size, kc: Kubelet)
    requires kc.maxPods.Some? ==> kc.maxPods.value >= 0
    requires kc.podsPerCore.Some? ==> kc.podsPerCore.value >= 0
    requires size.calcCpu >= 0
    ensures Pods(size, kc) >= 0 <==> size.calMaxVnic >= 1
  {
    if kc.podsPerCore.Some? {
      assert kc.podsPerCore.value * size.calcCpu >= 0;
    }
  }

  // A flexible size has one exactly when the per-OCPU rate is at least one or
  // it has a single OCPU; a fractional rate below one gives larger sizes none,
  // hence a capacity of -31 pods.
  lemma FlexVnicsRange(shape: Shape, cpus: int)
    requires cpus >= 1 && shape.vnicsPerOcpu.Some? && shape.vnicsPerOcpu.value >= 0.0
    ensures FlexVnics(shape, cpus) >= 1 <==> cpus == 1 || shape.vnicsPerOcpu.value >= 1.0
    ensures FlexVnics(shape, cpus) >= 1 <==> 2 <= FlexVnics(shape, cpus) <= 24
    ensures FlexVnics(shape, cpus) < 1 ==> FlexVnics(shape, cpus) == 0
  {
    var rate := Trunc(shape.vnicsPerOcpu.value);
    if rate >= 1 {
      assert rate * cpus >= cpus;
    }
  }

  // At half a VNIC per OCPU, two OCPUs get none.
  lemma HalfVnicPods(shape: Shape)
    requires shape.vnicsPerOcpu == Some(0.5)
    ensures FlexVnics(shape, 2) == 0 && Pods(FlexSize(shape, 2, 1), Kubelet(None, None)) == -31
  {
    assert Trunc(0.5) == 0;
  }

  lemma FlexPodsNonNegative(cfg: Config, shape: Shape, i: nat, j: nat, kc: Kubelet)
    requires Emits(cfg, shape, i, j) && SizeAt(cfg, shape, (i, j)).calcCpu >= 1
    requires shape.vnicsPerOcpu.Some? && shape.vnicsPerOcpu.value >= 0.0
    requires kc.maxPods.Some? ==> kc.maxPods.value >= 0
    requires kc.podsPerCore.Some? ==> kc.podsPerCore.value >= 0
    ensures Pods(SizeAt(cfg, shape, (i, j)), kc) >= 0
            <==> SizeAt(cfg, shape, (i, j)).calcCpu == RatioFactor(shape.name) || shape.vnicsPerOcpu.value >= 1.0
  {
    var cpus := Atoi(cfg.Cpus()[i]).value;
    FlexVnicsRange(shape, cpus);
    PodsNonNegative(SizeAt(cfg, shape, (i, j)), kc);
  }
}
