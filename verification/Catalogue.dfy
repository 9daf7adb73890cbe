// pkg/providers/instancetype/instancetype.go: flexible shapes are split into
// sizes, and the sizes listed in each availability domain are merged into one
// entry per (shape, CPU, memory).
module Catalogue {
  import opened Text
  import opened Sequences

  // int64(x) for a Go float: truncation toward zero.
  function Trunc(x: real): int {
    if x >= 0.0 then x.Floor else -((-x).Floor)
  }

  lemma TruncIs(x: real)
    ensures x >= 0.0 ==> Trunc(x) as real <= x < (Trunc(x) + 1) as real
    ensures x <= 0.0 ==> (Trunc(x) - 1) as real < x <= Trunc(x) as real
  {
  }

  function Min(a: int, b: int): int { if a <= b then a else b }

  function Max(a: int, b: int): int { if a >= b then a else b }

  // utils.IsA1FlexShape: on these shapes one OCPU is one vCPU, elsewhere two.
  predicate IsA1Flex(name: string) { Contains(ToLower(name), "a1.flex") }

  function RatioFactor(name: string): int { if IsA1Flex(name) then 1 else 2 }

  datatype Range = Range(min: real, max: real)

  datatype BandwidthOptions = BandwidthOptions(perOcpu: real, min: real, max: real)

  // The fields of the cloud's shape record that are read here.
  datatype Shape = Shape(
    name: string,
    isFlexible: bool,
    ocpus: real,
    memoryInGBs: real,
    ocpuOptions: Range,
    memoryOptions: Range,
    maxVnics: int,
    vnicsPerOcpu: Option<real>,
    bandwidthInGbps: real,
    bandwidthOptions: Option<BandwidthOptions>)

  // One launchable size of a shape.
  datatype Size = Size(shape: Shape, calcCpu: int, calMemInGBs: int, calMaxVnic: int, calMaxBandwidth: int)

  datatype Config = Config(flexCpuMemRatios: string, flexCpuConstrainList: string)
  {
    function Ratios(): seq<string> { Split(flexCpuMemRatios, ',') }
    function Cpus(): seq<string> { Split(flexCpuConstrainList, ',') }
  }

  // ---- the sizes of one flexible shape -----------------------------------------

  function FlexMemory(shape: Shape, cpus: int, ratio: int): int {
    cpus * RatioFactor(shape.name) * ratio
  }

  // The code compares with the limits after truncating them to integers.
  predicate InTruncatedBounds(shape: Shape, cpus: int, memInGBs: int) {
    && Trunc(shape.ocpuOptions.min) <= cpus <= Trunc(shape.ocpuOptions.max)
    && Trunc(shape.memoryOptions.min) <= memInGBs <= Trunc(shape.memoryOptions.max)
  }

  function FlexVnics(shape: Shape, cpus: int): int {
    match shape.vnicsPerOcpu
    case None => shape.maxVnics
    case Some(perOcpu) => Min(24, if cpus == 1 then 2 else Trunc(perOcpu) * cpus)
  }

  function FlexBandwidth(shape: Shape, cpus: int): int {
    match shape.bandwidthOptions
    case None => Trunc(shape.bandwidthInGbps)
    case Some(o) => Max(Trunc(o.min), Min(Trunc(o.max), Trunc(o.perOcpu) * cpus))
  }

  function FlexSize(shape: Shape, cpus: int, ratio: int): Size {
    Size(shape, cpus * RatioFactor(shape.name), FlexMemory(shape, cpus, ratio), FlexVnics(shape, cpus),
      FlexBandwidth(shape, cpus))
  }

  // On A1 shapes an OCPU is one vCPU, elsewhere two, and the ratio gives the
  // memory per vCPU.
  lemma FlexSizeIs(shape: Shape, cpus: int, ratio: int)
    ensures var s, vcpus := FlexSize(shape, cpus, ratio),
                            if Contains(ToLower(shape.name), "a1.flex") then cpus else 2 * cpus;
            s.shape == shape && s.calcCpu == vcpus && s.calMemInGBs == vcpus * ratio
  {
  }

  // Two VNICs for one OCPU, then the whole part of the rate for each; at most 24.
  lemma FlexVnicsIs(shape: Shape, cpus: int, ratio: int)
    ensures FlexSize(shape, cpus, ratio).calMaxVnic
            == if shape.vnicsPerOcpu.None? then shape.maxVnics
               else if cpus == 1 then 2
               else if Trunc(shape.vnicsPerOcpu.value) * cpus <= 24 then Trunc(shape.vnicsPerOcpu.value) * cpus else 24
  {
  }

  // The bandwidth stays within the shape's range, and is so much for each OCPU
  // where the range allows it.
  lemma FlexBandwidthIs(shape: Shape, cpus: int, ratio: int)
    ensures var b := FlexSize(shape, cpus, ratio).calMaxBandwidth;
            match shape.bandwidthOptions
            case None => b == Trunc(shape.bandwidthInGbps)
            case Some(o) =>
              var low, high, want := Trunc(o.min), Trunc(o.max), Trunc(o.perOcpu) * cpus;
              && low <= b && (low <= high ==> b <= high)
              && (low <= want <= high ==> b == want)
              && (want < low ==> b == low) && (want >= high >= low ==> b == high)
  {
  }

  // The size a CPU entry and a ratio entry give: none unless both parse and the
  // size is within bounds.
  function Entry(shape: Shape, cpuEntry: string, ratioEntry: string): Option<Size> {
    match (Atoi(cpuEntry), Atoi(ratioEntry))
    case (Some(cpus), Some(ratio)) =>
      if InTruncatedBounds(shape, cpus, FlexMemory(shape, cpus, ratio)) then Some(FlexSize(shape, cpus, ratio))
        else None
    case _ => None
  }

  predicate Emits(cfg: Config, shape: Shape, i: nat, j: nat) {
    i < |cfg.Cpus()| && j < |cfg.Ratios()| && Entry(shape, cfg.Cpus()[i], cfg.Ratios()[j]).Some?
  }

  function SizeAt(cfg: Config, shape: Shape, p: (nat, nat)): Size
    requires Emits(cfg, shape, p.0, p.1)
  {
    Entry(shape, cfg.Cpus()[p.0], cfg.Ratios()[p.1]).value
  }

  // A size comes of two entries that parse and meet the four truncated limits.
  lemma EmitsIf(cfg: Config, shape: Shape, i: nat, j: nat)
    requires i < |cfg.Cpus()| && j < |cfg.Ratios()|
    ensures Emits(cfg, shape, i, j) <==>
            && Atoi(cfg.Cpus()[i]).Some? && Atoi(cfg.Ratios()[j]).Some?
            && var cpus, ratio := Atoi(cfg.Cpus()[i]).value, Atoi(cfg.Ratios()[j]).value;
               var s := FlexSize(shape, cpus, ratio);
               && Trunc(shape.ocpuOptions.min) <= cpus <= Trunc(shape.ocpuOptions.max)
               && Trunc(shape.memoryOptions.min) <= s.calMemInGBs <= Trunc(shape.memoryOptions.max)
               && SizeAt(cfg, shape, (i, j)) == s
  {
  }

  predicate LexBefore(p: (nat, nat), q: (nat, nat)) {
    p.0 < q.0 || (p.0 == q.0 && p.1 < q.1)
  }

  predicate InOrder(ps: seq<(nat, nat)>) {
    forall a, b :: 0 <= a < b < |ps| ==> LexBefore(ps[a], ps[b])
  }

  // What a nested loop over rows and columns has collected on reaching (i, j),
  // where entry gives the value of a position or nothing, and from which
  // positions.
  function Collect<T>(entry: (nat, nat) -> Option<T>, cols: nat, i: nat, j: nat): seq<T>
    decreases i, j
  {
    if j > 0 then
      Collect(entry, cols, i, j - 1) + if entry(i, j - 1).Some? then [entry(i, j - 1).value] else []
    else if i > 0 then Collect(entry, cols, i - 1, cols)
    else []
  }

  function Positions<T>(entry: (nat, nat) -> Option<T>, cols: nat, i: nat, j: nat): seq<(nat, nat)>
    decreases i, j
  {
    if j > 0 then
      Positions(entry, cols, i, j - 1) + if entry(i, j - 1).Some? then [(i, j - 1)] else []
    else if i > 0 then Positions(entry, cols, i - 1, cols)
    else []
  }

  predicate Yields<T>(entry: (nat, nat) -> Option<T>, cols: nat, p: (nat, nat)) {
    p.1 < cols && entry(p.0, p.1).Some?
  }

  lemma {:induction false} PositionMember<T>(entry: (nat, nat) -> Option<T>, cols: nat, i: nat, j: nat, p: (nat, nat))
    requires j <= cols
    ensures p in Positions(entry, cols, i, j) <==> Yields(entry, cols, p) && LexBefore(p, (i, j))
    decreases i, j
  {
    if j > 0 {
      PositionMember(entry, cols, i, j - 1, p);
    } else if i > 0 {
      PositionMember(entry, cols, i - 1, cols, p);
    }
  }

  lemma {:induction false} PositionsInOrder<T>(entry: (nat, nat) -> Option<T>, cols: nat, i: nat, j: nat)
    requires j <= cols
    ensures InOrder(Positions(entry, cols, i, j))
    decreases i, j
  {
    if j > 0 {
      var front := Positions(entry, cols, i, j - 1);
      PositionsInOrder(entry, cols, i, j - 1);
      forall a | 0 <= a < |front| ensures LexBefore(front[a], (i, j - 1)) {
        PositionMember(entry, cols, i, j - 1, front[a]);
      }
    } else if i > 0 {
      PositionsInOrder(entry, cols, i - 1, cols);
    }
  }

  // The values sit at the positions, one for one.
  lemma {:induction false} CollectAtPositions<T>(entry: (nat, nat) -> Option<T>, cols: nat, i: nat, j: nat)
    ensures |Collect(entry, cols, i, j)| == |Positions(entry, cols, i, j)|
    ensures forall k :: 0 <= k < |Positions(entry, cols, i, j)| ==>
              var p := Positions(entry, cols, i, j)[k];
              entry(p.0, p.1) == Some(Collect(entry, cols, i, j)[k])
    decreases i, j
  {
    if j > 0 {
      CollectAtPositions(entry, cols, i, j - 1);
    } else if i > 0 {
      CollectAtPositions(entry, cols, i - 1, cols);
    }
  }

  function Entries(cfg: Config, shape: Shape): (nat, nat) -> Option<Size> {
    (i: nat, j: nat) =>
      if i < |cfg.Cpus()| && j < |cfg.Ratios()| then Entry(shape, cfg.Cpus()[i], cfg.Ratios()[j]) else None
  }

  function FlexSizes(cfg: Config, shape: Shape): seq<Size> {
    Collect(Entries(cfg, shape), |cfg.Ratios()|, |cfg.Cpus()|, 0)
  }

  function Origins(cfg: Config, shape: Shape): seq<(nat, nat)> {
    Positions(Entries(cfg, shape), |cfg.Ratios()|, |cfg.Cpus()|, 0)
  }

  // The sizes of a flexible shape: every in-bounds (CPU, ratio) pair exactly
  // once, in lexicographic order, and nothing else; unparsable entries
  // contribute no size.
  lemma FlexSizesEnumerate(cfg: Config, shape: Shape)
    ensures InOrder(Origins(cfg, shape))
    ensures forall p :: p in Origins(cfg, shape) <==> Emits(cfg, shape, p.0, p.1)
    ensures |FlexSizes(cfg, shape)| == |Origins(cfg, shape)|
    ensures forall k :: 0 <= k < |Origins(cfg, shape)| ==>
              && Emits(cfg, shape, Origins(cfg, shape)[k].0, Origins(cfg, shape)[k].1)
              && FlexSizes(cfg, shape)[k] == SizeAt(cfg, shape, Origins(cfg, shape)[k])
  {
    var entry, rows, cols := Entries(cfg, shape), |cfg.Cpus()|, |cfg.Ratios()|;
    PositionsInOrder(entry, cols, rows, 0);
    forall p: (nat, nat) ensures p in Origins(cfg, shape) <==> Emits(cfg, shape, p.0, p.1) {
      PositionMember(entry, cols, rows, 0, p);
    }
    CollectAtPositions(entry, cols, rows, 0);
  }

  // ---- merge keys ------------------------------------------------------------------

  function MergeKey(s: Size): string {
    s.shape.name + "-" + Itoa(s.calcCpu) + "-" + Itoa(s.calMemInGBs)
  }

  lemma MergeKeyInjective(a: Size, b: Size)
    requires a.calcCpu >= 0 && a.calMemInGBs >= 0 && b.calcCpu >= 0 && b.calMemInGBs >= 0
    ensures MergeKey(a) == MergeKey(b)
            <==> a.shape.name == b.shape.name && a.calcCpu == b.calcCpu && a.calMemInGBs == b.calMemInGBs
  {
    if MergeKey(a) == MergeKey(b) {
      var aHead, bHead := a.shape.name + ['-'] + Digits(a.calcCpu), b.shape.name + ['-'] + Digits(b.calcCpu);
      assert MergeKey(a) == aHead + ['-'] + Digits(a.calMemInGBs);
      assert MergeKey(b) == bHead + ['-'] + Digits(b.calMemInGBs);
      CutAtLast(aHead, Digits(a.calMemInGBs), bHead, Digits(b.calMemInGBs), '-');
      CutAtLast(a.shape.name, Digits(a.calcCpu), b.shape.name, Digits(b.calcCpu), '-');
      DigitsInjective(a.calcCpu, b.calcCpu);
      DigitsInjective(a.calMemInGBs, b.calMemInGBs);
    }
  }

  // A negative number would spoil it: "a-" with 1 and "a" with -1 collide.
  lemma MergeKeyCollision(s: Shape)
    ensures MergeKey(Size(s.(name := "a-"), 1, 2, 0, 0)) == MergeKey(Size(s.(name := "a"), -1, 2, 0, 0))
  {
  }

  // The parsable entries of a list are positive and no two have the same value.
  ghost predicate DistinctPositive(entries: seq<string>) {
    && (forall i :: 0 <= i < |entries| && Atoi(entries[i]).Some? ==> Atoi(entries[i]).value > 0)
    && (forall i, j :: 0 <= i < j < |entries| && Atoi(entries[i]).Some? ==> Atoi(entries[i]) != Atoi(entries[j]))
  }

  lemma ProductCancels(k: int, x: int, y: int)
    requires k > 0 && k * x == k * y
    ensures x == y
  {
    assert k * (x - y) == 0;
  }

  lemma FactorsCancel(f: int, x: int, y: int, u: int, v: int)
    requires f > 0 && x > 0 && x * f == y * f && x * f * u == y * f * v
    ensures x == y && u == v
  {
    assert x * f > 0;
    ProductCancels(f, x, y);
    ProductCancels(x * f, u, v);
  }

  lemma SizeAtIs(cfg: Config, shape: Shape, i: nat, j: nat)
    requires Emits(cfg, shape, i, j)
    ensures Atoi(cfg.Cpus()[i]).Some? && Atoi(cfg.Ratios()[j]).Some?
    ensures var s, cpus := SizeAt(cfg, shape, (i, j)), Atoi(cfg.Cpus()[i]).value;
            && s.shape == shape && s.calcCpu == cpus * RatioFactor(shape.name)
            && s.calMemInGBs == cpus * RatioFactor(shape.name) * Atoi(cfg.Ratios()[j]).value
  {
  }

  lemma SamePlace(entries: seq<string>, i: nat, j: nat)
    requires DistinctPositive(entries) && i < |entries| && j < |entries|
    requires Atoi(entries[i]).Some? && Atoi(entries[i]) == Atoi(entries[j])
    ensures i == j
  {
  }

  lemma PositiveSize(cfg: Config, shape: Shape, p: (nat, nat))
    requires DistinctPositive(cfg.Cpus()) && DistinctPositive(cfg.Ratios()) && Emits(cfg, shape, p.0, p.1)
    ensures SizeAt(cfg, shape, p).calcCpu > 0 && SizeAt(cfg, shape, p).calMemInGBs > 0
  {
    SizeAtIs(cfg, shape, p.0, p.1);
    PositiveProduct(Atoi(cfg.Cpus()[p.0]).value, RatioFactor(shape.name), Atoi(cfg.Ratios()[p.1]).value);
  }

  lemma PositiveProduct(x: int, f: int, y: int)
    requires x > 0 && f > 0 && y > 0
    ensures x * f > 0 && x * f * y > 0
  {
  }

  lemma SameKeySamePosition(cfg: Config, shape: Shape, p: (nat, nat), q: (nat, nat))
    requires DistinctPositive(cfg.Cpus()) && DistinctPositive(cfg.Ratios())
    requires Emits(cfg, shape, p.0, p.1) && Emits(cfg, shape, q.0, q.1)
    requires MergeKey(SizeAt(cfg, shape, p)) == MergeKey(SizeAt(cfg, shape, q))
    ensures p == q
  {
    PositiveSize(cfg, shape, p);
    PositiveSize(cfg, shape, q);
    MergeKeyInjective(SizeAt(cfg, shape, p), SizeAt(cfg, shape, q));
    SameNumbersSamePosition(cfg, shape, p, q);
  }

  lemma SameNumbersSamePosition(cfg: Config, shape: Shape, p: (nat, nat), q: (nat, nat))
    requires DistinctPositive(cfg.Cpus()) && DistinctPositive(cfg.Ratios())
    requires Emits(cfg, shape, p.0, p.1) && Emits(cfg, shape, q.0, q.1)
    requires SizeAt(cfg, shape, p).calcCpu == SizeAt(cfg, shape, q).calcCpu
    requires SizeAt(cfg, shape, p).calMemInGBs == SizeAt(cfg, shape, q).calMemInGBs
    ensures p == q
  {
    SizeAtIs(cfg, shape, p.0, p.1);
    SizeAtIs(cfg, shape, q.0, q.1);
    FactorsCancel(RatioFactor(shape.name), Atoi(cfg.Cpus()[p.0]).value, Atoi(cfg.Cpus()[q.0]).value,
                  Atoi(cfg.Ratios()[p.1]).value, Atoi(cfg.Ratios()[q.1]).value);
    SamePlace(cfg.Cpus(), p.0, q.0);
    SamePlace(cfg.Ratios(), p.1, q.1);
  }

  // For duplicate-free positive lists no two sizes of a shape share a key, so
  // no size of a shape is swallowed by the merge.
  lemma FlexSizesHaveDistinctKeys(cfg: Config, shape: Shape, a: nat, b: nat)
    requires DistinctPositive(cfg.Cpus()) && DistinctPositive(cfg.Ratios())
    requires a < b < |FlexSizes(cfg, shape)|
    ensures MergeKey(FlexSizes(cfg, shape)[a]) != MergeKey(FlexSizes(cfg, shape)[b])
  {
    var ps := Origins(cfg, shape);
    FlexSizesEnumerate(cfg, shape);
    if MergeKey(SizeAt(cfg, shape, ps[a])) == MergeKey(SizeAt(cfg, shape, ps[b])) {
      SameKeySamePosition(cfg, shape, ps[a], ps[b]);
    }
  }

  // ---- what truncating the limits lets through -----------------------------------

  predicate Integral(x: real) { x == x.Floor as real }

  predicate WithinLimits(shape: Shape, cpus: int, memInGBs: int) {
    && shape.ocpuOptions.min <= cpus as real <= shape.ocpuOptions.max
    && shape.memoryOptions.min <= memInGBs as real <= shape.memoryOptions.max
  }

  // A size that passes the truncated test breaks the shape's real limits
  // exactly when it sits on the truncation of a fractional minimum.
  lemma TruncatedBoundsSound(shape: Shape, cpus: int, memInGBs: int)
    requires shape.ocpuOptions.min >= 0.0 && shape.ocpuOptions.max >= 0.0
    requires shape.memoryOptions.min >= 0.0 && shape.memoryOptions.max >= 0.0
    requires InTruncatedBounds(shape, cpus, memInGBs)
    ensures WithinLimits(shape, cpus, memInGBs)
            <==> && (cpus == shape.ocpuOptions.min.Floor ==> Integral(shape.ocpuOptions.min))
                 && (memInGBs == shape.memoryOptions.min.Floor ==> Integral(shape.memoryOptions.min))
  {
  }

  // With a minimum of one and a half OCPUs a size of one is let through.
  lemma TruncatedMinimumMissed(shape: Shape)
    requires shape.ocpuOptions == Range(1.5, 8.0) && shape.memoryOptions == Range(1.0, 64.0)
    ensures InTruncatedBounds(shape, 1, 8) && !WithinLimits(shape, 1, 8)
  {
    assert Trunc(1.5) == 1 && Trunc(8.0) == 8 && Trunc(1.0) == 1 && Trunc(64.0) == 64;
  }

  // In the other direction nothing is lost.
  lemma TruncatedBoundsComplete(shape: Shape, cpus: int, memInGBs: int)
    requires shape.ocpuOptions.min >= 0.0 && shape.memoryOptions.min >= 0.0
    requires WithinLimits(shape, cpus, memInGBs)
    ensures InTruncatedBounds(shape, cpus, memInGBs)
  {
  }

  // ---- all sizes of a listing --------------------------------------------------------

  function FixedSize(shape: Shape): Size {
    Size(shape, Trunc(shape.ocpus) * 2, Trunc(shape.memoryInGBs), shape.maxVnics, Trunc(shape.bandwidthInGbps))
  }

  // Other shapes keep their figures, without fractions, at two vCPUs per OCPU,
  // whatever their name.
  lemma FixedSizeIs(shape: Shape, ocpus: nat, gb: nat)
    requires shape.ocpus.Floor == ocpus && shape.memoryInGBs.Floor == gb
    ensures var s := FixedSize(shape);
            && s.shape == shape && s.calcCpu == 2 * ocpus && s.calMemInGBs == gb && s.calMaxVnic == shape.maxVnics
            && (shape.bandwidthInGbps >= 0.0 ==> s.calMaxBandwidth == shape.bandwidthInGbps.Floor)
  {
  }

  lemma SizesOfMember(cfg: Config, shape: Shape, s: Size)
    ensures s in Sizing(cfg)(shape) <==>
            if shape.isFlexible then exists i: nat, j: nat :: Emits(cfg, shape, i, j) && SizeAt(cfg, shape, (i, j)) == s
            else s == FixedSize(shape)
  {
    if shape.isFlexible {
      var ps, sizes := Origins(cfg, shape), FlexSizes(cfg, shape);
      FlexSizesEnumerate(cfg, shape);
      if i: nat, j: nat :| Emits(cfg, shape, i, j) && SizeAt(cfg, shape, (i, j)) == s {
        assert (i, j) in ps;
        var k :| 0 <= k < |ps| && ps[k] == (i, j);
        assert sizes[k] == s;
      }
    }
  }

  function SizesOf(cfg: Config, shape: Shape): seq<Size> {
    if shape.isFlexible then FlexSizes(cfg, shape) else [FixedSize(shape)]
  }

  function Sizing(cfg: Config): Shape -> seq<Size> { (shape: Shape) => SizesOf(cfg, shape) }

  function AllSizes(cfg: Config, shapes: seq<Shape>): seq<Size> { Concat(Sizing(cfg), shapes) }

  // A listing holds the one size of each other shape, and every emitted size of
  // each flexible one.
  lemma AllSizesMember(cfg: Config, shapes: seq<Shape>, s: Size)
    ensures s in AllSizes(cfg, shapes) <==> exists shape :: shape in shapes && s in Sizing(cfg)(shape)
  {
    ConcatMember(Sizing(cfg), shapes, s);
  }

  lemma AllSizesNext(cfg: Config, shapes: seq<Shape>, i: nat)
    requires i < |shapes|
    ensures AllSizes(cfg, shapes[..i + 1]) == AllSizes(cfg, shapes[..i]) + SizesOf(cfg, shapes[i])
  {
    assert shapes[..i + 1][..i] == shapes[..i];
  }

  // A list entry the merge works on through its pointer.
  class WrapShape {
    const size: Size
    var availableDomains: seq<string>

    constructor (size: Size, ad: string)
      ensures this.size == size && availableDomains == [ad]
    {
      this.size := size;
      availableDomains := [ad];
    }
  }

  // ws lists the sizes in order, each so far known in one domain only.
  ghost predicate Wraps(ws: seq<WrapShape>, sizes: seq<Size>, ad: string)
    reads ws
  {
    && |ws| == |sizes| && NoRepeats(ws)
    && forall i :: 0 <= i < |ws| ==> ws[i].size == sizes[i] && ws[i].availableDomains == [ad]
  }

  lemma WrapsAppend(ws: seq<WrapShape>, sizes: seq<Size>, more: seq<WrapShape>, moreSizes: seq<Size>, ad: string)
    requires Wraps(ws, sizes, ad) && Wraps(more, moreSizes, ad)
    requires forall i, j :: 0 <= i < |ws| && 0 <= j < |more| ==> ws[i] != more[j]
    ensures Wraps(ws + more, sizes + moreSizes, ad)
  {
  }

  lemma EntryAt(cfg: Config, shape: Shape, i: nat, j: nat)
    requires i < |cfg.Cpus()| && j < |cfg.Ratios()|
    ensures Entries(cfg, shape)(i, j) == Entry(shape, cfg.Cpus()[i], cfg.Ratios()[j])
  {
  }

  method SplitFlexCpuMem(cfg: Config, shape: Shape, ad: string) returns (ws: seq<WrapShape>)
    ensures Wraps(ws, FlexSizes(cfg, shape), ad) && fresh(ws)
  {
    var ratios, cpuList := cfg.Ratios(), cfg.Cpus();
    ghost var entry := Entries(cfg, shape);
    ghost var sizes: seq<Size> := [];
    ws := [];
    for i := 0 to |cpuList|
      invariant sizes == Collect(entry, |ratios|, i, 0)
      invariant Wraps(ws, sizes, ad) && fresh(ws)
    {
      var row: seq<WrapShape>;
      ghost var rowSizes: seq<Size>;
      row, rowSizes := SplitRow(cfg, shape, ad, i, cpuList[i], ratios, entry, sizes);
      WrapsAppend(ws, sizes, row, rowSizes, ad);
      ws, sizes := ws + row, sizes + rowSizes;
    }
  }

  lemma CollectNext<T>(entry: (nat, nat) -> Option<T>, cols: nat, i: nat, j: nat, before: seq<T>, row: seq<T>)
    requires before + row == Collect(entry, cols, i, j)
    ensures before + (row + if entry(i, j).Some? then [entry(i, j).value] else []) == Collect(entry, cols, i, j + 1)
  {
    assert before + (row + if entry(i, j).Some? then [entry(i, j).value] else [])
        == (before + row) + if entry(i, j).Some? then [entry(i, j).value] else [];
  }

  // The inner loop, for one entry of the CPU list.
  method SplitRow(cfg: Config, shape: Shape, ad: string, i: nat, cpuEntry: string, ratios: seq<string>,
                  ghost entry: (nat, nat) -> Option<Size>,
                  ghost before: seq<Size>)
    returns (ws: seq<WrapShape>, ghost sizes: seq<Size>)
    requires i < |cfg.Cpus()| && cpuEntry == cfg.Cpus()[i] && ratios == cfg.Ratios() && entry == Entries(cfg, shape)
    requires before == Collect(entry, |ratios|, i, 0)
    ensures Wraps(ws, sizes, ad) && fresh(ws) && before + sizes == Collect(entry, |ratios|, i + 1, 0)
  {
    ws, sizes := [], [];
    for j := 0 to |ratios|
      invariant Wraps(ws, sizes, ad) && before + sizes == Collect(entry, |ratios|, i, j)
      invariant forall k :: 0 <= k < |ws| ==> fresh(ws[k])
    {
      var size := SizeFor(cfg, shape, i, j, cpuEntry, ratios[j], entry);
      ghost var longer := sizes + if size.Some? then [size.value] else [];
      CollectNext(entry, |ratios|, i, j, before, sizes);
      ws := AppendSize(ws, sizes, size, ad);
      sizes := longer;
    }
  }

  method AppendSize(ws: seq<WrapShape>, ghost sizes: seq<Size>, size: Option<Size>, ad: string)
    returns (longer: seq<WrapShape>)
    requires Wraps(ws, sizes, ad)
    ensures Wraps(longer, sizes + if size.Some? then [size.value] else [], ad)
    ensures ws <= longer && forall i :: |ws| <= i < |longer| ==> fresh(longer[i])
  {
    longer := ws;
    if size.Some? {
      var w := new WrapShape(size.value, ad);
      WrapsAppend(ws, sizes, [w], [size.value], ad);
      longer := ws + [w];
    } else {
      assert sizes + [] == sizes;
    }
  }

  // The body of the inner loop: None stands for its continue statements.
  method SizeFor(cfg: Config, shape: Shape, i: nat, j: nat, cpuEntry: string, ratioEntry: string,
                 ghost entry: (nat, nat) -> Option<Size>)
    returns (size: Option<Size>)
    requires i < |cfg.Cpus()| && j < |cfg.Ratios()| && cpuEntry == cfg.Cpus()[i] && ratioEntry == cfg.Ratios()[j]
    requires entry == Entries(cfg, shape)
    ensures size == entry(i, j)
  {
    EntryAt(cfg, shape, i, j);
    size := FlexSizeFor(shape, cpuEntry, ratioEntry);
  }

  method FlexSizeFor(shape: Shape, cpuEntry: string, ratioEntry: string) returns (size: Option<Size>)
    ensures size == Entry(shape, cpuEntry, ratioEntry)
  {
    var ratioFactor := 2;
    if IsA1Flex(shape.name) {
      ratioFactor := 1;
    }
    var ratio, cpus := Atoi(ratioEntry), Atoi(cpuEntry);
    if ratio.None? || cpus.None? {
      return None;
    }
    var memInGBs := cpus.value * ratioFactor * ratio.value;
    if cpus.value < Trunc(shape.ocpuOptions.min) || memInGBs < Trunc(shape.memoryOptions.min) {
      return None;
    }
    if cpus.value > Trunc(shape.ocpuOptions.max) || memInGBs > Trunc(shape.memoryOptions.max) {
      return None;
    }
    var vnics := shape.maxVnics;
    if shape.vnicsPerOcpu.Some? {
      vnics := if cpus.value == 1 then 2 else Trunc(shape.vnicsPerOcpu.value) * cpus.value;
      vnics := Min(24, vnics);
    }
    var bandwidth := Trunc(shape.bandwidthInGbps);
    if shape.bandwidthOptions.Some? {
      var o := shape.bandwidthOptions.value;
      bandwidth := Max(Trunc(o.min), Min(Trunc(o.max), Trunc(o.perOcpu) * cpus.value));
    }
    return Some(Size(shape, cpus.value * ratioFactor, memInGBs, vnics, bandwidth));
  }

  method ToWrapShape(cfg: Config, shapes: seq<Shape>, ad: string) returns (ws: seq<WrapShape>)
    ensures Wraps(ws, AllSizes(cfg, shapes), ad) && fresh(ws)
  {
    ws := [];
    for i := 0 to |shapes|
      invariant Wraps(ws, AllSizes(cfg, shapes[..i]), ad) && fresh(ws)
    {
      AllSizesNext(cfg, shapes, i);
      if shapes[i].isFlexible {
        var more := SplitFlexCpuMem(cfg, shapes[i], ad);
        WrapsAppend(ws, AllSizes(cfg, shapes[..i]), more, SizesOf(cfg, shapes[i]), ad);
        ws := ws + more;
      } else {
        var w := new WrapShape(FixedSize(shapes[i]), ad);
        WrapsAppend(ws, AllSizes(cfg, shapes[..i]), [w], SizesOf(cfg, shapes[i]), ad);
        ws := ws + [w];
      }
    }
    assert shapes[..|shapes|] == shapes;
  }
}
