// pkg/providers/pricing/calculator.go and pricing.go: what a shape is charged,
// item by item, in the shape's own figures, and which items its name selects.
module Billing {
  import opened Text
  import opened Pricing
  import LaunchRequest

  // ---- quantities and units ---------------------------------------------------------------

  predicate Names(item: Item, what: string) { Contains(item.displayName, what) }

  // vCPUs are OCPUs on A1 shapes and two to an OCPU on others, rounded toward
  // zero.
  lemma OcpusAre(s: Billed)
    ensures s.Ocpus() == if Contains(ToLower(s.name), "a1.flex") then s.calcCpu
                         else if s.calcCpu >= 0 then s.calcCpu / 2 else -(-s.calcCpu / 2)
  {
  }

  // The price is the one of the first localization in dollars, or nothing.
  lemma {:induction false} UsdIs(prices: seq<Localization>, k: nat)
    requires k <= |prices| && forall j :: 0 <= j < k ==> prices[j].code != "USD"
    requires k < |prices| ==> prices[k].code == "USD"
    ensures FirstUsd(prices) == if k < |prices| then prices[k].price else 0.0
  {
    if k > 0 { UsdIs(prices[1..], k - 1); }
  }

  predicate Costs(price: Option<real>, amount: real) { price.Some? && price.value == amount }

  // The price per unit is u: for nodes, the price by the cores in the name.
  predicate UnitIs(item: Item, u: real) {
    if item.metricName == "Node Per Hour"
    then ParseCoreNum(item.displayName) != 0 && u == item.Usd() / (ParseCoreNum(item.displayName) as real)
    else u == item.Usd()
  }

  lemma TimesUnit(quantity: real, item: Item, u: real)
    requires UnitIs(item, u)
    ensures Costs(Times(quantity, PricePerUnit(item)), quantity * u)
  {
    TimesSome(quantity, PricePerUnit(item), u);
  }

  lemma TimesSome(quantity: real, unit: Option<real>, u: real)
    requires unit == Some(u)
    ensures Costs(Times(quantity, unit), quantity * u)
  {
  }

  // ---- a sole item ----------------------------------------------------------------------------

  // A sole item is charged by its metric; a free one is free.
  lemma SoleIs(s: Billed, item: Item, quantity: real, u: real)
    requires UnitIs(item, u) && SoleQuantity(s, item) == Some(quantity) && !Names(item, "Free")
    ensures Costs(PriceFor(s, [item]), quantity * u)
  {
    TimesUnit(quantity, item, u);
  }

  lemma SoleOcpuItem(s: Billed, item: Item, u: real)
    requires UnitIs(item, u) && !Names(item, "Free")
    requires item.metricName == "OCPU Per Hour" || (item.metricName == "Node Per Hour" && !Names(item, "GPU"))
    ensures Costs(PriceFor(s, [item]), s.Ocpus() as real * u)
  {
    SoleIs(s, item, s.Ocpus() as real, u);
  }

  lemma SoleGpuItem(s: Billed, item: Item, u: real)
    requires UnitIs(item, u) && !Names(item, "Free")
    requires item.metricName == "GPU Per Hour" || (item.metricName == "Node Per Hour" && Names(item, "GPU"))
    ensures Costs(PriceFor(s, [item]), s.gpus as real * u)
  {
    SoleIs(s, item, s.gpus as real, u);
  }

  lemma SoleMemoryItem(s: Billed, item: Item, u: real)
    requires UnitIs(item, u) && !Names(item, "Free") && item.metricName == "Gigabyte Per Hour"
    ensures Costs(PriceFor(s, [item]), s.calMemInGBs as real * u)
  {
    SoleIs(s, item, s.calMemInGBs as real, u);
  }

  lemma SoleNvmeItem(s: Billed, item: Item, u: real)
    requires UnitIs(item, u) && !Names(item, "Free") && item.metricName == "NVMe Terabyte Per Hour"
    ensures Costs(PriceFor(s, [item]), s.localDisksInGBs * u)
  {
    SoleIs(s, item, s.localDisksInGBs, u);
  }

  lemma SoleItemFree(s: Billed, item: Item)
    ensures Names(item, "Free") ==> Costs(PriceFor(s, [item]), 0.0)
    ensures Costs(PriceFor(s, [item]), 0.0)
            || item.metricName in {"OCPU Per Hour", "GPU Per Hour", "Gigabyte Per Hour", "NVMe Terabyte Per Hour",
                                   "Node Per Hour"}
  {
  }

  // ---- several items -------------------------------------------------------------------------

  // The item ends the list.
  predicate Ends(item: Item) {
    && Names(item, "Hourly Commit")
    && !Names(item, "OCPU") && !Names(item, "Memory") && !Names(item, "NVMe")
    && !Names(item, "1 Month Commit") && !Names(item, "1 Year Commit") && !Names(item, "3 Year Commit")
  }

  predicate NoneEnds(items: seq<Item>) { forall k :: 0 <= k < |items| ==> !Ends(items[k]) }

  lemma NotCut(items: seq<Item>)
    requires NoneEnds(items)
    ensures UpToLast(items) == items
  {
    UpToIs(items, Last(), |items|);
  }

  lemma SumNext(s: Billed, items: seq<Item>, item: Item)
    ensures Sum(s, items + [item]) == Plus(Sum(s, items), Charge(s, item))
  {
    assert (items + [item])[..|items|] == items;
  }

  // One of several items that is not skipped is charged its quantity.
  lemma ChargeBy(s: Billed, item: Item, quantity: real, u: real)
    requires UnitIs(item, u) && !IsSkipped(item) && ComponentQuantity(s, item) == quantity
    ensures Costs(Charge(s, item), quantity * u)
  {
    TimesUnit(quantity, item, u);
  }

  lemma AddsCharge(s: Billed, items: seq<Item>, item: Item)
    requires |items| >= 2 && NoneEnds(items)
    ensures PriceFor(s, items + [item]) == Plus(PriceFor(s, items), Charge(s, item))
  {
    NotCut(items);
    UpToIs(items + [item], Last(), |items| + 1);
    assert (items + [item])[..|items| + 1] == items + [item];
    SumNext(s, items, item);
  }

  predicate NamesComponent(item: Item) { Names(item, "OCPU") || Names(item, "Memory") || Names(item, "NVMe") }

  predicate NamesTerm(item: Item) {
    Names(item, "1 Month Commit") || Names(item, "1 Year Commit") || Names(item, "3 Year Commit")
  }

  // Each further item adds so much, by what its display name speaks of first.
  lemma ItemAdds(s: Billed, items: seq<Item>, item: Item, quantity: real, u: real)
    requires |items| >= 2 && NoneEnds(items) && PriceFor(s, items).Some?
    requires UnitIs(item, u) && !IsSkipped(item) && ComponentQuantity(s, item) == quantity
    ensures Costs(PriceFor(s, items + [item]), PriceFor(s, items).value + quantity * u)
  {
    AddsCharge(s, items, item);
    ChargeBy(s, item, quantity, u);
  }

  lemma OcpuItemAdds(s: Billed, items: seq<Item>, item: Item, u: real)
    requires |items| >= 2 && NoneEnds(items) && PriceFor(s, items).Some? && UnitIs(item, u)
    requires Names(item, "OCPU") || (!NamesComponent(item) && !NamesTerm(item))
    ensures Costs(PriceFor(s, items + [item]), PriceFor(s, items).value + s.Ocpus() as real * u)
  {
    ItemAdds(s, items, item, s.Ocpus() as real, u);
  }

  lemma MemoryItemAdds(s: Billed, items: seq<Item>, item: Item, u: real)
    requires |items| >= 2 && NoneEnds(items) && PriceFor(s, items).Some? && UnitIs(item, u)
    requires Names(item, "Memory") && !Names(item, "OCPU")
    ensures Costs(PriceFor(s, items + [item]), PriceFor(s, items).value + s.calMemInGBs as real * u)
  {
    ItemAdds(s, items, item, s.calMemInGBs as real, u);
  }

  lemma NvmeItemAdds(s: Billed, items: seq<Item>, item: Item, terabytes: real, u: real)
    requires |items| >= 2 && NoneEnds(items) && PriceFor(s, items).Some? && UnitIs(item, u)
    requires Names(item, "NVMe") && !Names(item, "OCPU") && !Names(item, "Memory")
    requires terabytes == s.localDisksInGBs / 1024.0
    ensures Costs(PriceFor(s, items + [item]), PriceFor(s, items).value + terabytes * u)
  {
    ItemAdds(s, items, item, terabytes, u);
  }

  lemma TermItemAddsNothing(s: Billed, items: seq<Item>, item: Item)
    requires |items| >= 2 && NoneEnds(items) && NamesTerm(item) && !NamesComponent(item)
    ensures PriceFor(s, items + [item]) == PriceFor(s, items)
  {
    AddsCharge(s, items, item);
  }

  // What follows an hourly commitment is not billed.
  lemma EndsTheList(s: Billed, front: seq<Item>, item: Item, rest: seq<Item>)
    requires front != [] && NoneEnds(front) && Ends(item)
    ensures PriceFor(s, front + [item] + rest) == PriceFor(s, front + [item])
  {
    var items := front + [item] + rest;
    UpToIs(items, Last(), |front| + 1);
    UpToIs(front + [item], Last(), |front| + 1);
    assert items[..|front| + 1] == front + [item] == (front + [item])[..|front| + 1];
  }

  // The usual flexible shape, with OCPUs at p and gigabytes at q.
  lemma OcpusAndMemory(s: Billed, ocpu: Item, memory: Item, p: real, q: real)
    requires UnitIs(ocpu, p) && UnitIs(memory, q)
    requires Names(ocpu, "OCPU") && Names(memory, "Memory") && !Names(memory, "OCPU")
    ensures Costs(PriceFor(s, [ocpu, memory]), s.Ocpus() as real * p + s.calMemInGBs as real * q)
    ensures PriceFor(s, [memory, ocpu]) == PriceFor(s, [ocpu, memory])
  {
    PairCosts(s, ocpu, memory, s.Ocpus() as real, s.calMemInGBs as real, p, q);
  }

  // So is a shape for which the price list holds these two items.
  lemma FlexShapePrice(s: Billed, catalog: seq<Item>, ocpu: Item, memory: Item, p: real, q: real)
    requires PriceItems(catalog, s.name) == [ocpu, memory] || PriceItems(catalog, s.name) == [memory, ocpu]
    requires UnitIs(ocpu, p) && UnitIs(memory, q)
    requires Names(ocpu, "OCPU") && Names(memory, "Memory") && !Names(memory, "OCPU")
    ensures Costs(PriceOf(s, Some(catalog)), s.Ocpus() as real * p + s.calMemInGBs as real * q)
  {
    OcpusAndMemory(s, ocpu, memory, p, q);
  }

  lemma PairCosts(s: Billed, a: Item, b: Item, m: real, n: real, p: real, q: real)
    requires UnitIs(a, p) && UnitIs(b, q) && NamesComponent(a) && NamesComponent(b)
    requires ComponentQuantity(s, a) == m && ComponentQuantity(s, b) == n
    ensures Costs(PriceFor(s, [a, b]), m * p + n * q) && PriceFor(s, [b, a]) == PriceFor(s, [a, b])
  {
    ChargeBy(s, a, m, p);
    ChargeBy(s, b, n, q);
    PairPrice(s, a, b, m * p, n * q);
  }

  lemma PairPrice(s: Billed, a: Item, b: Item, x: real, y: real)
    requires !Ends(a) && !Ends(b) && Costs(Charge(s, a), x) && Costs(Charge(s, b), y)
    ensures Costs(PriceFor(s, [a, b]), x + y) && PriceFor(s, [b, a]) == PriceFor(s, [a, b])
  {
    SumOfTwo(s, a, b);
    SumOfTwo(s, b, a);
  }

  lemma SumOfTwo(s: Billed, a: Item, b: Item)
    requires !Ends(a)
    ensures PriceFor(s, [a, b]) == Plus(Plus(Some(0.0), Charge(s, a)), Charge(s, b))
  {
    var items := [a, b];
    UpToIs(items, Last(), 2);
    assert [] + [a] == [a] && [a] + [b] == items == items[..2];
    SumNext(s, [], a);
    SumNext(s, [a], b);
  }

  // ---- without a price list, or without items --------------------------------------------------

  lemma NoItems(s: Billed)
    ensures Costs(PriceOf(s, None), 8.0 * s.Ocpus() as real + s.calMemInGBs as real)
    ensures Costs(PriceFor(s, []), 340282346638528859811704183484516925440.0)
  {
  }

  // ---- more memory ---------------------------------------------------------------------------------

  predicate BillsMemory(item: Item) { Names(item, "Memory") && !Names(item, "OCPU") }

  function WithMemory(s: Billed, gb: int): Billed { s.(calMemInGBs := s.calMemInGBs + gb) }

  lemma {:induction false} SameSum(s: Billed, items: seq<Item>, gb: int)
    requires forall k :: 0 <= k < |items| ==> !BillsMemory(items[k])
    ensures Sum(WithMemory(s, gb), items) == Sum(s, items)
  {
    if items != [] { SameSum(s, items[..|items| - 1], gb); }
  }

  lemma Distribute(a: int, b: int, u: real)
    ensures (a + b) as real * u == a as real * u + b as real * u
  {
  }

  lemma {:induction false} MoreMemorySum(s: Billed, items: seq<Item>, m: nat, u: real, gb: int)
    requires m < |items| && BillsMemory(items[m]) && UnitIs(items[m], u) && Sum(s, items).Some?
    requires forall k :: 0 <= k < |items| && k != m ==> !BillsMemory(items[k])
    ensures Costs(Sum(WithMemory(s, gb), items), Sum(s, items).value + gb as real * u)
  {
    var front, last := items[..|items| - 1], items[|items| - 1];
    if m == |items| - 1 {
      SameSum(s, front, gb);
      MoreMemoryItem(s, last, u, gb);
    } else {
      MoreMemorySum(s, front, m, u, gb);
      assert Charge(WithMemory(s, gb), last) == Charge(s, last);
    }
  }

  lemma MoreMemoryItem(s: Billed, item: Item, u: real, gb: int)
    requires BillsMemory(item) && UnitIs(item, u)
    ensures Charge(s, item).Some? && Costs(Charge(WithMemory(s, gb), item), Charge(s, item).value + gb as real * u)
  {
    ChargeBy(s, item, s.calMemInGBs as real, u);
    ChargeBy(WithMemory(s, gb), item, (s.calMemInGBs + gb) as real, u);
    Distribute(s.calMemInGBs, gb, u);
  }

  // A shape whose memory is billed by one item among others costs exactly that
  // item's unit price more for each gigabyte more.
  lemma MoreMemoryCosts(s: Billed, catalog: seq<Item>, m: nat, u: real, gb: int)
    requires var items := PriceItems(catalog, s.name);
             && |items| >= 2 && NoneEnds(items) && m < |items| && BillsMemory(items[m]) && UnitIs(items[m], u)
             && (forall k :: 0 <= k < |items| && k != m ==> !BillsMemory(items[k]))
    requires PriceOf(s, Some(catalog)).Some?
    ensures Costs(PriceOf(WithMemory(s, gb), Some(catalog)), PriceOf(s, Some(catalog)).value + gb as real * u)
  {
    var items := PriceItems(catalog, s.name);
    NotCut(items);
    MoreMemorySum(s, items, m, u, gb);
  }

  // ---- which items -------------------------------------------------------------------------------

  // The items of a shape are, of its category, those that name its key as a
  // word; without any, those of the related categories that hold the key.
  lemma ItemsOfShape(items: seq<Item>, shape: string, p: ParsedShape, item: Item)
    requires ParseShape(shape) == Some(p)
    ensures var named := exists i :: i in items && Primary(p)(i);
            item in PriceItems(items, shape) <==>
              && item in items
              && (if named then item.serviceCategory == p.category && ContainsWord(item.displayName, p.key)
                  else item.serviceCategory in p.fallbacks && Contains(item.displayName, p.key))
  {
    var wanted := Primary(p);
    KeepMember(items, wanted, item);
    KeepMember(items, Fallback(p), item);
    if i :| i in items && wanted(i) {
      KeepMember(items, wanted, i);
    } else if Keep(items, wanted) != [] {
      KeepMember(items, wanted, Keep(items, wanted)[0]);
    }
  }

  // ---- what a shape's name is looked up by ------------------------------------------------------

  ghost predicate Dotless(parts: seq<string>) { forall part :: part in parts ==> '.' !in part }

  lemma ParsedByParts(parts: seq<string>)
    requires |parts| >= 1 && Dotless(parts)
    ensures ParseShape(Join(parts, '.')) == ParseParts(parts)
  {
    SplitJoin(parts, '.');
  }

  // A string without one of its characters does not contain sub.
  lemma NotContained(s: string, sub: string, k: nat)
    requires k < |sub| && sub[k] !in s
    ensures !Contains(s, sub)
  {
    if Contains(s, sub) { ContainedChar(s, sub, k); }
  }

  lemma ContainedChar(s: string, sub: string, k: nat)
    requires k < |sub| && Contains(s, sub)
    ensures sub[k] in s
  {
    var i :| 0 <= i <= |s| - |sub| && OccursAt(s, sub, i);
    assert s[i..i + |sub|][k] == s[i + k];
  }

  function CategoryOf(kind: string): string {
    if kind == "BM" then "Compute - Bare Metal" else "Compute - Virtual Machine"
  }

  function RelatedTo(kind: string): seq<string> {
    if kind == "BM" then ["Compute - Virtual Machine", "Compute - VMware"] else ["Compute - VMware"]
  }

  // The series picks the service type; a third part of four is added to it.
  function KeyOf(parts: seq<string>, serviceType: string): string {
    if |parts| > 3 && parts[2] != "" then serviceType + " - " + parts[2] else serviceType
  }

  lemma ParsedOther(parts: seq<string>, serviceType: string)
    requires |parts| >= 2 && Dotless(parts) && !Contains(parts[1], "GPU")
    requires SpecialType(ServiceType(CategoryOf(parts[0]), parts[1])) == serviceType
    ensures ParseShape(Join(parts, '.'))
            == Some(ParsedShape(CategoryOf(parts[0]), RelatedTo(parts[0]), KeyOf(parts, serviceType)))
  {
    ParsedByParts(parts);
  }

  lemma ParsedGpu(parts: seq<string>, serviceType: string)
    requires |parts| >= 2 && Dotless(parts) && Contains(parts[1], "GPU")
    requires SpecialType(ServiceType("Compute - GPU", parts[1])) == serviceType
    ensures ParseShape(Join(parts, '.')) == Some(ParsedShape("Compute - GPU", [], KeyOf(parts, serviceType)))
  {
    ParsedByParts(parts);
  }

  lemma {:induction false} AllLeading(digits: string)
    requires AllDigits(digits)
    ensures LeadingDigits(digits) == digits
  {
    if digits != "" { AllLeading(digits[1..]); }
  }

  lemma StandardSeries(category: string, series: string, digits: string)
    requires category != "Compute - GPU" && AllDigits(digits) && series == "Standard" + digits
    ensures ServiceType(category, series) == series && !Contains(series, "GPU")
  {
    assert forall k :: 0 <= k < |digits| ==> IsDigit(digits[k]);
    NotContained(series, "GPU", 0);
    NotContained(series, "DenseIO", 0);
    AllLeading(digits);
    assert series[|"Standard"|..] == digits && "Standard" <= series;
  }

  lemma StandardNames(digits: string)
    requires AllDigits(digits)
    ensures SpecialType("Standard" + digits) == if digits == "1" then "Standard - X5" else "Standard" + digits
  {
    var series := "Standard" + digits;
    assert series[|"Standard"|..] == digits && series[0] == 'S';
    assert "Standard1"[|"Standard"|..] == "1" && "Standard" + "1" == "Standard1";
  }

  // "VM.Standard.E4.Flex" is looked up as "Standard - E4".
  lemma StandardShape(kind: string, arch: string, scale: string)
    requires Dotless([kind, arch, scale]) && arch != ""
    ensures ParseShape(Join([kind, "Standard", arch, scale], '.'))
            == Some(ParsedShape(CategoryOf(kind), RelatedTo(kind), "Standard" + " - " + arch))
  {
    assert "Standard" + "" == "Standard";
    StandardSeries(CategoryOf(kind), "Standard", "");
    StandardNames("");
    ParsedOther([kind, "Standard", arch, scale], "Standard");
  }

  // "VM.Standard3.Flex" is looked up as "Standard3", and generation 1 as
  // "Standard - X5".
  lemma NumberedShape(kind: string, digits: string, scale: string)
    requires Dotless([kind, scale]) && AllDigits(digits)
    ensures ParseShape(Join([kind, "Standard" + digits, scale], '.'))
            == Some(ParsedShape(CategoryOf(kind), RelatedTo(kind),
                                if digits == "1" then "Standard - X5" else "Standard" + digits))
  {
    var series := "Standard" + digits;
    assert forall k :: 0 <= k < |digits| ==> IsDigit(digits[k]);
    StandardSeries(CategoryOf(kind), series, digits);
    StandardNames(digits);
    ParsedOther([kind, series, scale], SpecialType(series));
  }

  lemma GpuSeries()
    ensures Contains("GPU", "GPU") && ServiceType("Compute - GPU", "GPU") == "GPU" && SpecialType("GPU") == "GPU"
  {
    assert OccursAt("GPU", "GPU", 0);
  }

  // "BM.GPU.A10.4" is looked up as "GPU - A10" among the GPU items alone, and
  // generations 2 and 3 under their own name.
  lemma GpuShape(kind: string, arch: string, scale: string)
    requires Dotless([kind, arch, scale]) && arch != ""
    ensures ParseShape(Join([kind, "GPU", arch, scale], '.'))
            == Some(ParsedShape("Compute - GPU", [], "GPU" + " - " + arch))
  {
    GpuSeries();
    ParsedGpu([kind, "GPU", arch, scale], "GPU");
  }

  lemma NumberedGpuSeries(series: string)
    requires series == "GPU2" || series == "GPU3"
    ensures Contains(series, "GPU") && SpecialType(ServiceType("Compute - GPU", series)) == "GPU Standard - X7"
  {
    assert OccursAt(series, "GPU", 0);
    assert ContainsNumbered(series, "GPU");
  }

  lemma NumberedGpuShape(kind: string, series: string, scale: string)
    requires Dotless([kind, scale]) && (series == "GPU2" || series == "GPU3")
    ensures ParseShape(Join([kind, series, scale], '.'))
            == Some(ParsedShape("Compute - GPU", [], "GPU Standard - X7"))
  {
    NumberedGpuSeries(series);
    ParsedGpu([kind, series, scale], "GPU Standard - X7");
  }

  lemma DenseSeries(category: string)
    requires category != "Compute - GPU"
    ensures !Contains("DenseIO", "GPU") && ServiceType(category, "DenseIO") == "Dense I/O"
    ensures SpecialType("Dense I/O") == "Dense I/O"
  {
    NotContained("DenseIO", "GPU", 0);
    assert OccursAt("DenseIO", "DenseIO", 0);
  }

  // "BM.DenseIO.E5.128" is looked up as "Dense I/O - E5".
  lemma DenseShape(kind: string, arch: string, scale: string)
    requires Dotless([kind, arch, scale]) && arch != ""
    ensures ParseShape(Join([kind, "DenseIO", arch, scale], '.'))
            == Some(ParsedShape(CategoryOf(kind), RelatedTo(kind), "Dense I/O" + " - " + arch))
  {
    DenseSeries(CategoryOf(kind));
    ParsedOther([kind, "DenseIO", arch, scale], "Dense I/O");
  }

  lemma HpcSeries(category: string, series: string)
    requires category != "Compute - GPU" && (series == "HPC2" || series == "Optimized3")
    ensures !Contains(series, "GPU") && SpecialType(ServiceType(category, series)) == "Standard - HPC - X7"
  {
    NotContained(series, "GPU", 0);
    NotContained(series, "DenseIO", 0);
  }

  // "BM.HPC2.36" and "VM.Optimized3.Flex" are looked up as "Standard - HPC - X7".
  lemma HpcShape(kind: string, series: string, scale: string)
    requires Dotless([kind, scale]) && (series == "HPC2" || series == "Optimized3")
    ensures ParseShape(Join([kind, series, scale], '.'))
            == Some(ParsedShape(CategoryOf(kind), RelatedTo(kind), "Standard - HPC - X7"))
  {
    HpcSeries(CategoryOf(kind), series);
    ParsedOther([kind, series, scale], "Standard - HPC - X7");
  }

  lemma UnparsedShape(shape: string)
    requires '.' !in shape
    ensures ParseShape(shape).None?
  {
    SplitWhole(shape, '.');
  }

  // ---- one shape, priced ----------------------------------------------------------------------------

  const E4_OCPU := Item("Compute - Standard - E4 - OCPU", "OCPU Per Hour", "Compute - Virtual Machine",
                        [Localization("USD", 0.025)])
  const E4_MEMORY := Item("Compute - Standard - E4  - Memory", "Gigabyte Per Hour", "Compute - Virtual Machine",
                          [Localization("USD", 0.0015)])

  lemma TwoKept(a: Item, b: Item, wanted: Item -> bool)
    requires wanted(a) && wanted(b)
    ensures Keep([a, b], wanted) == [a, b]
  {
    var items := [a, b];
    assert items[..1] == [a] && [a][..0] == [];
    assert Keep([a], wanted) == [a];
  }

  lemma TwoFound(a: Item, b: Item, shape: string, p: ParsedShape)
    requires ParseShape(shape) == Some(p) && a.serviceCategory == b.serviceCategory == p.category
    requires ContainsWord(a.displayName, p.key) && ContainsWord(b.displayName, p.key)
    ensures PriceItems([a, b], shape) == [a, b]
  {
    TwoKept(a, b, Primary(p));
  }

  lemma WordIn(before: string, word: string, after: string)
    requires before != "" && word != "" && after != ""
    requires IsWordChar(word[0]) && IsWordChar(word[|word| - 1])
    requires !IsWordChar(before[|before| - 1]) && !IsWordChar(after[0])
    ensures ContainsWord(before + word + after, word)
  {
    var s := before + word + after;
    assert OccursAt(s, word, |before|) && WordBoundary(s, |before|) && WordBoundary(s, |before| + |word|);
  }

  // The two display names, cut around what is looked for in them.
  lemma OcpuName()
    ensures "Compute - " + "Standard - E4" + " - OCPU" == "Compute - Standard - E4 - OCPU"
    ensures "Compute - Standard - E4 - " + "OCPU" + "" == "Compute - Standard - E4 - OCPU"
  {
  }

  lemma MemoryName()
    ensures "Compute - " + "Standard - E4" + "  - Memory" == "Compute - Standard - E4  - Memory"
    ensures "Compute - Standard - E4  - " + "Memory" + "" == "Compute - Standard - E4  - Memory"
  {
  }

  // A name that goes on after the key is another name.
  lemma LongerNameDiffers(word: string, c: char)
    requires word != "" && IsWordChar(word[0]) && IsWordChar(word[|word| - 1]) && IsWordChar(c)
    ensures !ContainsWord(word + [c], word)
  {
    var s := word + [c];
    forall i: nat | i <= |s| - |word|
      ensures !(OccursAt(s, word, i) && WordBoundary(s, i) && WordBoundary(s, i + |word|))
    {
      if i == 0 {
        assert !WordBoundary(s, |word|);
      } else {
        assert OccursAt(s, word, 1) ==> s[1] == word[0] by {
          if OccursAt(s, word, 1) { assert s[1..1 + |word|][0] == s[1]; }
        }
      }
    }
  }

  lemma E4OcpuWord()
    ensures ContainsWord(E4_OCPU.displayName, "Standard - E4")
  {
    WordIn("Compute - ", "Standard - E4", " - OCPU");
    OcpuName();
  }

  lemma E4MemoryWord()
    ensures ContainsWord(E4_MEMORY.displayName, "Standard - E4")
  {
    WordIn("Compute - ", "Standard - E4", "  - Memory");
    MemoryName();
  }

  lemma E4Parsed() returns (p: ParsedShape)
    ensures ParseShape("VM.Standard.E4.Flex") == Some(p)
    ensures p.category == "Compute - Virtual Machine" && p.key == "Standard - E4"
  {
    StandardShape("VM", "E4", "Flex");
    E4Name();
    E4Key();
    p := ParsedShape(CategoryOf("VM"), RelatedTo("VM"), "Standard" + " - " + "E4");
  }

  lemma E4Key()
    ensures "Standard" + " - " + "E4" == "Standard - E4" && CategoryOf("VM") == "Compute - Virtual Machine"
  {
  }

  lemma E4Items()
    ensures PriceItems([E4_OCPU, E4_MEMORY], "VM.Standard.E4.Flex") == [E4_OCPU, E4_MEMORY]
  {
    var p := E4Parsed();
    E4OcpuWord();
    E4MemoryWord();
    TwoFound(E4_OCPU, E4_MEMORY, "VM.Standard.E4.Flex", p);
  }

  lemma E4Name()
    ensures Join(["VM", "Standard", "E4", "Flex"], '.') == "VM.Standard.E4.Flex"
  {
    assert Join(["E4", "Flex"], '.') == "E4.Flex";
    assert Join(["Standard", "E4", "Flex"], '.') == "Standard.E4.Flex";
  }

  lemma E4Names()
    ensures Names(E4_OCPU, "OCPU") && Names(E4_MEMORY, "Memory")
  {
    ContainsIntro("Compute - Standard - E4 - ", "OCPU", "");
    ContainsIntro("Compute - Standard - E4  - ", "Memory", "");
    OcpuName();
    MemoryName();
  }

  lemma E4MemoryOnly()
    ensures !Names(E4_MEMORY, "OCPU")
  {
    NoLetter();
    MemoryName();
    NotContained(E4_MEMORY.displayName, "OCPU", 3);
  }

  lemma NoLetter()
    ensures 'U' !in "Compute - " && 'U' !in "Standard - E4" && 'U' !in "  - Memory"
  {
  }

  lemma E4IsNotA1()
    ensures !Contains(ToLower("VM.Standard.E4.Flex"), "a1.flex")
  {
    NotContained(ToLower("VM.Standard.E4.Flex"), "a1.flex", 1);
  }

  // VM.Standard.E4.Flex is billed 0.025 for two vCPUs and 0.0015 for a gigabyte:
  // four vCPUs and 32 GB cost 0.098.
  lemma E4FlexPrice(s: Billed)
    requires s.name == "VM.Standard.E4.Flex" && s.calcCpu >= 0
    ensures Costs(PriceOf(s, Some([E4_OCPU, E4_MEMORY])),
                  (s.calcCpu / 2) as real * 0.025 + s.calMemInGBs as real * 0.0015)
    ensures s.calcCpu == 4 && s.calMemInGBs == 32 ==> Costs(PriceOf(s, Some([E4_OCPU, E4_MEMORY])), 0.098)
  {
    OcpusAre(s);
    E4IsNotA1();
    E4Items();
    E4Names();
    E4MemoryOnly();
    FlexShapePrice(s, [E4_OCPU, E4_MEMORY], E4_OCPU, E4_MEMORY, 0.025, 0.0015);
  }
}
