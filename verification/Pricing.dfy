// pkg/providers/pricing: which items of the price list a shape is billed by, and
// what they add up to. float32 is modelled by exact reals; None stands for the
// infinities and NaN.
module Pricing {
  import opened Text
  import opened Sequences
  import opened Catalogue
  import LaunchRequest

  const OCPU_PER_HOUR := "OCPU Per Hour"
  const GPU_PER_HOUR := "GPU Per Hour"
  const GIGABYTE_PER_HOUR := "Gigabyte Per Hour"
  const NODE_PER_HOUR := "Node Per Hour"
  const NVME_TERABYTE_PER_HOUR := "NVMe Terabyte Per Hour"

  const MAX_FLOAT32: real := 340282346638528859811704183484516925440.0

  datatype Localization = Localization(code: string, price: real)

  datatype Item = Item(displayName: string, metricName: string, serviceCategory: string, prices: seq<Localization>)
  {
    predicate Is(what: string) { Contains(displayName, what) }

    // GetPrice(USD)
    function Usd(): real { FirstUsd(prices) }
  }

  function FirstUsd(prices: seq<Localization>): real {
    if prices == [] then 0.0 else if prices[0].code == "USD" then prices[0].price else FirstUsd(prices[1..])
  }

  // What is billed of a shape, or of one size of a flexible shape.
  datatype Billed = Billed(name: string, calcCpu: int, calMemInGBs: int, gpus: int, localDisksInGBs: real)
  {
    function Ocpus(): int { LaunchRequest.BilledOcpus(name, calcCpu) }
  }

  // ---- core counts in display names ------------------------------------------------------

  const DASH := " - "

  // strings.Split with the separator " - "
  function SplitDash(s: string): (parts: seq<string>)
    ensures |parts| >= 1
    decreases |s|
  {
    if s == "" then [""]
    else if DASH <= s then [""] + SplitDash(s[3..])
    else
      var rest := SplitDash(s[1..]);
      [[s[0]] + rest[0]] + rest[1..]
  }

  function ParseCoreNum(displayName: string): int { SecondToLast(SplitDash(displayName), NumberOf()) }

  function SecondToLast(parts: seq<string>, number: string -> int): int {
    if |parts| < 2 then 1 else number(parts[|parts| - 2])
  }

  function NumberOf(): string -> int { (part: string) => NumberAtEnd(part) }

  // The number behind the last dot, or 1.
  function NumberAtEnd(part: string): int {
    var subParts := Split(part, '.');
    match Atoi(subParts[|subParts| - 1])
    case Some(n) => n
    case None => 1
  }

  // No separator starts in the part, even with another separator behind it.
  predicate Clean(part: string) { !Contains(part + " -", DASH) }

  function JoinDash(parts: seq<string>): string
    requires |parts| >= 1
  {
    if |parts| == 1 then parts[0] else parts[0] + DASH + JoinDash(parts[1..])
  }

  lemma CleanTail(part: string)
    requires Clean(part) && part != ""
    ensures Clean(part[1..])
  {
    if Contains(part[1..] + " -", DASH) {
      var i :| 0 <= i <= |part[1..] + " -"| - 3 && OccursAt(part[1..] + " -", DASH, i);
      assert (part + " -")[i + 1..i + 4] == (part[1..] + " -")[i..i + 3];
      assert OccursAt(part + " -", DASH, i + 1);
    }
  }

  lemma DirtyHead(part: string, rest: string)
    requires part != "" && (rest == "" || DASH <= rest) && DASH <= part + rest
    ensures !Clean(part)
  {
    assert (part + " -")[0..3] == (part + rest)[0..3];
    assert OccursAt(part + " -", DASH, 0);
  }

  lemma SplitDashStep(c: char, tail: string)
    requires !(DASH <= [c] + tail)
    ensures SplitDash([c] + tail) == [[c] + SplitDash(tail)[0]] + SplitDash(tail)[1..]
  {
    assert ([c] + tail)[1..] == tail;
  }

  lemma SplitDashAt(rest: string)
    requires DASH <= rest
    ensures SplitDash(rest) == [""] + SplitDash(rest[3..])
  {
  }

  lemma {:induction false} SplitDashPart(part: string, rest: string)
    requires Clean(part)
    requires rest == "" || DASH <= rest
    ensures SplitDash(part + rest) == if rest == "" then [part] else [part] + SplitDash(rest[3..])
    decreases |part|
  {
    if part == "" {
      assert part + rest == rest;
      if rest != "" { SplitDashAt(rest); }
    } else {
      CleanTail(part);
      if DASH <= part + rest { DirtyHead(part, rest); }
      assert part + rest == [part[0]] + (part[1..] + rest);
      SplitDashStep(part[0], part[1..] + rest);
      SplitDashPart(part[1..], rest);
      assert part == [part[0]] + part[1..];
    }
  }

  lemma {:induction false} SplitJoinDash(parts: seq<string>)
    requires |parts| >= 1 && forall p :: p in parts ==> Clean(p)
    ensures SplitDash(JoinDash(parts)) == parts
  {
    if |parts| == 1 {
      assert parts[0] + "" == parts[0];
      SplitDashPart(parts[0], "");
    } else {
      SplitJoinDash(parts[1..]);
      SplitDashFirst(parts[0], JoinDash(parts[1..]));
    }
  }

  lemma SplitDashFirst(part: string, more: string)
    requires Clean(part)
    ensures SplitDash(part + DASH + more) == [part] + SplitDash(more)
  {
    var rest := DASH + more;
    assert part + DASH + more == part + rest && rest[3..] == more;
    SplitDashPart(part, rest);
  }

  // "... - BM.Standard.E4.128 - ..." is read as 128 cores.
  lemma CoreNumRead(parts: seq<string>, family: seq<string>, n: int)
    requires |parts| >= 2 && forall p :: p in parts ==> Clean(p)
    requires parts[|parts| - 2] == Join(family + [Itoa(n)], '.') && forall f :: f in family ==> '.' !in f
    requires MIN_INT64 <= n <= MAX_INT64
    ensures ParseCoreNum(JoinDash(parts)) == n
  {
    SplitJoinDash(parts);
    NumberRead(parts[|parts| - 2], family, n);
  }

  lemma NumberRead(part: string, family: seq<string>, n: int)
    requires MIN_INT64 <= n <= MAX_INT64 && forall f :: f in family ==> '.' !in f
    requires part == Join(family + [Itoa(n)], '.')
    ensures NumberOf()(part) == n
  {
    NoDot(n);
    SplitJoin(family + [Itoa(n)], '.');
    AtoiItoa(n);
  }

  lemma NoDot(n: int)
    ensures '.' !in Itoa(n)
  {
    var digits := Digits(if n < 0 then -n else n);
    assert AllDigits(digits);
  }

  // ---- finding the items of a shape ----------------------------------------------------------

  predicate IsWordChar(c: char) { IsDigit(c) || 'a' <= c <= 'z' || 'A' <= c <= 'Z' || c == '_' }

  // The regexp's \b: exactly one side of the position is a word character.
  predicate WordBoundary(s: string, i: nat)
    requires i <= |s|
  {
    (i > 0 && IsWordChar(s[i - 1])) != (i < |s| && IsWordChar(s[i]))
  }

  predicate ContainsWord(s: string, word: string) {
    exists i :: 0 <= i <= |s| - |word| && OccursAt(s, word, i) && WordBoundary(s, i) && WordBoundary(s, i + |word|)
  }

  // What is looked for in the display names, and in which categories.
  datatype ParsedShape = ParsedShape(category: string, fallbacks: seq<string>, key: string)

  // name followed by a digit, anywhere
  predicate ContainsNumbered(s: string, name: string) {
    exists i :: 0 <= i < |s| - |name| && OccursAt(s, name, i) && IsDigit(s[i + |name|])
  }

  function LeadingDigits(s: string): string {
    if s == "" || !IsDigit(s[0]) then "" else [s[0]] + LeadingDigits(s[1..])
  }

  const GPU := "Compute - GPU"
  const BARE_METAL := "Compute - Bare Metal"
  const VIRTUAL_MACHINE := "Compute - Virtual Machine"
  const VMWARE := "Compute - VMware"

  function ServiceType(category: string, series: string): string {
    if category == GPU then if ContainsNumbered(series, "GPU") then series else "GPU"
    else if Contains(series, "DenseIO") then if ContainsNumbered(series, "DenseIO") then series else "Dense I/O"
    else if "Standard" <= series then "Standard" + LeadingDigits(series[|"Standard"|..])
    else if "HPC" <= series then "HPC"
    else series
  }

  function SpecialType(serviceType: string): string {
    if serviceType == "GPU2" || serviceType == "GPU3" then "GPU Standard - X7"
    else if serviceType == "Standard1" then "Standard - X5"
    else if serviceType == "Optimized3" || serviceType == "HPC" then "Standard - HPC - X7"
    else serviceType
  }

  function ParseShape(shape: string): Option<ParsedShape> { ParseParts(Split(shape, '.')) }

  function ParseParts(parts: seq<string>): Option<ParsedShape> {
    if |parts| < 2 then None
    else
      var category := if Contains(parts[1], "GPU") then GPU else if parts[0] == "BM" then BARE_METAL
        else VIRTUAL_MACHINE;
      var fallbacks := if category == GPU then [] else if category == BARE_METAL then [VIRTUAL_MACHINE, VMWARE]
        else [VMWARE];
      var serviceType := SpecialType(ServiceType(category, parts[1]));
      var key := if |parts| > 3 && parts[2] != "" then serviceType + " - " + parts[2] else serviceType;
      Some(ParsedShape(category, fallbacks, key))
  }

  function Keep(items: seq<Item>, wanted: Item -> bool): seq<Item> {
    if items == [] then []
    else
      var front, last := Keep(items[..|items| - 1], wanted), items[|items| - 1];
      if wanted(last) then front + [last] else front
  }

  // Items of the shape's own category that name it as a word; failing that,
  // items of related categories that merely contain its name.
  function Primary(p: ParsedShape): Item -> bool {
    (item: Item) => item.serviceCategory == p.category && ContainsWord(item.displayName, p.key)
  }

  function Fallback(p: ParsedShape): Item -> bool {
    (item: Item) => item.serviceCategory in p.fallbacks && item.Is(p.key)
  }

  function PriceItems(items: seq<Item>, shape: string): seq<Item> {
    match ParseShape(shape)
    case None => []
    case Some(p) => if Keep(items, Primary(p)) != [] then Keep(items, Primary(p)) else Keep(items, Fallback(p))
  }

  function InCategory(categories: seq<string>): Item -> bool {
    (item: Item) => item.serviceCategory in categories
  }

  function Named(key: string, asWord: bool): Item -> bool {
    (item: Item) => if asWord then ContainsWord(item.displayName, key) else item.Is(key)
  }

  function Repeat(item: Item, n: nat): seq<Item> { seq(n, _ => item) }

  // Each item as often as its category is named.
  function Copies(items: seq<Item>, categories: seq<string>): seq<Item> {
    if items == [] then []
    else
      var last := items[|items| - 1];
      Copies(items[..|items| - 1], categories) + Repeat(last, multiset(categories)[last.serviceCategory])
  }

  method FindCandidate(items: seq<Item>, categories: seq<string>) returns (candidates: seq<Item>)
    ensures candidates == Copies(items, categories)
  {
    candidates := [];
    for i := 0 to |items|
      invariant candidates == Copies(items[..i], categories)
    {
      ghost var before := candidates;
      for j := 0 to |categories|
        invariant candidates == before + Repeat(items[i], multiset(categories[..j])[items[i].serviceCategory])
      {
        assert categories[..j + 1] == categories[..j] + [categories[j]];
        if items[i].serviceCategory == categories[j] {
          candidates := candidates + [items[i]];
        }
      }
      assert items[..i + 1][..i] == items[..i] && categories[..|categories|] == categories;
    }
    assert items[..|items|] == items;
  }

  // For different categories that is once for every item in one of them.
  lemma {:induction false} CopiesOnce(items: seq<Item>, categories: seq<string>)
    requires NoRepeats(categories)
    ensures Copies(items, categories) == Keep(items, InCategory(categories))
  {
    if items != [] {
      var last := items[|items| - 1];
      CopiesOnce(items[..|items| - 1], categories);
      OncePerElement(categories, last.serviceCategory);
    }
  }

  method Matching(candidates: seq<Item>, key: string, asWord: bool) returns (matching: seq<Item>)
    ensures matching == Keep(candidates, Named(key, asWord))
  {
    ghost var wanted := Named(key, asWord);
    matching := [];
    for i := 0 to |candidates|
      invariant matching == Keep(candidates[..i], wanted)
    {
      if Contains(candidates[i].displayName, key) {
        if !asWord || ContainsWord(candidates[i].displayName, key) {
          matching := matching + [candidates[i]];
        }
      }
      assert candidates[..i + 1][..i] == candidates[..i];
    }
    assert candidates[..|candidates|] == candidates;
  }

  lemma {:induction false} KeepTwice(items: seq<Item>, p: Item -> bool, q: Item -> bool, both: Item -> bool)
    requires forall item :: both(item) <==> p(item) && q(item)
    ensures Keep(Keep(items, p), q) == Keep(items, both)
  {
    if items != [] {
      var front, last := items[..|items| - 1], items[|items| - 1];
      KeepTwice(front, p, q, both);
      if p(last) {
        assert (Keep(front, p) + [last])[..|Keep(front, p)|] == Keep(front, p);
      }
    }
  }

  method FindPriceItems(items: seq<Item>, shape: string) returns (found: seq<Item>)
    ensures found == PriceItems(items, shape)
  {
    var parsed := ParseShape(shape);
    if parsed.None? {
      return [];
    }
    var p := parsed.value;
    var candidates := FindCandidate(items, [p.category]);
    found := Matching(candidates, p.key, true);
    CopiesOnce(items, [p.category]);
    KeepTwice(items, InCategory([p.category]), Named(p.key, true), Primary(p));
    if found == [] {
      candidates := FindCandidate(items, p.fallbacks);
      found := Matching(candidates, p.key, false);
      CopiesOnce(items, p.fallbacks);
      KeepTwice(items, InCategory(p.fallbacks), Named(p.key, false), Fallback(p));
    }
  }

  // ---- what the items add up to ---------------------------------------------------------------

  function Times(quantity: real, unit: Option<real>): Option<real> {
    match unit
    case Some(price) => Some(quantity * price)
    case None => None
  }

  function Plus(a: Option<real>, b: Option<real>): Option<real> {
    if a.Some? && b.Some? then Some(a.value + b.value) else None
  }

  predicate UnitIsFinite(item: Item) { item.metricName == NODE_PER_HOUR ==> ParseCoreNum(item.displayName) != 0 }

  // A price per node is divided by the node's cores.
  function PricePerUnit(item: Item): Option<real> {
    if item.metricName != NODE_PER_HOUR then Some(item.Usd())
    else
      var cores := ParseCoreNum(item.displayName);
      if cores == 0 then None else Some(item.Usd() / (cores as real))
  }

  predicate IsCommitted(item: Item) {
    item.Is("1 Month Commit") || item.Is("1 Year Commit") || item.Is("3 Year Commit")
  }

  predicate IsComponent(item: Item) { item.Is("OCPU") || item.Is("Memory") || item.Is("NVMe") }

  // Terms of commitment are not billed, unless they name a component.
  predicate IsSkipped(item: Item) { !IsComponent(item) && IsCommitted(item) }

  // An hourly commitment is billed, and ends the list.
  predicate IsLast(item: Item) { !IsComponent(item) && !IsCommitted(item) && item.Is("Hourly Commit") }

  // One of several items is multiplied by what its display name speaks of.
  function ComponentQuantity(s: Billed, item: Item): real {
    if item.Is("OCPU") then s.Ocpus() as real
    else if item.Is("Memory") then s.calMemInGBs as real
    else if item.Is("NVMe") then s.localDisksInGBs / 1024.0
    else s.Ocpus() as real
  }

  // A sole item is multiplied by what its metric speaks of.
  function SoleQuantity(s: Billed, item: Item): Option<real> {
    if item.metricName == GPU_PER_HOUR then Some(s.gpus as real)
    else if item.metricName == OCPU_PER_HOUR then Some(s.Ocpus() as real)
    else if item.metricName == GIGABYTE_PER_HOUR then Some(s.calMemInGBs as real)
    else if item.metricName == NODE_PER_HOUR then Some(if item.Is("GPU") then s.gpus as real else s.Ocpus() as real)
    else if item.metricName == NVME_TERABYTE_PER_HOUR then Some(s.localDisksInGBs)
    else None
  }

  function Charge(s: Billed, item: Item): Option<real> {
    if IsSkipped(item) then Some(0.0) else Times(ComponentQuantity(s, item), PricePerUnit(item))
  }

  function Sum(s: Billed, items: seq<Item>): Option<real> {
    if items == [] then Some(0.0) else Plus(Sum(s, items[..|items| - 1]), Charge(s, items[|items| - 1]))
  }

  // The elements up to and including the first that stops the list.
  function UpTo<T>(items: seq<T>, stops: T -> bool): (prefix: seq<T>)
    ensures prefix <= items
    ensures prefix == items || (prefix != [] && stops(prefix[|prefix| - 1]))
    ensures forall k :: 0 <= k < |prefix| - 1 ==> !stops(prefix[k])
  {
    if items == [] then []
    else if stops(items[0]) then [items[0]]
    else [items[0]] + UpTo(items[1..], stops)
  }

  function Last(): Item -> bool { (item: Item) => IsLast(item) }

  function UpToLast(items: seq<Item>): seq<Item> { UpTo(items, Last()) }

  function SolePrice(s: Billed, item: Item): Option<real> {
    if item.Is("Free") then Some(0.0)
    else match SoleQuantity(s, item)
      case Some(quantity) => Times(quantity, PricePerUnit(item))
      case None => Some(0.0)
  }

  function PriceFor(s: Billed, items: seq<Item>): Option<real> {
    if |items| == 0 then Some(MAX_FLOAT32)
    else if |items| == 1 then SolePrice(s, items[0])
    else Sum(s, UpToLast(items))
  }

  function PriceOf(s: Billed, catalog: Option<seq<Item>>): Option<real> {
    match catalog
    case None => Some((8 * s.Ocpus() + s.calMemInGBs) as real)
    case Some(items) => PriceFor(s, PriceItems(items, s.name))
  }

  lemma {:induction false} UpToIs<T>(items: seq<T>, stops: T -> bool, n: nat)
    requires n <= |items| && forall k :: 0 <= k < n - 1 ==> !stops(items[k])
    requires n == |items| || (n > 0 && stops(items[n - 1]))
    ensures UpTo(items, stops) == items[..n]
  {
    if items != [] && !stops(items[0]) && n > 0 {
      UpToIs(items[1..], stops, n - 1);
      assert items[..n] == [items[0]] + items[1..][..n - 1];
    }
  }

  method Calculate(s: Billed, catalog: Option<seq<Item>>) returns (price: Option<real>)
    ensures price == PriceOf(s, catalog)
  {
    if catalog.None? {
      return Some((8 * s.Ocpus() + s.calMemInGBs) as real);
    }
    var items := FindPriceItems(catalog.value, s.name);
    if |items| == 0 {
      return Some(MAX_FLOAT32);
    }
    if |items| == 1 {
      return SolePrice(s, items[0]);
    }
    price := AddUp(s, items);
  }

  method AddUp(s: Billed, items: seq<Item>) returns (price: Option<real>)
    ensures price == Sum(s, UpToLast(items))
  {
    price := Some(0.0);
    for i := 0 to |items|
      invariant price == Sum(s, items[..i])
      invariant forall k :: 0 <= k < i ==> !Last()(items[k])
    {
      assert items[..i + 1][..i] == items[..i];
      var last;
      price, last := AddItem(s, items[i], price);
      if last {
        UpToIs(items, Last(), i + 1);
        return;
      }
    }
    UpToIs(items, Last(), |items|);
    assert items[..|items|] == items;
  }

  // The loop body: last stands for its break statement.
  method AddItem(s: Billed, item: Item, was: Option<real>) returns (price: Option<real>, last: bool)
    ensures price == Plus(was, Charge(s, item)) && (last <==> Last()(item))
  {
    price, last := was, false;
    var unit := PricePerUnit(item);
    if item.Is("OCPU") {
      price := Plus(price, Times(s.Ocpus() as real, unit));
    } else if item.Is("Memory") {
      price := Plus(price, Times(s.calMemInGBs as real, unit));
    } else if item.Is("NVMe") {
      price := Plus(price, Times(s.localDisksInGBs / 1024.0, unit));
    } else if item.Is("1 Month Commit") {
      return;
    } else if item.Is("1 Year Commit") {
      return;
    } else if item.Is("3 Year Commit") {
      return;
    } else if item.Is("Hourly Commit") {
      price := Plus(price, Times(s.Ocpus() as real, unit));
      last := true;
    } else {
      price := Plus(price, Times(s.Ocpus() as real, unit));
    }
  }

  // An NVMe item on its own is charged per GB of local disks what it would be
  // charged per TB among others, so the two agree exactly when they are zero.
  lemma NvmeThousandfold(s: Billed, item: Item)
    requires item.metricName == NVME_TERABYTE_PER_HOUR && item.Is("NVMe")
    requires !item.Is("OCPU") && !item.Is("Memory") && !item.Is("Free")
    ensures SolePrice(s, item).value == 1024.0 * Charge(s, item).value
    ensures SolePrice(s, item) == Charge(s, item) <==> s.localDisksInGBs * item.Usd() == 0.0
  {
    assert ComponentQuantity(s, item) == s.localDisksInGBs / 1024.0;
    assert SoleQuantity(s, item) == Some(s.localDisksInGBs);
    assert 1024.0 * ((s.localDisksInGBs / 1024.0) * item.Usd()) == s.localDisksInGBs * item.Usd();
  }

  // ---- finite, non-negative, monotone ------------------------------------------------------------

  function NotSkipped(): Item -> bool { (item: Item) => !IsSkipped(item) }

  // The items that are billed for the shape.
  function BilledItems(items: seq<Item>): seq<Item> {
    if |items| == 1 then if items[0].Is("Free") then [] else items else Keep(UpToLast(items), NotSkipped())
  }

  predicate UnitsFinite(items: seq<Item>) { forall item :: item in items ==> UnitIsFinite(item) }

  lemma {:induction false} SumFinite(s: Billed, items: seq<Item>)
    ensures Sum(s, items).Some? <==> UnitsFinite(Keep(items, NotSkipped()))
  {
    if items != [] {
      var front, last := Keep(items[..|items| - 1], NotSkipped()), items[|items| - 1];
      SumFinite(s, items[..|items| - 1]);
      assert UnitsFinite(front + [last]) <==> UnitsFinite(front) && UnitIsFinite(last);
      assert Charge(s, last).Some? <==> IsSkipped(last) || UnitIsFinite(last);
    }
  }

  // The price is a number unless some billed node has zero cores in its name.
  lemma PriceFinite(s: Billed, items: seq<Item>)
    ensures PriceFor(s, items).Some? <==> UnitsFinite(BilledItems(items))
  {
    if |items| == 1 {
      assert UnitsFinite(items) <==> UnitIsFinite(items[0]);
    } else {
      SumFinite(s, UpToLast(items));
    }
  }

  predicate Fair(item: Item) {
    (forall k :: 0 <= k < |item.prices| ==> item.prices[k].price >= 0.0)
      && (item.metricName == NODE_PER_HOUR ==> ParseCoreNum(item.displayName) > 0)
  }

  predicate FairItems(items: seq<Item>) { forall item :: item in items ==> Fair(item) }

  predicate Sane(s: Billed) { s.calcCpu >= 0 && s.calMemInGBs >= 0 && s.gpus >= 0 && s.localDisksInGBs >= 0.0 }

  // t is the same shape with at least as much CPU and memory.
  predicate Dominates(t: Billed, s: Billed) {
    t == s.(calcCpu := t.calcCpu, calMemInGBs := t.calMemInGBs) && t.calcCpu >= s.calcCpu
      && t.calMemInGBs >= s.calMemInGBs
  }

  predicate AtMost(a: Option<real>, b: Option<real>) { a.Some? && b.Some? && 0.0 <= a.value <= b.value }

  lemma {:induction false} UsdNonNegative(prices: seq<Localization>)
    requires forall k :: 0 <= k < |prices| ==> prices[k].price >= 0.0
    ensures FirstUsd(prices) >= 0.0
  {
    if prices != [] { UsdNonNegative(prices[1..]); }
  }

  lemma TimesAtMost(x: real, y: real, unit: Option<real>)
    requires 0.0 <= x <= y && unit.Some? && unit.value >= 0.0
    ensures AtMost(Times(x, unit), Times(y, unit))
  {
    assert (y - x) * unit.value >= 0.0;
  }

  lemma UnitNonNegative(item: Item)
    requires Fair(item)
    ensures PricePerUnit(item).Some? && PricePerUnit(item).value >= 0.0
  {
    UsdNonNegative(item.prices);
  }

  lemma QuantitiesMonotone(s: Billed, t: Billed, item: Item)
    requires Sane(s) && Dominates(t, s)
    ensures 0.0 <= ComponentQuantity(s, item) <= ComponentQuantity(t, item)
    ensures SoleQuantity(s, item).Some? <==> SoleQuantity(t, item).Some?
    ensures SoleQuantity(s, item).Some? ==> 0.0 <= SoleQuantity(s, item).value <= SoleQuantity(t, item).value
  {
  }

  lemma {:induction false} SumMonotone(s: Billed, t: Billed, items: seq<Item>)
    requires Sane(s) && Dominates(t, s) && FairItems(items)
    ensures AtMost(Sum(s, items), Sum(t, items))
  {
    if items != [] {
      var last := items[|items| - 1];
      SumMonotone(s, t, items[..|items| - 1]);
      UnitNonNegative(last);
      QuantitiesMonotone(s, t, last);
      TimesAtMost(ComponentQuantity(s, last), ComponentQuantity(t, last), PricePerUnit(last));
    }
  }

  lemma {:induction false} KeepMember(items: seq<Item>, wanted: Item -> bool, item: Item)
    ensures item in Keep(items, wanted) <==> item in items && wanted(item)
  {
    if items != [] {
      KeepMember(items[..|items| - 1], wanted, item);
      assert items == items[..|items| - 1] + [items[|items| - 1]];
    }
  }

  lemma FoundAreListed(items: seq<Item>, shape: string, item: Item)
    requires item in PriceItems(items, shape)
    ensures item in items
  {
    match ParseShape(shape)
    case Some(p) =>
      KeepMember(items, Primary(p), item);
      KeepMember(items, Fallback(p), item);
    case None =>
  }

  // With non-negative prices and positive core counts, and also without a price
  // list, no size is billed below zero or below a size it dominates.
  lemma PriceMonotone(s: Billed, t: Billed, catalog: Option<seq<Item>>)
    requires Sane(s) && Dominates(t, s) && (catalog.Some? ==> FairItems(catalog.value))
    ensures AtMost(PriceOf(s, catalog), PriceOf(t, catalog))
  {
    if catalog.Some? {
      var items := PriceItems(catalog.value, s.name);
      forall item | item in items ensures Fair(item) {
        FoundAreListed(catalog.value, s.name, item);
      }
      if |items| == 1 {
        UnitNonNegative(items[0]);
        QuantitiesMonotone(s, t, items[0]);
        if SoleQuantity(s, items[0]).Some? {
          TimesAtMost(SoleQuantity(s, items[0]).value, SoleQuantity(t, items[0]).value, PricePerUnit(items[0]));
        }
      } else if |items| > 1 {
        SumMonotone(s, t, UpToLast(items));
      }
    }
  }

  function Bill(s: Size, gpus: int, localDisksInGBs: real): Billed {
    Billed(s.shape.name, s.calcCpu, s.calMemInGBs, gpus, localDisksInGBs)
  }

  // A size from a list entry is billed with the OCPUs it is launched with.
  lemma BilledAsLaunched(cfg: Config, shape: Shape, i: nat, j: nat, gpus: int, disks: real)
    requires shape.isFlexible && Emits(cfg, shape, i, j)
    requires LaunchRequest.IsInt64(SizeAt(cfg, shape, (i, j)).calcCpu)
    requires LaunchRequest.IsInt64(SizeAt(cfg, shape, (i, j)).calMemInGBs * 1024)
    ensures var s := SizeAt(cfg, shape, (i, j));
            LaunchRequest.ShapeConfigFor(shape.name, LaunchRequest.Labels(s))
            == Some(LaunchRequest.ShapeConfig(Bill(s, gpus, disks).Ocpus() as real, s.calMemInGBs))
  {
    SizeAtIs(cfg, shape, i, j);
    LaunchRequest.FlexSizeSurvivesLaunch(cfg, shape, i, j);
  }

  lemma ProductMonotone(a: int, b: int, k: int, x: int, y: int)
    requires 0 <= a <= b && k >= 0 && 0 <= x <= y
    ensures 0 <= a * k <= b * k && 0 <= a * k * x <= b * k * y
  {
    assert 0 <= (b - a) * k;
    assert 0 <= (a * k) * x <= (a * k) * y;
    assert 0 <= (b * k - a * k) * y;
  }

  // A flexible size with at least as many CPUs at at least the same ratio never
  // costs less, whatever the price list.
  lemma LargerFlexSizeCostsMore(cfg: Config, shape: Shape, i: nat, j: nat, k: nat, l: nat, gpus: nat, disks: real,
                                catalog: Option<seq<Item>>)
    requires Emits(cfg, shape, i, j) && Emits(cfg, shape, k, l) && disks >= 0.0
    requires 0 <= Atoi(cfg.Cpus()[i]).value <= Atoi(cfg.Cpus()[k]).value
    requires 0 <= Atoi(cfg.Ratios()[j]).value <= Atoi(cfg.Ratios()[l]).value
    requires catalog.Some? ==> FairItems(catalog.value)
    ensures AtMost(PriceOf(Bill(SizeAt(cfg, shape, (i, j)), gpus, disks), catalog),
            PriceOf(Bill(SizeAt(cfg, shape, (k, l)), gpus, disks), catalog))
  {
    ProductMonotone(Atoi(cfg.Cpus()[i]).value, Atoi(cfg.Cpus()[k]).value, RatioFactor(shape.name),
                    Atoi(cfg.Ratios()[j]).value, Atoi(cfg.Ratios()[l]).value);
    PriceMonotone(Bill(SizeAt(cfg, shape, (i, j)), gpus, disks), Bill(SizeAt(cfg, shape, (k, l)), gpus, disks),
      catalog);
  }
}
