// pkg/providers/instance/instance.go and pkg/cloudprovider/cloudprovider.go: what
// of a chosen size and zone reaches the launch request, and comes back on the
// NodeClaim.
module LaunchRequest {
  import opened Text
  import opened Catalogue
  import ZoneMerge

  // ---- sizes travel as decimal labels ------------------------------------------------

  datatype SizeLabels = SizeLabels(instanceCpu: string, instanceMemory: string, isFlexible: string)

  // computeRequirements: memory is labelled in Mi.
  function Labels(s: Size): SizeLabels {
    SizeLabels(Itoa(s.calcCpu), Itoa(s.calMemInGBs * 1024), if s.shape.isFlexible then "true" else "false")
  }

  // getIntValFromRequirements drops the parse error.
  function IntLabel(text: string): int {
    match Atoi(text)
    case Some(n) => n
    case None => 0
  }

  // Go's integer division.
  function Quotient(a: int, b: int): int
    requires b > 0
  {
    if a >= 0 then a / b else -(-a / b)
  }

  datatype ShapeConfig = ShapeConfig(ocpus: real, memoryInGBs: int)

  // The shape configuration of the request, for flexible shapes only.
  function ShapeConfigFor(name: string, labels: SizeLabels): Option<ShapeConfig> {
    if labels.isFlexible != "true" then None
    else
      var vcpu := IntLabel(labels.instanceCpu) as real;
      Some(ShapeConfig(if IsA1Flex(name) then vcpu else vcpu / 2.0, Quotient(IntLabel(labels.instanceMemory), 1024)))
  }

  // pricing.Calculate bills this many OCPUs.
  function BilledOcpus(name: string, calcCpu: int): int { Quotient(calcCpu, RatioFactor(name)) }

  predicate IsInt64(n: int) { MIN_INT64 <= n <= MAX_INT64 }

  lemma IntLabelRead(n: int)
    requires IsInt64(n)
    ensures IntLabel(Itoa(n)) == n
  {
    AtoiItoa(n);
  }

  // vCPUs, and memory in Mi, as decimal numbers.
  lemma LabelsRead(s: Size)
    requires IsInt64(s.calcCpu) && IsInt64(s.calMemInGBs * 1024)
    ensures Atoi(Labels(s).instanceCpu) == Some(s.calcCpu)
    ensures Atoi(Labels(s).instanceMemory) == Some(s.calMemInGBs * 1024)
    ensures Labels(s).isFlexible == "true" <==> s.shape.isFlexible
  {
    AtoiItoa(s.calcCpu);
    AtoiItoa(s.calMemInGBs * 1024);
  }

  // Only a flexible shape gets a configuration: so many OCPUs, halved unless the
  // shape is an A1, and whole GBs.
  lemma ShapeConfigRead(name: string, vcpus: int, mi: nat)
    requires IsInt64(vcpus) && IsInt64(mi)
    ensures ShapeConfigFor(name, SizeLabels(Itoa(vcpus), Itoa(mi), "false")).None?
    ensures ShapeConfigFor(name, SizeLabels(Itoa(vcpus), Itoa(mi), "true"))
            == Some(ShapeConfig(if Contains(ToLower(name), "a1.flex") then vcpus as real else vcpus as real / 2.0,
                                mi / 1024))
  {
    IntLabelRead(vcpus);
    IntLabelRead(mi);
  }

  lemma QuotientExact(n: int)
    ensures Quotient(n, 1) == n && Quotient(n * 2, 2) == n && Quotient(n * 1024, 1024) == n
  {
  }

  // The two kinds of shapes, apart.
  lemma OcpusOf(name: string, calcCpu: int, ocpus: int)
    requires calcCpu == ocpus * RatioFactor(name)
    ensures if IsA1Flex(name) then calcCpu == ocpus
            else calcCpu == ocpus * 2 && calcCpu as real / 2.0 == ocpus as real
    ensures BilledOcpus(name, calcCpu) == ocpus
  {
    QuotientExact(ocpus);
  }

  lemma ShapeConfigIs(name: string, labels: SizeLabels, ocpus: int, memInGBs: int)
    requires labels.isFlexible == "true" && IntLabel(labels.instanceCpu) == ocpus * RatioFactor(name)
    requires IntLabel(labels.instanceMemory) == memInGBs * 1024
    ensures ShapeConfigFor(name, labels) == Some(ShapeConfig(ocpus as real, memInGBs))
  {
    OcpusOf(name, ocpus * RatioFactor(name), ocpus);
    QuotientExact(memInGBs);
  }

  // A flexible size of so many OCPUs is launched and billed with them.
  lemma OcpusSurvive(s: Size, ocpus: int)
    requires s.shape.isFlexible && s.calcCpu == ocpus * RatioFactor(s.shape.name)
    requires IsInt64(s.calcCpu) && IsInt64(s.calMemInGBs * 1024)
    ensures ShapeConfigFor(s.shape.name, Labels(s)) == Some(ShapeConfig(ocpus as real, s.calMemInGBs))
    ensures BilledOcpus(s.shape.name, s.calcCpu) == ocpus
  {
    OcpusOf(s.shape.name, s.calcCpu, ocpus);
    IntLabelRead(s.calcCpu);
    IntLabelRead(s.calMemInGBs * 1024);
    ShapeConfigIs(s.shape.name, Labels(s), ocpus, s.calMemInGBs);
  }

  // A size made from a list entry is launched, and billed, with exactly the
  // OCPUs of that entry and the memory its ratio calls for, on A1 shapes and
  // on others.
  lemma FlexSizeSurvivesLaunch(cfg: Config, shape: Shape, i: nat, j: nat)
    requires shape.isFlexible && Emits(cfg, shape, i, j)
    requires IsInt64(SizeAt(cfg, shape, (i, j)).calcCpu) && IsInt64(SizeAt(cfg, shape, (i, j)).calMemInGBs * 1024)
    ensures var s, cpus := SizeAt(cfg, shape, (i, j)), Atoi(cfg.Cpus()[i]).value;
            && ShapeConfigFor(shape.name, Labels(s)) == Some(ShapeConfig(cpus as real, s.calMemInGBs))
            && s.calMemInGBs == cpus * RatioFactor(shape.name) * Atoi(cfg.Ratios()[j]).value
            && BilledOcpus(s.shape.name, s.calcCpu) == cpus
  {
    SizeAtIs(cfg, shape, i, j);
    OcpusSurvive(SizeAt(cfg, shape, (i, j)), Atoi(cfg.Cpus()[i]).value);
  }

  // ---- zones travel as substrings of domain names ----------------------------------------

  // Create looks the zone up among the configured domains by substring.
  function FindDomain(domains: seq<string>, zone: string): Option<string> {
    if domains == [] then None
    else if Contains(domains[0], zone) then Some(domains[0])
    else FindDomain(domains[1..], zone)
  }

  // instanceToNodeClaim strips the prefix of the instance's domain again.
  function ZoneLabel(domain: string): string {
    var parts := Split(domain, ':');
    if |parts| == 2 then parts[1] else parts[0]
  }

  // "prefix:ZONE", with one colon.
  predicate IsDomain(domain: string) { |Split(domain, ':')| == 2 }

  ghost predicate FirstWith(domains: seq<string>, zone: string, k: nat) {
    k < |domains| && Contains(domains[k], zone) && forall j :: 0 <= j < k ==> !Contains(domains[j], zone)
  }

  lemma {:induction false} FindIsFirst(domains: seq<string>, zone: string, i: nat) returns (k: nat)
    requires i < |domains| && Contains(domains[i], zone)
    ensures FirstWith(domains, zone, k) && k <= i && FindDomain(domains, zone) == Some(domains[k])
  {
    if Contains(domains[0], zone) {
      k := 0;
    } else {
      k := FindIsFirst(domains[1..], zone, i - 1);
      k := k + 1;
    }
  }

  lemma {:induction false} SplitTwo(s: string, sep: char)
    ensures Join(Split(s, sep), sep) == s
  {
    if s != "" {
      SplitTwo(s[1..], sep);
      var rest := Split(s[1..], sep);
      assert s == [s[0]] + s[1..];
      if s[0] == sep {
        assert Split(s, sep)[1..] == rest;
      } else {
        assert Split(s, sep)[1..] == rest[1..];
      }
    }
  }

  lemma ContainsOwnZone(domain: string)
    requires IsDomain(domain)
    ensures Contains(domain, ZoneLabel(domain))
  {
    var parts := Split(domain, ':');
    SplitTwo(domain, ':');
    assert parts[1..] == [parts[1]];
    assert domain == parts[0] + [':'] + parts[1] + "";
    ContainsIntro(parts[0] + [':'], parts[1], "");
  }

  // The zone of domain i comes back on the node.
  ghost predicate RoundTrips(domains: seq<string>, i: nat)
    requires i < |domains|
  {
    var found := FindDomain(domains, ZoneLabel(domains[i]));
    found.Some? && ZoneLabel(found.value) == ZoneLabel(domains[i])
  }

  // Domain j mentions the zone of a later domain i before that zone is listed.
  ghost predicate Shadows(domains: seq<string>, j: nat, i: nat)
    requires j < i < |domains|
  {
    && Contains(domains[j], ZoneLabel(domains[i]))
    && forall k :: 0 <= k <= j ==> ZoneLabel(domains[k]) != ZoneLabel(domains[i])
  }

  ghost predicate Shadowed(domains: seq<string>, i: nat)
    requires i < |domains|
  {
    exists j :: 0 <= j < i && Shadows(domains, j, i)
  }

  // Every configured zone survives the trip exactly when no domain name
  // mentions a zone that is listed only after it.
  lemma ZonesRoundTrip(domains: seq<string>)
    requires forall i :: 0 <= i < |domains| ==> IsDomain(domains[i])
    ensures (forall i :: 0 <= i < |domains| ==> RoundTrips(domains, i))
            <==> (forall i :: 0 <= i < |domains| ==> !Shadowed(domains, i))
  {
    forall i | 0 <= i < |domains|
      ensures RoundTrips(domains, i) <==> !Shadowed(domains, i)
    {
      ZoneRoundTrip(domains, i);
    }
  }

  lemma ZoneRoundTrip(domains: seq<string>, i: nat)
    requires i < |domains| && forall k :: 0 <= k < |domains| ==> IsDomain(domains[k])
    ensures RoundTrips(domains, i) <==> !Shadowed(domains, i)
  {
    var zone := ZoneLabel(domains[i]);
    ContainsOwnZone(domains[i]);
    var k := FindIsFirst(domains, zone, i);
    forall m | 0 <= m < |domains| && ZoneLabel(domains[m]) == zone ensures k <= m {
      ContainsOwnZone(domains[m]);
    }
    if ZoneLabel(domains[k]) != zone {
      assert Shadows(domains, k, i);
    } else {
      forall j | 0 <= j < i ensures !Shadows(domains, j, i) {
        assert Contains(domains[j], zone) ==> k <= j;
      }
    }
  }

  // The zone a domain's shapes are filed under is the one its nodes are labelled
  // with.
  lemma FiledAsLabelled(prefix: string, zone: string)
    requires ':' !in prefix && ':' !in zone
    ensures var domain := prefix + ":" + zone;
            IsDomain(domain) && ZoneMerge.Zone(domain) == zone == ZoneLabel(domain)
  {
    ZoneMerge.ZoneOf(prefix, zone);
  }

  // A filed zone leads back to its own domain exactly when no domain before it
  // mentions that zone.
  lemma FiledZoneFound(domains: seq<string>, prefixes: seq<string>, zones: seq<string>, i: nat)
    requires ZoneMerge.Named(domains, prefixes, zones) && i < |domains|
    requires forall j, k :: 0 <= j < k < |domains| ==> domains[j] != domains[k]
    ensures ZoneMerge.WellFormedDomain(domains[i]) && ZoneMerge.Zone(domains[i]) == zones[i]
    ensures FindDomain(domains, zones[i]) == Some(domains[i]) <==>
            forall j :: 0 <= j < i ==> !Contains(domains[j], zones[i])
  {
    FiledAsLabelled(prefixes[i], zones[i]);
    ContainsOwnZone(domains[i]);
    var k := FindIsFirst(domains, zones[i], i);
  }

  // A zone that is a prefix of another loses its nodes to it: instances meant
  // for AD-1 are launched in AD-10 when that is configured first.
  lemma ZonePrefixLost()
    ensures var domains := ["x:AD-10", "x:AD-1"];
            ZoneLabel(domains[1]) == "AD-1" && FindDomain(domains, "AD-1") == Some("x:AD-10")
  {
    SplitFirst("x", "AD-1", ':');
    SplitWhole("AD-1", ':');
    assert "x:AD-1" == "x" + [':'] + "AD-1";
    assert OccursAt("x:AD-10", "AD-1", 2);
  }

  // ---- the type reported back ------------------------------------------------------------

  // CloudProvider.Create describes the new NodeClaim with the first listed
  // type that has the launched shape's name.
  function ReportedType(types: seq<Size>, name: string): Option<Size> {
    if types == [] then None
    else if types[0].shape.name == name then Some(types[0])
    else ReportedType(types[1..], name)
  }

  lemma {:induction false} ReportedIsFirst(types: seq<Size>, k: nat) returns (f: nat)
    requires k < |types|
    ensures f <= k && types[f].shape.name == types[k].shape.name
            && ReportedType(types, types[k].shape.name) == Some(types[f])
    ensures forall m :: 0 <= m < f ==> types[m].shape.name != types[k].shape.name
  {
    if types[0].shape.name == types[k].shape.name {
      f := 0;
    } else {
      f := ReportedIsFirst(types[1..], k - 1);
      f := f + 1;
    }
  }

  // The NodeClaim describes the size that was launched exactly when no other
  // size of the same shape comes before it in the (map-ordered) type list.
  lemma ReportedMatchesLaunched(types: seq<Size>, k: nat)
    requires k < |types|
    requires forall a, b :: 0 <= a < b < |types| ==> types[a] != types[b]
    ensures ReportedType(types, types[k].shape.name) == Some(types[k])
            <==> forall m :: 0 <= m < k ==> types[m].shape.name != types[k].shape.name
  {
    var f := ReportedIsFirst(types, k);
    assert f < k ==> types[f] != types[k];
  }
}
