// Offerings (instancetype.go), and the choice of type and zone and the launch
// (instance.go).
module Launch {
  import opened Text
  import opened IceCache
  import opened Scheduling

  const ON_DEMAND := "on-demand"
  const PREEMPTIBLE := "preemptible"

  // A catalogue entry: one size of a shape and the zones that list it.
  datatype Entry = Entry(
    name: string,
    zones: set<string>,
    labels: Requirements,
    allocatable: map<string, int>,
    price: real)

  datatype Options = Options(preemptibleShapes: string, preemptibleExcludeShapes: string)

  // strings.HasPrefix against a comma-separated list.
  predicate HasListedPrefix(list: string, name: string) {
    exists i :: 0 <= i < |Split(list, ',')| && Split(list, ',')[i] <= name
  }

  predicate SupportPreemptible(opts: Options, name: string) {
    HasListedPrefix(opts.preemptibleShapes, name) && !HasListedPrefix(opts.preemptibleExcludeShapes, name)
  }

  // A shape is offered as preemptible exactly when its name begins with a part
  // of the one list and with no part of the other.
  lemma SupportedIf(opts: Options, name: string)
    ensures SupportPreemptible(opts, name) <==>
            BeginsWithOne(Split(opts.preemptibleShapes, ','), name)
            && !BeginsWithOne(Split(opts.preemptibleExcludeShapes, ','), name)
  {
    PrefixListed(opts.preemptibleShapes, name);
    PrefixListed(opts.preemptibleExcludeShapes, name);
  }

  predicate BeginsWithOne(parts: seq<string>, name: string) { exists i :: 0 <= i < |parts| && parts[i] <= name }

  lemma PrefixListed(list: string, name: string)
    ensures HasListedPrefix(list, name) <==> BeginsWithOne(Split(list, ','), name)
  {
    var parts := Split(list, ',');
    if HasListedPrefix(list, name) {
      var i :| 0 <= i < |Split(list, ',')| && Split(list, ',')[i] <= name;
      assert parts[i] <= name;
    }
    if BeginsWithOne(parts, name) {
      var i :| 0 <= i < |parts| && parts[i] <= name;
      assert Split(list, ',')[i] <= name;
    }
  }

  // A list covers every name exactly when one of its parts is empty; the empty
  // list has such a part, and so has a list with a comma too many.
  lemma CoversAllExactly(list: string)
    ensures (forall name :: HasListedPrefix(list, name)) <==> "" in Split(list, ',')
  {
    if "" in Split(list, ',') {
      var i :| 0 <= i < |Split(list, ',')| && Split(list, ',')[i] == "";
      assert forall name :: HasListedPrefix(list, name) by {
        forall name ensures HasListedPrefix(list, name) { assert Split(list, ',')[i] <= name; }
      }
    } else {
      assert !HasListedPrefix(list, "");
    }
  }

  ghost predicate DoubleComma(list: string) {
    exists i :: 0 <= i < |list| - 1 && list[i] == list[i + 1] == ','
  }

  ghost predicate CommaTooMany(list: string) {
    list == "" || list[0] == ',' || list[|list| - 1] == ',' || DoubleComma(list)
  }

  lemma DoubleCommaStep(list: string)
    requires list != ""
    ensures DoubleComma(list) <==> DoubleComma(list[1..]) || (|list| > 1 && list[0] == list[1] == ',')
  {
    if DoubleComma(list[1..]) {
      var i :| 0 <= i < |list[1..]| - 1 && list[1..][i] == list[1..][i + 1] == ',';
      assert list[i + 1] == list[i + 1 + 1] == ',';
    }
    if DoubleComma(list) {
      var i :| 0 <= i < |list| - 1 && list[i] == list[i + 1] == ',';
      assert i > 0 ==> list[1..][i - 1] == list[1..][i - 1 + 1] == ',';
    }
  }

  lemma {:induction false} EmptyLaterPart(list: string)
    ensures "" in Split(list, ',')[1..] <==> list != "" && (list[|list| - 1] == ',' || DoubleComma(list))
  {
    if list != "" {
      var rest := Split(list[1..], ',');
      EmptyLaterPart(list[1..]);
      DoubleCommaStep(list);
      assert rest == [rest[0]] + rest[1..];
      assert Split(list, ',')[1..] == if list[0] == ',' then rest else rest[1..];
    }
  }

  lemma EmptyPartExactly(list: string)
    ensures "" in Split(list, ',') <==> CommaTooMany(list)
  {
    var parts := Split(list, ',');
    EmptyLaterPart(list);
    assert parts == [parts[0]] + parts[1..];
  }

  // No shape at all is offered as preemptible exactly when every included prefix
  // begins with an excluded one, as any does with an empty part of the list.
  lemma NothingPreemptibleExactly(opts: Options)
    ensures (forall name :: !SupportPreemptible(opts, name))
            <==> forall p :: p in Split(opts.preemptibleShapes, ',') ==>
                 HasListedPrefix(opts.preemptibleExcludeShapes, p)
  {
    var included, excluded := opts.preemptibleShapes, opts.preemptibleExcludeShapes;
    if forall p :: p in Split(included, ',') ==> HasListedPrefix(excluded, p) {
      forall name ensures !SupportPreemptible(opts, name) {
        if HasListedPrefix(included, name) { PrefixExcluded(included, excluded, name); }
      }
    }
    forall p | p in Split(included, ',') ensures HasListedPrefix(included, p) {
      var i :| 0 <= i < |Split(included, ',')| && Split(included, ',')[i] == p;
    }
    assert forall p :: HasListedPrefix(included, p) && !HasListedPrefix(excluded, p) ==> SupportPreemptible(opts, p);
  }

  lemma PrefixExcluded(included: string, excluded: string, name: string)
    requires HasListedPrefix(included, name) && forall p :: p in Split(included, ',') ==> HasListedPrefix(excluded, p)
    ensures HasListedPrefix(excluded, name)
  {
    var i :| 0 <= i < |Split(included, ',')| && Split(included, ',')[i] <= name;
    var p := Split(included, ',')[i];
    assert HasListedPrefix(excluded, p);
    var j :| 0 <= j < |Split(excluded, ',')| && Split(excluded, ',')[j] <= p;
    assert Split(excluded, ',')[j] <= name;
  }

  // ---- offerings --------------------------------------------------------------------

  datatype Offer = Offer(capacityType: string, zone: string, price: real, available: bool)

  function Pool(name: string, zone: string): Offering { Offering(name, zone, ON_DEMAND) }

  ghost predicate IsBlocked(log: seq<Event>, name: string, zone: string, capacityType: string, now: int) {
    Blocked(log, Key(Offering(name, zone, capacityType)), now)
  }

  // The offer of one capacity type in one zone, given what the cache says.
  function OfferFor(opts: Options, e: Entry, zone: string, capacityType: string, blocked: bool): Offer {
    if capacityType == PREEMPTIBLE then
      if SupportPreemptible(opts, e.name) then Offer(capacityType, zone, e.price * 0.5, !blocked)
      else Offer(capacityType, zone, e.price, false)
    else Offer(capacityType, zone, e.price, !blocked)
  }

  ghost function OfferIn(opts: Options, e: Entry, log: seq<Event>, now: int, zone: string,
                         capacityType: string): Offer {
    OfferFor(opts, e, zone, capacityType, IsBlocked(log, e.name, zone, capacityType, now))
  }

  ghost function OffersOf(opts: Options, e: Entry, log: seq<Event>, now: int): (string, string) -> Offer {
    (zone, capacityType) => OfferIn(opts, e, log, now, zone, capacityType)
  }

  // One on-demand and one preemptible offer in each zone.
  ghost predicate ListsOffers(offers: seq<Offer>, zones: set<string>, offerIn: (string, string) -> Offer) {
    && |offers| == 2 * |zones|
    && (forall zone :: zone in zones ==> offerIn(zone, ON_DEMAND) in offers && offerIn(zone, PREEMPTIBLE) in offers)
    && (forall o :: o in offers ==>
       exists zone :: zone in zones && (o == offerIn(zone, ON_DEMAND) || o == offerIn(zone, PREEMPTIBLE)))
  }

  ghost predicate IsOfferList(offers: seq<Offer>, opts: Options, e: Entry, zones: set<string>, log: seq<Event>,
                              now: int) {
    ListsOffers(offers, zones, OffersOf(opts, e, log, now))
  }

  lemma ListMoreOffers(offers: seq<Offer>, zones: set<string>, offerIn: (string, string) -> Offer, zone: string)
    requires ListsOffers(offers, zones, offerIn) && zone !in zones
    ensures ListsOffers(offers + [offerIn(zone, ON_DEMAND), offerIn(zone, PREEMPTIBLE)], zones + {zone}, offerIn)
  {
  }

  lemma OffersOfAt(opts: Options, e: Entry, log: seq<Event>, now: int, zone: string, capacityType: string,
                   blocked: bool)
    requires blocked <==> IsBlocked(log, e.name, zone, capacityType, now)
    ensures OffersOf(opts, e, log, now)(zone, capacityType) == OfferFor(opts, e, zone, capacityType, blocked)
  {
  }

  // An offer is for a zone of the entry, at the entry's price, or at half of it
  // for a preemptible instance of a supported shape; it can be had unless the
  // cache or missing support speaks against it.
  lemma OfferIs(opts: Options, e: Entry, log: seq<Event>, now: int, offers: seq<Offer>, o: Offer)
    requires IsOfferList(offers, opts, e, e.zones, log, now) && o in offers
    ensures o.zone in e.zones && o.capacityType in {"on-demand", "preemptible"}
    ensures o.price == if o.capacityType == "preemptible" && SupportPreemptible(opts, e.name) then e.price / 2.0
                       else e.price
    ensures o.available <==> && !Blocked(log, Key(Offering(e.name, o.zone, o.capacityType)), now)
                             && (o.capacityType == "preemptible" ==> SupportPreemptible(opts, e.name))
  {
    var offerIn := OffersOf(opts, e, log, now);
    var y :| y in e.zones && (o == offerIn(y, ON_DEMAND) || o == offerIn(y, PREEMPTIBLE));
    assert offerIn(y, ON_DEMAND) == OfferIn(opts, e, log, now, y, ON_DEMAND);
    assert offerIn(y, PREEMPTIBLE) == OfferIn(opts, e, log, now, y, PREEMPTIBLE);
  }

  // Go walks the zone set in any order.
  method CreateOfferings(opts: Options, e: Entry, uo: UnavailableOfferings, now: int) returns (offers: seq<Offer>)
    requires uo.Valid() && NotAfter(uo.log, now)
    ensures IsOfferList(offers, opts, e, e.zones, uo.log, now)
  {
    offers := CreateOffers(opts, e, uo, now, OffersOf(opts, e, uo.log, now));
  }

  method CreateOffers(opts: Options, e: Entry, uo: UnavailableOfferings, now: int,
                      ghost offerIn: (string, string) -> Offer)
    returns (offers: seq<Offer>)
    requires uo.Valid() && NotAfter(uo.log, now)
    requires offerIn == OffersOf(opts, e, uo.log, now)
    ensures ListsOffers(offers, e.zones, offerIn)
  {
    offers := [];
    var todo := e.zones;
    while todo != {}
      invariant todo <= e.zones
      invariant ListsOffers(offers, e.zones - todo, offerIn)
      decreases todo
    {
      var zone :| zone in todo;
      ListMoreOffers(offers, e.zones - todo, offerIn, zone);
      assert e.zones - (todo - {zone}) == (e.zones - todo) + {zone};
      var more := CreateZoneOffers(opts, e, uo, now, zone, offerIn);
      offers := offers + more;
      todo := todo - {zone};
    }
    assert e.zones - {} == e.zones;
  }

  // The inner loop over the capacity types.
  method CreateZoneOffers(opts: Options, e: Entry, uo: UnavailableOfferings, now: int, zone: string,
                          ghost offerIn: (string, string) -> Offer)
    returns (offers: seq<Offer>)
    requires uo.Valid() && NotAfter(uo.log, now)
    requires offerIn == OffersOf(opts, e, uo.log, now)
    ensures offers == [offerIn(zone, ON_DEMAND), offerIn(zone, PREEMPTIBLE)]
  {
    var onDemand := CreateOffer(opts, e, uo, now, zone, ON_DEMAND, offerIn);
    var preemptible := CreateOffer(opts, e, uo, now, zone, PREEMPTIBLE, offerIn);
    offers := [onDemand, preemptible];
  }

  method CreateOffer(opts: Options, e: Entry, uo: UnavailableOfferings, now: int, zone: string, capacityType: string,
                     ghost offerIn: (string, string) -> Offer)
    returns (offer: Offer)
    requires uo.Valid() && NotAfter(uo.log, now)
    requires offerIn == OffersOf(opts, e, uo.log, now)
    ensures offer == offerIn(zone, capacityType)
  {
    var isUnavailable := uo.IsUnavailable(e.name, zone, capacityType, now);
    OffersOfAt(opts, e, uo.log, now, zone, capacityType, isUnavailable);
    var price := e.price;
    if capacityType == PREEMPTIBLE {
      if SupportPreemptible(opts, e.name) {
        price := price * 0.5;
      } else {
        isUnavailable := true;
      }
    }
    offer := Offer(capacityType, zone, price, !isUnavailable);
  }

  // ---- the choice of type and zone ------------------------------------------------------

  datatype Claim = Claim(
    zones: Requirement,
    capacityTypes: Requirement,
    labels: Requirements,
    requests: map<string, int>)

  datatype InstanceType = InstanceType(entry: Entry, offers: seq<Offer>)

  predicate Satisfies(claim: Claim, o: Offer) {
    o.available && claim.capacityTypes.Has(o.capacityType) && claim.zones.Has(o.zone)
  }

  // Nothing fits where some resource is negative.
  predicate Fits(requests: map<string, int>, allocatable: map<string, int>) {
    && (forall r :: r in allocatable ==> allocatable[r] >= 0)
    && (forall r :: r in requests ==> requests[r] <= if r in allocatable then allocatable[r] else 0)
  }

  // Does the type suit the claim, whatever is available?
  predicate Suits(claim: Claim, e: Entry, wellKnown: set<string>) {
    Compatible(claim.labels, e.labels, wellKnown) && Fits(claim.requests, e.allocatable)
  }

  predicate Resolves(claim: Claim, t: InstanceType, wellKnown: set<string>) {
    Suits(claim, t.entry, wellKnown) && exists o :: o in t.offers && Satisfies(claim, o)
  }

  function ResolveInstanceTypes(claim: Claim, types: seq<InstanceType>, wellKnown: set<string>): seq<InstanceType> {
    if types == [] then []
    else
      var rest := ResolveInstanceTypes(claim, types[1..], wellKnown);
      if Resolves(claim, types[0], wellKnown) then [types[0]] + rest else rest
  }

  lemma {:induction false} ResolvedMembers(claim: Claim, types: seq<InstanceType>, wellKnown: set<string>,
                                           t: InstanceType)
    ensures t in ResolveInstanceTypes(claim, types, wellKnown) <==>
            && t in types && Compatible(claim.labels, t.entry.labels, wellKnown)
            && (forall r :: r in t.entry.allocatable ==> t.entry.allocatable[r] >= 0)
            && (forall r :: r in claim.requests ==>
                  claim.requests[r] <= if r in t.entry.allocatable then t.entry.allocatable[r] else 0)
            && (exists o :: o in t.offers && o.available && claim.capacityTypes.Has(o.capacityType)
                            && claim.zones.Has(o.zone))
  {
    if types != [] {
      ResolvedMembers(claim, types[1..], wellKnown, t);
    }
    assert (exists o :: o in t.offers && o.available && claim.capacityTypes.Has(o.capacityType)
                        && claim.zones.Has(o.zone)) <==> exists o :: o in t.offers && Satisfies(claim, o);
  }

  // t has an offer that suits the claim and costs no more than any that does.
  ghost predicate Cheapest(claim: Claim, types: seq<InstanceType>, t: InstanceType) {
    && t in types
    && exists o :: o in t.offers && Satisfies(claim, o)
         && forall u, p :: u in types && p in u.offers && Satisfies(claim, p) ==> o.price <= p.price
  }

  // The zones the launch is drawn from look at availability and zone only.
  predicate PriorityZone(claim: Claim, t: InstanceType, zone: string) {
    exists o :: o in t.offers && o.available && o.zone == zone && claim.zones.Has(zone)
  }

  // What pickBestInstanceType may return for a non-empty list, over all
  // shuffles and all orders of equally cheap types.
  ghost predicate Picks(claim: Claim, types: seq<InstanceType>, t: InstanceType, zone: string) {
    Cheapest(claim, types, t) && PriorityZone(claim, t, zone)
  }

  // An on-demand claim can be sent back into a pool that is marked as out of
  // capacity exactly when the shape is offered as preemptible and its
  // preemptible offer in that zone is not marked: the zone choice does not
  // look at the capacity type.
  lemma MarkedPoolPicked(opts: Options, claim: Claim, t: InstanceType, log: seq<Event>, now: int, zone: string)
    requires IsOfferList(t.offers, opts, t.entry, t.entry.zones, log, now)
    ensures IsBlocked(log, t.entry.name, zone, ON_DEMAND, now) ==>
              (PriorityZone(claim, t, zone)
               <==> && zone in t.entry.zones && claim.zones.Has(zone)
                    && SupportPreemptible(opts, t.entry.name)
                    && !IsBlocked(log, t.entry.name, zone, PREEMPTIBLE, now))
  {
    var offerIn := OffersOf(opts, t.entry, log, now);
    assert zone in t.entry.zones ==> offerIn(zone, PREEMPTIBLE) in t.offers;
    assert offerIn(zone, ON_DEMAND) == OfferIn(opts, t.entry, log, now, zone, ON_DEMAND);
    assert offerIn(zone, PREEMPTIBLE) == OfferIn(opts, t.entry, log, now, zone, PREEMPTIBLE);
  }

  // A type that resolves always has a zone to launch in.
  lemma ResolvedHasZone(claim: Claim, t: InstanceType, wellKnown: set<string>)
    requires Resolves(claim, t, wellKnown)
    ensures exists zone :: PriorityZone(claim, t, zone)
  {
    var o :| o in t.offers && Satisfies(claim, o);
    assert PriorityZone(claim, t, o.zone);
  }

  // ---- the capacity type that is asked for ------------------------------------------------

  // The request is for a preemptible instance whenever the claim allows one.
  function RequestedType(claim: Claim): string {
    if claim.capacityTypes.Has(PREEMPTIBLE) then PREEMPTIBLE else ON_DEMAND
  }

  lemma RequestedIs(claim: Claim)
    ensures RequestedType(claim) == "preemptible" <==> claim.capacityTypes.Has("preemptible")
    ensures RequestedType(claim) == "on-demand" <==> !claim.capacityTypes.Has("preemptible")
  {
  }

  predicate OnOffer(t: InstanceType, zone: string, capacityType: string) {
    exists o :: o in t.offers && o.available && o.zone == zone && o.capacityType == capacityType
  }

  lemma OnOfferIs(opts: Options, t: InstanceType, log: seq<Event>, now: int, zone: string, capacityType: string)
    requires IsOfferList(t.offers, opts, t.entry, t.entry.zones, log, now) && capacityType in {ON_DEMAND, PREEMPTIBLE}
    ensures OnOffer(t, zone, capacityType)
            <==> zone in t.entry.zones && !IsBlocked(log, t.entry.name, zone, capacityType, now)
                 && (capacityType == PREEMPTIBLE ==> SupportPreemptible(opts, t.entry.name))
  {
    var offerIn := OffersOf(opts, t.entry, log, now);
    assert offerIn(zone, capacityType) == OfferIn(opts, t.entry, log, now, zone, capacityType);
    if zone in t.entry.zones { assert offerIn(zone, capacityType) in t.offers; }
    if o :| o in t.offers && o.available && o.zone == zone && o.capacityType == capacityType {
      var y :| y in t.entry.zones && (o == offerIn(y, ON_DEMAND) || o == offerIn(y, PREEMPTIBLE));
      assert offerIn(y, ON_DEMAND) == OfferIn(opts, t.entry, log, now, y, ON_DEMAND);
      assert offerIn(y, PREEMPTIBLE) == OfferIn(opts, t.entry, log, now, y, PREEMPTIBLE);
    }
  }

  // A shape that is not offered as preemptible is launched as what is on offer
  // in the chosen zone exactly when the claim does not allow preemptible
  // instances: a claim that leaves the choice open gets one nonetheless.
  lemma UnsupportedLaunchExactly(opts: Options, claim: Claim, t: InstanceType, log: seq<Event>, now: int, zone: string)
    requires IsOfferList(t.offers, opts, t.entry, t.entry.zones, log, now)
    requires !SupportPreemptible(opts, t.entry.name) && PriorityZone(claim, t, zone)
    ensures OnOffer(t, zone, RequestedType(claim)) <==> !claim.capacityTypes.Has(PREEMPTIBLE)
  {
    OnOfferIs(opts, t, log, now, zone, ON_DEMAND);
    OnOfferIs(opts, t, log, now, zone, PREEMPTIBLE);
    var o :| o in t.offers && o.available && o.zone == zone && claim.zones.Has(zone);
    var offerIn := OffersOf(opts, t.entry, log, now);
    var y :| y in t.entry.zones && (o == offerIn(y, ON_DEMAND) || o == offerIn(y, PREEMPTIBLE));
    assert o.capacityType == ON_DEMAND || o.capacityType == PREEMPTIBLE;
    assert OnOffer(t, zone, o.capacityType);
  }

  // The offers of a shape in one zone, with an empty cache and empty lists.
  lemma OffersUnsupported(e: Entry, zone: string, now: int)
    ensures IsOfferList([Offer(ON_DEMAND, zone, e.price, true), Offer(PREEMPTIBLE, zone, e.price, false)],
                        Options("", ""), e, {zone}, [], now)
    ensures !SupportPreemptible(Options("", ""), e.name)
  {
    var offerIn := OffersOf(Options("", ""), e, [], now);
    assert "" in Split("", ',');
    CoversAllExactly("");
    OffersOfAt(Options("", ""), e, [], now, zone, ON_DEMAND, false);
    OffersOfAt(Options("", ""), e, [], now, zone, PREEMPTIBLE, false);
    ListMoreOffers([], {}, offerIn, zone);
    assert [] + [offerIn(zone, ON_DEMAND), offerIn(zone, PREEMPTIBLE)]
      == [offerIn(zone, ON_DEMAND), offerIn(zone, PREEMPTIBLE)];
    assert {} + {zone} == {zone};
  }

  // For instance, a claim that asks for nothing, options with two empty
  // lists, one zone, and an empty cache.
  lemma UnsupportedLaunched(name: string, zone: string, now: int)
    ensures var opts, e := Options("", ""), Entry(name, {zone}, map[], map[], 1.0);
            var claim := Claim(Anything, Anything, map[], map[]);
            exists t: InstanceType :: t.entry == e && IsOfferList(t.offers, opts, e, {zone}, [], now)
                        && Picks(claim, [t], t, zone) && !OnOffer(t, zone, RequestedType(claim))
  {
    var opts, e := Options("", ""), Entry(name, {zone}, map[], map[], 1.0);
    var claim := Claim(Anything, Anything, map[], map[]);
    var t := InstanceType(e, [Offer(ON_DEMAND, zone, 1.0, true), Offer(PREEMPTIBLE, zone, 1.0, false)]);
    OffersUnsupported(e, zone, now);
    assert t.offers[0] in t.offers && Satisfies(claim, t.offers[0]);
    assert PriorityZone(claim, t, zone);
    UnsupportedLaunchExactly(opts, claim, t, [], now, zone);
  }

  // ---- the order of the types, in place ---------------------------------------------------

  // The price the claim would pay for a type, if it can be had at all.
  function BestPrice(claim: Claim, offers: seq<Offer>): Option<real> {
    if offers == [] then None
    else
      var rest, o := BestPrice(claim, offers[1..]), offers[0];
      if !Satisfies(claim, o) then rest
      else if rest.Some? && rest.value <= o.price then rest else Some(o.price)
  }

  predicate Cheaper(a: Option<real>, b: Option<real>) {
    a.Some? && (b.None? || a.value < b.value)
  }

  lemma {:induction false} BestPriceIsLeast(claim: Claim, offers: seq<Offer>)
    ensures forall o :: o in offers && Satisfies(claim, o) ==>
              BestPrice(claim, offers).Some? && BestPrice(claim, offers).value <= o.price
    ensures BestPrice(claim, offers).Some? ==>
              exists o :: o in offers && Satisfies(claim, o) && o.price == BestPrice(claim, offers).value
  {
    if offers != [] {
      BestPriceIsLeast(claim, offers[1..]);
      assert offers == [offers[0]] + offers[1..];
      assert offers[0] in offers;
    }
  }

  function Prices(claim: Claim): InstanceType -> Option<real> {
    (t: InstanceType) => BestPrice(claim, t.offers)
  }

  // OrderByPrice sorts the slice it is given.
  method OrderByPrice(types: array<InstanceType>, price: InstanceType -> Option<real>)
    modifies types
    ensures multiset(types[..]) == multiset(old(types[..]))
    ensures forall i, j :: 0 <= i < j < types.Length ==> !Cheaper(price(types[j]), price(types[i]))
  {
    for n := 0 to types.Length
      invariant multiset(types[..]) == multiset(old(types[..]))
      invariant forall i, j :: 0 <= i < n && i < j < types.Length ==> !Cheaper(price(types[j]), price(types[i]))
    {
      var least := CheapestFrom(types, price, n);
      Swap(types, n, least);
    }
  }

  method Swap(types: array<InstanceType>, i: nat, j: nat)
    requires i < types.Length && j < types.Length
    modifies types
    ensures types[..] == old(types[..][i := types[j]][j := types[i]])
    ensures multiset(types[..]) == multiset(old(types[..]))
  {
    types[i], types[j] := types[j], types[i];
  }

  method CheapestFrom(types: array<InstanceType>, price: InstanceType -> Option<real>, n: nat) returns (least: nat)
    requires n < types.Length
    ensures n <= least < types.Length
    ensures forall j :: n <= j < types.Length ==> !Cheaper(price(types[j]), price(types[least]))
  {
    least := n;
    for j := n to types.Length
      invariant n <= least < types.Length
      invariant forall k :: n <= k < j ==> !Cheaper(price(types[k]), price(types[least]))
    {
      if Cheaper(price(types[j]), price(types[least])) {
        least := j;
      }
    }
  }

  // pickBestInstanceType: the first type of the ordered slice, and any of its
  // priority zones.
  method PickBestInstanceType(claim: Claim, types: array<InstanceType>) returns (r: Option<(InstanceType, string)>)
    modifies types
    ensures multiset(types[..]) == multiset(old(types[..]))
    ensures r.Some? ==>
              && types.Length > 0 && types[0] == r.value.0 && claim.zones.Has(r.value.1)
              && exists o :: o in types[0].offers && o.available && o.zone == r.value.1
    ensures r.None? <==> types.Length == 0 || forall zone :: !PriorityZone(claim, types[0], zone)
    ensures r.Some? && (forall t :: t in old(types[..]) ==> BestPrice(claim, t.offers).Some?) ==>
              Picks(claim, old(types[..]), r.value.0, r.value.1)
  {
    if types.Length == 0 {
      return None;
    }
    OrderByPrice(types, Prices(claim));
    var t := types[0];
    var zones := set o | o in t.offers && o.available && claim.zones.Has(o.zone) :: o.zone;
    if zones == {} {
      assert forall zone :: PriorityZone(claim, t, zone) ==> zone in zones;
      return None;
    }
    var zone :| zone in zones;
    assert PriorityZone(claim, t, zone);
    r := Some((t, zone));
    if forall u :: u in old(types[..]) ==> BestPrice(claim, u.offers).Some? {
      OrderedPick(claim, old(types[..]), types[..], zone);
    }
  }

  lemma OrderedPick(claim: Claim, was: seq<InstanceType>, types: seq<InstanceType>, zone: string)
    requires multiset(types) == multiset(was) && types != [] && PriorityZone(claim, types[0], zone)
    requires forall t :: t in was ==> BestPrice(claim, t.offers).Some?
    requires forall j :: 0 < j < |types| ==> !Cheaper(Prices(claim)(types[j]), Prices(claim)(types[0]))
    ensures Picks(claim, was, types[0], zone)
  {
    var t := types[0];
    assert t in multiset(was);
    BestPriceIsLeast(claim, t.offers);
    var o :| o in t.offers && Satisfies(claim, o) && o.price == BestPrice(claim, t.offers).value;
    forall u, p | u in was && p in u.offers && Satisfies(claim, p) ensures o.price <= p.price {
      BestPriceIsLeast(claim, u.offers);
      assert u in multiset(types);
      var j :| 0 <= j < |types| && types[j] == u;
      assert j > 0 ==> !Cheaper(Prices(claim)(types[j]), Prices(claim)(types[0]));
    }
  }

  // CloudProvider.Create describes the new claim by the first type of the
  // launched shape in its slice. Since that slice has been ordered in place, it
  // is the launched type itself, and not another size of the shape.
  method LaunchAndReport(claim: Claim, types: array<InstanceType>)
    returns (launched: Option<InstanceType>, reported: Option<InstanceType>)
    modifies types
    ensures reported == launched
    ensures launched.Some? ==> launched.value in old(types[..])
  {
    var picked := PickBestInstanceType(claim, types);
    if picked.None? {
      return None, None;
    }
    launched, reported := Some(picked.value.0), None;
    assert types[0] in multiset(types[..]);
    for i := 0 to types.Length
      invariant forall j :: 0 <= j < i ==> types[j].entry.name != launched.value.entry.name
    {
      if types[i].entry.name == launched.value.entry.name {
        reported := Some(types[i]);
        return;
      }
    }
  }

  // ---- a launch and its feedback into the cache ----------------------------------------

  datatype Response = Accepted | ServiceError(status: int, message: string) | OtherFailure

  datatype LaunchResult = Ok | InsufficientCapacity | Failed

  // Whatever capacity type was asked for, the on-demand pool is marked.
  method LaunchInstance(uo: UnavailableOfferings, name: string, zone: string, resp: Response, now: int)
    returns (r: LaunchResult)
    requires uo.Valid() && NotAfter(uo.log, now)
    modifies uo
    ensures uo.Valid()
    ensures r == Ok <==> resp.Accepted?
    ensures r == InsufficientCapacity <==>
            && resp.ServiceError?
            && (|| (resp.status == 500 && Contains(resp.message, "Out of host capacity"))
                || (resp.status == 400 && Contains(resp.message, "service limits were exceeded")))
    ensures uo.log == old(uo.log) + if r == InsufficientCapacity
                                    then [Mark(Key(Offering(name, zone, "on-demand")), now)] else []
  {
    r := Ok;
    if !resp.Accepted? {
      r := Failed;
      if resp.ServiceError? {
        if (resp.status == 500 && Contains(resp.message, "Out of host capacity"))
           || (resp.status == 400 && Contains(resp.message, "service limits were exceeded")) {
          uo.MarkUnavailable(name, zone, ON_DEMAND, now);
          r := InsufficientCapacity;
        }
      }
    }
  }
}
