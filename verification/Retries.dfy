// Repeated launches for one claim: how often it can meet pools that are out of
// capacity while what it finds is fed back into the cache.
module Retries {
  import opened IceCache
  import opened Text
  import opened Scheduling
  import opened Sequences
  import opened Launch

  // What stays the same over the launches of one claim.
  datatype Setting = Setting(opts: Options, wellKnown: set<string>, entries: set<Entry>, claim: Claim)

  datatype Outcome = Launched | OutOfCapacity(doneAt: int, mark: nat) | OtherError

  // One Create call: it listed types at a time when the cache log was seen
  // entries long, chose a type and a zone, and launched. A launch that is out
  // of capacity marks the on-demand pool: entry mark of the log.
  datatype Attempt = Attempt(at: int, seen: nat, name: string, zone: string, outcome: Outcome)

  // ---- what an attempt may choose ------------------------------------------------------

  ghost predicate Listed(types: seq<InstanceType>, e: Entry) {
    exists u :: u in types && u.entry == e
  }

  // The whole catalogue is listed, each entry with its current offers.
  ghost predicate ListsOf(s: Setting, types: seq<InstanceType>, es: set<Entry>, log: seq<Event>, now: int) {
    && |types| == |es|
    && (forall u :: u in types ==> u.entry in es && IsOfferList(u.offers, s.opts, u.entry, u.entry.zones, log, now))
    && (forall e :: e in es ==> Listed(types, e))
  }

  ghost predicate MayPick(s: Setting, types: seq<InstanceType>, t: InstanceType, zone: string) {
    Picks(s.claim, ResolveInstanceTypes(s.claim, types, s.wellKnown), t, zone)
  }

  ghost predicate MayChoose(s: Setting, log: seq<Event>, now: int, name: string, zone: string) {
    exists types, t ::
      ListsOf(s, types, s.entries, log, now) && MayPick(s, types, t, zone) && t.entry.name == name
  }

  // Nothing in the provider deletes from the cache or flushes it.
  predicate MarksAndSweeps(log: seq<Event>) {
    forall i :: 0 <= i < |log| ==> log[i].Mark? || log[i].Sweep?
  }

  ghost predicate IsMarked(log: seq<Event>, a: Attempt)
    requires a.outcome.OutOfCapacity?
  {
    && a.seen <= a.outcome.mark < |log| && a.at <= a.outcome.doneAt
    && log[a.outcome.mark] == Mark(Key(Pool(a.name, a.zone)), a.outcome.doneAt)
  }

  ghost predicate Chooses(s: Setting, log: seq<Event>, a: Attempt) {
    a.seen <= |log| && MayChoose(s, log[..a.seen], a.at, a.name, a.zone)
  }

  // A run of Create calls for one claim. Other claims' marks and the janitor's
  // sweeps may fall anywhere in the log, also between listing and launching.
  ghost predicate IsRun(s: Setting, log: seq<Event>, run: seq<Attempt>) {
    && Chronological(log) && MarksAndSweeps(log)
    && (forall k :: 0 <= k < |run| ==> Chooses(s, log, run[k]))
    && (forall k :: 0 <= k < |run| && run[k].outcome.OutOfCapacity? ==> IsMarked(log, run[k]))
    && (forall i, k :: 0 <= i < k < |run| && run[i].outcome.OutOfCapacity? ==> run[i].outcome.mark < run[k].seen)
  }

  // All attempts are made within one TTL.
  ghost predicate InWindow(run: seq<Attempt>, start: int) {
    forall k :: 0 <= k < |run| ==> start <= run[k].at <= start + UNAVAILABLE_OFFERINGS_TTL
  }

  // ---- the condition -----------------------------------------------------------------------

  predicate AcceptedZone(claim: Claim, e: Entry, zone: string) { zone in e.zones && claim.zones.Has(zone) }

  predicate SamePool(f: Entry, w: string, e: Entry, y: string) {
    Key(Pool(f.name, w)) == Key(Pool(e.name, y))
  }

  // A suitable type in e's pool of zone y costs less than e.
  ghost predicate Undercut(s: Setting, e: Entry, y: string) {
    exists f, w :: f in s.entries && Suits(s.claim, f, s.wellKnown) && AcceptedZone(s.claim, f, w)
                   && SamePool(f, w, e, y) && f.price < e.price
  }

  // A suitable shape that is offered as preemptible in this zone.
  predicate PreemptibleIn(s: Setting, e: Entry, z: string) {
    e in s.entries && Suits(s.claim, e, s.wellKnown) && SupportPreemptible(s.opts, e.name)
      && AcceptedZone(s.claim, e, z)
  }

  // Claims that allow preemptible instances must find no suitable shape offered
  // as preemptible. For on-demand claims any such type with a second zone must
  // be undercut in each of its pools, so that it is never the cheapest.
  ghost predicate Confined(s: Setting) {
    if s.claim.capacityTypes.Has(PREEMPTIBLE) then forall e, z :: e in s.entries ==> !PreemptibleIn(s, e, z)
    else s.claim.capacityTypes.Has(ON_DEMAND) ==>
           forall e, y, z :: PreemptibleIn(s, e, y) && PreemptibleIn(s, e, z) && y != z ==> Undercut(s, e, y)
  }

  // For colon-free names a pool is one shape in one zone.
  lemma SamePoolIs(f: Entry, w: string, e: Entry, y: string)
    requires ':' !in f.name && ':' !in e.name
    ensures SamePool(f, w, e, y) <==> f.name == e.name && w == y
  {
    KeyInjective(Pool(f.name, w), Pool(e.name, y));
  }

  // Then to be undercut is to find a suitable type of the same name that accepts
  // the zone for less.
  lemma UndercutByName(s: Setting, e: Entry, y: string)
    requires ':' !in e.name && forall f :: f in s.entries ==> ':' !in f.name
    ensures Undercut(s, e, y) <==> exists f :: f in s.entries && Suits(s.claim, f, s.wellKnown) && f.name == e.name
                                               && AcceptedZone(s.claim, f, y) && f.price < e.price
  {
    if Undercut(s, e, y) {
      var f, w :| f in s.entries && Suits(s.claim, f, s.wellKnown) && AcceptedZone(s.claim, f, w)
                  && SamePool(f, w, e, y) && f.price < e.price;
      SamePoolIs(f, w, e, y);
    }
    forall f | f in s.entries && f.name == e.name ensures SamePool(f, y, e, y) {
      SamePoolIs(f, y, e, y);
    }
  }

  // ---- a confined catalogue never sends a claim back -----------------------------------------

  lemma OfferPrice(s: Setting, u: InstanceType, log: seq<Event>, now: int, o: Offer)
    requires IsOfferList(u.offers, s.opts, u.entry, u.entry.zones, log, now) && o in u.offers && o.available
    ensures o.capacityType == ON_DEMAND || o.capacityType == PREEMPTIBLE
    ensures o.zone in u.entry.zones && !IsBlocked(log, u.entry.name, o.zone, o.capacityType, now)
    ensures o.capacityType == ON_DEMAND ==> o.price == u.entry.price
    ensures o.capacityType == PREEMPTIBLE ==> o.price == u.entry.price * 0.5 && SupportPreemptible(s.opts, u.entry.name)
  {
    var offerIn := OffersOf(s.opts, u.entry, log, now);
    var y :| y in u.entry.zones && (o == offerIn(y, ON_DEMAND) || o == offerIn(y, PREEMPTIBLE));
    assert offerIn(y, ON_DEMAND) == OfferIn(s.opts, u.entry, log, now, y, ON_DEMAND);
    assert offerIn(y, PREEMPTIBLE) == OfferIn(s.opts, u.entry, log, now, y, PREEMPTIBLE);
  }

  // An on-demand claim pays no more than any suitable type with a free pool asks.
  lemma FreePoolCompetes(s: Setting, types: seq<InstanceType>, log: seq<Event>, now: int, f: Entry, w: string,
                         t: InstanceType, zone: string)
    requires ListsOf(s, types, s.entries, log, now) && MayPick(s, types, t, zone)
    requires f in s.entries && Suits(s.claim, f, s.wellKnown) && AcceptedZone(s.claim, f, w)
    requires s.claim.capacityTypes.Has(ON_DEMAND) && !s.claim.capacityTypes.Has(PREEMPTIBLE)
    requires !Blocked(log, Key(Pool(f.name, w)), now)
    ensures t.entry.price <= f.price
  {
    assert Listed(types, f);
    var u :| u in types && u.entry == f;
    OnOfferIs(s.opts, u, log, now, w, ON_DEMAND);
    var p :| p in u.offers && p.available && p.zone == w && p.capacityType == ON_DEMAND;
    OfferPrice(s, u, log, now, p);
    assert Satisfies(s.claim, p);
    ResolvedMembers(s.claim, types, s.wellKnown, u);
    ResolvedMembers(s.claim, types, s.wellKnown, t);
    var o :| o in t.offers && Satisfies(s.claim, o) && o.price <= p.price;
    OfferPrice(s, t, log, now, o);
  }

  lemma PickNotUndercut(s: Setting, types: seq<InstanceType>, log: seq<Event>, now: int, t: InstanceType,
                        zone: string, y: string)
    requires ListsOf(s, types, s.entries, log, now) && MayPick(s, types, t, zone)
    requires s.claim.capacityTypes.Has(ON_DEMAND) && !s.claim.capacityTypes.Has(PREEMPTIBLE)
    requires !Blocked(log, Key(Pool(t.entry.name, y)), now)
    ensures !Undercut(s, t.entry, y)
  {
    forall f, w | f in s.entries && Suits(s.claim, f, s.wellKnown) && AcceptedZone(s.claim, f, w)
      && SamePool(f, w, t.entry, y)
      ensures t.entry.price <= f.price
    {
      FreePoolCompetes(s, types, log, now, f, w, t, zone);
    }
  }

  // A marked pool is chosen only through a preemptible offer.
  lemma BlockedPickPreemptible(s: Setting, types: seq<InstanceType>, log: seq<Event>, now: int, t: InstanceType,
                               zone: string)
    requires ListsOf(s, types, s.entries, log, now) && MayPick(s, types, t, zone)
    requires IsBlocked(log, t.entry.name, zone, ON_DEMAND, now)
    ensures PreemptibleIn(s, t.entry, zone)
  {
    ResolvedMembers(s.claim, types, s.wellKnown, t);
    MarkedPoolPicked(s.opts, s.claim, t, log, now, zone);
  }

  // To be sent into a pool that is marked breaks the condition.
  lemma BlockedPickBreaks(s: Setting, types: seq<InstanceType>, log: seq<Event>, now: int, t: InstanceType,
                          zone: string)
    requires ListsOf(s, types, s.entries, log, now) && MayPick(s, types, t, zone)
    requires IsBlocked(log, t.entry.name, zone, ON_DEMAND, now)
    ensures !Confined(s)
  {
    BlockedPickPreemptible(s, types, log, now, t, zone);
    if !s.claim.capacityTypes.Has(PREEMPTIBLE) {
      var y := FreeZone(s, types, log, now, t, zone);
      PickNotUndercut(s, types, log, now, t, zone, y);
      assert PreemptibleIn(s, t.entry, y) && y != zone;
    }
  }

  lemma FreeZone(s: Setting, types: seq<InstanceType>, log: seq<Event>, now: int, t: InstanceType, zone: string)
    returns (y: string)
    requires ListsOf(s, types, s.entries, log, now) && MayPick(s, types, t, zone)
             && !s.claim.capacityTypes.Has(PREEMPTIBLE)
    ensures AcceptedZone(s.claim, t.entry, y) && s.claim.capacityTypes.Has(ON_DEMAND)
    ensures !IsBlocked(log, t.entry.name, y, ON_DEMAND, now) && !Blocked(log, Key(Pool(t.entry.name, y)), now)
  {
    ResolvedMembers(s.claim, types, s.wellKnown, t);
    var o :| o in t.offers && Satisfies(s.claim, o);
    OfferPrice(s, t, log, now, o);
    y := o.zone;
  }

  lemma ChosenPoolListed(s: Setting, log: seq<Event>, now: int, name: string, zone: string)
    requires MayChoose(s, log, now, name, zone)
    ensures exists e :: e in s.entries && e.name == name && zone in e.zones
  {
    var types, t :| ListsOf(s, types, s.entries, log, now) && MayPick(s, types, t, zone) && t.entry.name == name;
    ResolvedMembers(s.claim, types, s.wellKnown, t);
    var o :| o in t.offers && o.available && o.zone == zone && s.claim.zones.Has(zone);
    OfferPrice(s, t, log, now, o);
  }

  lemma ChosenPoolFree(s: Setting, log: seq<Event>, now: int, name: string, zone: string)
    requires MayChoose(s, log, now, name, zone) && Confined(s)
    ensures !IsBlocked(log, name, zone, ON_DEMAND, now)
  {
    var types, t :| ListsOf(s, types, s.entries, log, now) && MayPick(s, types, t, zone) && t.entry.name == name;
    if IsBlocked(log, name, zone, ON_DEMAND, now) {
      BlockedPickBreaks(s, types, log, now, t, zone);
    }
  }

  lemma {:induction false} EventsInOrder(log: seq<Event>, i: nat, now: int)
    requires NotAfter(log, now) && i < |log|
    ensures log[i].at <= now
  {
    if i < |log| - 1 { EventsInOrder(log[..|log| - 1], i, now); }
  }

  // A mark keeps its pool blocked for the TTL, whatever else is marked or swept.
  lemma {:induction false} MarkStays(log: seq<Event>, i: nat, now: int)
    requires Chronological(log) && MarksAndSweeps(log) && i < |log| && log[i].Mark?
    requires now <= log[i].at + UNAVAILABLE_OFFERINGS_TTL
    ensures Blocked(log, log[i].key, now)
  {
    var front, last := log[..|log| - 1], log[|log| - 1];
    assert log == front + [last];
    BlockedExtend(front, last, log[i].key, now);
    if i < |front| {
      EventsInOrder(front, i, last.at);
      assert front[i] == log[i];
      MarkStays(front, i, now);
    }
  }

  lemma {:induction false} ChronologicalTake(log: seq<Event>, n: nat)
    requires Chronological(log) && n <= |log|
    ensures Chronological(log[..n])
  {
    assert log == log[..n] + log[n..];
    ChronologicalPrefix(log[..n], log[n..]);
  }

  // Within one TTL no attempt goes back to a pool an earlier one found full.
  lemma NoRelaunch(s: Setting, log: seq<Event>, run: seq<Attempt>, i: nat, k: nat)
    requires IsRun(s, log, run) && Confined(s)
    requires i < k < |run| && run[i].outcome.OutOfCapacity?
    requires run[k].at <= run[i].outcome.doneAt + UNAVAILABLE_OFFERINGS_TTL
    ensures (run[i].name, run[i].zone) != (run[k].name, run[k].zone)
  {
    var a, b := run[i], run[k];
    assert Chooses(s, log, b);
    var seen := log[..b.seen];
    assert IsMarked(log, a);
    assert seen[a.outcome.mark] == log[a.outcome.mark];
    ChronologicalTake(log, b.seen);
    MarkStays(seen, a.outcome.mark, b.at);
    ChosenPoolFree(s, seen, b.at, b.name, b.zone);
  }

  // ---- counting failures ------------------------------------------------------------------------

  function Failures(run: seq<Attempt>): seq<(string, string)> {
    if run == [] then []
    else
      var front, last := Failures(run[..|run| - 1]), run[|run| - 1];
      if last.outcome.OutOfCapacity? then front + [(last.name, last.zone)] else front
  }

  function Pairs(names: set<string>, zones: set<string>): set<(string, string)> {
    set n, z | n in names && z in zones :: (n, z)
  }

  lemma {:induction false} PairsCount(names: set<string>, zones: set<string>)
    ensures |Pairs(names, zones)| == |names| * |zones|
    decreases names
  {
    if names != {} {
      var n :| n in names;
      var rest, row := Pairs(names - {n}, zones), set z | z in zones :: (n, z);
      PairsCount(names - {n}, zones);
      RowCount(n, zones);
      assert |names - {n}| * |zones| + |zones| == |names| * |zones|;
      assert Pairs(names, zones) == rest + row;
      assert rest !! row;
    }
  }

  lemma {:induction false} RowCount(n: string, zones: set<string>)
    ensures |set z | z in zones :: (n, z)| == |zones|
    decreases zones
  {
    if zones != {} {
      var z :| z in zones;
      RowCount(n, zones - {z});
      assert (set y | y in zones :: (n, y)) == (set y | y in zones - {z} :: (n, y)) + {(n, z)};
    }
  }

  // p is the pool of a failed attempt.
  ghost predicate FailedIn(run: seq<Attempt>, p: (string, string)) {
    exists i :: 0 <= i < |run| && run[i].outcome.OutOfCapacity? && p == (run[i].name, run[i].zone)
  }

  lemma {:induction false} FailuresFailed(run: seq<Attempt>, p: (string, string))
    requires p in Failures(run)
    ensures FailedIn(run, p)
  {
    var n := |run| - 1;
    if p in Failures(run[..n]) {
      FailuresFailed(run[..n], p);
      var i :| 0 <= i < n && run[..n][i].outcome.OutOfCapacity? && p == (run[..n][i].name, run[..n][i].zone);
      assert run[i] == run[..n][i];
    } else {
      assert p == (run[n].name, run[n].zone);
    }
  }

  ghost predicate NeverReturns(run: seq<Attempt>) {
    forall i, k :: 0 <= i < k < |run| && run[i].outcome.OutOfCapacity? ==>
      (run[i].name, run[i].zone) != (run[k].name, run[k].zone)
  }

  lemma {:induction false} FailuresUnique(run: seq<Attempt>)
    requires NeverReturns(run)
    ensures NoRepeats(Failures(run))
  {
    if run != [] {
      var n := |run| - 1;
      FailuresUnique(run[..n]);
      var front := Failures(run[..n]);
      forall j | 0 <= j < |front| ensures front[j] != (run[n].name, run[n].zone) {
        FailuresFailed(run[..n], front[j]);
        var i :| 0 <= i < n && run[..n][i].outcome.OutOfCapacity? && front[j] == (run[..n][i].name, run[..n][i].zone);
        assert run[i] == run[..n][i];
      }
    }
  }

  ghost predicate Covers(s: Setting, names: set<string>, zones: set<string>) {
    forall e :: e in s.entries ==> e.name in names && e.zones <= zones
  }

  // In one TTL window a claim meets at most |names| * |zones| out-of-capacity
  // launches, provided the catalogue is confined.
  lemma RetryBound(s: Setting, log: seq<Event>, run: seq<Attempt>, start: int, names: set<string>, zones: set<string>)
    requires IsRun(s, log, run) && InWindow(run, start) && Confined(s) && Covers(s, names, zones)
    ensures |Failures(run)| <= |names| * |zones|
  {
    forall i, k | 0 <= i < k < |run| && run[i].outcome.OutOfCapacity?
      ensures (run[i].name, run[i].zone) != (run[k].name, run[k].zone)
    {
      assert IsMarked(log, run[i]);
      NoRelaunch(s, log, run, i, k);
    }
    FailuresUnique(run);
    forall p | p in Failures(run) ensures p in Pairs(names, zones) {
      FailuresFailed(run, p);
      var i :| 0 <= i < |run| && run[i].outcome.OutOfCapacity? && p == (run[i].name, run[i].zone);
      assert Chooses(s, log, run[i]);
      ChosenPoolListed(s, log[..run[i].seen], run[i].at, run[i].name, run[i].zone);
    }
    NoRepeatsBound(Failures(run), Pairs(names, zones));
    PairsCount(names, zones);
  }

  // ---- without that proviso there is no bound ---------------------------------------------------

  // Marks of these keys, all at the same instant.
  function MarksOf(keys: seq<string>): seq<Event> { seq(|keys|, i requires 0 <= i < |keys| => Mark(keys[i], 0)) }

  ghost predicate BlocksExactly(log: seq<Event>, keys: set<string>) {
    forall key :: Blocked(log, key, 0) <==> key in keys
  }

  lemma {:induction false} MarksBlock(keys: seq<string>)
    ensures Chronological(MarksOf(keys)) && NotAfter(MarksOf(keys), 0) && BlocksExactly(MarksOf(keys), Elements(keys))
  {
    if keys != [] {
      var front, last := keys[..|keys| - 1], keys[|keys| - 1];
      MarksBlock(front);
      assert MarksOf(keys) == MarksOf(front) + [Mark(last, 0)];
      assert MarksOf(keys)[..|keys| - 1] == MarksOf(front);
      forall key ensures Blocked(MarksOf(keys), key, 0) <==> key in Elements(keys) {
        BlockedExtend(MarksOf(front), Mark(last, 0), key, 0);
        assert key in Elements(keys) <==> key in Elements(front) || key == last;
      }
    }
  }

  lemma PoolKeysDiffer(m: string, n: string, y: string, z: string)
    ensures y != z ==> Key(Pool(n, y)) != Key(Pool(n, z))
    ensures Key(Offering(m, y, PREEMPTIBLE)) != Key(Pool(n, z))
  {
    if y != z {
      var prefix := ON_DEMAND + ":" + n + ":";
      assert Key(Pool(n, y)) == prefix + y && Key(Pool(n, z)) == prefix + z;
      assert (prefix + y)[|prefix|..] == y && (prefix + z)[|prefix|..] == z;
    }
    assert Key(Offering(m, y, PREEMPTIBLE))[0] == 'p' && Key(Pool(n, z))[0] == 'o';
  }

  lemma {:induction false} OffersExist(zones: set<string>, offerIn: (string, string) -> Offer)
    returns (offers: seq<Offer>)
    ensures ListsOffers(offers, zones, offerIn)
    decreases zones
  {
    offers := [];
    if zones != {} {
      var zone :| zone in zones;
      var rest := OffersExist(zones - {zone}, offerIn);
      ListMoreOffers(rest, zones - {zone}, offerIn, zone);
      assert zones - {zone} + {zone} == zones;
      offers := rest + [offerIn(zone, ON_DEMAND), offerIn(zone, PREEMPTIBLE)];
    }
  }

  lemma {:induction false} ListingExists(s: Setting, es: set<Entry>, log: seq<Event>, now: int)
    returns (types: seq<InstanceType>)
    ensures ListsOf(s, types, es, log, now)
    decreases es
  {
    types := [];
    if es != {} {
      var e :| e in es;
      var rest := ListingExists(s, es - {e}, log, now);
      var offers := OffersExist(e.zones, OffersOf(s.opts, e, log, now));
      var t := InstanceType(e, offers);
      types := rest + [t];
      forall f | f in es ensures Listed(types, f) {
        if f == e {
          assert t in types;
        } else {
          assert Listed(rest, f);
          var u :| u in rest && u.entry == f;
          assert u in types;
        }
      }
    }
  }

  // The pools of the catalogue, by key.
  function PoolKeys(entries: set<Entry>): set<string> {
    set f, w | f in entries && w in f.zones :: Key(Pool(f.name, w))
  }

  lemma ListedTypeMember(s: Setting, types: seq<InstanceType>, log: seq<Event>, e: Entry) returns (t: InstanceType)
    requires ListsOf(s, types, s.entries, log, 0) && e in s.entries
    ensures t in types && t.entry == e && IsOfferList(t.offers, s.opts, e, e.zones, log, 0)
  {
    assert Listed(types, e);
    t :| t in types && t.entry == e;
  }

  // t has an offer that no suitable offer undercuts, and a free zone.
  lemma PickOf(s: Setting, types: seq<InstanceType>, t: InstanceType, o: Offer, zone: string)
    requires t in types && Suits(s.claim, t.entry, s.wellKnown) && o in t.offers && Satisfies(s.claim, o)
    requires PriorityZone(s.claim, t, zone)
    requires forall u, p ::
             u in types && Resolves(s.claim, u, s.wellKnown) && p in u.offers && Satisfies(s.claim, p) ==>
             o.price <= p.price
    ensures MayPick(s, types, t, zone)
  {
    var resolved := ResolveInstanceTypes(s.claim, types, s.wellKnown);
    ResolvedMembers(s.claim, types, s.wellKnown, t);
    forall u, p | u in resolved && p in u.offers && Satisfies(s.claim, p) ensures o.price <= p.price {
      ResolvedMembers(s.claim, types, s.wellKnown, u);
    }
  }

  // With all pools blocked but one, an on-demand claim takes the cheapest type
  // of that one, possibly into another zone.
  lemma StuckOnDemand(s: Setting, e: Entry, y: string, z: string, log: seq<Event>)
    requires s.claim.capacityTypes.Has(ON_DEMAND) && !s.claim.capacityTypes.Has(PREEMPTIBLE)
    requires PreemptibleIn(s, e, y) && PreemptibleIn(s, e, z) && !Undercut(s, e, y)
    requires BlocksExactly(log, PoolKeys(s.entries) - {Key(Pool(e.name, y))})
    ensures MayChoose(s, log, 0, e.name, z)
  {
    var types := ListingExists(s, s.entries, log, 0);
    var t := ListedTypeMember(s, types, log, e);
    var keys := PoolKeys(s.entries) - {Key(Pool(e.name, y))};
    assert !Blocked(log, Key(Pool(e.name, y)), 0);
    PreemptibleFree(s, log, keys, e.name, z);
    OnOfferIs(s.opts, t, log, 0, y, ON_DEMAND);
    OnOfferIs(s.opts, t, log, 0, z, PREEMPTIBLE);
    var o :| o in t.offers && o.available && o.zone == y && o.capacityType == ON_DEMAND;
    OfferPrice(s, t, log, 0, o);
    forall u, p | u in types && Resolves(s.claim, u, s.wellKnown) && p in u.offers && Satisfies(s.claim, p)
      ensures o.price <= p.price
    {
      OfferPrice(s, u, log, 0, p);
      assert Key(Pool(u.entry.name, p.zone)) !in keys;
      assert SamePool(u.entry, p.zone, e, y);
    }
    PickOf(s, types, t, o, z);
  }

  lemma PreemptibleFree(s: Setting, log: seq<Event>, keys: set<string>, name: string, z: string)
    requires BlocksExactly(log, keys) && keys <= PoolKeys(s.entries)
    ensures !IsBlocked(log, name, z, PREEMPTIBLE, 0)
  {
    var key := Key(Offering(name, z, PREEMPTIBLE));
    if key in PoolKeys(s.entries) {
      var f, w :| f in s.entries && w in f.zones && key == Key(Pool(f.name, w));
      PoolKeysDiffer(name, f.name, z, w);
    }
  }

  // With all pools blocked, a claim that allows preemptible instances takes the
  // cheapest type that is offered as preemptible.
  lemma StuckPreemptible(s: Setting, e: Entry, z: string, log: seq<Event>)
    requires s.claim.capacityTypes.Has(PREEMPTIBLE) && PreemptibleIn(s, e, z)
    requires forall f, w :: PreemptibleIn(s, f, w) ==> e.price <= f.price
    requires BlocksExactly(log, PoolKeys(s.entries))
    ensures MayChoose(s, log, 0, e.name, z)
  {
    var types := ListingExists(s, s.entries, log, 0);
    var t := ListedTypeMember(s, types, log, e);
    PreemptibleFree(s, log, PoolKeys(s.entries), e.name, z);
    OnOfferIs(s.opts, t, log, 0, z, PREEMPTIBLE);
    var o :| o in t.offers && o.available && o.zone == z && o.capacityType == PREEMPTIBLE;
    OfferPrice(s, t, log, 0, o);
    forall u, p | u in types && Resolves(s.claim, u, s.wellKnown) && p in u.offers && Satisfies(s.claim, p)
      ensures o.price <= p.price
    {
      OfferPrice(s, u, log, 0, p);
      assert Key(Pool(u.entry.name, p.zone)) in PoolKeys(s.entries);
      assert PreemptibleIn(s, u.entry, p.zone);
    }
    PickOf(s, types, t, o, z);
  }

  lemma {:induction false} CheapestPreemptible(s: Setting, es: set<Entry>, e: Entry, z: string)
    returns (least: Entry, zone: string)
    requires es <= s.entries && PreemptibleIn(s, e, z)
    ensures PreemptibleIn(s, least, zone) && least.price <= e.price
    ensures forall f, w :: f in es && PreemptibleIn(s, f, w) ==> least.price <= f.price
    decreases es
  {
    least, zone := e, z;
    if es != {} {
      var f :| f in es;
      if w :| PreemptibleIn(s, f, w) && f.price < e.price {
        least, zone := CheapestPreemptible(s, es - {f}, f, w);
      } else {
        least, zone := CheapestPreemptible(s, es - {f}, e, z);
      }
    }
  }

  // A run in which the same pool is found full n times in one instant: the log
  // starts with marks that other claims have left.
  function FullAttempts(name: string, zone: string, base: nat, n: nat): seq<Attempt> {
    seq(n, k requires 0 <= k < n => Attempt(0, base + k, name, zone, OutOfCapacity(0, base + k)))
  }

  lemma {:induction false} FailuresOfFull(name: string, zone: string, base: nat, n: nat)
    ensures |Failures(FullAttempts(name, zone, base, n))| == n
  {
    if n > 0 {
      FailuresOfFull(name, zone, base, n - 1);
      assert FullAttempts(name, zone, base, n)[..n - 1] == FullAttempts(name, zone, base, n - 1);
    }
  }

  function Again(key: string, n: nat): seq<string> { seq(n, _ => key) }

  // All marks are of pools in the catalogue.
  predicate CatalogueMarks(s: Setting, log: seq<Event>) {
    forall i :: 0 <= i < |log| ==> log[i].Mark? && log[i].key in PoolKeys(s.entries)
  }

  // The marks other claims have left, and those of n failures in one pool.
  function FullLog(others: seq<string>, name: string, zone: string, n: nat): seq<Event> {
    MarksOf(others + Again(Key(Pool(name, zone)), n))
  }

  lemma FullAttemptsMarked(others: seq<string>, name: string, zone: string, n: nat, k: nat)
    requires k < n
    ensures IsMarked(FullLog(others, name, zone, n), FullAttempts(name, zone, |others|, n)[k])
  {
    var all := others + Again(Key(Pool(name, zone)), n);
    assert all[|others| + k] == Key(Pool(name, zone));
  }

  lemma FullLogMarks(s: Setting, others: seq<string>, name: string, zone: string, n: nat)
    requires Key(Pool(name, zone)) in PoolKeys(s.entries) && forall x :: x in others ==> x in PoolKeys(s.entries)
    ensures CatalogueMarks(s, FullLog(others, name, zone, n)) && MarksAndSweeps(FullLog(others, name, zone, n))
  {
    var all := others + Again(Key(Pool(name, zone)), n);
    assert forall i :: 0 <= i < |all| ==> all[i] in others || all[i] == Key(Pool(name, zone));
  }

  // A pool that is chosen although it is blocked can fail any number of times.
  lemma RetryUnbounded(s: Setting, name: string, zone: string, keys: set<string>, n: nat)
    returns (log: seq<Event>, run: seq<Attempt>)
    requires Key(Pool(name, zone)) in keys && keys <= PoolKeys(s.entries) && AlwaysChosen(s, keys, name, zone)
    ensures IsRun(s, log, run) && InWindow(run, 0) && |Failures(run)| == n && CatalogueMarks(s, log)
  {
    var others := Enumerate(keys);
    log, run := FullLog(others, name, zone, n), FullAttempts(name, zone, |others|, n);
    MarksBlock(others + Again(Key(Pool(name, zone)), n));
    FailuresOfFull(name, zone, |others|, n);
    FullLogMarks(s, others, name, zone, n);
    forall k | 0 <= k < n ensures Chooses(s, log, run[k]) && IsMarked(log, run[k]) {
      ChosenAgain(s, name, zone, keys, others, Key(Pool(name, zone)), n, log, run[k]);
      FullAttemptsMarked(others, name, zone, n, k);
    }
  }

  // With these keys blocked, and no others, the pool is chosen.
  ghost predicate AlwaysChosen(s: Setting, keys: set<string>, name: string, zone: string) {
    forall log :: BlocksExactly(log, keys) ==> MayChoose(s, log, 0, name, zone)
  }

  lemma ChosenNow(s: Setting, keys: set<string>, name: string, zone: string, log: seq<Event>, a: Attempt)
    requires AlwaysChosen(s, keys, name, zone) && a.name == name && a.zone == zone && a.at == 0
    requires a.seen <= |log| && BlocksExactly(log[..a.seen], keys)
    ensures Chooses(s, log, a)
  {
  }

  lemma ChosenAgain(s: Setting, name: string, zone: string, keys: set<string>, others: seq<string>, key: string,
                    n: nat, log: seq<Event>, a: Attempt)
    requires AlwaysChosen(s, keys, name, zone) && a.name == name && a.zone == zone && a.at == 0
    requires (forall x :: x in others <==> x in keys) && key in keys
    requires log == MarksOf(others + Again(key, n)) && |others| <= a.seen <= |others| + n
    ensures Chooses(s, log, a)
  {
    SeenBlocks(others, keys, key, n, a.seen - |others|);
    ChosenNow(s, keys, name, zone, log, a);
  }

  // However often one of the keys is marked again, the same pools are blocked.
  lemma SeenBlocks(others: seq<string>, keys: set<string>, key: string, n: nat, k: nat)
    requires (forall x :: x in others <==> x in keys) && key in keys && k <= n
    ensures |MarksOf(others + Again(key, n))| == |others| + n
    ensures BlocksExactly(MarksOf(others + Again(key, n))[..|others| + k], keys)
  {
    var all := others + Again(key, n);
    var seen := others + Again(key, k);
    assert all[..|others| + k] == seen;
    assert MarksOf(all)[..|others| + k] == MarksOf(seen);
    MarksBlock(seen);
    assert Elements(seen) == keys;
  }

  // An unconfined catalogue lets some claim fail in one pool for ever.
  lemma UnconfinedStuck(s: Setting) returns (name: string, zone: string, keys: set<string>)
    requires !Confined(s)
    ensures Key(Pool(name, zone)) in keys && keys <= PoolKeys(s.entries) && AlwaysChosen(s, keys, name, zone)
  {
    if s.claim.capacityTypes.Has(PREEMPTIBLE) {
      var e, z :| PreemptibleIn(s, e, z);
      var least, w := CheapestPreemptible(s, s.entries, e, z);
      name, zone, keys := least.name, w, PoolKeys(s.entries);
      forall log | BlocksExactly(log, keys) ensures MayChoose(s, log, 0, name, zone) {
        StuckPreemptible(s, least, w, log);
      }
    } else {
      var e, y, z :| PreemptibleIn(s, e, y) && PreemptibleIn(s, e, z) && y != z && !Undercut(s, e, y);
      name, zone, keys := e.name, z, PoolKeys(s.entries) - {Key(Pool(e.name, y))};
      PoolKeysDiffer(e.name, e.name, y, z);
      forall log | BlocksExactly(log, keys) ensures MayChoose(s, log, 0, name, zone) {
        StuckOnDemand(s, e, y, z, log);
      }
    }
  }

  ghost predicate Bounded(s: Setting, bound: nat) {
    forall log, run, start :: IsRun(s, log, run) && InWindow(run, start) ==> |Failures(run)| <= bound
  }

  // For instance one shape, offered as preemptible, in two zones, and a claim for
  // on-demand instances: it can be sent into one pool any number of times.
  lemma RetriesWithoutEnd(name: string, n: nat) returns (log: seq<Event>, run: seq<Attempt>)
    requires "VM" <= name
    ensures var e := Entry(name, {"AD-1", "AD-2"}, map[], map[], 1.0);
            var s := Setting(Options("VM", "BM"), {}, {e}, Claim(Anything, OneOf({ON_DEMAND}), map[], map[]));
            IsRun(s, log, run) && InWindow(run, 0) && |Failures(run)| == n
  {
    var e := Entry(name, {"AD-1", "AD-2"}, map[], map[], 1.0);
    var s := Setting(Options("VM", "BM"), {}, {e}, Claim(Anything, OneOf({ON_DEMAND}), map[], map[]));
    VmsSupported(name);
    assert PreemptibleIn(s, e, "AD-1") && PreemptibleIn(s, e, "AD-2");
    assert !Undercut(s, e, "AD-1");
    assert "AD-1" != "AD-2";
    var pool, zone, keys := UnconfinedStuck(s);
    log, run := RetryUnbounded(s, pool, zone, keys, n);
  }

  lemma VmsSupported(name: string)
    requires "VM" <= name
    ensures SupportPreemptible(Options("VM", "BM"), name)
  {
    SplitWhole("VM", ',');
    SplitWhole("BM", ',');
    assert Split("VM", ',')[0] <= name;
    assert name[0] == 'V';
  }

  // So retries are bounded, for any claim and over all runs, exactly on confined
  // catalogues.
  lemma RetryBoundExactly(s: Setting, names: set<string>, zones: set<string>)
    requires Covers(s, names, zones)
    ensures Confined(s) <==> Bounded(s, |names| * |zones|)
  {
    if Confined(s) {
      forall log, run, start | IsRun(s, log, run) && InWindow(run, start) ensures |Failures(run)| <= |names| * |zones| {
        RetryBound(s, log, run, start, names, zones);
      }
    } else {
      var name, zone, keys := UnconfinedStuck(s);
      var log, run := RetryUnbounded(s, name, zone, keys, |names| * |zones| + 1);
      assert IsRun(s, log, run) && InWindow(run, 0);
    }
  }
}
