// pkg/providers/instancetype/instancetype.go, ListInstanceType: the sizes listed
// in each availability domain are merged through shared pointers, in whatever
// order Go walks the map of domains.
module ZoneMerge {
  import opened Text
  import opened Catalogue
  import opened Sequences

  type Merged = map<string, WrapShape>

  ghost predicate Keyed(keyOf: Size -> string, merged: Merged) {
    forall key :: key in merged ==> keyOf(merged[key].size) == key
  }

  // The domains recorded for each key.
  ghost function View(merged: Merged): map<string, seq<string>>
    reads merged.Values
  {
    map key | key in merged :: merged[key].availableDomains
  }

  function Recorded(view: map<string, seq<string>>, key: string): seq<string> {
    if key in view then view[key] else []
  }

  // The sizes kept; an entry's size never changes.
  function Kept(merged: Merged): map<string, Size> { map key | key in merged :: merged[key].size }

  // The first size to come keeps its key.
  function Keep(keyOf: Size -> string, kept: map<string, Size>, size: Size): map<string, Size> {
    if keyOf(size) in kept then kept else kept[keyOf(size) := size]
  }

  // Either the entry becomes the key's own, or the domain is appended through
  // the pointer kept for the key.
  method AddShape(keyOf: Size -> string, merged: Merged, s: WrapShape, ad: string) returns (m: Merged)
    requires Keyed(keyOf, merged) && s !in merged.Values && s.availableDomains == [ad]
    modifies merged.Values
    ensures Keyed(keyOf, m) && m.Values <= merged.Values + {s}
    ensures m.Keys == merged.Keys + {keyOf(s.size)}
    ensures forall key :: key in merged ==> m[key] == merged[key]
    ensures Kept(m) == Keep(keyOf, Kept(merged), s.size)
    ensures View(m) == old(View(merged))[keyOf(s.size) := Recorded(old(View(merged)), keyOf(s.size)) + [ad]]
  {
    var key := keyOf(s.size);
    ghost var view := View(merged)[key := Recorded(View(merged), key) + [ad]];
    if key !in merged {
      m := merged[key := s];
    } else {
      var wrapped := merged[key];
      assert forall k :: k in merged && k != key ==> merged[k] != wrapped;
      AppendDomain(wrapped, ad);
      m := merged;
    }
    ViewIs(m, view);
  }

  method AppendDomain(wrapped: WrapShape, ad: string)
    modifies wrapped
    ensures wrapped.availableDomains == old(wrapped.availableDomains) + [ad]
  {
    wrapped.availableDomains := wrapped.availableDomains + [ad];
  }

  lemma ViewIs(merged: Merged, view: map<string, seq<string>>)
    requires merged.Keys == view.Keys && forall key :: key in merged ==> merged[key].availableDomains == view[key]
    ensures View(merged) == view
  {
  }

  // ---- the lists being merged --------------------------------------------------------

  ghost function Objects(adShapes: map<string, seq<WrapShape>>): set<WrapShape> {
    set zone, i | zone in adShapes && 0 <= i < |adShapes[zone]| :: adShapes[zone][i]
  }

  // No pointer occurs twice, in one list or in two.
  ghost predicate Apart(adShapes: map<string, seq<WrapShape>>) {
    forall y, z, i, j ::
      (y in adShapes && z in adShapes && 0 <= i < |adShapes[y]| && 0 <= j < |adShapes[z]| && (y != z || i != j))
      ==> adShapes[y][i] != adShapes[z][j]
  }

  // The lists hold entries with the given keys, each pointer once.
  ghost predicate Lists(keyOf: Size -> string, adShapes: map<string, seq<WrapShape>>, keys: map<string, seq<string>>) {
    && adShapes.Keys == keys.Keys
    && (forall z :: z in adShapes ==> |keys[z]| == |adShapes[z]|)
    && (forall z, i :: z in adShapes && 0 <= i < |adShapes[z]| ==> keyOf(adShapes[z][i].size) == keys[z][i])
    && Apart(adShapes)
  }

  // The pointers the loop has not reached: those of the zones in todo, and of
  // zone ad from position j on.
  ghost predicate Pending(adShapes: map<string, seq<WrapShape>>, todo: set<string>, ad: string, j: nat, z: string,
                          i: nat) {
    z in adShapes && i < |adShapes[z]| && (z in todo || (z == ad && j <= i))
  }

  // Pending pointers are untouched and not yet shared with the result.
  ghost predicate Untouched(adShapes: map<string, seq<WrapShape>>, merged: Merged, todo: set<string>, ad: string,
                            j: nat)
    reads Objects(adShapes)
  {
    forall z: string, i: nat :: Pending(adShapes, todo, ad, j, z, i) ==>
      adShapes[z][i].availableDomains == [z] && adShapes[z][i] !in merged.Values
  }

  // ---- counting listings ---------------------------------------------------------------

  // Occurrences of the key in a zone, given the keys listed for each zone.
  function Total(keys: map<string, seq<string>>, zone: string, key: string): nat {
    if zone in keys then multiset(keys[zone])[key] else 0
  }

  // The same for what has been merged: all of the zones not in todo, of zone ad
  // only the first j entries.
  ghost function Tally(keys: map<string, seq<string>>, todo: set<string>, ad: string, j: nat, zone: string,
                       key: string): nat
    requires ad in keys && j <= |keys[ad]|
  {
    if zone == ad then multiset(keys[ad][..j])[key] else if zone in todo then 0 else Total(keys, zone, key)
  }

  ghost predicate CountsSoFar(view: map<string, seq<string>>, keys: map<string, seq<string>>, todo: set<string>,
                              ad: string, j: nat)
    requires ad in keys && j <= |keys[ad]|
  {
    && (forall key :: key in view ==> view[key] != [])
    && (forall zone, key :: multiset(Recorded(view, key))[zone] == Tally(keys, todo, ad, j, zone, key))
  }

  ghost predicate Counts(view: map<string, seq<string>>, keys: map<string, seq<string>>, todo: set<string>) {
    && (forall key :: key in view ==> view[key] != [])
    && (forall zone, key :: multiset(Recorded(view, key))[zone] == if zone in todo then 0 else Total(keys, zone, key))
  }

  lemma TallyNext(keys: map<string, seq<string>>, todo: set<string>, ad: string, j: nat, zone: string, key: string)
    requires ad in keys && j < |keys[ad]|
    ensures Tally(keys, todo, ad, j + 1, zone, key) == Tally(keys, todo, ad, j, zone, key)
            + if zone == ad && key == keys[ad][j] then 1 else 0
  {
    assert keys[ad][..j + 1] == keys[ad][..j] + [keys[ad][j]];
  }

  lemma CountNext(view: map<string, seq<string>>, keys: map<string, seq<string>>, todo: set<string>, ad: string, j: nat)
    requires ad in keys && j < |keys[ad]| && CountsSoFar(view, keys, todo, ad, j)
    ensures CountsSoFar(view[keys[ad][j] := Recorded(view, keys[ad][j]) + [ad]], keys, todo, ad, j + 1)
  {
    var next := view[keys[ad][j] := Recorded(view, keys[ad][j]) + [ad]];
    forall zone, key ensures multiset(Recorded(next, key))[zone] == Tally(keys, todo, ad, j + 1, zone, key) {
      assert multiset(Recorded(view, key))[zone] == Tally(keys, todo, ad, j, zone, key);
      TallyNext(keys, todo, ad, j, zone, key);
    }
  }

  lemma CountStart(view: map<string, seq<string>>, keys: map<string, seq<string>>, todo: set<string>, ad: string)
    requires ad in keys && ad in todo && Counts(view, keys, todo)
    ensures CountsSoFar(view, keys, todo - {ad}, ad, 0)
  {
    forall zone, key ensures multiset(Recorded(view, key))[zone] == Tally(keys, todo - {ad}, ad, 0, zone, key) {
      assert multiset(keys[ad][..0])[key] == 0;
    }
  }

  lemma CountDone(view: map<string, seq<string>>, keys: map<string, seq<string>>, todo: set<string>, ad: string)
    requires ad in keys && ad !in todo && CountsSoFar(view, keys, todo, ad, |keys[ad]|)
    ensures Counts(view, keys, todo)
  {
    assert keys[ad][..|keys[ad]|] == keys[ad];
    forall zone, key ensures multiset(Recorded(view, key))[zone] == if zone in todo then 0 else Total(keys, zone, key) {
      assert multiset(Recorded(view, key))[zone] == Tally(keys, todo, ad, |keys[ad]|, zone, key);
    }
  }

  // ---- the loop ------------------------------------------------------------------------------

  ghost predicate Progress(keyOf: Size -> string, adShapes: map<string, seq<WrapShape>>,
                           keys: map<string, seq<string>>, merged: Merged,
                           todo: set<string>, ad: string, j: nat)
    requires ad in keys && j <= |keys[ad]|
    reads merged.Values, Objects(adShapes)
  {
    && Keyed(keyOf, merged) && merged.Values <= Objects(adShapes)
    && CountsSoFar(View(merged), keys, todo, ad, j)
    && Untouched(adShapes, merged, todo, ad, j)
  }

  // The same between two zones.
  ghost predicate Between(keyOf: Size -> string, adShapes: map<string, seq<WrapShape>>,
                          keys: map<string, seq<string>>, merged: Merged, todo: set<string>)
    reads merged.Values, Objects(adShapes)
  {
    && todo <= adShapes.Keys
    && Keyed(keyOf, merged) && merged.Values <= Objects(adShapes)
    && Counts(View(merged), keys, todo)
    && (forall z, i :: z in todo && 0 <= i < |adShapes[z]| ==>
          adShapes[z][i].availableDomains == [z] && adShapes[z][i] !in merged.Values)
  }

  lemma ZoneStart(keyOf: Size -> string, adShapes: map<string, seq<WrapShape>>, keys: map<string, seq<string>>,
                  merged: Merged, todo: set<string>, ad: string)
    requires Lists(keyOf, adShapes, keys) && ad in todo && Between(keyOf, adShapes, keys, merged, todo)
    ensures Progress(keyOf, adShapes, keys, merged, todo - {ad}, ad, 0)
  {
    CountStart(View(merged), keys, todo, ad);
  }

  lemma ZoneDone(keyOf: Size -> string, adShapes: map<string, seq<WrapShape>>, keys: map<string, seq<string>>,
                 merged: Merged, todo: set<string>, ad: string)
    requires Lists(keyOf, adShapes, keys) && ad in adShapes && ad !in todo && todo <= adShapes.Keys
    requires Progress(keyOf, adShapes, keys, merged, todo, ad, |keys[ad]|)
    ensures Between(keyOf, adShapes, keys, merged, todo)
  {
    CountDone(View(merged), keys, todo, ad);
    assert forall z: string, i: nat :: z in todo && i < |adShapes[z]| ==> Pending(adShapes, todo, ad, |keys[ad]|, z, i);
  }

  method MergeShape(keyOf: Size -> string, adShapes: map<string, seq<WrapShape>>,
                    ghost keys: map<string, seq<string>>, merged: Merged,
                    ghost todo: set<string>, ad: string, j: nat)
    returns (m: Merged)
    requires Lists(keyOf, adShapes, keys) && ad in adShapes && ad !in todo && j < |adShapes[ad]|
    requires Progress(keyOf, adShapes, keys, merged, todo, ad, j)
    modifies merged.Values
    ensures Progress(keyOf, adShapes, keys, m, todo, ad, j + 1)
    ensures Kept(m) == Keep(keyOf, Kept(merged), adShapes[ad][j].size)
  {
    var s := adShapes[ad][j];
    assert Pending(adShapes, todo, ad, j, ad, j);
    ghost var view := View(merged);
    CountNext(view, keys, todo, ad, j);
    m := AddShape(keyOf, merged, s, ad);
    assert s in Objects(adShapes);
    forall z: string, i: nat | Pending(adShapes, todo, ad, j + 1, z, i)
      ensures adShapes[z][i].availableDomains == [z] && adShapes[z][i] !in m.Values
    {
      assert Pending(adShapes, todo, ad, j, z, i);
    }
  }

  // Whatever order the zones come in, the result has one entry per listed key,
  // and its domains count, as a multiset, one occurrence per listing.
  method CombineZones(keyOf: Size -> string, adShapes: map<string, seq<WrapShape>>,
                      ghost keys: map<string, seq<string>>)
    returns (merged: Merged, ghost order: seq<string>)
    requires Lists(keyOf, adShapes, keys)
    requires forall z, i :: z in adShapes && 0 <= i < |adShapes[z]| ==> adShapes[z][i].availableDomains == [z]
    modifies Objects(adShapes)
    ensures Keyed(keyOf, merged) && merged.Values <= Objects(adShapes)
    ensures Counts(View(merged), keys, {})
    ensures NoRepeats(order) && Elements(order) == adShapes.Keys
    ensures Kept(merged) == KeptAfter(keyOf, ListedSizes(adShapes), order)
  {
    merged, order := map[], [];
    var todo := adShapes.Keys;
    while todo != {}
      invariant Between(keyOf, adShapes, keys, merged, todo)
      invariant MergedIn(keyOf, adShapes, Kept(merged), todo, order)
      decreases todo
    {
      var ad :| ad in todo;
      ghost var kept := Kept(merged);
      merged := CombineZone(keyOf, adShapes, keys, merged, todo, ad);
      MergedNext(keyOf, adShapes, kept, todo, order, ad);
      todo, order := todo - {ad}, order + [ad];
    }
  }

  // The inner loop, for one zone.
  method CombineZone(keyOf: Size -> string, adShapes: map<string, seq<WrapShape>>,
                     ghost keys: map<string, seq<string>>, was: Merged, ghost todo: set<string>, ad: string)
    returns (merged: Merged)
    requires Lists(keyOf, adShapes, keys) && ad in todo && Between(keyOf, adShapes, keys, was, todo)
    modifies Objects(adShapes)
    ensures Between(keyOf, adShapes, keys, merged, todo - {ad})
    ensures Kept(merged) == KeptFrom(keyOf, Kept(was), ListedSizes(adShapes)(ad))
  {
    ZoneStart(keyOf, adShapes, keys, was, todo, ad);
    merged := was;
    ghost var kept, list := Kept(was), ListedSizes(adShapes)(ad);
    for j := 0 to |adShapes[ad]|
      invariant Progress(keyOf, adShapes, keys, merged, todo - {ad}, ad, j)
      invariant Kept(merged) == KeptUpTo(keyOf, kept, list, j)
    {
      KeptNext(keyOf, adShapes, kept, ad, j);
      merged := MergeShape(keyOf, adShapes, keys, merged, todo - {ad}, ad, j);
    }
    assert list[..|list|] == list;
    ZoneDone(keyOf, adShapes, keys, merged, todo - {ad}, ad);
  }

  // ---- which sizes are kept -----------------------------------------------------------------

  function KeptFrom(keyOf: Size -> string, kept: map<string, Size>, list: seq<Size>): map<string, Size> {
    if list == [] then kept
    else Keep(keyOf, KeptFrom(keyOf, kept, list[..|list| - 1]), list[|list| - 1])
  }

  function KeptUpTo(keyOf: Size -> string, kept: map<string, Size>, list: seq<Size>, j: nat): map<string, Size>
    requires j <= |list|
  {
    KeptFrom(keyOf, kept, list[..j])
  }

  lemma KeptNext(keyOf: Size -> string, adShapes: map<string, seq<WrapShape>>, kept: map<string, Size>, ad: string,
                 j: nat)
    requires ad in adShapes && j < |adShapes[ad]|
    ensures |ListedSizes(adShapes)(ad)| == |adShapes[ad]|
    ensures var list := ListedSizes(adShapes)(ad);
            KeptUpTo(keyOf, kept, list, j + 1) == Keep(keyOf, KeptUpTo(keyOf, kept, list, j), adShapes[ad][j].size)
  {
    var list := ListedSizes(adShapes)(ad);
    assert list[..j + 1][..j] == list[..j];
  }

  // The zones' lists taken in this order.
  function KeptAfter(keyOf: Size -> string, listed: string -> seq<Size>, order: seq<string>): map<string, Size> {
    if order == [] then map[]
    else KeptFrom(keyOf, KeptAfter(keyOf, listed, order[..|order| - 1]), listed(order[|order| - 1]))
  }

  function ListedSizes(adShapes: map<string, seq<WrapShape>>): string -> seq<Size> {
    (zone: string) =>
      if zone in adShapes
      then seq(|adShapes[zone]|, i requires 0 <= i < |adShapes[zone]| => adShapes[zone][i].size) else []
  }

  // The zones not in todo have been merged in this order.
  ghost predicate MergedIn(keyOf: Size -> string, adShapes: map<string, seq<WrapShape>>, kept: map<string, Size>,
                           todo: set<string>, order: seq<string>)
  {
    NoRepeats(order) && Elements(order) == adShapes.Keys - todo
      && kept == KeptAfter(keyOf, ListedSizes(adShapes), order)
  }

  lemma MergedNext(keyOf: Size -> string, adShapes: map<string, seq<WrapShape>>, kept: map<string, Size>,
                   todo: set<string>, order: seq<string>, ad: string)
    requires MergedIn(keyOf, adShapes, kept, todo, order) && ad in todo && todo <= adShapes.Keys
    ensures MergedIn(keyOf, adShapes, KeptFrom(keyOf, kept, ListedSizes(adShapes)(ad)), todo - {ad}, order + [ad])
  {
    assert ad !in order by { assert ad !in Elements(order); }
    OrderNext(keyOf, ListedSizes(adShapes), order, ad);
    assert adShapes.Keys - (todo - {ad}) == (adShapes.Keys - todo) + {ad};
  }

  lemma OrderNext(keyOf: Size -> string, listed: string -> seq<Size>, order: seq<string>, ad: string)
    requires NoRepeats(order) && ad !in order
    ensures NoRepeats(order + [ad]) && Elements(order + [ad]) == Elements(order) + {ad}
    ensures KeptAfter(keyOf, listed, order + [ad]) == KeptFrom(keyOf, KeptAfter(keyOf, listed, order), listed(ad))
  {
    assert (order + [ad])[..|order|] == order;
  }

  // The first size with this key in a list.
  function FirstOf(keyOf: Size -> string, list: seq<Size>, key: string): Option<Size> {
    if list == [] then None
    else
      var first, last := FirstOf(keyOf, list[..|list| - 1], key), list[|list| - 1];
      if first.None? && keyOf(last) == key then Some(last) else first
  }

  lemma {:induction false} FirstOfIs(keyOf: Size -> string, list: seq<Size>, key: string) returns (k: nat)
    ensures k <= |list| && forall j :: 0 <= j < k ==> keyOf(list[j]) != key
    ensures if k < |list| then keyOf(list[k]) == key && FirstOf(keyOf, list, key) == Some(list[k])
            else FirstOf(keyOf, list, key) == None
  {
    if list == [] {
      k := 0;
    } else {
      var front := list[..|list| - 1];
      k := FirstOfIs(keyOf, front, key);
      if k == |front| && keyOf(list[k]) != key { k := k + 1; }
    }
  }

  function At(kept: map<string, Size>, key: string): Option<Size> { if key in kept then Some(kept[key]) else None }

  lemma {:induction false} KeptFromAt(keyOf: Size -> string, kept: map<string, Size>, list: seq<Size>, key: string)
    ensures At(KeptFrom(keyOf, kept, list), key) == if key in kept then Some(kept[key]) else FirstOf(keyOf, list, key)
  {
    if list != [] { KeptFromAt(keyOf, kept, list[..|list| - 1], key); }
  }

  ghost predicate Among(keyOf: Size -> string, listed: string -> seq<Size>, order: seq<string>, key: string,
                        size: Size) {
    exists zone :: zone in order && FirstOf(keyOf, listed(zone), key) == Some(size)
  }

  // What is kept is the first size of some zone in the order.
  lemma {:induction false} KeptAfterAt(keyOf: Size -> string, listed: string -> seq<Size>, order: seq<string>,
                                       key: string)
    ensures At(KeptAfter(keyOf, listed, order), key).Some? ==>
              Among(keyOf, listed, order, key, At(KeptAfter(keyOf, listed, order), key).value)
    ensures forall zone :: zone in order && FirstOf(keyOf, listed(zone), key).Some? ==>
            key in KeptAfter(keyOf, listed, order)
  {
    if order != [] {
      var front, last := order[..|order| - 1], order[|order| - 1];
      KeptAfterAt(keyOf, listed, front, key);
      KeptFromAt(keyOf, KeptAfter(keyOf, listed, front), listed(last), key);
      assert order == front + [last];
    }
  }

  // The first zone in the order wins.
  lemma {:induction false} FirstZoneKept(keyOf: Size -> string, listed: string -> seq<Size>, zone: string,
                                         rest: seq<string>,
                                         key: string)
    requires FirstOf(keyOf, listed(zone), key).Some?
    ensures At(KeptAfter(keyOf, listed, [zone] + rest), key) == FirstOf(keyOf, listed(zone), key)
  {
    var order := [zone] + rest;
    if rest == [] {
      assert order[..|order| - 1] == [] && order[0] == zone;
      KeptFromAt(keyOf, map[], listed(zone), key);
    } else {
      assert order[..|order| - 1] == [zone] + rest[..|rest| - 1];
      FirstZoneKept(keyOf, listed, zone, rest[..|rest| - 1], key);
      KeptFromAt(keyOf, KeptAfter(keyOf, listed, order[..|order| - 1]), listed(order[|order| - 1]), key);
    }
  }

  // An order of all zones that list anything.
  ghost predicate IsZoneOrder(listed: string -> seq<Size>, order: seq<string>) {
    NoRepeats(order) && forall zone :: listed(zone) != [] ==> zone in order
  }

  // Zones that list a key agree on its size.
  ghost predicate Agree(keyOf: Size -> string, listed: string -> seq<Size>) {
    forall y, z, key :: FirstOf(keyOf, listed(y), key).Some? && FirstOf(keyOf, listed(z), key).Some? ==>
      FirstOf(keyOf, listed(y), key) == FirstOf(keyOf, listed(z), key)
  }

  ghost predicate OrderMatters(keyOf: Size -> string, listed: string -> seq<Size>) {
    exists o, p :: IsZoneOrder(listed, o) && IsZoneOrder(listed, p)
                   && KeptAfter(keyOf, listed, o) != KeptAfter(keyOf, listed, p)
  }

  lemma AgreedKept(keyOf: Size -> string, listed: string -> seq<Size>, o: seq<string>, p: seq<string>, key: string)
    requires IsZoneOrder(listed, o) && IsZoneOrder(listed, p) && Agree(keyOf, listed)
             && key in KeptAfter(keyOf, listed, o)
    ensures At(KeptAfter(keyOf, listed, p), key) == At(KeptAfter(keyOf, listed, o), key)
  {
    KeptAfterAt(keyOf, listed, o, key);
    KeptAfterAt(keyOf, listed, p, key);
    var y :| y in o && FirstOf(keyOf, listed(y), key) == At(KeptAfter(keyOf, listed, o), key);
    assert listed(y) != [] && y in p;
    var z :| z in p && FirstOf(keyOf, listed(z), key) == At(KeptAfter(keyOf, listed, p), key);
  }

  // The merged sizes, and with them VNICs, bandwidth and pods, are the same for
  // every order of the map exactly when the zones that list a key agree on the
  // size they list first under it.
  lemma MergedSizesFixedExactly(keyOf: Size -> string, listed: string -> seq<Size>, zones: set<string>)
    requires forall zone :: listed(zone) != [] ==> zone in zones
    ensures Agree(keyOf, listed) <==> !OrderMatters(keyOf, listed)
  {
    if Agree(keyOf, listed) {
      forall o, p | IsZoneOrder(listed, o) && IsZoneOrder(listed, p)
        ensures KeptAfter(keyOf, listed, o) == KeptAfter(keyOf, listed, p)
      {
        SameKept(keyOf, listed, o, p);
      }
    } else {
      var y, z, key :| FirstOf(keyOf, listed(y), key).Some? && FirstOf(keyOf, listed(z), key).Some?
                       && FirstOf(keyOf, listed(y), key) != FirstOf(keyOf, listed(z), key);
      var o := FirstInOrder(keyOf, listed, zones, y, key);
      var p := FirstInOrder(keyOf, listed, zones, z, key);
      assert At(KeptAfter(keyOf, listed, o), key) != At(KeptAfter(keyOf, listed, p), key);
    }
  }

  lemma FirstInOrder(keyOf: Size -> string, listed: string -> seq<Size>, zones: set<string>, zone: string, key: string)
    returns (order: seq<string>)
    requires FirstOf(keyOf, listed(zone), key).Some? && forall z :: listed(z) != [] ==> z in zones
    ensures IsZoneOrder(listed, order) && At(KeptAfter(keyOf, listed, order), key) == FirstOf(keyOf, listed(zone), key)
  {
    var rest := Enumerate(zones - {zone});
    NoRepeatsConcat([zone], rest);
    FirstZoneKept(keyOf, listed, zone, rest, key);
    order := [zone] + rest;
  }

  lemma SameKept(keyOf: Size -> string, listed: string -> seq<Size>, o: seq<string>, p: seq<string>)
    requires IsZoneOrder(listed, o) && IsZoneOrder(listed, p) && Agree(keyOf, listed)
    ensures KeptAfter(keyOf, listed, o) == KeptAfter(keyOf, listed, p)
  {
    var a, b := KeptAfter(keyOf, listed, o), KeptAfter(keyOf, listed, p);
    forall key ensures At(a, key) == At(b, key) {
      if key in a { AgreedKept(keyOf, listed, o, p, key); }
      if key in b { AgreedKept(keyOf, listed, p, o, key); }
    }
    assert forall key :: key in a <==> At(a, key).Some?;
    assert forall key :: key in b <==> At(b, key).Some?;
    assert forall key :: key in a ==> Some(a[key]) == At(a, key);
    assert forall key :: key in b ==> Some(b[key]) == At(b, key);
  }

  lemma {:induction false} SameListsSameKept(keyOf: Size -> string, f: string -> seq<Size>, g: string -> seq<Size>,
                                             order: seq<string>)
    requires forall zone :: zone in order ==> f(zone) == g(zone)
    ensures KeptAfter(keyOf, f, order) == KeptAfter(keyOf, g, order)
  {
    if order != [] { SameListsSameKept(keyOf, f, g, order[..|order| - 1]); }
  }

  // ---- from the cloud's listing to the merged catalogue --------------------------------

  // The zone of "prefix:ZONE"; the code panics on a domain without a colon.
  predicate WellFormedDomain(domain: string) { |Split(domain, ':')| >= 2 }

  function Zone(domain: string): string
    requires WellFormedDomain(domain)
  {
    Split(domain, ':')[1]
  }

  // Domains of the form the cloud names them in.
  ghost predicate Named(domains: seq<string>, prefixes: seq<string>, zones: seq<string>) {
    && |domains| == |prefixes| == |zones|
    && forall i :: 0 <= i < |domains| ==>
         ':' !in prefixes[i] && ':' !in zones[i] && domains[i] == prefixes[i] + ":" + zones[i]
  }

  lemma ZoneOf(prefix: string, zone: string)
    requires ':' !in prefix && ':' !in zone
    ensures Split(prefix + ":" + zone, ':') == [prefix, zone]
    ensures WellFormedDomain(prefix + ":" + zone) && Zone(prefix + ":" + zone) == zone
  {
    SplitFirst(prefix, zone, ':');
    SplitWhole(zone, ':');
    assert prefix + ":" + zone == prefix + [':'] + zone;
  }

  ghost predicate Listing(domains: seq<string>, listing: map<string, seq<Shape>>) {
    forall d :: d in domains ==> WellFormedDomain(d) && d in listing
  }

  // The sizes listed in a domain, with the domain's zone.
  datatype Listed = Listed(zone: string, sizes: seq<Size>)

  function Listings(cfg: Config, domains: seq<string>, listing: map<string, seq<Shape>>): (ls: seq<Listed>)
    requires Listing(domains, listing)
    ensures |ls| == |domains|
  {
    seq(|domains|, i requires 0 <= i < |domains| =>
      assert domains[i] in domains;
      Listed(Zone(domains[i]), AllSizes(cfg, listing[domains[i]])))
  }

  // Every size listed for a zone: two domains may share one zone name.
  function ZoneSizes(ls: seq<Listed>, zone: string): seq<Size> { ZoneSizesUpTo(ls, |ls|, zone) }

  function ZoneSizesUpTo(ls: seq<Listed>, n: nat, zone: string): seq<Size>
    requires n <= |ls|
  {
    if n == 0 then []
    else ZoneSizesUpTo(ls, n - 1, zone) + if ls[n - 1].zone == zone then ls[n - 1].sizes else []
  }

  function KeysOf(keyOf: Size -> string, sizes: seq<Size>): (keys: seq<string>)
    ensures |keys| == |sizes|
  {
    seq(|sizes|, i requires 0 <= i < |sizes| => keyOf(sizes[i]))
  }

  ghost predicate HoldsSizes(adShapes: map<string, seq<WrapShape>>, sizes: map<string, seq<Size>>)
    reads Objects(adShapes)
  {
    && adShapes.Keys == sizes.Keys
    && (forall z :: z in adShapes ==> |adShapes[z]| == |sizes[z]|)
    && (forall z, i :: z in adShapes && 0 <= i < |adShapes[z]| ==>
          adShapes[z][i].size == sizes[z][i] && adShapes[z][i].availableDomains == [z])
    && Apart(adShapes)
  }

  function SizesAt(sizes: map<string, seq<Size>>, zone: string): seq<Size> {
    if zone in sizes then sizes[zone] else []
  }

  // Where the pointers of the longer lists come from.
  lemma LongerAt(adShapes: map<string, seq<WrapShape>>, ad: string, ws: seq<WrapShape>, z: string, i: nat)
    requires var longer := adShapes[ad := ShapesAt(adShapes, ad) + ws]; z in longer && i < |longer[z]|
    ensures var longer, n := adShapes[ad := ShapesAt(adShapes, ad) + ws], |ShapesAt(adShapes, ad)|;
            (if z == ad && i >= n then i - n < |ws| && longer[z][i] == ws[i - n]
             else
               && z in adShapes && i < |adShapes[z]|
               && longer[z][i] == adShapes[z][i] && longer[z][i] in Objects(adShapes))
  {
  }

  function ShapesAt(adShapes: map<string, seq<WrapShape>>, zone: string): seq<WrapShape> {
    if zone in adShapes then adShapes[zone] else []
  }

  lemma LongerApart(adShapes: map<string, seq<WrapShape>>, ad: string, ws: seq<WrapShape>)
    requires Apart(adShapes) && NoRepeats(ws) && forall w :: w in ws ==> w !in Objects(adShapes)
    ensures Apart(adShapes[ad := ShapesAt(adShapes, ad) + ws])
  {
    var longer := adShapes[ad := ShapesAt(adShapes, ad) + ws];
    forall y: string, z: string, i: nat, j: nat | y in longer && z in longer && i < |longer[y]| && j < |longer[z]|
      && (y != z || i != j)
      ensures longer[y][i] != longer[z][j]
    {
      LongerAt(adShapes, ad, ws, y, i);
      LongerAt(adShapes, ad, ws, z, j);
    }
  }

  lemma HoldMore(adShapes: map<string, seq<WrapShape>>, sizes: map<string, seq<Size>>, ad: string, ws: seq<WrapShape>,
                 more: seq<Size>)
    requires HoldsSizes(adShapes, sizes) && Wraps(ws, more, ad)
    requires forall w :: w in ws ==> w !in Objects(adShapes)
    ensures var longer := adShapes[ad := ShapesAt(adShapes, ad) + ws];
            && HoldsSizes(longer, sizes[ad := SizesAt(sizes, ad) + more])
            && forall w :: w in Objects(longer) ==> w in Objects(adShapes) || w in ws
  {
    var longer: map<string, seq<WrapShape>> := adShapes[ad := ShapesAt(adShapes, ad) + ws];
    LongerApart(adShapes, ad, ws);
    forall z: string, i: nat | z in longer && i < |longer[z]|
      ensures longer[z][i].size == sizes[ad := SizesAt(sizes, ad) + more][z][i]
      ensures longer[z][i].availableDomains == [z] && (longer[z][i] in Objects(adShapes) || longer[z][i] in ws)
    {
      LongerAt(adShapes, ad, ws, z, i);
    }
  }

  ghost predicate SizesUpTo(sizes: map<string, seq<Size>>, ls: seq<Listed>, n: nat)
    requires n <= |ls|
  {
    forall zone :: SizesAt(sizes, zone) == ZoneSizesUpTo(ls, n, zone)
  }

  lemma SizesNext(sizes: map<string, seq<Size>>, ls: seq<Listed>, n: nat)
    requires n < |ls| && SizesUpTo(sizes, ls, n)
    ensures SizesUpTo(sizes[ls[n].zone := SizesAt(sizes, ls[n].zone) + ls[n].sizes], ls, n + 1)
  {
    var more := sizes[ls[n].zone := SizesAt(sizes, ls[n].zone) + ls[n].sizes];
    forall zone ensures SizesAt(more, zone) == ZoneSizesUpTo(ls, n + 1, zone) {
      assert SizesAt(sizes, zone) == ZoneSizesUpTo(ls, n, zone);
      assert SizesAt(sizes, zone) + [] == SizesAt(sizes, zone);
    }
  }

  // The first n domains' entries have been filed under their zones.
  ghost predicate Grouped(adShapes: map<string, seq<WrapShape>>, sizes: map<string, seq<Size>>, made: set<WrapShape>,
                          ls: seq<Listed>, n: nat)
    requires n <= |ls|
    reads made
  {
    Objects(adShapes) <= made && HoldsSizes(adShapes, sizes) && SizesUpTo(sizes, ls, n)
  }

  // The first half of ListInstanceType: the entries of each zone, as pointers.
  method GroupByZone(cfg: Config, domains: seq<string>, listing: map<string, seq<Shape>>)
    returns (adShapes: map<string, seq<WrapShape>>, ghost sizes: map<string, seq<Size>>, ghost made: set<WrapShape>)
    requires Listing(domains, listing)
    ensures Grouped(adShapes, sizes, made, Listings(cfg, domains, listing), |domains|) && fresh(made)
    ensures forall prefixes, zones :: Named(domains, prefixes, zones) ==> adShapes.Keys == Elements(zones)
  {
    ghost var ls := Listings(cfg, domains, listing);
    adShapes, sizes, made := map[], map[], {};
    for n := 0 to |domains|
      invariant Grouped(adShapes, sizes, made, ls, n) && fresh(made)
      invariant adShapes.Keys == ZonesUpTo(ls, n)
    {
      assert domains[n] in domains;
      adShapes, sizes, made := AddListing(cfg, domains[n], listing[domains[n]], adShapes, sizes, made, ls, n);
      ZonesNext(ls, n);
    }
    ZonesAll(cfg, domains, listing);
  }

  ghost function ZonesUpTo(ls: seq<Listed>, n: nat): set<string>
    requires n <= |ls|
  {
    set i | 0 <= i < n :: ls[i].zone
  }

  lemma ZonesNext(ls: seq<Listed>, n: nat)
    requires n < |ls|
    ensures ZonesUpTo(ls, n + 1) == ZonesUpTo(ls, n) + {ls[n].zone}
  {
  }

  lemma ZonesAll(cfg: Config, domains: seq<string>, listing: map<string, seq<Shape>>)
    requires Listing(domains, listing)
    ensures forall prefixes, zones :: Named(domains, prefixes, zones) ==>
              ZonesUpTo(Listings(cfg, domains, listing), |domains|) == Elements(zones)
  {
    var ls := Listings(cfg, domains, listing);
    forall prefixes: seq<string>, zones: seq<string> | Named(domains, prefixes, zones)
      ensures ZonesUpTo(ls, |domains|) == Elements(zones)
    {
      forall i | 0 <= i < |domains| ensures ls[i].zone == zones[i] {
        ZoneOf(prefixes[i], zones[i]);
        assert domains[i] in domains;
      }
      assert forall z :: z in zones ==> exists i :: 0 <= i < |zones| && ls[i].zone == z;
    }
  }

  method AddListing(cfg: Config, domain: string, shapes: seq<Shape>, adShapes: map<string, seq<WrapShape>>,
                    ghost sizes: map<string, seq<Size>>,
                    ghost made: set<WrapShape>, ghost ls: seq<Listed>, ghost n: nat)
    returns (longer: map<string, seq<WrapShape>>, ghost more: map<string, seq<Size>>, ghost makes: set<WrapShape>)
    requires n < |ls| && WellFormedDomain(domain) && ls[n] == Listed(Zone(domain), AllSizes(cfg, shapes))
    requires Grouped(adShapes, sizes, made, ls, n)
    ensures Grouped(longer, more, makes, ls, n + 1) && fresh(makes - made)
    ensures longer.Keys == adShapes.Keys + {ls[n].zone}
  {
    var ad := Split(domain, ':')[1];
    var ws := ToWrapShape(cfg, shapes, ad);
    HoldMore(adShapes, sizes, ad, ws, AllSizes(cfg, shapes));
    if ad in adShapes {
      longer := adShapes[ad := adShapes[ad] + ws];
    } else {
      longer := adShapes[ad := ws];
      assert [] + ws == ws;
    }
    more := sizes[ad := SizesAt(sizes, ad) + AllSizes(cfg, shapes)];
    makes := made + set w | w in ws;
    SizesNext(sizes, ls, n);
  }

  // Exactly one entry per key listed in some zone, of a size listed under that
  // key, whose domains hold each zone once per listing of the key in it.
  ghost predicate Catalogued(keyOf: Size -> string, merged: Merged, ls: seq<Listed>)
    reads merged.Values
  {
    && Keyed(keyOf, merged)
    && (forall key :: key in merged ==> Recorded(View(merged), key) != [])
    && (forall zone, key ::
       multiset(Recorded(View(merged), key))[zone] == multiset(KeysOf(keyOf, ZoneSizes(ls, zone)))[key])
    && (forall key :: key in merged ==> exists zone :: merged[key].size in ZoneSizes(ls, zone))
    && (exists order :: IsZoneOrder(SizesBy(ls), order) && Kept(merged) == KeptAfter(keyOf, SizesBy(ls), order))
  }

  function SizesBy(ls: seq<Listed>): string -> seq<Size> { (zone: string) => ZoneSizes(ls, zone) }

  lemma {:induction false} UnlistedZone(ls: seq<Listed>, n: nat, zone: string)
    requires n <= |ls| && forall i :: 0 <= i < n ==> ls[i].zone != zone
    ensures ZoneSizesUpTo(ls, n, zone) == []
  {
    if n > 0 { UnlistedZone(ls, n - 1, zone); }
  }

  // The catalogue of a listing is the same for every order exactly when zones
  // that list a key agree on the size they list first under it.
  lemma CatalogueFixedExactly(keyOf: Size -> string, ls: seq<Listed>)
    ensures Agree(keyOf, SizesBy(ls)) <==> !OrderMatters(keyOf, SizesBy(ls))
  {
    var zones := set i | 0 <= i < |ls| :: ls[i].zone;
    forall zone | zone !in zones ensures SizesBy(ls)(zone) == [] {
      assert forall i :: 0 <= i < |ls| ==> ls[i].zone in zones;
      UnlistedZone(ls, |ls|, zone);
    }
    MergedSizesFixedExactly(keyOf, SizesBy(ls), zones);
  }

  // The second half, for any key function.
  method CombineSizes(keyOf: Size -> string, adShapes: map<string, seq<WrapShape>>,
                      ghost sizes: map<string, seq<Size>>, ghost ls: seq<Listed>)
    returns (merged: Merged)
    requires HoldsSizes(adShapes, sizes) && SizesUpTo(sizes, ls, |ls|)
    modifies Objects(adShapes)
    ensures Catalogued(keyOf, merged, ls)
  {
    ghost var keys := map z | z in sizes :: KeysOf(keyOf, sizes[z]);
    ghost var order;
    merged, order := CombineZones(keyOf, adShapes, keys);
    KeptInOrder(keyOf, adShapes, sizes, ls, order);
    MergedSizesListed(adShapes, sizes, ls, merged);
    CountsListed(keyOf, View(merged), keys, sizes, ls);
  }

  // The lists of pointers hold the listed sizes, so the order is one of these.
  lemma KeptInOrder(keyOf: Size -> string, adShapes: map<string, seq<WrapShape>>, sizes: map<string, seq<Size>>,
                    ls: seq<Listed>, order: seq<string>)
    requires SizesUpTo(sizes, ls, |ls|) && adShapes.Keys == sizes.Keys && forall z :: z in adShapes ==>
             |adShapes[z]| == |sizes[z]|
    requires forall z, i :: z in adShapes && 0 <= i < |adShapes[z]| ==> adShapes[z][i].size == sizes[z][i]
    requires NoRepeats(order) && Elements(order) == adShapes.Keys
    ensures IsZoneOrder(SizesBy(ls), order)
    ensures KeptAfter(keyOf, ListedSizes(adShapes), order) == KeptAfter(keyOf, SizesBy(ls), order)
  {
    forall zone ensures SizesBy(ls)(zone) == SizesAt(sizes, zone) {}
    forall zone | zone in order ensures ListedSizes(adShapes)(zone) == SizesBy(ls)(zone) {
      assert zone in Elements(order);
      assert ListedSizes(adShapes)(zone) == sizes[zone];
    }
    assert forall zone :: zone in sizes ==> zone in Elements(order);
    SameListsSameKept(keyOf, ListedSizes(adShapes), SizesBy(ls), order);
  }

  // Sizes do not change, whatever happens to the domains.
  lemma MergedSizesListed(adShapes: map<string, seq<WrapShape>>, sizes: map<string, seq<Size>>, ls: seq<Listed>,
                          merged: Merged)
    requires SizesUpTo(sizes, ls, |ls|) && adShapes.Keys == sizes.Keys && merged.Values <= Objects(adShapes)
    requires forall z, i :: z in adShapes && 0 <= i < |adShapes[z]| ==>
             i < |sizes[z]| && adShapes[z][i].size == sizes[z][i]
    ensures forall key :: key in merged ==> exists zone :: merged[key].size in ZoneSizes(ls, zone)
  {
    forall key | key in merged ensures exists zone :: merged[key].size in ZoneSizes(ls, zone) {
      assert merged[key] in merged.Values;
      var zone, i :| zone in adShapes && 0 <= i < |adShapes[zone]| && merged[key] == adShapes[zone][i];
      assert merged[key].size == SizesAt(sizes, zone)[i];
      assert merged[key].size in ZoneSizes(ls, zone);
    }
  }

  lemma CountsListed(keyOf: Size -> string, view: map<string, seq<string>>, keys: map<string, seq<string>>,
                     sizes: map<string, seq<Size>>, ls: seq<Listed>)
    requires Counts(view, keys, {}) && SizesUpTo(sizes, ls, |ls|)
    requires keys == map z | z in sizes :: KeysOf(keyOf, sizes[z])
    ensures forall zone, key :: multiset(Recorded(view, key))[zone] == multiset(KeysOf(keyOf, ZoneSizes(ls, zone)))[key]
  {
    forall zone, key ensures multiset(Recorded(view, key))[zone] == multiset(KeysOf(keyOf, ZoneSizes(ls, zone)))[key] {
      assert SizesAt(sizes, zone) == ZoneSizes(ls, zone);
      assert Total(keys, zone, key) == multiset(KeysOf(keyOf, SizesAt(sizes, zone)))[key];
    }
  }

  // A key's entry names zone z exactly when a domain of that zone lists it.
  ghost predicate NamesZones(keyOf: Size -> string, merged: Merged, cfg: Config, domains: seq<string>,
                             zones: seq<string>, listing: map<string, seq<Shape>>)
    requires |domains| == |zones| && Listing(domains, listing)
    reads merged.Values
  {
    forall key, z :: z in Recorded(View(merged), key) <==>
      exists i :: 0 <= i < |domains| && zones[i] == z && ListsKey(keyOf, cfg, listing, domains[i], key)
  }

  ghost predicate ListsKey(keyOf: Size -> string, cfg: Config, listing: map<string, seq<Shape>>, domain: string,
                           key: string) {
    domain in listing && exists size :: size in AllSizes(cfg, listing[domain]) && keyOf(size) == key
  }

  // A zone's sizes are those of its domains.
  lemma {:induction false} ZoneSizesFrom(ls: seq<Listed>, n: nat, zone: string, size: Size)
    requires n <= |ls|
    ensures size in ZoneSizesUpTo(ls, n, zone) <==> exists i :: 0 <= i < n && ls[i].zone == zone && size in ls[i].sizes
  {
    if n > 0 { ZoneSizesFrom(ls, n - 1, zone, size); }
  }

  lemma KeysListed(keyOf: Size -> string, sizes: seq<Size>, key: string)
    ensures multiset(KeysOf(keyOf, sizes))[key] > 0 <==> exists size :: size in sizes && keyOf(size) == key
  {
    if size :| size in sizes && keyOf(size) == key {
      var i :| 0 <= i < |sizes| && sizes[i] == size;
      assert KeysOf(keyOf, sizes)[i] == key;
    }
  }

  lemma ZoneListsKey(keyOf: Size -> string, cfg: Config, domains: seq<string>, prefixes: seq<string>,
                     zones: seq<string>, listing: map<string, seq<Shape>>, zone: string, key: string)
    requires Listing(domains, listing) && Named(domains, prefixes, zones)
    ensures multiset(KeysOf(keyOf, ZoneSizes(Listings(cfg, domains, listing), zone)))[key] > 0 <==>
            exists i :: 0 <= i < |domains| && zones[i] == zone && ListsKey(keyOf, cfg, listing, domains[i], key)
  {
    var ls := Listings(cfg, domains, listing);
    forall i | 0 <= i < |domains| ensures ls[i] == Listed(zones[i], AllSizes(cfg, listing[domains[i]])) {
      ZoneOf(prefixes[i], zones[i]);
      assert domains[i] in domains;
    }
    KeysListed(keyOf, ZoneSizes(ls, zone), key);
    if size :| size in ZoneSizes(ls, zone) && keyOf(size) == key {
      ZoneSizesFrom(ls, |ls|, zone, size);
      var i :| 0 <= i < |ls| && ls[i].zone == zone && size in ls[i].sizes;
      assert domains[i] in domains && ListsKey(keyOf, cfg, listing, domains[i], key);
    }
    if i :| 0 <= i < |domains| && zones[i] == zone && ListsKey(keyOf, cfg, listing, domains[i], key) {
      var size :| size in AllSizes(cfg, listing[domains[i]]) && keyOf(size) == key;
      ZoneSizesFrom(ls, |ls|, zone, size);
    }
  }

  // In the catalogue of such domains the zones are the parts after the colon, so
  // two domains of one tenancy keep their two zones.
  lemma CataloguedZones(keyOf: Size -> string, merged: Merged, cfg: Config, domains: seq<string>,
                        prefixes: seq<string>, zones: seq<string>, listing: map<string, seq<Shape>>)
    requires Listing(domains, listing) && Named(domains, prefixes, zones)
    requires Catalogued(keyOf, merged, Listings(cfg, domains, listing))
    ensures NamesZones(keyOf, merged, cfg, domains, zones, listing)
  {
    var ls := Listings(cfg, domains, listing);
    forall key, z
      ensures z in Recorded(View(merged), key) <==>
              exists i :: 0 <= i < |domains| && zones[i] == z && ListsKey(keyOf, cfg, listing, domains[i], key)
    {
      ZoneListsKey(keyOf, cfg, domains, prefixes, zones, listing, z, key);
      CountedIn(Recorded(View(merged), key), KeysOf(keyOf, ZoneSizes(ls, z)), z, key);
    }
  }

  lemma CountedIn(recorded: seq<string>, keys: seq<string>, z: string, key: string)
    requires multiset(recorded)[z] == multiset(keys)[key]
    ensures z in recorded <==> multiset(keys)[key] > 0
  {
    assert z in recorded <==> z in multiset(recorded);
  }

  method ListInstanceType(cfg: Config, domains: seq<string>, listing: map<string, seq<Shape>>) returns (merged: Merged)
    requires Listing(domains, listing)
    ensures Catalogued(MergeKey, merged, Listings(cfg, domains, listing))
    ensures forall prefixes, zones :: Named(domains, prefixes, zones) ==>
              NamesZones(MergeKey, merged, cfg, domains, zones, listing)
  {
    var adShapes, sizes, made := GroupByZone(cfg, domains, listing);
    merged := CombineSizes(MergeKey, adShapes, sizes, Listings(cfg, domains, listing));
    forall prefixes, zones | Named(domains, prefixes, zones)
      ensures NamesZones(MergeKey, merged, cfg, domains, zones, listing)
    {
      CataloguedZones(MergeKey, merged, cfg, domains, prefixes, zones, listing);
    }
  }
}
