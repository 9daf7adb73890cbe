// pkg/cache/unavailableofferings.go: the cache of offerings that recently ran
// out of capacity. Entries live for a TTL and are evicted lazily; the cache is
// proved against the log of everything that was ever done to it.
module IceCache {
  import opened Text

  // Times are in nanoseconds, as in go-cache.
  const SECOND: int := 1_000_000_000
  const UNAVAILABLE_OFFERINGS_TTL: int := 180 * SECOND
  const UINT64: nat := 0x1_0000_0000_0000_0000

  datatype Offering = Offering(instanceType: string, zone: string, capacityType: string)

  function Key(o: Offering): string {
    o.capacityType + ":" + o.instanceType + ":" + o.zone
  }

  // What happens to the cache: Sweep is the janitor's pass over expired entries.
  datatype Event =
    | Mark(key: string, at: int)
    | Delete(key: string, at: int)
    | Flush(at: int)
    | Sweep(at: int)

  predicate Touches(e: Event, key: string) {
    match e
    case Mark(k, _) => k == key
    case Delete(k, _) => k == key
    case Flush(_) => true
    case Sweep(_) => false
  }

  // The clock does not run backwards.
  ghost predicate Chronological(log: seq<Event>) {
    log != [] ==> Chronological(log[..|log| - 1]) && NotAfter(log[..|log| - 1], log[|log| - 1].at)
  }

  ghost predicate NotAfter(log: seq<Event>, now: int) {
    log != [] ==> NotAfter(log[..|log| - 1], now) && log[|log| - 1].at <= now
  }

  ghost predicate LastTouch(log: seq<Event>, key: string, i: nat)
    requires i < |log|
  {
    Touches(log[i], key) && forall j :: i < j < |log| ==> !Touches(log[j], key)
  }

  // The meaning of the cache: the last thing that touched the key is a mark
  // that is not older than the TTL.
  ghost predicate Blocked(log: seq<Event>, key: string, now: int) {
    exists i :: 0 <= i < |log| && LastTouch(log, key, i) && log[i].Mark? && now <= log[i].at + UNAVAILABLE_OFFERINGS_TTL
  }

  // ---- what go-cache keeps: deadlines by key --------------------------------

  function Expired(items: map<string, int>, now: int): set<string> {
    set k | k in items && items[k] < now
  }

  function Swept(items: map<string, int>, now: int): map<string, int> {
    map k | k in items && now <= items[k] :: items[k]
  }

  function Apply(items: map<string, int>, e: Event): map<string, int> {
    match e
    case Mark(k, at) => items[k := at + UNAVAILABLE_OFFERINGS_TTL]
    case Delete(k, _) => if k in items then items - {k} else items
    case Flush(_) => map[]
    case Sweep(now) => Swept(items, now)
  }

  // How often the event moves SeqNum: marking always does, eviction does for
  // each entry really removed, flushing never does.
  function Bump(items: map<string, int>, e: Event): nat {
    match e
    case Mark(_, _) => 1
    case Delete(k, _) => if k in items then 1 else 0
    case Flush(_) => 0
    case Sweep(now) => |Expired(items, now)|
  }

  function Items(log: seq<Event>): map<string, int> {
    if log == [] then map[] else Apply(Items(log[..|log| - 1]), log[|log| - 1])
  }

  function Bumps(log: seq<Event>): nat {
    if log == [] then 0
    else Bumps(log[..|log| - 1]) + Bump(Items(log[..|log| - 1]), log[|log| - 1])
  }

  predicate Live(items: map<string, int>, key: string, now: int) {
    key in items && now <= items[key]
  }

  // A mark alone blocks its key for three minutes, and no other.
  lemma MarkBlocks(key: string, other: string, at: int, now: int)
    ensures Blocked([Mark(key, at)], key, now) <==> now <= at + 180_000_000_000
    ensures other != key ==> !Blocked([Mark(key, at)], other, now)
  {
    BlockedExtend([], Mark(key, at), key, now);
    BlockedExtend([], Mark(key, at), other, now);
    assert [] + [Mark(key, at)] == [Mark(key, at)];
  }

  lemma ItemsExtend(log: seq<Event>, e: Event)
    ensures Items(log + [e]) == Apply(Items(log), e)
    ensures Bumps(log + [e]) == Bumps(log) + Bump(Items(log), e)
  {
    var all := log + [e];
    assert all != [] && all[..|all| - 1] == log && all[|all| - 1] == e;
  }

  lemma BlockedExtend(log: seq<Event>, e: Event, key: string, now: int)
    ensures Blocked(log + [e], key, now) <==>
            if Touches(e, key) then e.Mark? && now <= e.at + UNAVAILABLE_OFFERINGS_TTL else Blocked(log, key, now)
  {
    var all := log + [e];
    if Touches(e, key) {
      assert LastTouch(all, key, |log|);
    } else {
      forall i | 0 <= i < |log| ensures LastTouch(all, key, i) <==> LastTouch(log, key, i) {
        assert all[i] == log[i];
        if LastTouch(all, key, i) {
          forall j | i < j < |log| ensures !Touches(log[j], key) { assert all[j] == log[j]; }
        }
      }
    }
  }

  // The deadlines answer every query exactly as the log does, whenever the
  // janitor ran.
  lemma {:induction false} CacheRefinesLog(log: seq<Event>, key: string, now: int)
    requires Chronological(log) && NotAfter(log, now)
    ensures Live(Items(log), key, now) <==> Blocked(log, key, now)
  {
    if log != [] {
      var front, e := log[..|log| - 1], log[|log| - 1];
      assert log == front + [e];
      CacheRefinesLog(front, key, now);
      BlockedExtend(front, e, key, now);
    }
  }

  // ---- the provider's object --------------------------------------------------

  // The object's fields are those the log calls for.
  ghost predicate Follows(items: map<string, int>, bumps: nat, log: seq<Event>) {
    Chronological(log) && items == Items(log) && bumps == Bumps(log)
  }

  lemma FollowsExtend(items: map<string, int>, bumps: nat, log: seq<Event>, e: Event)
    requires Follows(items, bumps, log) && NotAfter(log, e.at)
    ensures Follows(Apply(items, e), bumps + Bump(items, e), log + [e])
  {
    ItemsExtend(log, e);
    assert (log + [e])[..|log|] == log;
  }

  // The janitor's progress: the keys in todo have not been looked at yet.
  ghost function Kept(was: map<string, int>, todo: set<string>, now: int): map<string, int> {
    map k | k in was && (k in todo || now <= was[k]) :: was[k]
  }

  ghost function Gone(was: map<string, int>, todo: set<string>, now: int): set<string> {
    Expired(was, now) - todo
  }

  lemma EvictStep(was: map<string, int>, todo: set<string>, k: string, now: int)
    requires todo <= was.Keys && k in todo
    ensures k in Kept(was, todo, now) && Kept(was, todo, now)[k] == was[k]
    ensures if was[k] < now
            then Kept(was, todo - {k}, now) == Kept(was, todo, now) - {k}
                 && |Gone(was, todo - {k}, now)| == |Gone(was, todo, now)| + 1
            else Kept(was, todo - {k}, now) == Kept(was, todo, now)
                 && Gone(was, todo - {k}, now) == Gone(was, todo, now)
  {
    if was[k] < now {
      assert Gone(was, todo - {k}, now) == Gone(was, todo, now) + {k};
    }
  }

  class UnavailableOfferings {
    var items: map<string, int>
    var bumps: nat  // SeqNum, before it wraps around
    ghost var log: seq<Event>

    ghost predicate Valid()
      reads this
    {
      Follows(items, bumps, log)
    }

    // The 64-bit field.
    function SeqNum(): nat
      reads this
    {
      bumps % UINT64
    }

    constructor ()
      ensures Valid() && log == [] && SeqNum() == 0
    {
      items, bumps, log := map[], 0, [];
    }

    method IsUnavailable(instanceType: string, zone: string, capacityType: string, now: int) returns (found: bool)
      requires Valid() && NotAfter(log, now)
      ensures found <==> Blocked(log, Key(Offering(instanceType, zone, capacityType)), now)
    {
      var key := Key(Offering(instanceType, zone, capacityType));
      CacheRefinesLog(log, key, now);
      found := key in items && !(now > items[key]);
    }

    method MarkUnavailable(instanceType: string, zone: string, capacityType: string, now: int)
      requires Valid() && NotAfter(log, now)
      modifies this
      ensures Valid() && log == old(log) + [Mark(Key(Offering(instanceType, zone, capacityType)), now)]
    {
      SetDefault(Key(Offering(instanceType, zone, capacityType)), now);
    }

    method SetDefault(key: string, now: int)
      requires Valid() && NotAfter(log, now)
      modifies this
      ensures Valid() && log == old(log) + [Mark(key, now)]
    {
      FollowsExtend(items, bumps, log, Mark(key, now));
      items := items[key := now + UNAVAILABLE_OFFERINGS_TTL];
      bumps := bumps + 1;
      log := log + [Mark(key, now)];
    }

    method Delete(instanceType: string, zone: string, capacityType: string, now: int)
      requires Valid() && NotAfter(log, now)
      modifies this
      ensures Valid() && log == old(log) + [Event.Delete(Key(Offering(instanceType, zone, capacityType)), now)]
    {
      DeleteKey(Key(Offering(instanceType, zone, capacityType)), now);
    }

    method DeleteKey(key: string, now: int)
      requires Valid() && NotAfter(log, now)
      modifies this
      ensures Valid() && log == old(log) + [Event.Delete(key, now)]
    {
      FollowsExtend(items, bumps, log, Event.Delete(key, now));
      if key in items {
        items := items - {key};
        OnEvicted();
      }
      log := log + [Event.Delete(key, now)];
    }

    method Flush(now: int)
      requires Valid() && NotAfter(log, now)
      modifies this
      ensures Valid() && log == old(log) + [Event.Flush(now)]
      ensures bumps == old(bumps)
    {
      FollowsExtend(items, bumps, log, Event.Flush(now));
      items := map[];
      log := log + [Event.Flush(now)];
    }

    // The janitor: each expired entry is removed and reported to OnEvicted.
    method DeleteExpired(now: int)
      requires Valid() && NotAfter(log, now)
      modifies this
      ensures Valid() && log == old(log) + [Sweep(now)]
    {
      FollowsExtend(items, bumps, log, Sweep(now));
      EvictExpired(now);
      log := log + [Sweep(now)];
    }

    method EvictExpired(now: int)
      modifies `items, `bumps
      ensures items == Swept(old(items), now)
      ensures bumps == old(bumps) + |Expired(old(items), now)|
    {
      ghost var was := items;
      var todo := items.Keys;
      while todo != {}
        invariant todo <= was.Keys
        invariant items == Kept(was, todo, now)
        invariant bumps == old(bumps) + |Gone(was, todo, now)|
        decreases todo
      {
        var k :| k in todo;
        EvictStep(was, todo, k, now);
        todo := todo - {k};
        if items[k] < now {
          items := items - {k};
          OnEvicted();
        }
      }
      assert Gone(was, {}, now) == Expired(was, now);
    }

    method OnEvicted()
      modifies `bumps
      ensures bumps == old(bumps) + 1
    {
      bumps := bumps + 1;
    }
  }

  // ---- SeqNum as a change detector ---------------------------------------------

  ghost predicate Flushed(more: seq<Event>) {
    exists i :: 0 <= i < |more| && more[i].Flush?
  }

  lemma {:induction false} BumpsMonotone(log: seq<Event>, more: seq<Event>)
    ensures Bumps(log) <= Bumps(log + more)
    decreases |more|
  {
    if more == [] {
      assert log + more == log;
    } else {
      var front := more[..|more| - 1];
      BumpsMonotone(log, front);
      assert log + more == (log + front) + [more[|more| - 1]];
      ItemsExtend(log + front, more[|more| - 1]);
    }
  }

  lemma SweepNothing(items: map<string, int>, now: int)
    ensures |Expired(items, now)| == 0 ==> Swept(items, now) == items
  {
    if |Expired(items, now)| == 0 {
      forall k | k in items ensures now <= items[k] {
        assert k !in Expired(items, now);
      }
    }
  }

  lemma NoBumpStep(log: seq<Event>, e: Event)
    requires Bumps(log + [e]) == Bumps(log)
    ensures Items(log + [e]) == if e.Flush? then map[] else Items(log)
  {
    ItemsExtend(log, e);
    SweepNothing(Items(log), e.at);
  }

  lemma FlushedMore(front: seq<Event>, e: Event)
    ensures Flushed(front + [e]) <==> Flushed(front) || e.Flush?
  {
    var more := front + [e];
    assert more[|front|] == e;
    assert forall i :: 0 <= i < |front| ==> more[i] == front[i];
  }

  // Without a bump nothing but a flush can have changed the entries.
  lemma {:induction false} NoBumpNoChange(log: seq<Event>, more: seq<Event>)
    requires Bumps(log + more) == Bumps(log)
    ensures Items(log + more) == if Flushed(more) then map[] else Items(log)
    decreases |more|
  {
    if more == [] {
      assert log + more == log;
    } else {
      var front, e := more[..|more| - 1], more[|more| - 1];
      assert log + more == (log + front) + [e] && more == front + [e];
      BumpsMonotone(log, front);
      BumpsMonotone(log + front, [e]);
      NoBumpNoChange(log, front);
      NoBumpStep(log + front, e);
      FlushedMore(front, e);
    }
  }

  ghost predicate SameAnswers(log: seq<Event>, then_: int, later: seq<Event>, now: int) {
    forall key :: Blocked(later, key, now) <==> Blocked(log, key, then_)
  }

  ghost predicate SameLiveness(items: map<string, int>, then_: int, later: map<string, int>, now: int) {
    forall key :: Live(later, key, now) <==> Live(items, key, then_)
  }

  ghost predicate Undisturbed(items: map<string, int>, then_: int, flushed: bool, now: int) {
    forall key :: Live(items, key, then_) ==> !flushed && now <= items[key]
  }

  lemma {:induction false} ChronologicalPrefix(log: seq<Event>, more: seq<Event>)
    requires Chronological(log + more)
    ensures Chronological(log)
    decreases |more|
  {
    if more == [] {
      assert log + more == log;
    } else {
      assert (log + more)[..|log + more| - 1] == log + more[..|more| - 1];
      ChronologicalPrefix(log, more[..|more| - 1]);
    }
  }

  lemma LivenessAgrees(log: seq<Event>, then_: int, later: seq<Event>, now: int)
    requires Chronological(log) && NotAfter(log, then_)
    requires Chronological(later) && NotAfter(later, now)
    ensures SameAnswers(log, then_, later, now) <==> SameLiveness(Items(log), then_, Items(later), now)
  {
    forall key: string
      ensures (Blocked(later, key, now) <==> Blocked(log, key, then_))
              <==> (Live(Items(later), key, now) <==> Live(Items(log), key, then_))
    {
      CacheRefinesLog(log, key, then_);
      CacheRefinesLog(later, key, now);
    }
  }

  // Equal SeqNum values certify that no answer changed exactly when no entry
  // that was live then has been flushed or has passed its deadline since. The
  // counter is 64 bits wide, so fewer than 2^64 changes may lie in between.
  lemma SeqNumCertifiesAnswers(log: seq<Event>, more: seq<Event>, then_: int, now: int)
    requires Chronological(log + more) && NotAfter(log, then_) && NotAfter(log + more, now) && then_ <= now
    requires Bumps(log + more) % UINT64 == Bumps(log) % UINT64
    requires Bumps(log + more) - Bumps(log) < UINT64
    ensures SameAnswers(log, then_, log + more, now) <==> Undisturbed(Items(log), then_, Flushed(more), now)
  {
    BumpsMonotone(log, more);
    assert Bumps(log + more) == Bumps(log);
    NoBumpNoChange(log, more);
    ChronologicalPrefix(log, more);
    LivenessAgrees(log, then_, log + more, now);
  }

  // ---- keys -----------------------------------------------------------------------

  predicate ColonFree(o: Offering) {
    ':' !in o.capacityType && ':' !in o.instanceType
  }

  lemma KeyInjective(a: Offering, b: Offering)
    requires ColonFree(a) && ColonFree(b)
    ensures Key(a) == Key(b) <==> a == b
  {
    if Key(a) == Key(b) {
      assert Key(a) == a.capacityType + [':'] + (a.instanceType + [':'] + a.zone);
      assert Key(b) == b.capacityType + [':'] + (b.instanceType + [':'] + b.zone);
      CutAtFirst(a.capacityType, a.instanceType + [':'] + a.zone, b.capacityType, b.instanceType + [':'] + b.zone, ':');
      CutAtFirst(a.instanceType, a.zone, b.instanceType, b.zone, ':');
    }
  }

  // With a colon inside a component two offerings share one entry.
  lemma KeyCollision()
    ensures Key(Offering("a", "b:z", "c")) == Key(Offering("a:b", "z", "c"))
    ensures Offering("a", "b:z", "c") != Offering("a:b", "z", "c")
  {
  }
}
