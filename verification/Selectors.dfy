// What pkg/providers/subnet/subnet.go and pkg/providers/imagefamily/imagefamily.go
// have in common: resources are the union of what a list of selectors finds, and
// are cached under the set of selectors.
module Selectors {
  import opened Text
  import opened Sequences

  // DefaultTTL, in nanoseconds
  const TTL := 60 * 1_000_000_000

  // A resource with the ID it is filed under.
  datatype Resource<+R> = Resource(id: string, value: R)

  // Some request failed.
  ghost predicate Fails<S, R>(fetch: S -> Option<seq<Resource<R>>>, selectors: set<S>) {
    exists s :: s in selectors && fetch(s).None?
  }

  ghost predicate FoundBy<S, R>(fetch: S -> Option<seq<Resource<R>>>, selectors: set<S>, r: Resource<R>) {
    exists s :: s in selectors && fetch(s).Some? && r in fetch(s).value
  }

  function ById<R>(): Resource<R> -> string { (r: Resource<R>) => r.id }

  ghost predicate DistinctIds<R>(rs: seq<Resource<R>>) { DistinctBy(rs, ById<R>()) }

  ghost predicate HasId<R>(rs: seq<Resource<R>>, id: string) {
    exists r :: r in rs && r.id == id
  }

  // One resource for every ID that some selector finds.
  ghost predicate IsAnswer<S, R>(fetch: S -> Option<seq<Resource<R>>>, selectors: set<S>, answer: seq<Resource<R>>) {
    && !Fails(fetch, selectors) && DistinctIds(answer)
    && (forall r :: r in answer ==> FoundBy(fetch, selectors, r))
    && (forall s, r :: s in selectors && r in fetch(s).value ==> HasId(answer, r.id))
  }

  // Within one snapshot of the API an ID stands for one resource.
  ghost predicate Consistent<S(!new), R(!new)>(fetch: S -> Option<seq<Resource<R>>>) {
    forall s, t, q, r ::
      fetch(s).Some? && fetch(t).Some? && q in fetch(s).value && r in fetch(t).value && q.id == r.id ==> q == r
  }

  // So the answer depends on the set of selectors only: it holds exactly the
  // resources some selector finds, each once.
  lemma AnswerMembers<S(!new), R(!new)>(fetch: S -> Option<seq<Resource<R>>>, selectors: set<S>,
                        answer: seq<Resource<R>>, r: Resource<R>)
    requires Consistent(fetch) && IsAnswer(fetch, selectors, answer)
    ensures r in answer <==> FoundBy(fetch, selectors, r)
  {
    if FoundBy(fetch, selectors, r) {
      var s :| s in selectors && fetch(s).Some? && r in fetch(s).value;
      assert HasId(answer, r.id);
      var q :| q in answer && q.id == r.id;
      assert FoundBy(fetch, selectors, q);
    }
  }

  lemma AnswersArePermutations<S(!new), R(!new)>(fetch: S -> Option<seq<Resource<R>>>, selectors: set<S>,
                                 a: seq<Resource<R>>, b: seq<Resource<R>>)
    requires Consistent(fetch) && IsAnswer(fetch, selectors, a) && IsAnswer(fetch, selectors, b)
    ensures multiset(a) == multiset(b)
  {
    forall r ensures r in a <==> r in b {
      AnswerMembers(fetch, selectors, a, r);
      AnswerMembers(fetch, selectors, b, r);
    }
    SameElements(a, b);
  }

  // ---- the loop over the selectors -----------------------------------------------------

  // found files, under its ID, one resource for every ID found so far.
  ghost predicate Files<S, R>(fetch: S -> Option<seq<Resource<R>>>, selectors: set<S>,
                              found: map<string, Resource<R>>) {
    && !Fails(fetch, selectors)
    && (forall id :: id in found ==> found[id].id == id && FoundBy(fetch, selectors, found[id]))
    && (forall s, r :: s in selectors && r in fetch(s).value ==> r.id in found)
  }

  method Union<S(==), R>(selectors: seq<S>, fetch: S -> Option<seq<Resource<R>>>)
    returns (found: Option<map<string, Resource<R>>>)
    ensures found.None? <==> Fails(fetch, Elements(selectors))
    ensures found.Some? ==> Files(fetch, Elements(selectors), found.value)
  {
    var filed: map<string, Resource<R>> := map[];
    for i := 0 to |selectors|
      invariant Files(fetch, Elements(selectors[..i]), filed)
    {
      var s := selectors[i];
      var resp := fetch(s);
      if resp.None? {
        assert s in Elements(selectors);
        return None;
      }
      assert Elements(selectors[..i + 1]) == Elements(selectors[..i]) + {s};
      var before := filed;
      for j := 0 to |resp.value|
        invariant forall id :: id in filed ==>
                    filed[id].id == id && ((id in before && filed[id] == before[id]) || filed[id] in resp.value[..j])
        invariant before.Keys <= filed.Keys
        invariant forall r :: r in resp.value[..j] ==> r.id in filed
      {
        filed := filed[resp.value[j].id := resp.value[j]];
      }
      FileMore(fetch, Elements(selectors[..i]), s, before, filed);
    }
    assert selectors[..|selectors|] == selectors;
    return Some(filed);
  }

  lemma FileMore<S, R>(fetch: S -> Option<seq<Resource<R>>>, selectors: set<S>, s: S,
                       before: map<string, Resource<R>>, filed: map<string, Resource<R>>)
    requires Files(fetch, selectors, before) && fetch(s).Some? && before.Keys <= filed.Keys
    requires forall id :: id in filed ==>
             filed[id].id == id && ((id in before && filed[id] == before[id]) || filed[id] in fetch(s).value)
    requires forall r :: r in fetch(s).value ==> r.id in filed
    ensures Files(fetch, selectors + {s}, filed)
  {
    forall id | id in filed ensures FoundBy(fetch, selectors + {s}, filed[id]) {
      if id in before && filed[id] == before[id] {
        var t :| t in selectors && fetch(t).Some? && before[id] in fetch(t).value;
        assert t in selectors + {s};
      }
    }
  }

  // lo.Values: the values of a map, in any order.
  method Values<R>(filed: map<string, Resource<R>>) returns (values: seq<Resource<R>>)
    requires forall id :: id in filed ==> filed[id].id == id
    ensures DistinctIds(values)
    ensures forall r :: r in values ==> r.id in filed && filed[r.id] == r
    ensures forall id :: id in filed ==> HasId(values, id)
  {
    values := [];
    var todo := filed.Keys;
    while todo != {}
      invariant todo <= filed.Keys && DistinctIds(values)
      invariant forall r :: r in values ==> r.id in filed && filed[r.id] == r && r.id !in todo
      invariant forall id :: id in filed && id !in todo ==> HasId(values, id)
      decreases todo
    {
      var id :| id in todo;
      todo := todo - {id};
      ghost var before := values;
      values := values + [filed[id]];
      assert filed[id] in values;
      forall other | HasId(before, other) ensures HasId(values, other) {
        var r :| r in before && r.id == other;
        assert r in values;
      }
    }
  }

  // ---- the cache ------------------------------------------------------------------------

  datatype CacheEntry<+R> = CacheEntry(answer: seq<Resource<R>>, storedAt: int)

  // Requests are made in a context C (the VCN, or the image family), of which
  // only a part K goes into the cache key beside the set of selectors.
  class Provider<C(!new), K(==, !new), S(==, !new), R(==, !new)> {
    const api: (int, C) -> (S -> Option<seq<Resource<R>>>)
    const part: C -> K
    var cache: map<(K, set<S>), CacheEntry<R>>
    ghost var asked: set<C>

    constructor (api: (int, C) -> (S -> Option<seq<Resource<R>>>), part: C -> K)
      ensures this.api == api && this.part == part && cache == map[] && asked == {}
      ensures forall now :: Valid(now)
    {
      this.api, this.part, cache, asked := api, part, map[], {};
    }

    // What was right at some time, in a context with this part that was asked for.
    ghost predicate WasAnswer(part: K, selectors: set<S>, answer: seq<Resource<R>>, from: int, to: int)
      reads this
    {
      exists t, c :: from <= t <= to && c in asked && this.part(c) == part && IsAnswer(api(t, c), selectors, answer)
    }

    ghost predicate Valid(now: int)
      reads this
    {
      forall k :: k in cache ==>
        WasAnswer(k.0, k.1, cache[k].answer, cache[k].storedAt, cache[k].storedAt) && cache[k].storedAt <= now
    }

    method List(c: C, selectors: seq<S>, now: int) returns (r: Option<seq<Resource<R>>>)
      requires Valid(now)
      modifies this
      ensures Valid(now) && asked == old(asked) + {c}
      ensures r.Some? ==> WasAnswer(part(c), Elements(selectors), r.value, now - 60_000_000_000, now)
      ensures var k := (part(c), Elements(selectors));
              if k in old(cache) && now <= old(cache)[k].storedAt + 60_000_000_000 then r == Some(old(cache)[k].answer)
                && cache == old(cache)
              else if Fails(api(now, c), k.1) then r.None? && cache == old(cache)
              else r.Some? && IsAnswer(api(now, c), k.1, r.value)
                   && exists stored ::
                        cache == old(cache)[k := CacheEntry(stored, now)] && IsAnswer(api(now, c), k.1, stored)
    {
      var k := (part(c), Elements(selectors));
      asked := asked + {c};
      forall k | k in cache ensures WasAnswer(k.0, k.1, cache[k].answer, cache[k].storedAt, cache[k].storedAt) {
        assert old(WasAnswer(k.0, k.1, cache[k].answer, cache[k].storedAt, cache[k].storedAt));
      }
      if k in cache && now <= cache[k].storedAt + TTL {
        var e := cache[k];
        assert WasAnswer(k.0, k.1, e.answer, e.storedAt, e.storedAt);
        return Some(e.answer);
      }
      r := Refresh(c, selectors, now);
    }

    method Refresh(c: C, selectors: seq<S>, now: int) returns (r: Option<seq<Resource<R>>>)
      requires Valid(now) && c in asked
      modifies `cache
      ensures Valid(now)
      ensures var k := (part(c), Elements(selectors));
              if Fails(api(now, c), k.1) then r.None? && cache == old(cache)
              else r.Some? && IsAnswer(api(now, c), k.1, r.value)
                   && exists stored ::
                        cache == old(cache)[k := CacheEntry(stored, now)] && IsAnswer(api(now, c), k.1, stored)
    {
      var k := (part(c), Elements(selectors));
      var found := Union(selectors, api(now, c));
      if found.None? {
        return None;
      }
      var stored := Answer(api(now, c), Elements(selectors), found.value);
      cache := cache[k := CacheEntry(stored, now)];
      var answer := Answer(api(now, c), Elements(selectors), found.value);
      r := Some(answer);
    }
  }

  method Answer<S(!new), R>(fetch: S -> Option<seq<Resource<R>>>, ghost selectors: set<S>,
                  filed: map<string, Resource<R>>)
    returns (answer: seq<Resource<R>>)
    requires Files(fetch, selectors, filed)
    ensures IsAnswer(fetch, selectors, answer)
  {
    answer := Values(filed);
  }

  // A cached answer agrees with asking the API again, if the API has not changed
  // meanwhile and the cache key tells this context from all others.
  lemma CachedIsCurrent<C(!new), K(!new), S(!new), R(!new)>(p: Provider<C, K, S, R>, c: C, selectors: set<S>,
                          cached: seq<Resource<R>>, asked: seq<Resource<R>>, from: int, to: int)
    requires p.WasAnswer(p.part(c), selectors, cached, from, to) && IsAnswer(p.api(to, c), selectors, asked)
    requires forall t :: from <= t <= to ==> p.api(t, c) == p.api(to, c)
    requires Consistent(p.api(to, c))
    requires forall d :: p.part(d) == p.part(c) ==> d == c
    ensures multiset(cached) == multiset(asked)
  {
    var t, d :| from <= t <= to && d in p.asked && p.part(d) == p.part(c) && IsAnswer(p.api(t, d), selectors, cached);
    AnswersArePermutations(p.api(to, c), selectors, cached, asked);
  }
}
