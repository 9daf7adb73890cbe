// pkg/providers/instance/instance.go: the tags an instance is launched with, and
// the listing that finds the cluster's instances by them.
module Listing {
  import opened Text
  import opened Sequences

  const NODE_POOL := "karpenter.sh/nodepool"
  const MANAGED_BY := "karpenter.sh/managed-by"
  const NODE_CLASS := "karpenter.k8s.oracle/ocinodeclass"
  const NODE_CLAIM := "karpenter.sh/nodeclaim"
  const TAG_LIMIT: nat := 48

  type Tags = map<string, string>
  type DefinedTags = map<string, Tags>

  // ---- tags ---------------------------------------------------------------------------

  function SafeTagKey(key: string): string {
    seq(|key|, i requires 0 <= i < |key| => if key[i] == '.' || key[i] == ' ' then '_' else key[i])
  }

  // Dots and spaces become underscores, and all else stays.
  lemma SafeTagKeyAt(key: string, i: nat)
    requires i < |key|
    ensures |SafeTagKey(key)| == |key|
    ensures SafeTagKey(key)[i] == if key[i] in {'.', ' '} then '_' else key[i]
  {
  }

  lemma StaticKeys()
    ensures SafeTagKey(NODE_POOL) == "karpenter_sh/nodepool" && SafeTagKey(MANAGED_BY) == "karpenter_sh/managed-by"
  {
  }

  lemma MoreStaticKeys()
    ensures SafeTagKey(NODE_CLAIM) == "karpenter_sh/nodeclaim"
    ensures SafeTagKey(NODE_CLASS) == "karpenter_k8s_oracle/ocinodeclass"
  {
  }

  // removeExcludingChars, walking the map in the given order: once the limit is
  // reached nothing more is taken.
  function Cleaned(tags: Tags, order: seq<string>): Tags
    requires forall k :: k in order ==> k in tags
  {
    if order == [] then map[]
    else
      var front, last := Cleaned(tags, order[..|order| - 1]), order[|order| - 1];
      if |front| >= TAG_LIMIT then front else front[SafeTagKey(last) := tags[last]]
  }

  // Everything but what is still to do has been walked.
  ghost predicate Walking(tags: Tags, todo: set<string>, order: seq<string>) {
    NoRepeats(order) && todo <= tags.Keys && forall k :: k in order <==> k in tags && k !in todo
  }

  ghost predicate IsWalk(tags: Tags, order: seq<string>) { Walking(tags, {}, order) }

  lemma WalkOn(tags: Tags, todo: set<string>, order: seq<string>, more: seq<string>)
    requires Walking(tags, todo, order) && NoRepeats(more) && forall k :: k in more ==> k in todo
    ensures Walking(tags, todo - Elements(more), order + more)
  {
    NoRepeatsConcat(order, more);
  }

  // What may be left of the tags, over all orders of the map.
  ghost predicate MayClean(tags: Tags, res: Tags) {
    exists order :: IsWalk(tags, order) && res == Cleaned(tags, order)
  }

  lemma {:induction false} CleanedBound(tags: Tags, order: seq<string>)
    requires forall k :: k in order ==> k in tags
    ensures |Cleaned(tags, order)| <= |order|
  {
    if order != [] { CleanedBound(tags, order[..|order| - 1]); }
  }

  // At most 48 are left; of tags whose cleaned keys differ, as many as there are,
  // or 48.
  lemma {:induction false} CleanedSize(tags: Tags, order: seq<string>)
    requires forall k :: k in order ==> k in tags
    ensures |Cleaned(tags, order)| <= 48
    ensures DistinctBy(order, Cleaner()) ==> |Cleaned(tags, order)| == if |order| <= 48 then |order| else 48
  {
    if order != [] {
      var front, last := order[..|order| - 1], order[|order| - 1];
      CleanedSize(tags, front);
      assert order == front + [last];
      if SafeTagKey(last) in Cleaned(tags, front) {
        var origin := CleanedFrom(tags, front, SafeTagKey(last));
        assert Cleaner()(origin) == Cleaner()(last);
      }
    }
  }

  function Cleaner(): string -> string { (key: string) => SafeTagKey(key) }

  // Whatever is left comes from one of the tags.
  lemma {:induction false} CleanedFrom(tags: Tags, order: seq<string>, key: string) returns (origin: string)
    requires (forall k :: k in order ==> k in tags) && key in Cleaned(tags, order)
    ensures origin in order && SafeTagKey(origin) == key && tags[origin] == Cleaned(tags, order)[key]
  {
    var front, last := order[..|order| - 1], order[|order| - 1];
    if |Cleaned(tags, front)| < TAG_LIMIT && SafeTagKey(last) == key {
      origin := last;
    } else {
      origin := CleanedFrom(tags, front, key);
    }
  }

  // Within the limit every tag is represented.
  lemma {:induction false} CleanedKeepsKey(tags: Tags, order: seq<string>, k: string)
    requires (forall k :: k in order ==> k in tags) && k in order && |order| <= 48
    ensures SafeTagKey(k) in Cleaned(tags, order)
  {
    var front, last := order[..|order| - 1], order[|order| - 1];
    CleanedBound(tags, front);
    if k != last {
      assert order == front + [last];
      CleanedKeepsKey(tags, front, k);
    }
  }

  // Tags under other keys change nothing.
  lemma {:induction false} CleanedIgnores(tags: Tags, order: seq<string>, more: seq<string>, key: string)
    requires (forall k :: k in order + more ==> k in tags) && key in Cleaned(tags, order)
    requires forall k :: k in more ==> SafeTagKey(k) != key
    ensures key in Cleaned(tags, order + more) && Cleaned(tags, order + more)[key] == Cleaned(tags, order)[key]
    decreases |more|
  {
    if more == [] {
      assert order + more == order;
    } else {
      var front := more[..|more| - 1];
      assert (order + more)[..|order + more| - 1] == order + front;
      assert more[|more| - 1] in more;
      CleanedIgnores(tags, order, front, key);
    }
  }

  // Some walk lets a given tag have the last word on its key.
  lemma LastWord(tags: Tags, k: string) returns (order: seq<string>)
    requires k in tags
    ensures IsWalk(tags, order)
    ensures SafeTagKey(k) in Cleaned(tags, order) && Cleaned(tags, order)[SafeTagKey(k)] == tags[k]
  {
    var rivals := Enumerate(set r | r in tags && r != k && SafeTagKey(r) == SafeTagKey(k));
    var rest := Enumerate(set r | r in tags && SafeTagKey(r) != SafeTagKey(k));
    NoRepeatsConcat(rivals, [k]);
    NoRepeatsConcat(rivals + [k], rest);
    HasLastWord(tags, rivals, k);
    order := rivals + [k] + rest;
    CleanedIgnores(tags, rivals + [k], rest, SafeTagKey(k));
  }

  lemma HasLastWord(tags: Tags, rivals: seq<string>, k: string)
    requires k in tags && forall r :: r in rivals ==> r in tags && SafeTagKey(r) == SafeTagKey(k)
    ensures SafeTagKey(k) in Cleaned(tags, rivals + [k]) && Cleaned(tags, rivals + [k])[SafeTagKey(k)] == tags[k]
  {
    OneKey(tags, rivals, SafeTagKey(k));
    assert (rivals + [k])[..|rivals|] == rivals;
  }

  lemma {:induction false} OneKey(tags: Tags, order: seq<string>, key: string)
    requires forall k :: k in order ==> k in tags && SafeTagKey(k) == key
    ensures Cleaned(tags, order).Keys <= {key} && |Cleaned(tags, order)| <= 1
  {
    var cleaned := Cleaned(tags, order);
    forall s | s in cleaned ensures s == key {
      var origin := CleanedFrom(tags, order, s);
    }
    if cleaned != map[] {
      assert cleaned.Keys == {key};
      assert |cleaned| == |cleaned.Keys|;
    }
  }

  method RemoveExcludingChars(tags: Tags) returns (res: Tags)
    ensures MayClean(tags, res)
  {
    res := map[];
    var todo := tags.Keys;
    ghost var order: seq<string> := [];
    while todo != {}
      invariant Walking(tags, todo, order) && res == Cleaned(tags, order) && |res| < TAG_LIMIT
      decreases todo
    {
      var key :| key in todo;
      WalkOn(tags, todo, order, [key]);
      assert todo - Elements([key]) == todo - {key};
      assert (order + [key])[..|order|] == order;
      todo, order := todo - {key}, order + [key];
      res := res[SafeTagKey(key) := tags[key]];
      if |res| >= TAG_LIMIT {
        FullEnough(tags, todo, order);
        return;
      }
    }
    assert IsWalk(tags, order);
  }

  lemma FullEnough(tags: Tags, todo: set<string>, order: seq<string>)
    requires Walking(tags, todo, order) && |Cleaned(tags, order)| >= TAG_LIMIT
    ensures MayClean(tags, Cleaned(tags, order))
  {
    var more := Enumerate(todo);
    WalkOn(tags, todo, order, more);
    assert todo - Elements(more) == {};
    FullStop(tags, order, more);
  }

  lemma {:induction false} FullStop(tags: Tags, order: seq<string>, more: seq<string>)
    requires (forall k :: k in order + more ==> k in tags) && |Cleaned(tags, order)| >= TAG_LIMIT
    ensures Cleaned(tags, order + more) == Cleaned(tags, order)
    decreases |more|
  {
    if more == [] {
      assert order + more == order;
    } else {
      assert (order + more)[..|order + more| - 1] == order + more[..|more| - 1];
      FullStop(tags, order, more[..|more| - 1]);
    }
  }

  // ---- getTags --------------------------------------------------------------------------

  function StaticTags(cluster: string, nodePool: string, nodeClass: string, nodeClaim: string): Tags {
    map[NODE_POOL := nodePool, MANAGED_BY := cluster, NODE_CLASS := nodeClass, NODE_CLAIM := nodeClaim]
  }

  // The tags of one namespace: the static ones, overridden by the user's.
  ghost predicate MayHold(namespace: string, statics: Tags, user: DefinedTags, n: string, tags: Tags) {
    exists own, theirs ::
      && (if n == namespace then MayClean(statics, own) else own == map[])
      && (if n in user then MayClean(user[n], theirs) else theirs == map[])
      && tags == own + theirs
  }

  ghost predicate MayTag(namespace: string, statics: Tags, user: DefinedTags, tags: DefinedTags) {
    && tags.Keys == user.Keys + {namespace}
    && forall n :: n in tags ==> MayHold(namespace, statics, user, n, tags[n])
  }

  method GetTags(namespace: string, statics: Tags, user: DefinedTags) returns (tags: DefinedTags)
    ensures MayTag(namespace, statics, user, tags)
  {
    var own := RemoveExcludingChars(statics);
    tags := map[namespace := own];
    var todo := user.Keys;
    while todo != {}
      invariant TagsSoFar(namespace, statics, user, own, todo, tags)
      decreases todo
    {
      var n :| n in todo;
      var theirs := RemoveExcludingChars(user[n]);
      TagsNext(namespace, statics, user, own, todo, tags, n, theirs);
      tags := tags[n := (if n in tags then tags[n] else map[]) + theirs];
      todo := todo - {n};
    }
    if namespace !in user {
      HoldsBoth(namespace, statics, user, namespace, own, map[]);
      assert own + map[] == own;
    }
  }

  // The namespaces not in todo have been tagged.
  ghost predicate TagsSoFar(namespace: string, statics: Tags, user: DefinedTags, own: Tags, todo: set<string>,
                            tags: DefinedTags) {
    && todo <= user.Keys && tags.Keys == {namespace} + (user.Keys - todo) && MayClean(statics, own)
    && (forall n :: n in user && n !in todo ==> MayHold(namespace, statics, user, n, tags[n]))
    && (namespace in todo || namespace !in user ==> tags[namespace] == own)
  }

  lemma TagsNext(namespace: string, statics: Tags, user: DefinedTags, own: Tags, todo: set<string>, tags: DefinedTags,
                 n: string, theirs: Tags)
    requires TagsSoFar(namespace, statics, user, own, todo, tags) && n in todo && MayClean(user[n], theirs)
    ensures TagsSoFar(namespace, statics, user, own, todo - {n},
                      tags[n := (if n in tags then tags[n] else map[]) + theirs])
  {
    HoldsBoth(namespace, statics, user, n, own, theirs);
  }

  lemma HoldsBoth(namespace: string, statics: Tags, user: DefinedTags, n: string, own: Tags, theirs: Tags)
    requires MayClean(statics, own)
    requires if n in user then MayClean(user[n], theirs) else theirs == map[]
    ensures MayHold(namespace, statics, user, n, (if n == namespace then own else map[]) + theirs)
  {
  }

  predicate Managed(namespace: string, cluster: string, tags: DefinedTags) {
    namespace in tags && SafeTagKey(MANAGED_BY) in tags[namespace] && tags[namespace][SafeTagKey(MANAGED_BY)] == cluster
  }

  lemma ManagedIs(namespace: string, cluster: string, tags: DefinedTags)
    ensures Managed(namespace, cluster, tags) <==>
            && namespace in tags && "karpenter_sh/managed-by" in tags[namespace]
            && tags[namespace]["karpenter_sh/managed-by"] == cluster
  {
    StaticKeys();
  }

  // No tag of the user's turns into the managed-by key with another value.
  predicate LeavesManagedBy(namespace: string, cluster: string, user: DefinedTags) {
    namespace in user ==> forall k :: k in user[namespace] && SafeTagKey(k) == SafeTagKey(MANAGED_BY) ==>
      user[namespace][k] == cluster
  }

  lemma StaticsManaged(cluster: string, nodePool: string, nodeClass: string, nodeClaim: string, res: Tags)
    requires MayClean(StaticTags(cluster, nodePool, nodeClass, nodeClaim), res)
    ensures SafeTagKey(MANAGED_BY) in res && res[SafeTagKey(MANAGED_BY)] == cluster
  {
    var tags := StaticTags(cluster, nodePool, nodeClass, nodeClaim);
    StaticsApart(cluster, nodePool, nodeClass, nodeClaim);
    CleanedKeeps(tags, MANAGED_BY, res);
  }

  // Without tags of the user's, an instance carries the four of its own.
  lemma OwnTagsOnly(namespace: string, cluster: string, nodePool: string, nodeClass: string, nodeClaim: string,
                    tags: DefinedTags)
    requires MayTag(namespace, StaticTags(cluster, nodePool, nodeClass, nodeClaim), map[], tags)
    ensures tags == map[namespace := map["karpenter_sh/nodepool" := nodePool, "karpenter_sh/managed-by" := cluster,
                                         "karpenter_k8s_oracle/ocinodeclass" := nodeClass,
                                         "karpenter_sh/nodeclaim" := nodeClaim]]
  {
    var statics := StaticTags(cluster, nodePool, nodeClass, nodeClaim);
    assert MayHold(namespace, statics, map[], namespace, tags[namespace]);
    var own, theirs :| MayClean(statics, own) && theirs == map[] && tags[namespace] == own + theirs;
    assert tags[namespace] == own;
    StaticsCleaned(cluster, nodePool, nodeClass, nodeClaim, own);
  }

  lemma StaticsCleaned(cluster: string, nodePool: string, nodeClass: string, nodeClaim: string, res: Tags)
    requires MayClean(StaticTags(cluster, nodePool, nodeClass, nodeClaim), res)
    ensures res == map["karpenter_sh/nodepool" := nodePool, "karpenter_sh/managed-by" := cluster,
                       "karpenter_k8s_oracle/ocinodeclass" := nodeClass, "karpenter_sh/nodeclaim" := nodeClaim]
  {
    StaticKeys();
    MoreStaticKeys();
    StaticsApart(cluster, nodePool, nodeClass, nodeClaim);
    FourCleaned(StaticTags(cluster, nodePool, nodeClass, nodeClaim), NODE_POOL, MANAGED_BY, NODE_CLASS, NODE_CLAIM,
      res);
  }

  lemma FourCleaned(tags: Tags, a: string, b: string, c: string, d: string, res: Tags)
    requires MayClean(tags, res) && |tags| <= TAG_LIMIT && tags.Keys == {a, b, c, d}
    requires forall k, l :: k in tags && l in tags && |k| == |l| ==> k == l
    ensures res == map[SafeTagKey(a) := tags[a], SafeTagKey(b) := tags[b], SafeTagKey(c) := tags[c],
                       SafeTagKey(d) := tags[d]]
  {
    forall k | k in tags ensures Cleaner()(k) in res && res[Cleaner()(k)] == tags[k] { CleanedKeeps(tags, k, res); }
    OnlyCleaned(tags, res);
    forall key | key in res ensures exists k :: k in tags && Cleaner()(k) == key {
      var k :| k in tags && SafeTagKey(k) == key;
      assert Cleaner()(k) == key;
    }
    FourMapped(tags, Cleaner(), a, b, c, d, res);
  }

  lemma FourMapped(tags: Tags, f: string -> string, a: string, b: string, c: string, d: string, res: Tags)
    requires tags.Keys == {a, b, c, d} && forall k :: k in tags ==> f(k) in res && res[f(k)] == tags[k]
    requires forall key :: key in res ==> exists k :: k in tags && f(k) == key
    ensures a in tags && b in tags && c in tags && d in tags
    ensures res == map[f(a) := tags[a], f(b) := tags[b], f(c) := tags[c], f(d) := tags[d]]
  {
    assert a in tags && b in tags && c in tags && d in tags;
    var four := map[f(a) := tags[a], f(b) := tags[b], f(c) := tags[c], f(d) := tags[d]];
    forall key ensures key in res <==> key in four {
      if key in res {
        var k :| k in tags && f(k) == key;
        assert k in {a, b, c, d};
      }
    }
  }

  // Nothing comes from elsewhere.
  lemma OnlyCleaned(tags: Tags, res: Tags)
    requires MayClean(tags, res)
    ensures forall key :: key in res ==> exists k :: k in tags && SafeTagKey(k) == key
  {
    var order :| IsWalk(tags, order) && res == Cleaned(tags, order);
    forall key | key in res ensures exists k :: k in tags && SafeTagKey(k) == key {
      var origin := CleanedFrom(tags, order, key);
    }
  }

  // No two static keys are of one length.
  lemma StaticsApart(cluster: string, nodePool: string, nodeClass: string, nodeClaim: string)
    ensures var tags := StaticTags(cluster, nodePool, nodeClass, nodeClaim);
            && |tags| <= TAG_LIMIT && tags.Keys == {NODE_POOL, MANAGED_BY, NODE_CLASS, NODE_CLAIM}
            && tags[NODE_POOL] == nodePool && tags[MANAGED_BY] == cluster && tags[NODE_CLASS] == nodeClass
            && tags[NODE_CLAIM] == nodeClaim
            && forall k, l :: k in tags && l in tags && |k| == |l| ==> k == l
  {
    var tags := StaticTags(cluster, nodePool, nodeClass, nodeClaim);
    assert |NODE_POOL| == 21 && |NODE_CLAIM| == 22 && |MANAGED_BY| == 23 && |NODE_CLASS| == 33;
    assert tags.Keys == {NODE_POOL, MANAGED_BY, NODE_CLASS, NODE_CLAIM};
  }

  // Within the limit a key without rivals of its length keeps its value.
  lemma CleanedKeeps(tags: Tags, key: string, res: Tags)
    requires MayClean(tags, res) && |tags| <= TAG_LIMIT && key in tags
    requires forall k :: k in tags && |k| == |key| ==> k == key
    ensures SafeTagKey(key) in res && res[SafeTagKey(key)] == tags[key]
  {
    var order :| IsWalk(tags, order) && res == Cleaned(tags, order);
    WalkLength(tags, order);
    CleanedKeepsKey(tags, order, key);
    var origin := CleanedFrom(tags, order, SafeTagKey(key));
    assert |origin| == |SafeTagKey(origin)|;
  }

  lemma WalkLength(tags: Tags, order: seq<string>)
    requires IsWalk(tags, order)
    ensures |order| == |tags|
  {
    NoRepeatsCount(order);
    assert tags.Keys == Elements(order);
  }

  lemma AnyCleaning(tags: Tags) returns (res: Tags)
    ensures MayClean(tags, res)
  {
    var order := Enumerate(tags.Keys);
    assert IsWalk(tags, order);
    res := Cleaned(tags, order);
  }

  lemma {:induction false} AnyTags(namespace: string, statics: Tags, user: DefinedTags, names: set<string>)
    returns (tags: DefinedTags)
    ensures tags.Keys == names && forall n :: n in tags ==> MayHold(namespace, statics, user, n, tags[n])
    decreases names
  {
    tags := map[];
    if names != {} {
      var n :| n in names;
      tags := AnyTags(namespace, statics, user, names - {n});
      var own, theirs: Tags := map[], map[];
      if n == namespace { own := AnyCleaning(statics); }
      if n in user { theirs := AnyCleaning(user[n]); }
      assert MayHold(namespace, statics, user, n, own + theirs);
      tags := tags[n := own + theirs];
    }
  }

  // Every instance launched is found again by its tags, whatever order the maps
  // are walked in, exactly when the user's tags leave the managed-by key alone.
  lemma TaggedIsManagedExactly(namespace: string, cluster: string, nodePool: string, nodeClass: string,
                               nodeClaim: string, user: DefinedTags)
    ensures LeavesManagedBy(namespace, cluster, user)
            <==> forall tags :: MayTag(namespace, StaticTags(cluster, nodePool, nodeClass, nodeClaim), user, tags) ==>
                 Managed(namespace, cluster, tags)
  {
    var statics, key := StaticTags(cluster, nodePool, nodeClass, nodeClaim), SafeTagKey(MANAGED_BY);
    if LeavesManagedBy(namespace, cluster, user) {
      forall tags | MayTag(namespace, statics, user, tags) ensures Managed(namespace, cluster, tags) {
        TagsManaged(namespace, cluster, nodePool, nodeClass, nodeClaim, user, tags);
      }
    } else {
      var k :| k in user[namespace] && SafeTagKey(k) == key && user[namespace][k] != cluster;
      var tags := Overridden(namespace, cluster, statics, user, k, key);
    }
  }

  lemma Overridden(namespace: string, cluster: string, statics: Tags, user: DefinedTags, k: string, key: string)
    returns (tags: DefinedTags)
    requires namespace in user && k in user[namespace] && SafeTagKey(k) == key && user[namespace][k] != cluster
    ensures MayTag(namespace, statics, user, tags) && key in tags[namespace] && tags[namespace][key] != cluster
  {
    var order := LastWord(user[namespace], k);
    var own := AnyCleaning(statics);
    var theirs := Cleaned(user[namespace], order);
    tags := AnyTags(namespace, statics, user, user.Keys);
    tags := tags[namespace := own + theirs];
    assert MayHold(namespace, statics, user, namespace, own + theirs);
  }

  // For instance a user's own managed-by tag.
  lemma ManagedByOverridden(namespace: string, cluster: string, other: string, statics: Tags)
    returns (tags: DefinedTags)
    requires other != cluster
    ensures MayTag(namespace, statics, map[namespace := map[MANAGED_BY := other]], tags)
    ensures !Managed(namespace, cluster, tags)
  {
    tags := Overridden(namespace, cluster, statics, map[namespace := map[MANAGED_BY := other]], MANAGED_BY,
                       SafeTagKey(MANAGED_BY));
  }

  lemma TagsManaged(namespace: string, cluster: string, nodePool: string, nodeClass: string, nodeClaim: string,
                    user: DefinedTags, tags: DefinedTags)
    requires LeavesManagedBy(namespace, cluster, user)
    requires MayTag(namespace, StaticTags(cluster, nodePool, nodeClass, nodeClaim), user, tags)
    ensures Managed(namespace, cluster, tags)
  {
    var statics, key := StaticTags(cluster, nodePool, nodeClass, nodeClaim), SafeTagKey(MANAGED_BY);
    assert MayHold(namespace, statics, user, namespace, tags[namespace]);
    var own, theirs :| MayClean(statics, own)
                       && (if namespace in user then MayClean(user[namespace], theirs) else theirs == map[])
                       && tags[namespace] == own + theirs;
    StaticsManaged(cluster, nodePool, nodeClass, nodeClaim, own);
    if key in theirs {
      var order :| IsWalk(user[namespace], order) && theirs == Cleaned(user[namespace], order);
      var origin := CleanedFrom(user[namespace], order, key);
    }
  }

  // ---- listing -------------------------------------------------------------------------------

  datatype Instance = Instance(id: string, tags: DefinedTags)

  datatype Page = Page(items: seq<Instance>, next: Option<string>)

  // What the API answers for a page token; None is an error.
  type Pager = string -> Option<Page>

  function Next(p: Page): string { match p.next case Some(t) => t case None => "" }

  // The tokens of the pages as the API chains them: None past the last page or
  // past an error.
  function Chain(pager: Pager, n: nat): Option<string> {
    if n == 0 then Some("")
    else match Chain(pager, n - 1)
      case None => None
      case Some(t) =>
        match pager(t)
        case None => None
        case Some(p) => if Next(p) == "" then None else Some(Next(p))
  }

  // The chain has n pages, and "0" is not one of its tokens.
  ghost predicate Ends(pager: Pager, n: nat) {
    Chain(pager, n).None? && forall k: nat :: k < n ==> Chain(pager, k).Some? && Chain(pager, k) != Some("0")
  }

  // The items of the first n pages.
  function Collected(pager: Pager, n: nat): seq<Instance> {
    if n == 0 then []
    else
      Collected(pager, n - 1) +
      match Chain(pager, n - 1)
      case None => []
      case Some(t) => match pager(t) case Some(p) => p.items case None => []
  }

  function Filtered(items: seq<Instance>, namespace: string, cluster: string): seq<Instance> {
    if items == [] then []
    else
      var front, last := Filtered(items[..|items| - 1], namespace, cluster), items[|items| - 1];
      if Managed(namespace, cluster, last.tags) then front + [last] else front
  }

  lemma {:induction false} FilteredConcat(a: seq<Instance>, b: seq<Instance>, namespace: string, cluster: string)
    ensures Filtered(a + b, namespace, cluster) == Filtered(a, namespace, cluster) + Filtered(b, namespace, cluster)
    decreases |b|
  {
    if b == [] {
      assert a + b == a;
    } else {
      assert (a + b)[..|a + b| - 1] == a + b[..|b| - 1];
      FilteredConcat(a, b[..|b| - 1], namespace, cluster);
    }
  }

  lemma {:induction false} FilteredMember(items: seq<Instance>, namespace: string, cluster: string, i: Instance)
    ensures i in Filtered(items, namespace, cluster) <==> i in items && Managed(namespace, cluster, i.tags)
  {
    if items != [] {
      FilteredMember(items[..|items| - 1], namespace, cluster, i);
      assert items == items[..|items| - 1] + [items[|items| - 1]];
    }
  }

  lemma EndsUnique(pager: Pager, n: nat)
    requires Ends(pager, n)
    ensures n > 0 && forall m: nat :: Ends(pager, m) ==> m == n
  {
    assert Chain(pager, 0).Some?;
    forall m: nat | Ends(pager, m) ensures m == n {
      assert m < n ==> Chain(pager, m).Some?;
      assert n < m ==> Chain(pager, n).Some?;
    }
  }

  // ---- when the loop ends ------------------------------------------------------------------

  // "0" stands for the first page.
  function Asked(token: string): string { if token == "0" then "" else token }

  // The loop's variable before its n-th round; None when it has ended or failed.
  function Round(pager: Pager, n: nat): Option<string> {
    if n == 0 then Some("0")
    else match Round(pager, n - 1)
      case None => None
      case Some(t) =>
        match pager(Asked(t))
        case None => None
        case Some(p) => if Next(p) == "" then None else Some(Next(p))
  }

  ghost predicate LoopEnds(pager: Pager) { exists n :: Round(pager, n).None? }

  ghost predicate NoZero(pager: Pager, n: nat) {
    forall k: nat :: k <= n ==> Chain(pager, k) != Some("0")
  }

  lemma {:induction false} RoundIsChain(pager: Pager, n: nat)
    requires n > 0 && NoZero(pager, n - 1)
    ensures Round(pager, n) == Chain(pager, n)
  {
    if n > 1 { RoundIsChain(pager, n - 1); }
  }

  // A token "0" sends the loop back to the first page.
  lemma {:induction false} RoundsRepeat(pager: Pager, k: nat, n: nat)
    requires Round(pager, k) == Some("0")
    ensures Round(pager, k + n) == Round(pager, n)
  {
    if n > 0 { RoundsRepeat(pager, k, n - 1); }
  }

  lemma {:induction false} RoundsGoOn(pager: Pager, k: nat, n: nat)
    requires k > 0 && Round(pager, k) == Some("0")
    ensures Round(pager, n).Some?
    decreases n
  {
    if n < k {
      RoundSome(pager, n, k);
    } else {
      RoundsRepeat(pager, k, n - k);
      RoundsGoOn(pager, k, n - k);
    }
  }

  lemma {:induction false} RoundSome(pager: Pager, n: nat, k: nat)
    requires n <= k && Round(pager, k).Some?
    ensures Round(pager, n).Some?
  {
    if n < k { RoundSome(pager, n, k - 1); }
  }

  lemma {:induction false} ChainSome(pager: Pager, n: nat, k: nat)
    requires n <= k && Chain(pager, k).Some?
    ensures Chain(pager, n).Some?
  {
    if n < k { ChainSome(pager, n, k - 1); }
  }

  // The first index up to n with this property of the chain.
  lemma {:induction false} FirstZero(pager: Pager, n: nat) returns (k: nat)
    requires !NoZero(pager, n)
    ensures k <= n && Chain(pager, k) == Some("0") && (k > 0 ==> NoZero(pager, k - 1))
  {
    if n > 0 && !NoZero(pager, n - 1) {
      k := FirstZero(pager, n - 1);
    } else {
      k := n;
    }
  }

  lemma {:induction false} FirstNone(pager: Pager, n: nat) returns (k: nat)
    requires Chain(pager, n).None?
    ensures 0 < k <= n && Chain(pager, k).None? && Chain(pager, k - 1).Some?
  {
    if Chain(pager, n - 1).None? {
      k := FirstNone(pager, n - 1);
    } else {
      k := n;
    }
  }

  lemma ZeroNeverEnds(pager: Pager, n: nat)
    requires !NoZero(pager, n)
    ensures !LoopEnds(pager)
  {
    var k := FirstZero(pager, n);
    RoundIsChain(pager, k);
    forall m: nat ensures Round(pager, m).Some? { RoundsGoOn(pager, k, m); }
  }

  // Listing ends, with the last page or an error, exactly when the chain of
  // pages is finite and "0" is none of its tokens.
  lemma ListingEndsExactly(pager: Pager)
    ensures LoopEnds(pager) <==> exists n :: Ends(pager, n)
  {
    forall n: nat | Ends(pager, n) ensures Round(pager, n).None? {
      EndsUnique(pager, n);
      assert NoZero(pager, n - 1);
      RoundIsChain(pager, n);
    }
    if LoopEnds(pager) {
      var n :| Round(pager, n).None?;
      if !NoZero(pager, n) { ZeroNeverEnds(pager, n); }
      if n > 0 { RoundIsChain(pager, n); }
      var k := FirstNone(pager, n);
      forall j: nat | j < k ensures Chain(pager, j).Some? { ChainSome(pager, j, k - 1); }
      assert Ends(pager, k);
    }
  }

  ghost predicate IsListed(pager: Pager, n: nat, namespace: string, cluster: string, r: Listed) {
    && n > 0 && Chain(pager, n - 1).Some?
    && r == if pager(Chain(pager, n - 1).value).None? then Failed
       else Found(Filtered(Collected(pager, n), namespace, cluster))
  }

  // ---- the loop -----------------------------------------------------------------------------

  datatype Listed = Found(instances: seq<Instance>) | Failed | StillRunning

  // What the loop has gathered before its n-th round.
  function Gathered(pager: Pager, n: nat): seq<Instance> {
    if n == 0 then []
    else
      Gathered(pager, n - 1) +
      match Round(pager, n - 1)
      case None => []
      case Some(t) => match pager(Asked(t)) case Some(p) => p.items case None => []
  }

  lemma {:induction false} GatheredIsCollected(pager: Pager, n: nat)
    requires forall k: nat :: k < n ==> AsksChain(pager, k)
    ensures Gathered(pager, n) == Collected(pager, n)
  {
    if n > 0 {
      GatheredIsCollected(pager, n - 1);
      assert AsksChain(pager, n - 1);
    }
  }

  // The k-th round asks for the k-th page of the chain.
  ghost predicate AsksChain(pager: Pager, k: nat) {
    Round(pager, k).Some? && Chain(pager, k) == Some(Asked(Round(pager, k).value))
  }

  ghost predicate Holds(pager: Pager, i: nat, namespace: string, cluster: string, found: seq<Instance>) {
    found == Filtered(Gathered(pager, i), namespace, cluster)
  }

  lemma RoundNext(pager: Pager, i: nat, nextPage: string, namespace: string, cluster: string)
    requires Round(pager, i) == Some(nextPage)
    ensures var resp := pager(Asked(nextPage));
            && (Served(pager, i) <==> resp.Some?)
            && Round(pager, i + 1) == (if resp.None? || Next(resp.value) == "" then None else Some(Next(resp.value)))
            && (resp.Some? ==> forall found :: Holds(pager, i, namespace, cluster, found) ==>
                  Holds(pager, i + 1, namespace, cluster, found + Filtered(resp.value.items, namespace, cluster)))
  {
    var resp := pager(Asked(nextPage));
    if resp.Some? {
      FilteredConcat(Gathered(pager, i), resp.value.items, namespace, cluster);
    }
  }

  // For instance a pager of two pages whose token happens to be "0".
  lemma ZeroTokenRunsOn(items: seq<Instance>, more: seq<Instance>)
    ensures var pager := (token: string) => if token == "" then Some(Page(items, Some("0")))
            else Some(Page(more, None));
            Chain(pager, 2).None? && !LoopEnds(pager)
  {
    var pager := (token: string) => if token == "" then Some(Page(items, Some("0"))) else Some(Page(more, None));
    assert Chain(pager, 0) == Some("") && Chain(pager, 1) == Some("0");
    ZeroNeverEnds(pager, 1);
  }

  // The managed instances of all pages, or an error if the last page is one,
  // as far as the loop gets in so many rounds.
  method List(pager: Pager, namespace: string, cluster: string, rounds: nat) returns (r: Listed)
    ensures r == StillRunning <==> Round(pager, rounds).Some?
    ensures r != StillRunning ==>
            exists n: nat :: n <= rounds && Ends(pager, n) && IsListed(pager, n, namespace, cluster, r)
  {
    var nextPage, i := "0", 0;
    var found: seq<Instance> := [];
    while nextPage != "" && i < rounds
      invariant i <= rounds && (if nextPage == "" then Round(pager, i).None? else Round(pager, i) == Some(nextPage))
      invariant i > 0 ==> Served(pager, i - 1)
      invariant Holds(pager, i, namespace, cluster, found)
      decreases rounds - i
    {
      var resp := pager(Asked(nextPage));
      RoundNext(pager, i, nextPage, namespace, cluster);
      if resp.None? {
        RoundsEnded(pager, i + 1, rounds, namespace, cluster);
        return Failed;
      }
      found := found + Filtered(resp.value.items, namespace, cluster);
      nextPage := Next(resp.value);
      i := i + 1;
    }
    if nextPage != "" {
      return StillRunning;
    }
    RoundsEnded(pager, i, rounds, namespace, cluster);
    r := Found(found);
  }

  // The k-th round gets its page.
  ghost predicate Served(pager: Pager, k: nat) {
    Round(pager, k).Some? && pager(Asked(Round(pager, k).value)).Some?
  }

  // Once the loop has ended it has been through the chain.
  lemma RoundsEnded(pager: Pager, n: nat, rounds: nat, namespace: string, cluster: string)
    requires 0 < n <= rounds && Round(pager, n).None? && Round(pager, n - 1).Some?
    ensures Round(pager, rounds).None? && Ends(pager, n)
    ensures IsListed(pager, n, namespace, cluster,
                     if Served(pager, n - 1) then Found(Filtered(Gathered(pager, n), namespace, cluster)) else Failed)
  {
    if Round(pager, rounds).Some? { RoundSome(pager, n, rounds); }
    if !NoZero(pager, n) { ZeroNeverEnds(pager, n); }
    forall k: nat | k < n ensures AsksChain(pager, k) {
      RoundSome(pager, k, n - 1);
      if k > 0 { RoundIsChain(pager, k); }
    }
    RoundIsChain(pager, n);
    GatheredIsCollected(pager, n);
    forall k: nat | k < n ensures Chain(pager, k).Some? && Chain(pager, k) != Some("0") {
      assert AsksChain(pager, k);
    }
    assert AsksChain(pager, n - 1);
  }

  // The listing holds exactly the cluster's instances among all pages.
  lemma ListsExactlyManaged(pager: Pager, n: nat, namespace: string, cluster: string, i: Instance)
    requires Ends(pager, n)
    ensures i in Filtered(Collected(pager, n), namespace, cluster)
            <==> Managed(namespace, cluster, i.tags)
                 && exists k: nat :: k < n && OnPage(pager, k, i)
  {
    FilteredMember(Collected(pager, n), namespace, cluster, i);
    CollectedMember(pager, n, i);
  }

  predicate OnPage(pager: Pager, k: nat, i: Instance) {
    Chain(pager, k).Some? && pager(Chain(pager, k).value).Some? && i in pager(Chain(pager, k).value).value.items
  }

  lemma {:induction false} CollectedMember(pager: Pager, n: nat, i: Instance)
    ensures i in Collected(pager, n) <==> exists k: nat :: k < n && OnPage(pager, k, i)
  {
    if n > 0 {
      CollectedMember(pager, n - 1, i);
      assert i in Collected(pager, n) <==> i in Collected(pager, n - 1) || OnPage(pager, n - 1, i);
    }
  }
}
