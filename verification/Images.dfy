// pkg/providers/imagefamily and pkg/controllers/nodeclass/status/image.go: which
// images a NodeClass selects, the order they are kept in, and the one an
// instance type is launched from.
module Images {
  import opened Text
  import opened Scheduling
  import opened Sequences
  import opened Sorting
  import opened Selectors

  const ARCH := "kubernetes.io/arch"
  const GPU := "karpenter.k8s.oracle/instance-gpu"
  const ORACLE_OKE_LINUX := "OracleOKELinux"
  const ARM_SHAPES :=
    ["BM.Standard.A1.160", "VM.Standard.A1.Flex", "VM.Standard.A2.Flex", "BM.Standard.A4.48", "VM.Standard.A4.Flex"]

  // ---- what an image asks of an instance type ----------------------------------------

  function ArchOf(imageName: string): string {
    if Contains(ToLower(imageName), "aarch64") then "arm64" else "amd64"
  }

  function RequirementsForImage(family: string, imageName: string): Requirements {
    if family != ORACLE_OKE_LINUX then map[]
    else if Contains(ToLower(imageName), "gpu") then map[ARCH := OneOf({ArchOf(imageName)}), GPU := Anything]
    else map[ARCH := OneOf({ArchOf(imageName)})]
  }

  // What computeRequirements says of a shape under these two labels.
  function TypeLabels(shape: string, gpus: int): Requirements {
    map[ARCH := OneOf({if shape in ARM_SHAPES then "arm64" else "amd64"}),
      GPU := OneOf(if gpus != 0 then {Itoa(gpus)} else {})]
  }

  // An OKE image suits a type of its architecture, and a GPU image only a type
  // with GPUs; a type with GPUs may still be given an image without.
  lemma ImageSuitsType(imageName: string, shape: string, gpus: int, wellKnown: set<string>)
    ensures Compatible(TypeLabels(shape, gpus), RequirementsForImage(ORACLE_OKE_LINUX, imageName), wellKnown)
            <==> (Contains(ToLower(imageName), "aarch64") <==>
                  shape in ["BM.Standard.A1.160", "VM.Standard.A1.Flex", "VM.Standard.A2.Flex", "BM.Standard.A4.48",
                            "VM.Standard.A4.Flex"])
                 && (Contains(ToLower(imageName), "gpu") ==> gpus != 0)
  {
    var mine, theirs := TypeLabels(shape, gpus), RequirementsForImage(ORACLE_OKE_LINUX, imageName);
    var arch := if shape in ARM_SHAPES then "arm64" else "amd64";
    assert mine[ARCH] == OneOf({arch}) && theirs[ARCH] == OneOf({ArchOf(imageName)});
    assert Meets(mine[ARCH], theirs[ARCH]) <==> arch == ArchOf(imageName) by {
      if arch == ArchOf(imageName) { assert arch in {arch} * {ArchOf(imageName)}; }
    }
    assert Meets(mine[GPU], Anything) <==> gpus != 0 by {
      if gpus != 0 { assert Itoa(gpus) in {Itoa(gpus)}; }
    }
    assert ARCH[1] != GPU[1];
  }

  // An image of another family asks for nothing.
  lemma OtherImageSuitsAll(family: string, imageName: string, typeReqs: Requirements, wellKnown: set<string>)
    requires family != "OracleOKELinux"
    ensures Compatible(typeReqs, RequirementsForImage(family, imageName), wellKnown)
  {
  }

  // ---- selecting and caching ------------------------------------------------------------

  datatype ImageSelector = ImageSelector(id: string, name: string, compartment: string)

  datatype Image = Image(name: string, compartment: string)

  datatype WrapImage = WrapImage(image: Image, reqs: Requirements)

  // What the API answers at one time; None is an error.
  datatype Compute = Compute(get: string -> Option<Resource<Image>>,
                             list: (string, string) -> Option<seq<Resource<Image>>>)

  function Wrap(family: string, r: Resource<Image>): Resource<WrapImage> {
    Resource(r.id, WrapImage(r.value, RequirementsForImage(family, r.value.name)))
  }

  function WrapAll(family: string, rs: seq<Resource<Image>>): (ws: seq<Resource<WrapImage>>)
    ensures |ws| == |rs| && forall i :: 0 <= i < |rs| ==> ws[i] == Wrap(family, rs[i])
  {
    seq(|rs|, i requires 0 <= i < |rs| => Wrap(family, rs[i]))
  }

  function FetchImages(api: Compute, family: string): ImageSelector -> Option<seq<Resource<WrapImage>>> {
    (s: ImageSelector) => FetchFor(api, family, s)
  }

  function FetchFor(api: Compute, family: string, s: ImageSelector): Option<seq<Resource<WrapImage>>> {
    var found := if s.id == "" then api.list(s.compartment, s.name)
      else match api.get(s.id) case Some(r) => Some([r]) case None => None;
    match found
    case None => None
    case Some(rs) => Some(WrapAll(family, rs))
  }

  // By ID it is that one image, else those of the name in the compartment, each
  // with what it asks for.
  lemma FetchedImages(api: Compute, family: string, s: ImageSelector)
    ensures var found := FetchImages(api, family)(s);
            && (s.id != "" ==>
                  && (api.get(s.id).None? <==> found.None?)
                  && forall r :: api.get(s.id) == Some(r) ==>
                     |found.value| == 1 && IsWrapped(family, found.value[0], r))
            && (s.id == "" ==>
                  && (api.list(s.compartment, s.name).None? <==> found.None?)
                  && forall rs :: api.list(s.compartment, s.name) == Some(rs) ==>
                       && |found.value| == |rs|
                       && forall i :: 0 <= i < |rs| ==> IsWrapped(family, found.value[i], rs[i]))
  {
  }

  predicate IsWrapped(family: string, w: Resource<WrapImage>, r: Resource<Image>) {
    w.id == r.id && w.value.image == r.value && w.value.reqs == RequirementsForImage(family, r.value.name)
  }

  // Families that give every image the same requirements.
  predicate SameKind(f: string, g: string) { f == ORACLE_OKE_LINUX <==> g == ORACLE_OKE_LINUX }

  lemma SameKindSameRequirements(f: string, g: string)
    ensures SameKind(f, g) <==> forall name :: RequirementsForImage(f, name) == RequirementsForImage(g, name)
  {
    assert ARCH in RequirementsForImage(ORACLE_OKE_LINUX, "");
    if SameKind(f, g) {
      forall name ensures RequirementsForImage(f, name) == RequirementsForImage(g, name) {}
    } else {
      assert RequirementsForImage(f, "") != RequirementsForImage(g, "");
    }
  }

  lemma FetchSameKind(api: Compute, f: string, g: string, s: ImageSelector)
    requires SameKind(f, g)
    ensures FetchImages(api, f)(s) == FetchImages(api, g)(s)
  {
    SameKindSameRequirements(f, g);
    assert forall rs :: WrapAll(f, rs) == WrapAll(g, rs);
  }

  lemma WrappedBy(api: Compute, f: string, selectors: set<ImageSelector>, r: Resource<WrapImage>)
    requires FoundBy(FetchImages(api, f), selectors, r)
    ensures r.value.reqs == RequirementsForImage(f, r.value.image.name)
  {
    var s :| s in selectors && FetchImages(api, f)(s).Some? && r in FetchImages(api, f)(s).value;
    assert FetchImages(api, f)(s) == FetchFor(api, f, s);
  }

  lemma AnswerSameKind(api: Compute, f: string, g: string, selectors: set<ImageSelector>,
                       answer: seq<Resource<WrapImage>>)
    requires SameKind(f, g) && IsAnswer(FetchImages(api, g), selectors, answer)
    ensures IsAnswer(FetchImages(api, f), selectors, answer)
  {
    forall s ensures FetchImages(api, f)(s) == FetchImages(api, g)(s) { FetchSameKind(api, f, g, s); }
    forall r | r in answer ensures FoundBy(FetchImages(api, f), selectors, r) {
      assert FoundBy(FetchImages(api, g), selectors, r);
    }
  }

  // The cache key is the set of selectors alone. An answer that was found for
  // one family is right for another exactly when both or neither are
  // OracleOKELinux, or there are no images at all.
  lemma CachedForFamilyExactly(api: Compute, f: string, g: string, selectors: set<ImageSelector>,
                               cached: seq<Resource<WrapImage>>)
    requires IsAnswer(FetchImages(api, g), selectors, cached)
    ensures IsAnswer(FetchImages(api, f), selectors, cached) <==> SameKind(f, g) || cached == []
  {
    if SameKind(f, g) {
      AnswerSameKind(api, f, g, selectors, cached);
    } else if cached == [] {
      EmptyAnswer(api, f, g, selectors);
    } else {
      WrappedBy(api, g, selectors, cached[0]);
      assert ARCH in RequirementsForImage(ORACLE_OKE_LINUX, cached[0].value.image.name);
      assert FoundBy(FetchImages(api, f), selectors, cached[0]) ==>
        cached[0].value.reqs == RequirementsForImage(f, cached[0].value.image.name) by {
        if FoundBy(FetchImages(api, f), selectors, cached[0]) { WrappedBy(api, f, selectors, cached[0]); }
      }
    }
  }

  // For instance one image, cached for OracleOKELinux and asked for by Custom.
  lemma CachedForOtherFamily(id: string, image: Image)
    ensures var api := Compute(_ => Some(Resource(id, image)), (_, _) => Some([]));
            var selectors, cached := {ImageSelector(id, "", "")}, [Wrap(ORACLE_OKE_LINUX, Resource(id, image))];
            id != "" ==> IsAnswer(FetchImages(api, ORACLE_OKE_LINUX), selectors, cached)
                         && !IsAnswer(FetchImages(api, "Custom"), selectors, cached)
  {
    var api := Compute(_ => Some(Resource(id, image)), (_, _) => Some([]));
    var selectors, cached := {ImageSelector(id, "", "")}, [Wrap(ORACLE_OKE_LINUX, Resource(id, image))];
    if id != "" {
      var fetch := FetchImages(api, ORACLE_OKE_LINUX);
      var wrapped := WrapAll(ORACLE_OKE_LINUX, [Resource(id, image)]);
      assert wrapped[0] == cached[0] && wrapped == cached;
      assert fetch(ImageSelector(id, "", "")) == Some(wrapped);
      assert FoundBy(fetch, selectors, cached[0]) && HasId(cached, id);
      assert IsAnswer(fetch, selectors, cached);
      CachedForFamilyExactly(api, "Custom", ORACLE_OKE_LINUX, selectors, cached);
    }
  }

  lemma EmptyAnswer(api: Compute, f: string, g: string, selectors: set<ImageSelector>)
    requires IsAnswer(FetchImages(api, g), selectors, [])
    ensures IsAnswer(FetchImages(api, f), selectors, [])
  {
    var of, og := FetchImages(api, f), FetchImages(api, g);
    forall s | s in selectors ensures of(s) == Some([]) {
      assert og(s) == FetchFor(api, g, s) && of(s) == FetchFor(api, f, s) && og(s).Some?;
      assert multiset(og(s).value) == multiset{};
      assert |multiset(og(s).value)| == |og(s).value|;
    }
  }

  // If only families of one kind ask, and the API has not changed, List answers
  // what it would find by asking, for any two lists of selectors with the same
  // elements.
  lemma ImagesCachedSoundly(p: Provider<string, (), ImageSelector, WrapImage>, api: Compute, family: string,
                            one: seq<ImageSelector>, other: seq<ImageSelector>, cached: seq<Resource<WrapImage>>,
                              asked: seq<Resource<WrapImage>>, now: int)
    requires forall t, f :: p.api(t, f) == FetchImages(api, f)
    requires forall f :: f in p.asked ==> SameKind(f, family)
    requires Consistent(FetchImages(api, family)) && Elements(one) == Elements(other)
    requires p.WasAnswer((), Elements(one), cached, now - TTL, now)
             && IsAnswer(FetchImages(api, family), Elements(other), asked)
    ensures multiset(cached) == multiset(asked)
  {
    var t, g :| now - TTL <= t <= now && g in p.asked && IsAnswer(p.api(t, g), Elements(one), cached);
    AnswerSameKind(api, family, g, Elements(one), cached);
    AnswersArePermutations(FetchImages(api, family), Elements(one), cached, asked);
  }

  // ---- the order images are kept in --------------------------------------------------------

  datatype StatusImage = StatusImage(id: string, image: Image, reqs: seq<(string, Requirement)>)

  function IdKey(): StatusImage -> string { (i: StatusImage) => i.id }

  function LabelKey(): ((string, Requirement)) -> string { (p: (string, Requirement)) => p.0 }

  // The pairs of a map, in some order.
  ghost predicate Lists(pairs: seq<(string, Requirement)>, m: Requirements) {
    && DistinctBy(pairs, LabelKey())
    && (forall p :: p in pairs ==> p.0 in m && m[p.0] == p.1)
    && (forall k :: k in m ==> (k, m[k]) in pairs)
  }

  ghost predicate IsStatusOf(i: StatusImage, r: Resource<WrapImage>) {
    i.id == r.id && i.image == r.value.image && Lists(i.reqs, r.value.reqs) && Sorted(i.reqs, LabelKey(), ShorterOrLess)
  }

  ghost predicate Represented(images: seq<StatusImage>, r: Resource<WrapImage>) {
    exists i :: i in images && IsStatusOf(i, r)
  }

  ghost predicate Stands(i: StatusImage, listed: seq<Resource<WrapImage>>) {
    exists r :: r in listed && IsStatusOf(i, r)
  }

  // One entry for every image listed, ordered by ID.
  ghost predicate IsStatus(images: seq<StatusImage>, listed: seq<Resource<WrapImage>>) {
    && Sorted(images, IdKey(), Less)
    && (forall i :: i in images ==> Stands(i, listed))
    && (forall r :: r in listed ==> Represented(images, r))
  }

  lemma EntryUnique(i: StatusImage, j: StatusImage, r: Resource<WrapImage>)
    requires IsStatusOf(i, r) && IsStatusOf(j, r)
    ensures i == j
  {
    StringOrders();
    assert forall p :: p in i.reqs <==> p in j.reqs;
    SameElements(i.reqs, j.reqs);
    SortedUnique(i.reqs, j.reqs, LabelKey(), ShorterOrLess);
  }

  lemma Included(a: seq<StatusImage>, b: seq<StatusImage>, l: seq<Resource<WrapImage>>, m: seq<Resource<WrapImage>>,
                 i: StatusImage)
    requires IsStatus(a, l) && IsStatus(b, m) && i in a && forall r :: r in l ==> r in m
    ensures i in b
  {
    assert Stands(i, l);
    var r :| r in l && IsStatusOf(i, r);
    assert Represented(b, r);
    var j :| j in b && IsStatusOf(j, r);
    EntryUnique(i, j, r);
  }

  lemma SortedDistinct(a: seq<StatusImage>)
    requires Sorted(a, IdKey(), Less)
    ensures NoRepeats(a)
  {
    StringOrders();
  }

  // The status depends only on which images are listed, not on the order a map
  // gave them or their requirements in.
  lemma StatusCanonical(a: seq<StatusImage>, b: seq<StatusImage>, l: seq<Resource<WrapImage>>,
                        m: seq<Resource<WrapImage>>)
    requires IsStatus(a, l) && IsStatus(b, m) && forall r :: r in l <==> r in m
    ensures a == b
  {
    forall i ensures i in a <==> i in b {
      if i in a { Included(a, b, l, m, i); }
      if i in b { Included(b, a, m, l, i); }
    }
    SortedDistinct(a);
    SortedDistinct(b);
    SameElements(a, b);
    StringOrders();
    SortedUnique(a, b, IdKey(), Less);
  }

  // NodeSelectorRequirements walks the map in any order.
  method SortedRequirements(m: Requirements) returns (pairs: seq<(string, Requirement)>)
    ensures Lists(pairs, m) && Sorted(pairs, LabelKey(), ShorterOrLess)
  {
    var listed: seq<(string, Requirement)> := [];
    var todo := m.Keys;
    while todo != {}
      invariant todo <= m.Keys && DistinctBy(listed, LabelKey())
      invariant forall p :: p in listed ==> p.0 in m && p.0 !in todo && m[p.0] == p.1
      invariant forall k :: k in m && k !in todo ==> (k, m[k]) in listed
      decreases todo
    {
      var k :| k in todo;
      todo := todo - {k};
      listed := listed + [(k, m[k])];
    }
    pairs := Sort(listed, LabelKey(), ShorterOrLess);
    StringOrders();
    SortSorts(listed, LabelKey(), ShorterOrLess);
    SortPermutes(listed, LabelKey(), ShorterOrLess);
    SortedListing(pairs, listed, m);
  }

  lemma SortedListing(pairs: seq<(string, Requirement)>, listed: seq<(string, Requirement)>, m: Requirements)
    requires Lists(listed, m) && multiset(pairs) == multiset(listed) && Sorted(pairs, LabelKey(), ShorterOrLess)
    ensures Lists(pairs, m)
  {
    StringOrders();
    forall p ensures p in pairs <==> p in listed {
      assert p in pairs <==> p in multiset(pairs);
      assert p in listed <==> p in multiset(listed);
    }
  }

  datatype ImageOutcome = Ready | NotFound | ListError

  // Image.Reconcile. When the images cannot be listed, the status stays as it is.
  method Reconcile(listed: Option<seq<Resource<WrapImage>>>, was: seq<StatusImage>)
    returns (images: seq<StatusImage>, outcome: ImageOutcome)
    requires listed.Some? ==> DistinctIds(listed.value)
    ensures listed.None? ==> outcome == ListError && images == was
    ensures listed.Some? ==> IsStatus(images, listed.value) && outcome == if listed.value == [] then NotFound else Ready
  {
    if listed.None? {
      return was, ListError;
    }
    if listed.value == [] {
      return [], NotFound;
    }
    images := StatusFor(listed.value);
    outcome := Ready;
  }

  method StatusFor(listed: seq<Resource<WrapImage>>) returns (images: seq<StatusImage>)
    requires DistinctIds(listed)
    ensures IsStatus(images, listed)
  {
    var entries: seq<StatusImage> := [];
    for n := 0 to |listed|
      invariant |entries| == n && forall k :: 0 <= k < n ==> IsStatusOf(entries[k], listed[k])
    {
      var reqs := SortedRequirements(listed[n].value.reqs);
      entries := entries + [StatusImage(listed[n].id, listed[n].value.image, reqs)];
    }
    images := Sort(entries, IdKey(), Less);
    StringOrders();
    SortSorts(entries, IdKey(), Less);
    SortPermutes(entries, IdKey(), Less);
    SortedStatus(images, entries, listed);
  }

  lemma SortedStatus(images: seq<StatusImage>, entries: seq<StatusImage>, listed: seq<Resource<WrapImage>>)
    requires Sorted(images, IdKey(), Less) && multiset(images) == multiset(entries) && |entries| == |listed|
    requires forall k :: 0 <= k < |entries| ==> IsStatusOf(entries[k], listed[k])
    ensures IsStatus(images, listed)
  {
    forall i ensures i in images <==> i in entries {
      assert i in images <==> i in multiset(images);
      assert i in entries <==> i in multiset(entries);
    }
    forall i | i in images ensures Stands(i, listed) {
      var k :| 0 <= k < |entries| && entries[k] == i;
      assert listed[k] in listed;
    }
    forall r | r in listed ensures Represented(images, r) {
      var k :| 0 <= k < |listed| && listed[k] == r;
      assert entries[k] in images;
    }
  }

  // The requirements images carry concern two labels only.
  ghost predicate OnlyArchAndGpu(images: seq<StatusImage>) {
    forall i, p :: i in images && p in i.reqs ==> p.0 == ARCH || p.0 == GPU
  }

  lemma EntryOnlyArchAndGpu(i: StatusImage, r: Resource<WrapImage>, family: string)
    requires IsStatusOf(i, r) && r.value.reqs == RequirementsForImage(family, r.value.image.name)
    ensures forall p :: p in i.reqs ==> p.0 == ARCH || p.0 == GPU
  {
  }

  lemma StatusOnlyArchAndGpu(api: Compute, family: string, selectors: set<ImageSelector>,
                             listed: seq<Resource<WrapImage>>, images: seq<StatusImage>)
    requires IsAnswer(FetchImages(api, family), selectors, listed) && IsStatus(images, listed)
    ensures OnlyArchAndGpu(images)
  {
    forall i | i in images ensures forall p :: p in i.reqs ==> p.0 == ARCH || p.0 == GPU {
      assert Stands(i, listed);
      var r :| r in listed && IsStatusOf(i, r);
      WrappedBy(api, family, selectors, r);
      EntryOnlyArchAndGpu(i, r, family);
    }
  }

  // ---- the image an instance type is launched from ----------------------------------------

  predicate Accepts(typeReqs: Requirements, i: StatusImage, wellKnown: set<string>) {
    forall k :: 0 <= k < |i.reqs| ==>
      var (label_, req) := i.reqs[k];
      if label_ in typeReqs then Meets(typeReqs[label_], req) else label_ in wellKnown || req == OneOf({})
  }

  function FirstImage(typeReqs: Requirements, images: seq<StatusImage>, wellKnown: set<string>): Option<string> {
    if images == [] then None
    else if Accepts(typeReqs, images[0], wellKnown) then Some(images[0].id)
    else FirstImage(typeReqs, images[1..], wellKnown)
  }

  // There is none exactly when the type suits no listed image, and otherwise it
  // is the ID of the first image it suits.
  lemma {:induction false} FirstImageIs(typeReqs: Requirements, images: seq<StatusImage>, wellKnown: set<string>)
    ensures var id := FirstImage(typeReqs, images, wellKnown);
            if id.None? then forall k :: 0 <= k < |images| ==> !Accepts(typeReqs, images[k], wellKnown)
            else exists k :: 0 <= k < |images| && images[k].id == id.value && Accepts(typeReqs, images[k], wellKnown)
                             && forall j :: 0 <= j < k ==> !Accepts(typeReqs, images[j], wellKnown)
  {
    if images != [] && !Accepts(typeReqs, images[0], wellKnown) {
      FirstImageIs(typeReqs, images[1..], wellKnown);
      if id :| FirstImage(typeReqs, images[1..], wellKnown) == Some(id) {
        var k :| 0 <= k < |images[1..]| && images[1..][k].id == id && Accepts(typeReqs, images[1..][k], wellKnown)
                 && forall j :: 0 <= j < k ==> !Accepts(typeReqs, images[1..][j], wellKnown);
        assert images[k + 1] == images[1..][k];
        assert forall j :: 0 < j < k + 1 ==> images[j] == images[1..][j - 1];
      } else {
        assert forall j :: 0 < j < |images| ==> images[j] == images[1..][j - 1];
      }
    }
  }

  // MapToInstanceTypes, for one type: the keys of the map it returns.
  method MapToInstanceTypes(typeReqs: Requirements, images: seq<StatusImage>, wellKnown: set<string>)
    returns (ids: set<string>)
    ensures match FirstImage(typeReqs, images, wellKnown) case Some(id) => ids == {id} case None => ids == {}
  {
    ids := {};
    for i := 0 to |images|
      invariant ids == {} && FirstImage(typeReqs, images, wellKnown) == FirstImage(typeReqs, images[i..], wellKnown)
    {
      if Accepts(typeReqs, images[i], wellKnown) {
        ids := {images[i].id};
        return;
      }
      assert images[i..][1..] == images[i + 1..];
    }
  }

  // Of the listed images the type suits, the one with the least ID is launched.
  lemma {:induction false} FirstIsLeast(typeReqs: Requirements, images: seq<StatusImage>, wellKnown: set<string>,
                                        i: StatusImage)
    requires Sorted(images, IdKey(), Less) && i in images && Accepts(typeReqs, i, wellKnown)
    ensures FirstImage(typeReqs, images, wellKnown).Some?
    ensures var id := FirstImage(typeReqs, images, wellKnown).value; id == i.id || Less(id, i.id)
  {
    if !Accepts(typeReqs, images[0], wellKnown) {
      assert i in images[1..];
      FirstIsLeast(typeReqs, images[1..], wellKnown, i);
    } else {
      HeadLeast(images, i, IdKey(), Less);
    }
  }

  // The type suits a status entry as it suits the image's requirements.
  lemma AcceptsListed(typeReqs: Requirements, i: StatusImage, r: Resource<WrapImage>, wellKnown: set<string>)
    requires IsStatusOf(i, r)
    ensures Accepts(typeReqs, i, wellKnown) <==> Compatible(typeReqs, r.value.reqs, wellKnown)
  {
    if Accepts(typeReqs, i, wellKnown) {
      forall k | k in r.value.reqs
        ensures if k in typeReqs then Meets(typeReqs[k], r.value.reqs[k])
                else k in wellKnown || r.value.reqs[k] == OneOf({})
      {
        var n :| 0 <= n < |i.reqs| && i.reqs[n] == (k, r.value.reqs[k]);
      }
    }
  }
}
