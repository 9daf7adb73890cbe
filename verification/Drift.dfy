// pkg/cloudprovider/drift.go against what instance.go and resolver.go launch:
// when an instance counts as drifted from the very status it was launched from.
module Drift {
  import opened Text
  import opened Scheduling
  import opened Images
  import opened Subnets
  import opened Selectors
  import opened Sequences

  datatype NodeType = NodeType(name: string, reqs: Requirements)

  // The resolved part of a NodeClass.
  datatype Status = Status(images: seq<StatusImage>, subnets: seq<string>, securityGroups: seq<string>)

  // Which subnets and security groups the API still finds.
  datatype Network = Network(subnet: string -> bool, group: string -> bool)

  // ---- launching ----------------------------------------------------------------------

  datatype Launched = Launched(image: string, primary: Vnic)

  // What a launch needs: the subnets found with their free addresses, and how
  // many pods the claim asks for.
  datatype Request = Request(subnets: seq<Resource<Subnet>>, free: seq<Option<int>>, pods: int)

  ghost predicate IsChosen(q: Request, k: nat, free: int)
    requires |q.free| == |q.subnets|
  {
    k < |q.subnets| && IsLeastUtilized(q.free, k, free) && q.pods <= free
  }

  // Create, up to the request: a subnet with enough addresses, the image the
  // type maps to, and all security groups of the status. None is an error.
  method LaunchFrom(status: Status, t: NodeType, q: Request, wellKnown: set<string>) returns (l: Option<Launched>)
    requires |q.free| == |q.subnets|
    ensures l.Some?
            <==> FirstImage(t.reqs, status.images, wellKnown).Some? && exists k: nat, free :: IsChosen(q, k, free)
    ensures l.Some? ==>
              && l == LaunchedFrom(status, t, l.value.primary.subnet, wellKnown)
              && FirstImage(t.reqs, status.images, wellKnown) == Some(l.value.image)
              && exists k: nat, free :: IsChosen(q, k, free)
                                        && l.value.primary == Vnic(true, q.subnets[k].id, status.securityGroups)
  {
    var found := FindLeastUtilizedSubnet(q.subnets, q.free);
    if found.None? || q.pods > found.value.1 {
      LeastUnique(q.free);
      return None;
    }
    ghost var k :| 0 <= k < |q.subnets| && IsLeastUtilized(q.free, k, found.value.1) && found.value.0 == q.subnets[k];
    assert IsChosen(q, k, found.value.1);
    if status.images == [] {
      return None;
    }
    var mapped := MapToInstanceTypes(t.reqs, status.images, wellKnown);
    if mapped == {} {
      return None;
    }
    var image :| image in mapped;
    l := Some(Launched(image, Vnic(true, found.value.0.id, status.securityGroups)));
  }

  lemma LeastUnique(free: seq<Option<int>>)
    ensures forall j, k, a, b ::
            0 <= j < |free| && 0 <= k < |free| && IsLeastUtilized(free, j, a) && IsLeastUtilized(free, k, b) ==> a == b
  {
  }

  function LaunchedFrom(status: Status, t: NodeType, subnet: string, wellKnown: set<string>): Option<Launched> {
    match FirstImage(t.reqs, status.images, wellKnown)
    case Some(image) => Some(Launched(image, Vnic(true, subnet, status.securityGroups)))
    case None => None
  }

  // ---- checking -------------------------------------------------------------------------

  datatype Verdict = NotDrifted | ImageDrift | SecurityGroupDrift | SubnetDrift | Error

  function FindType(types: seq<NodeType>, name: string): Option<NodeType> {
    if types == [] then None else if types[0].name == name then Some(types[0]) else FindType(types[1..], name)
  }

  // The first type of that name, if there is one.
  lemma {:induction false} FindTypeIs(types: seq<NodeType>, name: string) returns (k: nat)
    ensures k <= |types| && forall j :: 0 <= j < k ==> types[j].name != name
    ensures if k < |types| then FindType(types, name) == Some(types[k]) && types[k].name == name
            else FindType(types, name) == None
  {
    if types == [] || types[0].name == name {
      k := 0;
    } else {
      k := FindTypeIs(types[1..], name);
      k := k + 1;
    }
  }

  // types is None when the instance types cannot be listed.
  method IsImageDrifted(types: Option<seq<NodeType>>, name: string, image: string, status: Status,
                        wellKnown: set<string>)
    returns (v: Verdict)
    ensures types.None? ==> v == Error
    ensures types.Some? ==> v == ImageVerdict(types.value, name, image, status, wellKnown)
    ensures types.Some? ==>
              var t := FindType(types.value, name);
              && (v == Error <==> t.None? || status.images == [])
              && (v == NotDrifted <==>
                  t.Some? && status.images != [] && FirstImage(t.value.reqs, status.images, wellKnown) == Some(image))
              && v in {Error, NotDrifted, ImageDrift}
  {
    if types.None? {
      return Error;
    }
    var t := FindType(types.value, name);
    if t.None? || status.images == [] {
      return Error;
    }
    var mapped := MapToInstanceTypes(t.value.reqs, status.images, wellKnown);
    v := if image in mapped then NotDrifted else ImageDrift;
  }

  function ImageVerdict(types: seq<NodeType>, name: string, image: string, status: Status,
                        wellKnown: set<string>): Verdict
  {
    var t := FindType(types, name);
    if t.None? || status.images == [] then Error
    else if FirstImage(t.value.reqs, status.images, wellKnown) == Some(image) then NotDrifted
    else ImageDrift
  }

  method IsSubnetDrifted(subnets: seq<string>, status: Status) returns (v: Verdict)
    ensures v == if status.subnets == [] then Error
                 else if forall s :: s in subnets ==> s in status.subnets then NotDrifted else SubnetDrift
  {
    if status.subnets == [] {
      return Error;
    }
    for k := 0 to |subnets|
      invariant forall s :: s in subnets[..k] ==> s in status.subnets
    {
      if subnets[k] !in status.subnets {
        return SubnetDrift;
      }
    }
    v := NotDrifted;
  }

  method AreSecurityGroupsDrifted(nsgs: seq<string>, status: Status) returns (v: Verdict)
    ensures v == if status.securityGroups == [] then Error
                 else if Elements(nsgs) == Elements(status.securityGroups) then NotDrifted else SecurityGroupDrift
  {
    var wanted := Elements(status.securityGroups);
    NoElements(status.securityGroups);
    if wanted == {} {
      return Error;
    }
    v := if wanted == Elements(nsgs) then NotDrifted else SecurityGroupDrift;
  }

  // The sets the instance's primary VNICs are in.
  ghost predicate Attached(vnics: Vnics, groups: set<string>, subnets: set<string>) {
    && (forall g :: g in groups <==> InPrimaryGroup(vnics, g))
    && (forall s :: s in subnets <==> InReachedSubnet(vnics, s))
  }

  // What the reads of the check return: the instance's image, the instance types
  // of its node pool and its VNICs.
  datatype Reads = Reads(image: Option<string>, types: Option<seq<NodeType>>, vnics: Option<Vnics>)

  ghost predicate ReadsFail(answers: Reads, net: Network) {
    || answers.image.None? || answers.types.None? || answers.vnics.None?
    || GroupsFail(answers.vnics.value, net.group) || SubnetsFail(answers.vnics.value, net.subnet)
  }

  // isNodeClassDrifted: every check runs before any reason is reported.
  method IsNodeClassDrifted(answers: Reads, name: string, net: Network, status: Status, wellKnown: set<string>)
    returns (v: Verdict)
    ensures ReadsFail(answers, net) ==> v == Error
    ensures !ReadsFail(answers, net) ==>
              forall groups, subnets :: Attached(answers.vnics.value, groups, subnets) ==>
                v == VerdictOn(answers.types.value, name, answers.image.value, groups, subnets, status, wellKnown)
  {
    if answers.image.None? {
      return Error;
    }
    var image := IsImageDrifted(answers.types, name, answers.image.value, status, wellKnown);
    if image == Error || answers.vnics.None? {
      return Error;
    }
    var vnics := answers.vnics.value;
    var nsgs := PrimaryNsgs(vnics, net.group);
    if nsgs.None? {
      return Error;
    }
    var groups := AreSecurityGroupsDrifted(nsgs.value, status);
    if groups == Error {
      return Error;
    }
    var attached := PrimarySubnets(vnics, net.subnet);
    if attached.None? {
      return Error;
    }
    var subnet := IsSubnetDrifted(attached.value, status);
    if subnet == Error {
      return Error;
    }
    v := if image != NotDrifted then image else if groups != NotDrifted then groups else subnet;
    AttachedElements(vnics, nsgs.value, attached.value);
  }

  lemma AttachedElements(vnics: Vnics, nsgs: seq<string>, subnets: seq<string>)
    requires forall g :: g in nsgs <==> InPrimaryGroup(vnics, g)
    requires forall s :: s in subnets <==> InReachedSubnet(vnics, s)
    ensures forall gs, subs :: Attached(vnics, gs, subs) ==> gs == Elements(nsgs) && subs == Elements(subnets)
  {
    forall gs, subs | Attached(vnics, gs, subs) ensures gs == Elements(nsgs) && subs == Elements(subnets) {
      assert forall g :: g in gs <==> g in Elements(nsgs);
      assert forall s :: s in subs <==> s in Elements(subnets);
    }
  }

  // What the check says of an instance with this image in these groups and subnets.
  function VerdictOn(types: seq<NodeType>, name: string, image: string, groups: set<string>, subnets: set<string>,
                     status: Status,
                     wellKnown: set<string>): Verdict
  {
    var t := FindType(types, name);
    if t.None? || status.images == [] || status.securityGroups == [] || status.subnets == [] then Error
    else if FirstImage(t.value.reqs, status.images, wellKnown) != Some(image) then ImageDrift
    else if groups != Elements(status.securityGroups) then SecurityGroupDrift
    else if !(subnets <= Elements(status.subnets)) then SubnetDrift
    else NotDrifted
  }

  // Errors first, then the image, then the security groups, then the subnets.
  lemma VerdictIs(types: seq<NodeType>, name: string, image: string, groups: set<string>, subnets: set<string>,
                  status: Status, wellKnown: set<string>)
    ensures var v := VerdictOn(types, name, image, groups, subnets, status, wellKnown);
            && (v == Error <==> || (forall t :: t in types ==> t.name != name) || status.images == []
                                || status.securityGroups == [] || status.subnets == [])
            && (v != Error ==>
                  var mapped := FirstImage(FindType(types, name).value.reqs, status.images, wellKnown);
                  && (v == ImageDrift <==> mapped != Some(image))
                  && (v == SecurityGroupDrift <==>
                      mapped == Some(image) && exists g :: (g in groups) != (g in status.securityGroups))
                  && (v == SubnetDrift <==>
                      && mapped == Some(image) && (forall g :: g in groups <==> g in status.securityGroups)
                      && exists s :: s in subnets && s !in status.subnets)
                  && (v == NotDrifted <==>
                      && mapped == Some(image) && (forall g :: g in groups <==> g in status.securityGroups)
                      && forall s :: s in subnets ==> s in status.subnets))
  {
    var k := FindTypeIs(types, name);
    assert groups == Elements(status.securityGroups) <==> forall g :: g in groups <==> g in status.securityGroups;
    assert subnets <= Elements(status.subnets) <==> forall s :: s in subnets ==> s in status.subnets;
  }

  // ---- agreement --------------------------------------------------------------------------

  // The first listed type with the name picks the same image.
  predicate SameImage(types: seq<NodeType>, t: NodeType, status: Status, wellKnown: set<string>) {
    FindType(types, t.name).Some?
    && FirstImage(FindType(types, t.name).value.reqs, status.images, wellKnown)
       == FirstImage(t.reqs, status.images, wellKnown)
  }

  // An instance checked against the status it was launched from is found not
  // drifted exactly when the status has security groups, the subnet is one of
  // the status's, and the listed type of that name takes the same image.
  // Without security groups the check never gets further than an error.
  lemma LaunchedNotDriftedExactly(types: seq<NodeType>, t: NodeType, subnet: string, status: Status,
                                  wellKnown: set<string>)
    requires LaunchedFrom(status, t, subnet, wellKnown).Some?
    ensures var l := LaunchedFrom(status, t, subnet, wellKnown).value;
            var v := VerdictOn(types, t.name, l.image, Elements(l.primary.nsgs), {subnet}, status, wellKnown);
            && (v == NotDrifted
               <==> status.securityGroups != [] && subnet in status.subnets && SameImage(types, t, status, wellKnown))
            && (status.securityGroups == [] ==> v == Error)
            && v != SecurityGroupDrift
  {
  }

  predicate AgreeOn(a: Requirements, b: Requirements, k: string) {
    (k in a <==> k in b) && (k in a ==> a[k] == b[k])
  }

  lemma {:induction false} SameArchSameImage(a: Requirements, b: Requirements, images: seq<StatusImage>,
                                             wellKnown: set<string>)
    requires AgreeOn(a, b, ARCH) && AgreeOn(a, b, GPU) && OnlyArchAndGpu(images)
    ensures FirstImage(a, images, wellKnown) == FirstImage(b, images, wellKnown)
  {
    if images != [] {
      assert Accepts(a, images[0], wellKnown) == Accepts(b, images[0], wellKnown) by {
        assert forall k :: 0 <= k < |images[0].reqs| ==> images[0].reqs[k] in images[0].reqs;
      }
      SameArchSameImage(a, b, images[1..], wellKnown);
    }
  }

  lemma {:induction false} FirstOfName(types: seq<NodeType>, t: NodeType)
    requires t in types
    ensures FindType(types, t.name).Some? && FindType(types, t.name).value in types
            && FindType(types, t.name).value.name == t.name
  {
    if types[0].name != t.name {
      assert t in types[1..];
      FirstOfName(types[1..], t);
    }
  }

  // Sizes of one shape agree on architecture and GPUs, so whichever is listed
  // first, an instance launched into one of the status's subnets with security
  // groups is not drifted.
  lemma LaunchedNotDrifted(types: seq<NodeType>, t: NodeType, subnet: string, status: Status, wellKnown: set<string>)
    requires LaunchedFrom(status, t, subnet, wellKnown).Some? && t in types
    requires forall u :: u in types && u.name == t.name ==>
             AgreeOn(u.reqs, t.reqs, ARCH) && AgreeOn(u.reqs, t.reqs, GPU)
    requires OnlyArchAndGpu(status.images) && status.securityGroups != [] && subnet in status.subnets
    ensures var l := LaunchedFrom(status, t, subnet, wellKnown).value;
            VerdictOn(types, t.name, l.image, Elements(l.primary.nsgs), {subnet}, status, wellKnown) == NotDrifted
  {
    FirstOfName(types, t);
    SameArchSameImage(FindType(types, t.name).value.reqs, t.reqs, status.images, wellKnown);
  }

  // In particular when the status was built from what the image provider listed,
  // and the types of this name are sizes of one shape.
  lemma BuiltStatusNotDrifted(types: seq<NodeType>, t: NodeType, gpus: int, subnet: string, status: Status,
                              wellKnown: set<string>,
                              api: Compute, family: string, selectors: set<ImageSelector>,
                                listed: seq<Resource<WrapImage>>)
    requires IsAnswer(FetchImages(api, family), selectors, listed) && IsStatus(status.images, listed)
    requires LaunchedFrom(status, t, subnet, wellKnown).Some? && t in types
    requires forall u :: u in types && u.name == t.name ==>
               AgreeOn(u.reqs, TypeLabels(t.name, gpus), ARCH) && AgreeOn(u.reqs, TypeLabels(t.name, gpus), GPU)
    requires status.securityGroups != [] && subnet in status.subnets
    ensures var l := LaunchedFrom(status, t, subnet, wellKnown).value;
            VerdictOn(types, t.name, l.image, Elements(l.primary.nsgs), {subnet}, status, wellKnown) == NotDrifted
  {
    StatusOnlyArchAndGpu(api, family, selectors, listed, status.images);
    LaunchedNotDrifted(types, t, subnet, status, wellKnown);
  }

  // Launch, and check later, when other VNICs have come to stand before or after
  // the primary one.
  method LaunchThenCheck(types: seq<NodeType>, t: NodeType, q: Request, status: Status, net: Network,
                         wellKnown: set<string>, before: seq<Vnic>, after: seq<Vnic>)
    returns (l: Option<Launched>, v: Verdict)
    requires |q.free| == |q.subnets| && forall n :: n in before + after ==> !n.primary
    ensures l.Some? ==>
              var vnics := Found(before + [l.value.primary] + after);
              v == NotDrifted
              <==> && !GroupsFail(vnics, net.group) && !SubnetsFail(vnics, net.subnet)
                   && status.securityGroups != [] && l.value.primary.subnet in status.subnets
                   && SameImage(types, t, status, wellKnown)
  {
    l := LaunchFrom(status, t, q, wellKnown);
    v := Error;
    if l.Some? {
      var vnic := l.value.primary;
      var found := Reads(Some(l.value.image), Some(types), Some(Found(before + [vnic] + after)));
      v := IsNodeClassDrifted(found, t.name, net, status, wellKnown);
      AttachedAsLaunched(before, vnic, after);
      LaunchedNotDriftedExactly(types, t, vnic.subnet, status, wellKnown);
    }
  }

  lemma AttachedAsLaunched(before: seq<Vnic>, vnic: Vnic, after: seq<Vnic>)
    requires vnic.primary && forall n :: n in before + after ==> !n.primary
    ensures Attached(Found(before + [vnic] + after), Elements(vnic.nsgs), {vnic.subnet})
  {
    forall x ensures (x == vnic.subnet <==> InReachedSubnet(Found(before + [vnic] + after), x))
                     && (x in vnic.nsgs <==> InPrimaryGroup(Found(before + [vnic] + after), x))
    {
      OnePrimary(before, vnic, after, x);
    }
  }
}
