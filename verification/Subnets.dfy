// pkg/providers/subnet/subnet.go, and the choice of subnet in instance.go.
module Subnets {
  import opened Text
  import opened Catalogue
  import opened Selectors
  import opened Sequences

  // ---- which subnets a NodeClass selects ----------------------------------------------

  datatype SubnetSelector = SubnetSelector(id: string, name: string)

  datatype Subnet = Subnet(name: string, cidrBlock: Option<string>)

  // What the API answers at one time; None is an error.
  datatype Network = Network(get: string -> Option<Resource<Subnet>>,
                             list: (string, string) -> Option<seq<Resource<Subnet>>>)

  // A selector with neither ID nor name selects nothing.
  function FetchSubnets(net: Network, vcn: string): SubnetSelector -> Option<seq<Resource<Subnet>>> {
    (s: SubnetSelector) =>
      if s.id != "" then
        match net.get(s.id)
        case Some(subnet) => Some([subnet])
        case None => None
      else if s.name != "" then net.list(vcn, s.name)
      else Some([])
  }

  // By ID it is that one subnet, else by name those of the name in the VCN.
  lemma FetchedSubnets(net: Network, vcn: string, s: SubnetSelector)
    ensures s.id == "" && s.name == "" ==> FetchSubnets(net, vcn)(s) == Some([])
    ensures s.id == "" && s.name != "" ==> FetchSubnets(net, vcn)(s) == net.list(vcn, s.name)
    ensures s.id != "" ==>
              && (net.get(s.id).None? ==> FetchSubnets(net, vcn)(s).None?)
              && forall subnet :: net.get(s.id) == Some(subnet) ==> FetchSubnets(net, vcn)(s) == Some([subnet])
  {
  }

  // The cache key holds the VCN, so for an unchanged network List answers what
  // it would find by asking: the same subnets for any two lists of selectors
  // with the same elements.
  lemma SubnetsCachedSoundly(p: Provider<string, string, SubnetSelector, Subnet>, net: Network, vcn: string,
                             one: seq<SubnetSelector>, other: seq<SubnetSelector>, cached: seq<Resource<Subnet>>,
                               asked: seq<Resource<Subnet>>, now: int)
    requires p.part == ((v: string) => v) && forall t, v :: p.api(t, v) == FetchSubnets(net, v)
    requires Consistent(FetchSubnets(net, vcn)) && Elements(one) == Elements(other)
    requires p.WasAnswer(vcn, Elements(one), cached, now - TTL, now)
             && IsAnswer(FetchSubnets(net, vcn), Elements(other), asked)
    ensures multiset(cached) == multiset(asked)
  {
    CachedIsCurrent(p, vcn, Elements(one), cached, asked, now - TTL, now);
  }

  // ---- free addresses -------------------------------------------------------------------

  function Pow2(n: nat): nat { if n == 0 then 1 else 2 * Pow2(n - 1) }

  // calculateTotalIps, for an IPv4 block with this prefix length
  function TotalIps(prefixLen: nat): nat
    requires prefixLen <= 32
  {
    Pow2(32 - prefixLen)
  }

  // One address for a /32, and twice as many for each bit less.
  lemma TotalIpsIs(prefixLen: nat)
    requires prefixLen <= 32
    ensures TotalIps(32) == 1 && TotalIps(24) == 256
    ensures prefixLen < 32 ==> TotalIps(prefixLen) == 2 * TotalIps(prefixLen + 1)
  {
    assert Pow2(4) == 16 && Pow2(8) == 16 * Pow2(4);
  }

  datatype Utilization = Utilization(cidr: Option<string>, percent: real)

  predicate MatchesAt(us: seq<Utilization>, cidr: string, k: nat) {
    k < |us| && us[k].cidr == Some(cidr)
  }

  function Used(total: int, percent: real): int { Trunc(total as real * percent / 100.0) }

  function Free(total: int, percent: real): int { Max(0, total - Used(total, percent)) }

  // What is not used, with the used part rounded down, and nothing when more is
  // used than there is.
  lemma FreeIs(total: nat, percent: real, used: real)
    requires used >= 0.0 && used == total as real * percent / 100.0
    ensures Free(total, percent) == if used.Floor <= total then total - used.Floor else 0
  {
  }

  lemma HalfFree()
    ensures Free(256, 50.0) == 128 && Free(256, 100.0) == 0
  {
    assert 256.0 * 50.0 / 100.0 == 128.0;
  }

  // The summaries are searched for the block, but the utilization is always
  // that of the first summary.
  method GetSubnetAvailableIPv4Count(cidrBlock: Option<string>, prefixLen: string -> Option<nat>,
                                     summaries: Option<seq<Utilization>>)
    returns (count: Option<int>)
    requires forall c :: prefixLen(c).Some? ==> prefixLen(c).value <= 32
    ensures cidrBlock.None? ==> count == Some(0)
    ensures cidrBlock.Some? ==> (count.None? <==> prefixLen(cidrBlock.value).None? || summaries.None?)
    ensures cidrBlock.Some? && count.Some? ==>
              var total, us := TotalIps(prefixLen(cidrBlock.value).value), summaries.value;
              count.value == if exists k :: MatchesAt(us, cidrBlock.value, k) then Free(total, us[0].percent) else total
  {
    if cidrBlock.None? {
      return Some(0);
    }
    var len := prefixLen(cidrBlock.value);
    if len.None? || summaries.None? {
      return None;
    }
    var us := summaries.value;
    var available: int := TotalIps(len.value);
    ghost var total := available;
    for i := 0 to |us|
      invariant available == total && forall k: nat :: k < i ==> !MatchesAt(us, cidrBlock.value, k)
    {
      if us[i].cidr == cidrBlock {
        assert MatchesAt(us, cidrBlock.value, i);
        available := available - Used(available, us[0].percent);
        break;
      }
    }
    if available < 0 {
      available := 0;
    }
    count := Some(available);
  }

  ghost predicate FirstMatch(cidrs: seq<Option<string>>, cidr: string, k: nat) {
    k < |cidrs| && cidrs[k] == Some(cidr) && forall j :: 0 <= j < k ==> cidrs[j] != Some(cidr)
  }

  // The utilization that is used frees as much as that of the k-th summary.
  ghost predicate CountsOwn(total: nat, percents: seq<real>, k: nat)
    requires k < |percents|
  {
    Free(total, percents[0]) == Free(total, percents[k])
  }

  // The count is that of the block itself, however full the blocks are, exactly
  // when the block's summary comes first.
  lemma CountsOwnBlockExactly(total: nat, cidrs: seq<Option<string>>, cidr: string, k: nat)
    requires total > 0 && FirstMatch(cidrs, cidr, k)
    ensures cidrs[0] == Some(cidr) <==> forall percents :: |percents| == |cidrs| ==> CountsOwn(total, percents, k)
  {
    if cidrs[0] != Some(cidr) {
      var percents := seq(|cidrs|, i => if i == 0 then 100.0 else 0.0);
      assert Used(total, 100.0) == total && Used(total, 0.0) == 0;
      assert !CountsOwn(total, percents, k);
    }
  }

  // ---- the least utilized subnet -----------------------------------------------------------

  // counts(i) is the number of free addresses of the i-th subnet; None an error.
  method FindLeastUtilizedSubnet(subnets: seq<Resource<Subnet>>, counts: seq<Option<int>>)
    returns (r: Option<(Resource<Subnet>, int)>)
    requires |counts| == |subnets|
    ensures r.None? <==> subnets == [] || exists i :: 0 <= i < |counts| && counts[i].None?
    ensures r.Some? ==>
            exists k :: 0 <= k < |subnets| && IsLeastUtilized(counts, k, r.value.1) && r.value.0 == subnets[k]
  {
    if subnets == [] {
      return None;
    }
    var best, available := 0, 0;
    for i := 0 to |subnets|
      invariant forall j :: 0 <= j < i ==> counts[j].Some? && counts[j].value <= available
      invariant 0 <= best < |subnets| && available >= 0
      invariant if available == 0 then best == 0
                else best < i && counts[best] == Some(available) && forall j :: 0 <= j < best ==>
                  counts[j].value < available
    {
      if counts[i].None? {
        return None;
      }
      if counts[i].value > available {
        best, available := i, counts[i].value;
      }
    }
    assert IsLeastUtilized(counts, best, available);
    r := Some((subnets[best], available));
  }

  // The first of those with the most free addresses, or the first of all when
  // none has any.
  ghost predicate IsLeastUtilized(counts: seq<Option<int>>, k: int, available: int)
    requires 0 <= k < |counts|
  {
    && (forall j :: 0 <= j < |counts| ==> counts[j].Some? && counts[j].value <= available)
    && if available == 0 then k == 0
       else available > 0 && counts[k] == Some(available) && forall j :: 0 <= j < k ==> counts[j].value < available
  }

  // ---- the primary VNICs -----------------------------------------------------------------------

  datatype Vnic = Vnic(primary: bool, subnet: string, nsgs: seq<string>)

  // The VNICs of an instance, as asked for one by one; None is a request that fails.
  type Vnics = seq<Option<Vnic>>

  predicate IsPrimary(vnics: Vnics, k: nat) { k < |vnics| && vnics[k].Some? && vnics[k].value.primary }

  predicate IsSecondary(vnics: Vnics, k: nat) { k < |vnics| && vnics[k].Some? && !vnics[k].value.primary }

  // A primary VNIC behind a secondary one ends the search for subnets.
  ghost predicate Closes(vnics: Vnics, j: nat) {
    IsPrimary(vnics, j) && exists m: nat :: m < j && IsSecondary(vnics, m)
  }

  ghost predicate Reached(vnics: Vnics, k: nat) { k < |vnics| && forall j: nat :: j < k ==> !Closes(vnics, j) }

  ghost predicate InReachedSubnet(vnics: Vnics, subnet: string) {
    exists k: nat :: Reached(vnics, k) && IsPrimary(vnics, k) && vnics[k].value.subnet == subnet
  }

  ghost predicate SubnetsFail(vnics: Vnics, known: string -> bool) {
    exists k: nat :: Reached(vnics, k) && (vnics[k].None? || (IsPrimary(vnics, k) && !known(vnics[k].value.subnet)))
  }

  // GetSubnets(onlyPrimary), where known says which subnets the API finds.
  method PrimarySubnets(vnics: Vnics, known: string -> bool) returns (subnets: Option<seq<string>>)
    ensures subnets.None? <==> SubnetsFail(vnics, known)
    ensures subnets.Some? ==> NoRepeats(subnets.value) && forall s :: s in subnets.value <==> InReachedSubnet(vnics, s)
  {
    var found: seq<string> := [];
    var sawSecondary := false;
    for i := 0 to |vnics|
      invariant forall j: nat :: j < i ==> !Closes(vnics, j)
      invariant sawSecondary <==> exists m: nat :: m < i && IsSecondary(vnics, m)
      invariant forall k: nat :: k < i ==>
                vnics[k].Some?
                && (IsPrimary(vnics, k) ==> known(vnics[k].value.subnet) && vnics[k].value.subnet in found)
      invariant NoRepeats(found) && forall s :: s in found ==> InReachedSubnet(vnics, s)
    {
      assert Reached(vnics, i);
      if vnics[i].None? {
        return None;
      }
      var vnic := vnics[i].value;
      if !vnic.primary {
        assert IsSecondary(vnics, i);
        sawSecondary := true;
        continue;
      }
      assert IsPrimary(vnics, i);
      if !known(vnic.subnet) {
        return None;
      }
      if vnic.subnet !in found {
        found := found + [vnic.subnet];
      }
      if sawSecondary {
        assert Closes(vnics, i);
        assert forall k: nat :: Reached(vnics, k) ==> k <= i;
        return Some(found);
      }
    }
    subnets := Some(found);
  }

  ghost predicate InPrimaryGroup(vnics: Vnics, group: string) {
    exists k: nat :: IsPrimary(vnics, k) && group in vnics[k].value.nsgs
  }

  ghost predicate GroupsFail(vnics: Vnics, known: string -> bool) {
    exists k: nat :: k < |vnics|
      && (vnics[k].None? || (IsPrimary(vnics, k) && exists g :: g in vnics[k].value.nsgs && !known(g)))
  }

  // GetSecurityGroups(onlyPrimaryVnic)
  method PrimaryNsgs(vnics: Vnics, known: string -> bool) returns (nsgs: Option<seq<string>>)
    ensures nsgs.None? <==> GroupsFail(vnics, known)
    ensures nsgs.Some? ==> forall g :: g in nsgs.value <==> InPrimaryGroup(vnics, g)
  {
    var found: seq<string> := [];
    for i := 0 to |vnics|
      invariant forall k: nat :: k < i ==>
                vnics[k].Some?
                && (IsPrimary(vnics, k) ==> forall g :: g in vnics[k].value.nsgs ==> known(g) && g in found)
      invariant forall g :: g in found ==> InPrimaryGroup(vnics, g)
    {
      if vnics[i].None? {
        return None;
      }
      var vnic := vnics[i].value;
      if !vnic.primary {
        continue;
      }
      assert IsPrimary(vnics, i);
      for j := 0 to |vnic.nsgs|
        invariant forall g :: g in vnic.nsgs[..j] ==> known(g)
      {
        if !known(vnic.nsgs[j]) {
          assert vnic.nsgs[j] in vnic.nsgs;
          return None;
        }
      }
      assert vnic.nsgs[..|vnic.nsgs|] == vnic.nsgs;
      found := found + vnic.nsgs;
    }
    nsgs := Some(found);
  }

  // With one primary VNIC among others that are not, both are its own.
  lemma OnePrimary(before: seq<Vnic>, vnic: Vnic, after: seq<Vnic>, x: string)
    requires vnic.primary && forall v :: v in before + after ==> !v.primary
    ensures InReachedSubnet(Found(before + [vnic] + after), x) <==> x == vnic.subnet
    ensures InPrimaryGroup(Found(before + [vnic] + after), x) <==> x in vnic.nsgs
  {
    var vnics, k := Found(before + [vnic] + after), |before|;
    forall j: nat | j < |vnics| && j != k ensures !IsPrimary(vnics, j) {
      assert (before + after)[if j < k then j else j - 1] == vnics[j].value;
    }
    assert IsPrimary(vnics, k) && Reached(vnics, k);
  }

  // A primary VNIC behind a secondary one is the last whose subnet is found,
  // though not the last whose security groups are.
  lemma SecondaryEndsSearch(secondary: Vnic, first: Vnic, later: Vnic, x: string)
    requires !secondary.primary && first.primary && later.primary
    ensures InReachedSubnet(Found([secondary, first, later]), x) <==> x == first.subnet
    ensures InReachedSubnet(Found([first, later, secondary]), x) <==> x == first.subnet || x == later.subnet
    ensures InPrimaryGroup(Found([secondary, first, later]), x) <==> x in first.nsgs || x in later.nsgs
  {
    var vnics, open := Found([secondary, first, later]), Found([first, later, secondary]);
    assert IsSecondary(vnics, 0) && IsPrimary(vnics, 1) && IsPrimary(vnics, 2) && Closes(vnics, 1);
    assert !Closes(vnics, 0) && Reached(vnics, 1) && !Reached(vnics, 2);
    assert IsPrimary(open, 0) && IsPrimary(open, 1) && !Closes(open, 0) && Reached(open, 0) && Reached(open, 1);
  }

  // All requests succeed.
  function Found(vnics: seq<Vnic>): (found: Vnics)
    ensures |found| == |vnics| && forall k :: 0 <= k < |vnics| ==> found[k] == Some(vnics[k])
  {
    seq(|vnics|, k requires 0 <= k < |vnics| => Some(vnics[k]))
  }
}
