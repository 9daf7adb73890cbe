// pkg/controllers/nodeclass/hash/controller.go: the two-level update of hash and
// hash-version annotations, claims first, then the class, with failing patches,
// crashes, and everyone else writing in between.
module HashMigration {
  import opened Text
  import opened Sequences

  const CURRENT := "v1"  // OciNodeClassHashVersion

  // The spec is what is hashed; the hash is idealised as collision-free.
  type Spec = nat
  datatype Hash = HashOf(spec: Spec)

  datatype Annotations = Annotations(hash: Option<Hash>, version: Option<string>)

  datatype NodeClass = NodeClass(spec: Spec, ann: Annotations)

  // drifted: the Drifted condition is present; launched: Create has returned
  // for the claim under this code.
  datatype NodeClaim = NodeClaim(ann: Annotations, drifted: bool, launched: bool)

  // A reconcile under way: the class as read, the claims as listed, the next
  // one to patch, whether some patch has failed, and which claims existed at
  // the list.
  datatype Proc =
    | Read(seen: NodeClass)
    | Migrating(seen: NodeClass, listed: seq<(nat, NodeClaim)>, i: nat, failed: bool, before: nat)

  // covered: claims with smaller ids had been created when the reconcile that
  // wrote the class's version listed them.
  datatype State = State(class_: NodeClass, claims: map<nat, NodeClaim>, procs: map<nat, Proc>, next: nat,
                         covered: nat, writes: nat)

  datatype Delivery = Done | Lost | Unanswered

  datatype Action =
    | EditSpec(spec: Spec)
    | NewClaim(ann: Annotations)
    | RemoveClaim(claim: nat)
    | SetDrifted(claim: nat, drifted: bool)
    | LaunchClaim(claim: nat, spec: Spec)
    | Begin(pid: nat)
    | List(pid: nat, listed: seq<(nat, NodeClaim)>)
    | PatchClaim(pid: nat, delivery: Delivery)
    | PatchClass(pid: nat, delivery: Delivery)
    | Crash(pid: nat)

  // ---- merge patches ------------------------------------------------------------------

  // client.MergeFrom sends only the keys that differ between the copy the
  // patch was computed from and the modified copy.
  function Merge<T(==)>(now: Option<T>, from: Option<T>, to: Option<T>): Option<T> {
    if from == to then now else to
  }

  function MergePatch(now: Annotations, from: Annotations, to: Annotations): Annotations {
    Annotations(Merge(now.hash, from.hash, to.hash), Merge(now.version, from.version, to.version))
  }

  // What updateNodeClaimHash makes of a listed claim.
  function Migrated(nc: NodeClaim, classSpec: Spec): Annotations {
    if nc.ann.version == Some(CURRENT) then nc.ann
    else Annotations(if nc.drifted then nc.ann.hash else Some(HashOf(classSpec)), Some(CURRENT))
  }

  function Hashed(seen: NodeClass): Annotations { Annotations(Some(HashOf(seen.spec)), Some(CURRENT)) }

  function NeedsMigration(seen: NodeClass): bool { seen.ann.version != Some(CURRENT) }

  function End(s: State, pid: nat): State { s.(procs := s.procs - {pid}) }

  function Enter(s: State, pid: nat, p: Proc): State { s.(procs := s.procs[pid := p]) }

  // ---- steps ------------------------------------------------------------------------------

  function SetClaim(s: State, claim: nat, nc: NodeClaim): State { s.(claims := s.claims[claim := nc]) }

  function OthersStep(s: State, a: Action): State {
    match a
    case EditSpec(spec) => s.(class_ := s.class_.(spec := spec))
    case NewClaim(ann) => SetClaim(s, s.next, NodeClaim(ann, false, false)).(next := s.next + 1)
    case RemoveClaim(claim) => s.(claims := s.claims - {claim})
    case SetDrifted(claim, drifted) =>
      if claim in s.claims then SetClaim(s, claim, s.claims[claim].(drifted := drifted)) else s
    case LaunchClaim(claim, spec) =>
      // Create annotates the claim with the hash of the class it read
      if claim in s.claims
      then SetClaim(s, claim,
        s.claims[claim].(ann := Annotations(Some(HashOf(spec)), Some(CURRENT)), launched := true)) else s
    case _ => s
  }

  // listed holds every claim as it is now, in some order.
  predicate IsListing(s: State, listed: seq<(nat, NodeClaim)>) {
    && (forall k :: 0 <= k < |listed| ==> listed[k].0 in s.claims && listed[k].1 == s.claims[listed[k].0])
    && (forall c :: c in s.claims ==> Mentions(listed, c))
  }

  predicate Mentions(listed: seq<(nat, NodeClaim)>, c: nat) {
    exists k :: 0 <= k < |listed| && listed[k].0 == c
  }

  function Next(p: Proc, failed: bool): Proc
    requires p.Migrating?
  {
    p.(i := p.i + 1, failed := p.failed || failed)
  }

  function PatchClaimStep(s: State, pid: nat, delivery: Delivery): State
    requires pid in s.procs && s.procs[pid].Migrating? && s.procs[pid].i < |s.procs[pid].listed|
  {
    var p := s.procs[pid];
    var (c, copy) := p.listed[p.i];
    var to := Migrated(copy, p.seen.spec);
    if to == copy.ann then Enter(s, pid, Next(p, false))
    else if delivery.Lost? then Enter(s, pid, Next(p, true))
    else if c !in s.claims then Enter(s, pid, Next(p, delivery.Unanswered?))
    else
      var t := SetClaim(s, c, s.claims[c].(ann := MergePatch(s.claims[c].ann, copy.ann, to)));
      Enter(t.(writes := s.writes + 1), pid, Next(p, delivery.Unanswered?))
  }

  function Max(a: nat, b: nat): nat { if a >= b then a else b }

  function PatchClassStep(s: State, pid: nat, seen: NodeClass, before: nat, delivery: Delivery): State {
    if seen.ann == Hashed(seen) || delivery.Lost? then End(s, pid)
    else
      var ann := MergePatch(s.class_.ann, seen.ann, Hashed(seen));
      End(s.(class_ := s.class_.(ann := ann), covered := Max(s.covered, before), writes := s.writes + 1), pid)
  }

  // The class is patched once it needs no migration or all claims are done.
  function PatchClassOf(s: State, pid: nat, p: Proc, delivery: Delivery): State {
    match p
    case Read(seen) => if NeedsMigration(seen) then s else PatchClassStep(s, pid, seen, 0, delivery)
    case Migrating(seen, listed, i, failed, before) =>
      if i < |listed| then s
      else if failed then End(s, pid)
      else PatchClassStep(s, pid, seen, before, delivery)
  }

  function ControllerStep(s: State, a: Action): State {
    match a
    case Begin(pid) => Enter(s, pid, Read(s.class_))
    case List(pid, listed) =>
      if pid in s.procs && s.procs[pid].Read? && NeedsMigration(s.procs[pid].seen) && IsListing(s, listed)
      then Enter(s, pid, Migrating(s.procs[pid].seen, listed, 0, false, s.next)) else s
    case PatchClaim(pid, delivery) =>
      if pid in s.procs && s.procs[pid].Migrating? && s.procs[pid].i < |s.procs[pid].listed|
      then PatchClaimStep(s, pid, delivery) else s
    case PatchClass(pid, delivery) =>
      if pid !in s.procs then s
      else
        PatchClassOf(s, pid, s.procs[pid], delivery)
    case Crash(pid) => End(s, pid)
    case _ => s
  }

  function Step(s: State, a: Action): State {
    match a
    case EditSpec(_) => OthersStep(s, a)
    case NewClaim(_) => OthersStep(s, a)
    case RemoveClaim(_) => OthersStep(s, a)
    case SetDrifted(_, _) => OthersStep(s, a)
    case LaunchClaim(_, _) => OthersStep(s, a)
    case _ => ControllerStep(s, a)
  }

  function Run(s0: State, run: seq<Action>): State {
    if run == [] then s0 else Step(Run(s0, run[..|run| - 1]), run[|run| - 1])
  }

  // Any cluster before the migration: arbitrary claims, no reconcile under way.
  predicate Unmigrated(s: State) {
    && NeedsMigration(s.class_) && s.procs == map[] && s.covered == 0
    && (forall c :: c in s.claims ==> c < s.next && !s.claims[c].launched)
  }

  // ---- crash consistency ------------------------------------------------------------------

  predicate Carries(s: State, c: nat) { c in s.claims ==> s.claims[c].ann.version == Some(CURRENT) }

  predicate ProcOk(s: State, p: Proc, start: nat) {
    match p
    case Read(seen) => !NeedsMigration(seen) ==> !NeedsMigration(s.class_)
    case Migrating(seen, listed, i, failed, before) =>
      && NeedsMigration(seen) && start <= before <= s.next && i <= |listed|
      && (forall k :: 0 <= k < |listed| ==> listed[k].0 < s.next)
      && (forall c :: c in s.claims && c < before ==> Mentions(listed, c))
      && (forall k :: 0 <= k < |listed| && (listed[k].1.ann.version == Some(CURRENT) || (k < i && !failed)) ==>
         Carries(s, listed[k].0))
  }

  predicate Inv(s: State, start: nat) {
    && start <= s.next && s.covered <= s.next
    && (forall c :: c in s.claims ==> c < s.next)
    && (forall c :: c in s.claims && (c < s.covered || s.claims[c].launched) ==> Carries(s, c))
    && (!NeedsMigration(s.class_) ==> start <= s.covered)
    && (forall pid :: pid in s.procs ==> ProcOk(s, s.procs[pid], start))
  }

  // Nobody takes the version off a claim.
  ghost predicate NoRegress(s: State, t: State) {
    && s.next <= t.next && s.covered <= t.covered && (NeedsMigration(t.class_) ==> NeedsMigration(s.class_))
    && (forall c :: c in t.claims && c < s.next ==> c in s.claims)
    && (forall c: nat :: Carries(s, c) && c < s.next ==> Carries(t, c))
  }

  lemma ProcKept(s: State, t: State, p: Proc, start: nat)
    requires Inv(s, start) && NoRegress(s, t) && ProcOk(s, p, start)
    ensures ProcOk(t, p, start)
  {
  }

  lemma ProcsKept(s: State, t: State, start: nat)
    requires Inv(s, start) && NoRegress(s, t)
    requires forall pid :: pid in t.procs ==>
             (pid in s.procs && t.procs[pid] == s.procs[pid]) || ProcOk(t, t.procs[pid], start)
    ensures forall pid :: pid in t.procs ==> ProcOk(t, t.procs[pid], start)
  {
    forall pid | pid in t.procs && pid in s.procs && t.procs[pid] == s.procs[pid]
      ensures ProcOk(t, t.procs[pid], start)
    {
      ProcKept(s, t, s.procs[pid], start);
    }
  }

  lemma OthersStepInv(s: State, a: Action, start: nat)
    requires Inv(s, start)
    ensures Inv(OthersStep(s, a), start)
  {
    ProcsKept(s, OthersStep(s, a), start);
  }

  // A patched claim carries the version afterwards.
  lemma PatchClaimEffect(s: State, pid: nat, delivery: Delivery)
    requires pid in s.procs && s.procs[pid].Migrating? && s.procs[pid].i < |s.procs[pid].listed|
    ensures var p, t := s.procs[pid], PatchClaimStep(s, pid, delivery);
            var (c, copy) := p.listed[p.i];
            && t.procs == s.procs[pid := t.procs[pid]] && t.procs[pid].Migrating?
            && (t.procs[pid] == Next(p, false) || t.procs[pid] == Next(p, true))
            && t.next == s.next && t.covered == s.covered && t.class_ == s.class_
            && (if t.claims == s.claims then
                  !t.procs[pid].failed && copy.ann.version != Some(CURRENT) ==> Carries(t, c) || p.failed
                else
                  && c in s.claims && t.claims == s.claims[c := t.claims[c]]
                  && t.claims[c].launched == s.claims[c].launched && Carries(t, c))
  {
  }

  lemma PatchClaimInv(s: State, pid: nat, delivery: Delivery, start: nat)
    requires Inv(s, start) && pid in s.procs && s.procs[pid].Migrating? && s.procs[pid].i < |s.procs[pid].listed|
    ensures Inv(PatchClaimStep(s, pid, delivery), start)
  {
    var p, t := s.procs[pid], PatchClaimStep(s, pid, delivery);
    PatchClaimEffect(s, pid, delivery);
    assert ProcOk(s, p, start);
    PatchClaimNoRegress(s, pid, delivery, start);
    PatchedProcOk(s, pid, delivery, start);
    ProcsKept(s, t, start);
  }

  lemma PatchClaimNoRegress(s: State, pid: nat, delivery: Delivery, start: nat)
    requires Inv(s, start) && pid in s.procs && s.procs[pid].Migrating? && s.procs[pid].i < |s.procs[pid].listed|
    ensures NoRegress(s, PatchClaimStep(s, pid, delivery))
  {
    PatchClaimEffect(s, pid, delivery);
  }

  lemma PatchedProcOk(s: State, pid: nat, delivery: Delivery, start: nat)
    requires Inv(s, start) && pid in s.procs && s.procs[pid].Migrating? && s.procs[pid].i < |s.procs[pid].listed|
    ensures var t := PatchClaimStep(s, pid, delivery); pid in t.procs && ProcOk(t, t.procs[pid], start)
  {
    var p, t := s.procs[pid], PatchClaimStep(s, pid, delivery);
    var c := p.listed[p.i].0;
    PatchClaimEffect(s, pid, delivery);
    PatchClaimNoRegress(s, pid, delivery, start);
    assert ProcOk(s, p, start);
    ProcKept(s, t, p, start);
    var next := t.procs[pid];
    forall k | 0 <= k < |p.listed| && (p.listed[k].1.ann.version == Some(CURRENT) || (k < next.i && !next.failed))
      ensures Carries(t, p.listed[k].0)
    {
      if k == p.i && t.claims == s.claims { assert p.listed[k].0 == c; }
    }
  }

  lemma PatchClassInv(s: State, pid: nat, seen: NodeClass, before: nat, delivery: Delivery, start: nat)
    requires Inv(s, start) && before <= s.next
    requires forall c :: c in s.claims && c < before ==> Carries(s, c)
    requires NeedsMigration(seen) ==> start <= before
    requires !NeedsMigration(seen) ==> !NeedsMigration(s.class_)
    ensures Inv(PatchClassStep(s, pid, seen, before, delivery), start)
  {
    ProcsKept(s, PatchClassStep(s, pid, seen, before, delivery), start);
  }

  lemma ListInv(s: State, pid: nat, listed: seq<(nat, NodeClaim)>, start: nat)
    requires Inv(s, start)
    ensures Inv(ControllerStep(s, List(pid, listed)), start)
  {
    var t := ControllerStep(s, List(pid, listed));
    if t != s {
      assert ProcOk(t, t.procs[pid], start);
      ProcsKept(s, t, start);
    }
  }

  lemma PatchClassOfInv(s: State, pid: nat, delivery: Delivery, start: nat)
    requires Inv(s, start) && pid in s.procs
    ensures Inv(PatchClassOf(s, pid, s.procs[pid], delivery), start)
  {
    assert ProcOk(s, s.procs[pid], start);
    match s.procs[pid]
    case Read(seen) => if !NeedsMigration(seen) { PatchClassInv(s, pid, seen, 0, delivery, start); }
    case Migrating(seen, listed, i, failed, before) =>
      if i == |listed| && !failed { PatchClassInv(s, pid, seen, before, delivery, start); }
      ProcsKept(s, End(s, pid), start);
  }

  lemma ControllerStepInv(s: State, a: Action, start: nat)
    requires Inv(s, start)
    ensures Inv(ControllerStep(s, a), start)
  {
    match a
    case PatchClaim(pid, delivery) =>
      if pid in s.procs && s.procs[pid].Migrating? && s.procs[pid].i < |s.procs[pid].listed| {
        PatchClaimInv(s, pid, delivery, start);
      }
    case PatchClass(pid, delivery) =>
      if pid in s.procs { PatchClassOfInv(s, pid, delivery, start); }
    case List(pid, listed) => ListInv(s, pid, listed, start);
    case _ => ProcsKept(s, ControllerStep(s, a), start);
  }

  lemma {:induction false} RunInv(s0: State, run: seq<Action>)
    requires Unmigrated(s0)
    ensures Inv(Run(s0, run), s0.next)
  {
    if run != [] {
      var s, a := Run(s0, run[..|run| - 1]), run[|run| - 1];
      RunInv(s0, run[..|run| - 1]);
      OthersStepInv(s, a, s0.next);
      ControllerStepInv(s, a, s0.next);
    }
  }

  // However patches fail and whoever interferes: once the class carries the
  // current version, so does every claim that existed before the migration,
  // and every claim created up to the listing of a reconcile that wrote it.
  lemma MigrationCrashConsistent(s0: State, run: seq<Action>, c: nat)
    requires Unmigrated(s0)
    requires var s := Run(s0, run);
             && s.class_.ann.version == Some("v1") && c in s.claims
             && (c < s0.next || c < s.covered || s.claims[c].launched)
    ensures Run(s0, run).claims[c].ann.version == Some("v1")
  {
    RunInv(s0, run);
    assert Carries(Run(s0, run), c);
  }

  // ---- hashes --------------------------------------------------------------------------------

  // What an acknowledged patch leaves on a claim that was listed without the
  // version: the version, and the hash of the class as the reconcile read it,
  // unless the claim was listed as drifted or already had that hash.
  lemma PatchedHash(s: State, pid: nat)
    requires pid in s.procs && s.procs[pid].Migrating? && s.procs[pid].i < |s.procs[pid].listed|
    requires var (c, copy) := s.procs[pid].listed[s.procs[pid].i]; c in s.claims && copy.ann.version != Some("v1")
    ensures var p := s.procs[pid];
            var (c, copy) := p.listed[p.i];
            var hash := Some(HashOf(p.seen.spec));
            PatchClaimStep(s, pid, Done).claims[c]
            == s.claims[c].(ann :=
               Annotations(if copy.drifted || copy.ann.hash == hash then s.claims[c].ann.hash else hash, Some("v1")))
  {
  }

  predicate LeavesDrifted(a: Action, c: nat) {
    !(a.LaunchClaim? && a.claim == c) && !(a.SetDrifted? && a.claim == c)
  }

  predicate StillDrifted(s: State, c: nat, hash: Option<Hash>) {
    && c < s.next
    && (c in s.claims ==> s.claims[c].drifted && s.claims[c].ann.hash == hash)
    && (forall pid, k ::
          (pid in s.procs && s.procs[pid].Migrating? && 0 <= k < |s.procs[pid].listed| && s.procs[pid].listed[k].0 == c)
          ==> s.procs[pid].listed[k].1.drifted)
  }

  lemma StillDriftedStep(s: State, a: Action, c: nat, hash: Option<Hash>)
    requires StillDrifted(s, c, hash) && LeavesDrifted(a, c)
    ensures StillDrifted(Step(s, a), c, hash)
  {
    var t := Step(s, a);
    if a.PatchClaim? && a.pid in s.procs && s.procs[a.pid].Migrating? && s.procs[a.pid].i < |s.procs[a.pid].listed| {
      PatchClaimEffect(s, a.pid, a.delivery);
      assert t.procs[a.pid].listed == s.procs[a.pid].listed;
    }
  }

  // A drifted claim keeps its old hash over any run in which nobody relaunches
  // it or clears its condition.
  lemma {:induction false} DriftedKeepsHash(s0: State, run: seq<Action>, c: nat)
    requires Unmigrated(s0) && c in s0.claims && s0.claims[c].drifted
    requires forall a :: a in run ==> LeavesDrifted(a, c)
    ensures StillDrifted(Run(s0, run), c, s0.claims[c].ann.hash)
  {
    if run != [] {
      DriftedKeepsHash(s0, run[..|run| - 1], c);
      StillDriftedStep(Run(s0, run[..|run| - 1]), run[|run| - 1], c, s0.claims[c].ann.hash);
    }
  }

  // ---- the controller as a program over the shared cluster -------------------------------

  function Pid(a: Action): Option<nat> {
    match a
    case Begin(pid) => Some(pid)
    case List(pid, _) => Some(pid)
    case PatchClaim(pid, _) => Some(pid)
    case PatchClass(pid, _) => Some(pid)
    case Crash(pid) => Some(pid)
    case _ => None
  }

  predicate Foreign(others: seq<Action>, pid: nat) {
    forall a :: a in others ==> Pid(a) != Some(pid)
  }

  lemma ForeignStep(s: State, a: Action, pid: nat)
    requires Pid(a) != Some(pid)
    ensures pid in Step(s, a).procs <==> pid in s.procs
    ensures pid in s.procs ==> Step(s, a).procs[pid] == s.procs[pid]
  {
  }

  class Cluster {
    const start: State
    var state: State
    ghost var history: seq<Action>

    ghost predicate Valid()
      reads this
    {
      state == Run(start, history)
    }

    constructor (start: State)
      ensures Valid() && this.start == start && history == []
    {
      this.start, state, history := start, start, [];
    }

    method Perform(a: Action)
      requires Valid()
      modifies this
      ensures Valid() && history == old(history) + [a] && state == Step(old(state), a)
    {
      assert (history + [a])[..|history|] == history;
      state := Step(state, a);
      history := history + [a];
    }

    method Interfere(others: seq<Action>, pid: nat)
      requires Valid() && Foreign(others, pid)
      modifies this
      ensures Valid() && history == old(history) + others
      ensures pid in old(state).procs ==> pid in state.procs && state.procs[pid] == old(state).procs[pid]
      ensures others == [] ==> state == old(state)
    {
      for i := 0 to |others|
        invariant Valid() && history == old(history) + others[..i]
        invariant pid in old(state).procs ==> pid in state.procs && state.procs[pid] == old(state).procs[pid]
        invariant i == 0 ==> state == old(state)
      {
        assert others[i] in others;
        ForeignStep(state, others[i], pid);
        Perform(others[i]);
        assert others[..i + 1] == others[..i] + [others[i]];
      }
    }

    // The API server answers a list in any order.
    method ListClaims() returns (listed: seq<(nat, NodeClaim)>)
      ensures IsListing(state, listed) && DistinctBy(listed, ClaimOf())
    {
      listed := [];
      var todo := state.claims.Keys;
      while todo != {}
        invariant todo <= state.claims.Keys && DistinctBy(listed, ClaimOf())
        invariant forall k :: 0 <= k < |listed| ==>
                    listed[k].0 in state.claims && listed[k].0 !in todo && listed[k].1 == state.claims[listed[k].0]
        invariant forall c :: c in state.claims && c !in todo ==> Mentions(listed, c)
        decreases todo
      {
        var c :| c in todo;
        todo := todo - {c};
        ghost var shorter := listed;
        listed := listed + [(c, state.claims[c])];
        assert listed[|shorter|].0 == c;
        forall d | Mentions(shorter, d) ensures Mentions(listed, d) {
          var k :| 0 <= k < |shorter| && shorter[k].0 == d;
          assert listed[k].0 == d;
        }
      }
    }
  }

  function ClaimOf(): ((nat, NodeClaim)) -> nat { (l: (nat, NodeClaim)) => l.0 }

  // All claims as an undisturbed migration leaves them.
  function AllMigrated(claims: map<nat, NodeClaim>, classSpec: Spec): map<nat, NodeClaim> {
    map c | c in claims :: claims[c].(ann := Migrated(claims[c], classSpec))
  }

  // The first i listed claims are migrated, the others are as they were.
  ghost predicate MigratedUpTo(claims: map<nat, NodeClaim>, was: map<nat, NodeClaim>, listed: seq<(nat, NodeClaim)>,
                               i: nat, classSpec: Spec) {
    && claims.Keys == was.Keys && i <= |listed|
    && (forall k :: 0 <= k < |listed| ==> listed[k].0 in was && listed[k].1 == was[listed[k].0])
    && (forall k :: 0 <= k < |listed| ==>
          claims[listed[k].0] == if k < i then was[listed[k].0].(ann := Migrated(was[listed[k].0], classSpec))
            else was[listed[k].0])
  }

  lemma MigrateNext(s: State, was: map<nat, NodeClaim>, pid: nat)
    requires pid in s.procs && s.procs[pid].Migrating? && s.procs[pid].i < |s.procs[pid].listed|
    requires DistinctBy(s.procs[pid].listed, ClaimOf())
    requires MigratedUpTo(s.claims, was, s.procs[pid].listed, s.procs[pid].i, s.procs[pid].seen.spec)
    ensures var p, t := s.procs[pid], PatchClaimStep(s, pid, Done);
            && t.procs[pid] == Next(p, false) && t.class_ == s.class_ && t.writes >= s.writes
            && MigratedUpTo(t.claims, was, p.listed, p.i + 1, p.seen.spec)
  {
  }

  lemma MigratedAll(claims: map<nat, NodeClaim>, was: map<nat, NodeClaim>, listed: seq<(nat, NodeClaim)>,
                    classSpec: Spec)
    requires MigratedUpTo(claims, was, listed, |listed|, classSpec)
    requires forall c :: c in was ==> Mentions(listed, c)
    ensures claims == AllMigrated(was, classSpec)
  {
    forall c | c in claims ensures claims[c] == AllMigrated(was, classSpec)[c] {
      assert Mentions(listed, c);
      var k :| 0 <= k < |listed| && listed[k].0 == c;
      assert claims[listed[k].0] == was[c].(ann := Migrated(was[c], classSpec));
    }
  }

  // What that leaves of each claim.
  lemma AllMigratedIs(was: map<nat, NodeClaim>, classSpec: Spec, c: nat)
    requires c in was
    ensures var nc := AllMigrated(was, classSpec)[c];
            && nc.drifted == was[c].drifted && nc.launched == was[c].launched
            && (was[c].ann.version == Some("v1") ==> nc.ann == was[c].ann)
            && (was[c].ann.version != Some("v1") ==>
                  && nc.ann.version == Some("v1")
                  && nc.ann.hash == if was[c].drifted then was[c].ann.hash else Some(HashOf(classSpec)))
  {
  }

  class HashController {
    const cluster: Cluster

    constructor (cluster: Cluster)
      ensures this.cluster == cluster
    {
      this.cluster := cluster;
    }

    ghost predicate Calm(others: nat -> seq<Action>, delivery: nat -> Delivery) {
      forall n :: others(n) == [] && delivery(n) == Done
    }

    // Reconcile and updateNodeClaimHash. Others act, and patches fare, as the
    // two schedules say, and listed says whether the API answers the listing of
    // claims; the result is always a run of the protocol.
    method Reconcile(pid: nat, listed: bool, others: nat -> seq<Action>, delivery: nat -> Delivery,
                     beforePatch: seq<Action>)
      returns (ok: bool)
      requires cluster.Valid() && Foreign(beforePatch, pid) && forall n :: Foreign(others(n), pid)
      modifies cluster
      ensures cluster.Valid()
      ensures old(cluster.state).class_.ann.version != Some("v1") && !listed ==>
                !ok && (others(0) == [] ==> cluster.state.class_ == old(cluster.state).class_
                                            && cluster.state.claims == old(cluster.state).claims)
      ensures listed && Calm(others, delivery) && beforePatch == [] ==>
                && ok && cluster.state.class_.spec == old(cluster.state).class_.spec
                && cluster.state.class_.ann.hash == Some(HashOf(old(cluster.state).class_.spec))
                && cluster.state.class_.ann.version == Some("v1")
                && (old(cluster.state).class_.ann.version == Some("v1") ==>
                      cluster.state.claims == old(cluster.state).claims)
      ensures listed && Calm(others, delivery) && beforePatch == []
              && old(cluster.state).class_.ann.version != Some("v1") ==>
                && cluster.state.claims.Keys == old(cluster.state).claims.Keys
                && forall c :: c in cluster.state.claims ==>
                     var was, nc := old(cluster.state).claims[c], cluster.state.claims[c];
                     && nc.drifted == was.drifted && nc.launched == was.launched
                     && (was.ann.version == Some("v1") ==> nc.ann == was.ann)
                     && (was.ann.version != Some("v1") ==>
                           && nc.ann.version == Some("v1")
                           && nc.ann.hash == if was.drifted then was.ann.hash else cluster.state.class_.ann.hash)
      ensures listed && Calm(others, delivery) && beforePatch == [] ==>
                var was := old(cluster.state).class_;
                if was.ann.hash == Some(HashOf(was.spec)) && was.ann.version == Some("v1")
                then cluster.state.writes == old(cluster.state).writes
                else cluster.state.writes > old(cluster.state).writes
    {
      cluster.Perform(Begin(pid));
      var nodeClass := cluster.state.class_;
      ok := true;
      cluster.Interfere(others(0), pid);
      if NeedsMigration(nodeClass) {
        if !listed {
          return false;
        }
        ok := UpdateNodeClaimHash(pid, others, delivery);
        if !ok {
          return;
        }
      }
      cluster.Interfere(beforePatch, pid);
      ok := PatchNodeClass(pid, nodeClass, delivery(0));
      forall c | c in old(cluster.state).claims {
        AllMigratedIs(old(cluster.state).claims, nodeClass.spec, c);
      }
    }

    // Nothing is sent when the annotations are up to date.
    method PatchNodeClass(pid: nat, nodeClass: NodeClass, delivery: Delivery) returns (ok: bool)
      requires cluster.Valid()
      modifies cluster
      ensures cluster.Valid() && cluster.state == Step(old(cluster.state), PatchClass(pid, delivery))
      ensures ok <==> delivery == Done || nodeClass.ann == Annotations(Some(HashOf(nodeClass.spec)), Some("v1"))
    {
      cluster.Perform(PatchClass(pid, delivery));
      ok := delivery == Done || nodeClass.ann == Hashed(nodeClass);
    }

    method UpdateNodeClaimHash(pid: nat, others: nat -> seq<Action>, delivery: nat -> Delivery) returns (ok: bool)
      requires cluster.Valid() && forall n :: Foreign(others(n), pid)
      requires pid in cluster.state.procs && cluster.state.procs[pid].Read?
               && NeedsMigration(cluster.state.procs[pid].seen)
      modifies cluster
      ensures cluster.Valid()
      ensures pid in cluster.state.procs && cluster.state.procs[pid].Migrating?
      ensures var p := cluster.state.procs[pid];
              p.seen == old(cluster.state).procs[pid].seen && p.i == |p.listed| && (ok <==> !p.failed)
      ensures Calm(others, delivery) ==>
                && ok && cluster.state.class_ == old(cluster.state).class_
                && cluster.state.writes >= old(cluster.state).writes
                && cluster.state.claims
                   == AllMigrated(old(cluster.state).claims, old(cluster.state).procs[pid].seen.spec)
    {
      var listed := cluster.ListClaims();
      cluster.Perform(List(pid, listed));
      ghost var listing := cluster.state;
      for i := 0 to |listed|
        invariant cluster.Valid() && At(cluster.state, listing, pid, i)
        invariant Calm(others, delivery) ==> CalmSoFar(cluster.state, listing, pid)
      {
        MigrateOne(pid, i, others(i + 1), delivery(i + 1), listing);
      }
      ok := !cluster.state.procs[pid].failed;
      if Calm(others, delivery) {
        MigratedAll(cluster.state.claims, listing.claims, listed, listing.procs[pid].seen.spec);
      }
    }

    // The claims listed when the loop began, migrated up to the i-th.
    ghost predicate At(s: State, listing: State, pid: nat, i: nat) {
      && pid in s.procs && s.procs[pid].Migrating? && pid in listing.procs && listing.procs[pid].Migrating?
      && s.procs[pid].seen == listing.procs[pid].seen && s.procs[pid].listed == listing.procs[pid].listed
         && s.procs[pid].i == i
    }

    ghost predicate CalmSoFar(s: State, listing: State, pid: nat)
      requires pid in s.procs && s.procs[pid].Migrating?
    {
      var p := s.procs[pid];
      && !p.failed && s.class_ == listing.class_ && s.writes >= listing.writes && DistinctBy(p.listed, ClaimOf())
      && MigratedUpTo(s.claims, listing.claims, p.listed, p.i, p.seen.spec)
    }

    method MigrateOne(pid: nat, i: nat, others: seq<Action>, delivery: Delivery, ghost listing: State)
      requires cluster.Valid() && Foreign(others, pid)
      requires At(cluster.state, listing, pid, i) && i < |cluster.state.procs[pid].listed|
      modifies cluster
      ensures cluster.Valid() && At(cluster.state, listing, pid, i + 1)
      ensures old(CalmSoFar(cluster.state, listing, pid)) && others == [] && delivery == Done ==>
              CalmSoFar(cluster.state, listing, pid)
    {
      cluster.Interfere(others, pid);
      AtNext(cluster.state, listing, pid, i, delivery);
      cluster.Perform(PatchClaim(pid, delivery));
    }

    lemma AtNext(s: State, listing: State, pid: nat, i: nat, delivery: Delivery)
      requires At(s, listing, pid, i) && i < |s.procs[pid].listed|
      ensures var t := Step(s, PatchClaim(pid, delivery));
              At(t, listing, pid, i + 1)
                && (CalmSoFar(s, listing, pid) && delivery == Done ==> CalmSoFar(t, listing, pid))
    {
      PatchClaimEffect(s, pid, delivery);
      assert Step(s, PatchClaim(pid, delivery)) == PatchClaimStep(s, pid, delivery);
      if CalmSoFar(s, listing, pid) && delivery == Done {
        MigrateNext(s, listing.claims, pid);
      }
    }
  }

  // After an undisturbed reconcile another one writes nothing.
  lemma SettledWritesNothing(s: State, pid: nat)
    requires s.class_.ann.hash == Some(HashOf(s.class_.spec)) && s.class_.ann.version == Some("v1")
    ensures var t := Step(Step(s, Begin(pid)), PatchClass(pid, Done));
            t.writes == s.writes && t.class_ == s.class_ && t.claims == s.claims
  {
  }
}
