// pkg/controllers/nodeclaim/garbagecollection/controller.go: instances without a
// claim are terminated, against launches, late records and removals of claims,
// on one clock.
module GarbageCollection {
  import opened Text

  // Time is in nanoseconds.
  const SECOND := 1_000_000_000
  const GRACE := 30 * SECOND
  const NODE_GRACE := 300 * SECOND

  // owner is the claim an instance was launched for; managed, the cluster's tag;
  // stopped, that it is terminating or terminated.
  datatype Instance = Instance(createdAt: int, managed: bool, stopped: bool, owner: Option<nat>)

  // A reconcile under way. at is when it listed the claims; condemned instances
  // and forsaken nodes have passed their checks.
  datatype Gc =
    | Listing(cloud: map<nat, Instance>)
    | Collecting(cloud: map<nat, Instance>, resolved: set<nat>, at: int, nodes: map<nat, bool>, condemned: set<nat>,
      forsaken: set<nat>)

  // claims maps a claim to the provider ID it has recorded; nodes maps a
  // provider ID to whether its node is tainted as unreachable; harmed are the
  // provider IDs of live claims that a collector terminated or took a node from.
  datatype State = State(
    now: int,
    claims: map<nat, Option<nat>>,
    instances: map<nat, Instance>,
    nodes: map<nat, bool>,
    gcs: map<nat, Gc>,
    next: nat,
    harmed: set<nat>)

  datatype Delivery = Done | Lost | Unanswered

  datatype Action =
    | Tick(d: nat)
    | NewClaim
    | RemoveClaim(claim: nat)
    | Launch(claim: nat, managed: bool)
    | Appear(managed: bool)
    | Record(id: nat)
    | Stop(id: nat)
    | Vanish(id: nat)
    | SetNode(id: nat, unreachable: bool)
    | RemoveNode(id: nat)
    | Begin(pid: nat)
    | Page(pid: nat, ids: set<nat>)
    | ListClaims(pid: nat)
    | ListNodes(pid: nat)
    | Check(pid: nat, id: nat)
    | Terminate(pid: nat, id: nat, delivery: Delivery)
    | DropNode(pid: nat, id: nat, delivery: Delivery)
    | Crash(pid: nat)

  const INIT := State(0, map[], map[], map[], map[], 0, {})

  // ---- steps ---------------------------------------------------------------------------

  // The claim that id was launched for exists, and has recorded id or nothing
  // yet. An instance whose claim has recorded another one has been superseded.
  predicate Live(s: State, id: nat) {
    && id in s.instances && s.instances[id].owner.Some? && s.instances[id].owner.value in s.claims
    && s.claims[s.instances[id].owner.value] in {None, Some(id)}
  }

  predicate Recorded(s: State, id: nat)
    requires Live(s, id)
  {
    s.claims[s.instances[id].owner.value] == Some(id)
  }

  function Resolved(claims: map<nat, Option<nat>>): set<nat> {
    set c | c in claims && claims[c].Some? :: claims[c].value
  }

  function AddInstance(s: State, i: Instance): State {
    s.(instances := s.instances[s.next := i], next := s.next + 1)
  }

  function SetInstance(s: State, id: nat, i: Instance): State { s.(instances := s.instances[id := i]) }

  function OthersStep(s: State, a: Action): State {
    match a
    case Tick(d) => s.(now := s.now + d)
    case NewClaim => s.(claims := s.claims[s.next := None], next := s.next + 1)
    case RemoveClaim(claim) => s.(claims := s.claims - {claim})
    case Launch(claim, managed) =>
      // the claim may be gone by the time its launch goes through
      if claim < s.next then AddInstance(s, Instance(s.now, managed, false, Some(claim))) else s
    case Appear(managed) => AddInstance(s, Instance(s.now, managed, false, None))
    case Record(id) =>
      if Live(s, id)
      then s.(claims := s.claims[s.instances[id].owner.value := Some(id)]) else s
    case Stop(id) => if id in s.instances then SetInstance(s, id, s.instances[id].(stopped := true)) else s
    case Vanish(id) => s.(instances := s.instances - {id})
    case SetNode(id, unreachable) => s.(nodes := s.nodes[id := unreachable])
    case RemoveNode(id) => s.(nodes := s.nodes - {id})
    case _ => s
  }

  function Enter(s: State, pid: nat, gc: Gc): State { s.(gcs := s.gcs[pid := gc]) }

  function Harm(s: State, id: nat): State { s.(harmed := if Live(s, id) then s.harmed + {id} else s.harmed) }

  predicate IsCollecting(s: State, pid: nat) { pid in s.gcs && s.gcs[pid].Collecting? }

  // The checks of the two worker loops.
  predicate Overdue(gc: Gc, id: nat, now: int)
    requires gc.Collecting?
  {
    && id in gc.cloud && gc.cloud[id].managed && id !in gc.resolved
    && now - gc.cloud[id].createdAt > if gc.cloud[id].stopped then NODE_GRACE else GRACE
  }

  function CheckStep(s: State, pid: nat, id: nat): State
    requires IsCollecting(s, pid)
  {
    var gc := s.gcs[pid];
    if !Overdue(gc, id, s.now) then s
    else if gc.cloud[id].stopped then Enter(s, pid, gc.(forsaken := gc.forsaken + {id}))
    else Enter(s, pid, gc.(condemned := gc.condemned + {id}))
  }

  // A node is dropped along with its instance, or, when the instance was listed
  // as stopped, if it was listed as unreachable.
  predicate Droppable(gc: Gc, id: nat)
    requires gc.Collecting?
  {
    id in gc.nodes && (id in gc.condemned || (id in gc.forsaken && gc.nodes[id]))
  }

  function GcStep(s: State, a: Action): State {
    match a
    case Begin(pid) => Enter(s, pid, Listing(map[]))
    case Page(pid, ids) =>
      if pid in s.gcs && s.gcs[pid].Listing?
      then Enter(s, pid, Listing(s.gcs[pid].cloud + map id | id in ids && id in s.instances :: s.instances[id])) else s
    case ListClaims(pid) =>
      if pid in s.gcs && s.gcs[pid].Listing?
      then Enter(s, pid, Collecting(s.gcs[pid].cloud, Resolved(s.claims), s.now, map[], {}, {})) else s
    case ListNodes(pid) =>
      if IsCollecting(s, pid) then Enter(s, pid, s.gcs[pid].(nodes := s.nodes)) else s
    case Check(pid, id) =>
      if IsCollecting(s, pid) then CheckStep(s, pid, id) else s
    case Terminate(pid, id, delivery) =>
      if IsCollecting(s, pid) && id in s.gcs[pid].condemned && !delivery.Lost? && id in s.instances
      then SetInstance(Harm(s, id), id, s.instances[id].(stopped := true)) else s
    case DropNode(pid, id, delivery) =>
      if IsCollecting(s, pid) && Droppable(s.gcs[pid], id) && !delivery.Lost?
      then Harm(s, id).(nodes := s.nodes - {id}) else s
    case Crash(pid) => s.(gcs := s.gcs - {pid})
    case _ => s
  }

  function Step(s: State, a: Action): State {
    match a
    case Begin(_) => GcStep(s, a)
    case Page(_, _) => GcStep(s, a)
    case ListClaims(_) => GcStep(s, a)
    case ListNodes(_) => GcStep(s, a)
    case Check(_, _) => GcStep(s, a)
    case Terminate(_, _, _) => GcStep(s, a)
    case DropNode(_, _, _) => GcStep(s, a)
    case Crash(_) => GcStep(s, a)
    case _ => OthersStep(s, a)
  }

  function Run(run: seq<Action>): State {
    if run == [] then INIT else Step(Run(run[..|run| - 1]), run[|run| - 1])
  }

  // ---- the two time bounds -----------------------------------------------------------------

  // A claim records its instance at most r after that was created, and an age
  // is checked at most d after the claims were listed.
  ghost predicate TimelyStep(s: State, a: Action, r: nat, d: nat) {
    && (a.Tick? ==> forall id :: id in s.instances && Live(s, id) && !Recorded(s, id) ==>
       s.now + a.d <= s.instances[id].createdAt + r)
    && (a.Check? && IsCollecting(s, a.pid) ==> s.now - s.gcs[a.pid].at <= d)
  }

  ghost predicate Timely(run: seq<Action>, r: nat, d: nat) {
    run == [] || (Timely(run[..|run| - 1], r, d) && TimelyStep(Run(run[..|run| - 1]), run[|run| - 1], r, d))
  }

  // ---- structural invariant --------------------------------------------------------------------

  // What never changes about an instance, and what changes only one way.
  ghost predicate SameInstance(was: Instance, i: Instance) {
    was.createdAt == i.createdAt && was.managed == i.managed && was.owner == i.owner && (was.stopped ==> i.stopped)
  }

  ghost predicate SnapshotOk(s: State, cloud: map<nat, Instance>) {
    forall id :: id in cloud ==> id < s.next && (id in s.instances ==> SameInstance(cloud[id], s.instances[id]))
  }

  ghost predicate Shape(s: State) {
    && (forall id :: id in s.instances ==>
          id < s.next && s.instances[id].createdAt <= s.now
            && (s.instances[id].owner.Some? ==> s.instances[id].owner.value < s.next))
    && (forall c :: c in s.claims ==> c < s.next)
    && (forall c :: c in s.claims && s.claims[c].Some? ==>
          s.claims[c].value < s.next
            && (s.claims[c].value in s.instances ==> s.instances[s.claims[c].value].owner == Some(c)))
    && (forall pid :: pid in s.gcs ==> SnapshotOk(s, s.gcs[pid].cloud))
  }

  // Time passes, new things get new numbers, and what is known of old ones stays.
  ghost predicate Forward(s: State, t: State) {
    && s.now <= t.now && s.next <= t.next
    && KeepsInstances(s, t)
    && (forall id: nat :: id < s.next && Live(t, id) ==> Live(s, id))
  }

  ghost predicate KeepsInstances(s: State, t: State) {
    forall id :: id in t.instances && id < s.next ==>
      id in s.instances && SameInstance(s.instances[id], t.instances[id])
  }

  lemma OthersInstances(s: State, a: Action)
    requires Shape(s)
    ensures KeepsInstances(s, OthersStep(s, a))
  {
  }

  lemma OthersLive(s: State, a: Action)
    requires Shape(s)
    ensures forall id: nat :: id < s.next && Live(OthersStep(s, a), id) ==> Live(s, id)
  {
  }

  lemma OthersForward(s: State, a: Action)
    requires Shape(s)
    ensures Forward(s, OthersStep(s, a)) && OthersStep(s, a).gcs == s.gcs && OthersStep(s, a).harmed == s.harmed
  {
    OthersInstances(s, a);
    OthersLive(s, a);
  }

  // A collector only stops instances and removes nodes.
  lemma GcForward(s: State, a: Action)
    requires Shape(s)
    ensures var t := GcStep(s, a);
            && Forward(s, t) && t.claims == s.claims && t.now == s.now && t.next == s.next
               && t.instances.Keys == s.instances.Keys
  {
    GcInstances(s, a);
  }

  lemma GcInstances(s: State, a: Action)
    requires Shape(s)
    ensures KeepsInstances(s, GcStep(s, a)) && GcStep(s, a).instances.Keys == s.instances.Keys
  {
  }

  lemma ForwardTwice(s: State, t: State, u: State)
    requires Forward(s, t) && Forward(t, u)
    ensures Forward(s, u)
  {
  }

  lemma SnapshotKept(s: State, t: State, cloud: map<nat, Instance>)
    requires Forward(s, t) && SnapshotOk(s, cloud)
    ensures SnapshotOk(t, cloud)
  {
  }

  lemma OthersShape(s: State, a: Action)
    requires Shape(s)
    ensures Shape(OthersStep(s, a))
  {
    var t := OthersStep(s, a);
    OthersForward(s, a);
    forall pid | pid in t.gcs ensures SnapshotOk(t, t.gcs[pid].cloud) { SnapshotKept(s, t, s.gcs[pid].cloud); }
  }

  lemma GcSnapshots(s: State, a: Action, pid: nat)
    requires Shape(s) && pid in GcStep(s, a).gcs
    ensures SnapshotOk(s, GcStep(s, a).gcs[pid].cloud)
  {
  }

  lemma GcShape(s: State, a: Action)
    requires Shape(s)
    ensures Shape(GcStep(s, a))
  {
    var t := GcStep(s, a);
    GcForward(s, a);
    forall pid | pid in t.gcs ensures SnapshotOk(t, t.gcs[pid].cloud) {
      GcSnapshots(s, a, pid);
      SnapshotKept(s, t, t.gcs[pid].cloud);
    }
  }

  // ---- safety ---------------------------------------------------------------------------------------

  ghost predicate GcSafe(s: State, gc: Gc, r: nat) {
    gc.Collecting? ==>
      && gc.at <= s.now
      && (forall id :: id in gc.cloud && id !in gc.resolved && Live(s, id) ==> gc.at <= s.instances[id].createdAt + r)
      && (forall id :: id in gc.condemned || id in gc.forsaken ==> id < s.next && !Live(s, id))
  }

  ghost predicate Inv(s: State, r: nat) {
    && Shape(s)
    && OnTime(s, r)
    && (forall pid :: pid in s.gcs ==> GcSafe(s, s.gcs[pid], r))
    && s.harmed == {}
  }

  lemma GcKept(s: State, t: State, gc: Gc, r: nat)
    requires Shape(s) && Forward(s, t) && GcSafe(s, gc, r) && SnapshotOk(s, gc.cloud)
    ensures GcSafe(t, gc, r)
  {
  }

  lemma GcsKept(s: State, t: State, r: nat)
    requires Inv(s, r) && Forward(s, t)
    requires forall pid :: pid in t.gcs ==> (pid in s.gcs && t.gcs[pid] == s.gcs[pid]) || GcSafe(t, t.gcs[pid], r)
    ensures forall pid :: pid in t.gcs ==> GcSafe(t, t.gcs[pid], r)
  {
    forall pid | pid in t.gcs ensures GcSafe(t, t.gcs[pid], r) {
      if pid in s.gcs && t.gcs[pid] == s.gcs[pid] { GcKept(s, t, s.gcs[pid], r); }
    }
  }

  ghost predicate OnTime(s: State, r: nat) {
    forall id :: id in s.instances && Live(s, id) && !Recorded(s, id) ==> s.now <= s.instances[id].createdAt + r
  }

  lemma OthersOnTime(s: State, a: Action, r: nat, d: nat)
    requires Shape(s) && OnTime(s, r) && TimelyStep(s, a, r, d)
    ensures OnTime(OthersStep(s, a), r)
  {
  }

  lemma OthersInv(s: State, a: Action, r: nat, d: nat)
    requires Inv(s, r) && TimelyStep(s, a, r, d)
    ensures Inv(OthersStep(s, a), r)
  {
    OthersShape(s, a);
    OthersForward(s, a);
    OthersOnTime(s, a, r, d);
    GcsKept(s, OthersStep(s, a), r);
  }

  lemma ListedInTime(s: State, pid: nat, r: nat)
    requires Inv(s, r) && pid in s.gcs && s.gcs[pid].Listing?
    ensures GcSafe(s, GcStep(s, ListClaims(pid)).gcs[pid], r)
  {
    forall id | id in s.gcs[pid].cloud && id !in Resolved(s.claims) && Live(s, id)
      ensures s.now <= s.instances[id].createdAt + r
    {
      assert !Recorded(s, id);
    }
  }

  // The heart of it: an overdue instance that the listing of claims left
  // unresolved had lost its claim by then.
  lemma OverdueNotLive(s: State, pid: nat, id: nat, r: nat, d: nat)
    requires Inv(s, r) && IsCollecting(s, pid) && s.now - s.gcs[pid].at <= d
    requires r + d <= GRACE && Overdue(s.gcs[pid], id, s.now)
    ensures !Live(s, id)
  {
    assert GcSafe(s, s.gcs[pid], r);
  }

  lemma CheckedSafe(s: State, pid: nat, id: nat, r: nat, d: nat)
    requires Inv(s, r) && IsCollecting(s, pid) && s.now - s.gcs[pid].at <= d && r + d <= GRACE
    ensures GcSafe(s, CheckStep(s, pid, id).gcs[pid], r)
  {
    assert GcSafe(s, s.gcs[pid], r) && SnapshotOk(s, s.gcs[pid].cloud);
    if Overdue(s.gcs[pid], id, s.now) { OverdueNotLive(s, pid, id, r, d); }
  }

  // What a collector does to others' instances harms nobody.
  lemma CollectHarmless(s: State, a: Action, r: nat)
    requires Inv(s, r) && (a.Terminate? || a.DropNode?)
    ensures GcStep(s, a).harmed == {}
  {
    if a.pid in s.gcs { assert GcSafe(s, s.gcs[a.pid], r); }
  }

  lemma GcGcs(s: State, a: Action, r: nat, d: nat, pid: nat)
    requires Inv(s, r) && TimelyStep(s, a, r, d) && r + d <= GRACE && pid in GcStep(s, a).gcs
    ensures GcSafe(s, GcStep(s, a).gcs[pid], r)
  {
    if pid in s.gcs { assert GcSafe(s, s.gcs[pid], r); }
    match a
    case ListClaims(q) => if q == pid && pid in s.gcs && s.gcs[pid].Listing? { ListedInTime(s, pid, r); }
    case Check(q, id) => if q == pid && IsCollecting(s, pid) { CheckedSafe(s, pid, id, r, d); }
    case _ =>
  }

  lemma GcInv(s: State, a: Action, r: nat, d: nat)
    requires Inv(s, r) && TimelyStep(s, a, r, d) && r + d <= GRACE
    ensures Inv(GcStep(s, a), r)
  {
    var t := GcStep(s, a);
    GcShape(s, a);
    GcForward(s, a);
    forall pid | pid in t.gcs ensures GcSafe(t, t.gcs[pid], r) {
      GcGcs(s, a, r, d, pid);
      GcSnapshots(s, a, pid);
      GcKept(s, t, t.gcs[pid], r);
    }
    if a.Terminate? || a.DropNode? {
      CollectHarmless(s, a, r);
    }
  }

  lemma {:induction false} RunInv(run: seq<Action>, r: nat, d: nat)
    requires Timely(run, r, d) && r + d <= GRACE
    ensures Inv(Run(run), r)
  {
    if run != [] {
      var s, a := Run(run[..|run| - 1]), run[|run| - 1];
      RunInv(run[..|run| - 1], r, d);
      OthersInv(s, a, r, d);
      GcInv(s, a, r, d);
    }
  }

  // The run that does harm when the bounds do not add up: the instance is
  // recorded r after its creation, just after the claims were listed.
  function LateRecord(r: nat, d: nat): seq<Action> {
    [NewClaim, Launch(0, true), Tick(r), Begin(0), Page(0, {1}), ListClaims(0), Record(1), Tick(d), Check(0, 1),
      Terminate(0, 1, Done)]
  }

  ghost predicate Reaches(run: seq<Action>, n: nat, s: State, r: nat, d: nat)
    requires n <= |run|
  {
    Timely(run[..n], r, d) && Run(run[..n]) == s
  }

  lemma Extend(run: seq<Action>, n: nat, s: State, t: State, r: nat, d: nat)
    requires n < |run| && Reaches(run, n, s, r, d) && TimelyStep(s, run[n], r, d) && t == Step(s, run[n])
    ensures Reaches(run, n + 1, t, r, d)
  {
    assert run[..n + 1][..n] == run[..n];
  }

  const LATE := Instance(0, true, false, Some(0))

  function Recording(now: int, recorded: Option<nat>, gcs: map<nat, Gc>): State {
    State(now, map[0 := recorded], map[1 := LATE], map[], gcs, 2, {})
  }

  // The late record's collector with the instance listed.
  function LateGc(r: nat, condemned: set<nat>): Gc {
    Collecting(map[1 := LATE], {}, r, map[], condemned, {})
  }

  lemma LateRecordLaunched(r: nat, d: nat)
    ensures Reaches(LateRecord(r, d), 3, Recording(r, None, map[]), r, d)
  {
    var run := LateRecord(r, d);
    var s1 := INIT.(claims := map[0 := None], next := 1);
    Extend(run, 0, INIT, s1, r, d);
    Extend(run, 1, s1, Recording(0, None, map[]), r, d);
    Extend(run, 2, Recording(0, None, map[]), Recording(r, None, map[]), r, d);
  }

  lemma LateRecordSeen(r: nat)
    ensures Step(Recording(r, None, map[0 := Listing(map[])]), Page(0, {1}))
            == Recording(r, None, map[0 := Listing(map[1 := LATE])])
  {
    var s := Recording(r, None, map[0 := Listing(map[])]);
    var t := Step(s, Page(0, {1}));
    assert t.gcs[0].cloud == map[1 := LATE];
    assert t.gcs == map[0 := Listing(map[1 := LATE])];
  }

  lemma LateRecordChecked(r: nat, d: nat)
    requires r + d > GRACE
    ensures Step(Recording(r + d, Some(1), map[0 := LateGc(r, {})]), Check(0, 1))
            == Recording(r + d, Some(1), map[0 := LateGc(r, {1})])
  {
    var s := Recording(r + d, Some(1), map[0 := LateGc(r, {})]);
    assert Overdue(s.gcs[0], 1, s.now);
    assert s.gcs[0].condemned + {1} == {1};
    assert Step(s, Check(0, 1)) == CheckStep(s, 0, 1) == Enter(s, 0, LateGc(r, {1}));
    assert s.gcs[0 := LateGc(r, {1})] == map[0 := LateGc(r, {1})];
  }

  lemma LateRecordPaged(r: nat, d: nat)
    ensures Reaches(LateRecord(r, d), 5, Recording(r, None, map[0 := Listing(map[1 := LATE])]), r, d)
  {
    var run, s4 := LateRecord(r, d), Recording(r, None, map[0 := Listing(map[])]);
    LateRecordLaunched(r, d);
    Extend(run, 3, Recording(r, None, map[]), s4, r, d);
    LateRecordSeen(r);
    Extend(run, 4, s4, Recording(r, None, map[0 := Listing(map[1 := LATE])]), r, d);
  }

  lemma LateRecordListed(r: nat, d: nat)
    ensures Reaches(LateRecord(r, d), 6, Recording(r, None, map[0 := LateGc(r, {})]), r, d)
  {
    var s5 := Recording(r, None, map[0 := Listing(map[1 := LATE])]);
    LateRecordPaged(r, d);
    assert Resolved(s5.claims) == {};
    Extend(LateRecord(r, d), 5, s5, Recording(r, None, map[0 := LateGc(r, {})]), r, d);
  }

  lemma LateRecordWaited(r: nat, d: nat)
    ensures Reaches(LateRecord(r, d), 8, Recording(r + d, Some(1), map[0 := LateGc(r, {})]), r, d)
  {
    var run, idle := LateRecord(r, d), map[0 := LateGc(r, {})];
    LateRecordListed(r, d);
    Extend(run, 6, Recording(r, None, idle), Recording(r, Some(1), idle), r, d);
    Extend(run, 7, Recording(r, Some(1), idle), Recording(r + d, Some(1), idle), r, d);
  }

  lemma LateRecordCondemned(r: nat, d: nat)
    requires r + d > GRACE
    ensures Reaches(LateRecord(r, d), 9, Recording(r + d, Some(1), map[0 := LateGc(r, {1})]), r, d)
  {
    var run, idle, condemned := LateRecord(r, d), map[0 := LateGc(r, {})], map[0 := LateGc(r, {1})];
    LateRecordChecked(r, d);
    LateRecordWaited(r, d);
    Extend(run, 8, Recording(r + d, Some(1), idle), Recording(r + d, Some(1), condemned), r, d);
  }

  lemma LateRecordHarms(r: nat, d: nat)
    requires r + d > GRACE
    ensures Timely(LateRecord(r, d), r, d) && Run(LateRecord(r, d)).harmed == {1}
  {
    var run, s := LateRecord(r, d), Recording(r + d, Some(1), map[0 := LateGc(r, {1})]);
    LateRecordCondemned(r, d);
    Extend(run, 9, s, Step(s, Terminate(0, 1, Done)), r, d);
    assert run[..10] == run;
  }

  // Collectors never touch the instance or the node of a live claim, in any
  // timely run, exactly when the two bounds add up to at most the grace period.
  lemma CollectionSafeExactly(r: nat, d: nat)
    ensures r + d <= 30_000_000_000 <==> forall run :: Timely(run, r, d) ==> Run(run).harmed == {}
  {
    if r + d <= GRACE {
      forall run | Timely(run, r, d) ensures Run(run).harmed == {} {
        RunInv(run, r, d);
      }
    } else {
      LateRecordHarms(r, d);
      assert 1 in Run(LateRecord(r, d)).harmed;
    }
  }

  // ---- what collectors do, over all runs ------------------------------------------------------------

  function Pid(a: Action): Option<nat> {
    match a
    case Begin(pid) => Some(pid)
    case Page(pid, _) => Some(pid)
    case ListClaims(pid) => Some(pid)
    case ListNodes(pid) => Some(pid)
    case Check(pid, _) => Some(pid)
    case Terminate(pid, _, _) => Some(pid)
    case DropNode(pid, _, _) => Some(pid)
    case Crash(pid) => Some(pid)
    case _ => None
  }

  predicate Foreign(others: seq<Action>, pid: nat) { forall a :: a in others ==> Pid(a) != Some(pid) }

  lemma ForeignStep(s: State, a: Action, pid: nat)
    requires Pid(a) != Some(pid)
    ensures pid in s.gcs <==> pid in Step(s, a).gcs
    ensures pid in s.gcs ==> Step(s, a).gcs[pid] == s.gcs[pid]
  {
    ForeignGcStep(s, a, pid);
    OthersGcs(s, a);
  }

  lemma ForeignGcStep(s: State, a: Action, pid: nat)
    requires Pid(a) != Some(pid)
    ensures pid in s.gcs <==> pid in GcStep(s, a).gcs
    ensures pid in s.gcs ==> GcStep(s, a).gcs[pid] == s.gcs[pid]
  {
  }

  lemma OthersGcs(s: State, a: Action)
    ensures OthersStep(s, a).gcs == s.gcs
  {
  }

  lemma {:induction false} RunShape(run: seq<Action>)
    ensures Shape(Run(run))
  {
    if run != [] {
      RunShape(run[..|run| - 1]);
      OthersShape(Run(run[..|run| - 1]), run[|run| - 1]);
      GcShape(Run(run[..|run| - 1]), run[|run| - 1]);
    }
  }

  lemma RunStep(h: seq<Action>, more: seq<Action>, k: nat)
    requires k < |more|
    ensures Run(h + more[..k + 1]) == Step(Run(h + more[..k]), more[k])
  {
    assert h + more[..k + 1] == (h + more[..k]) + [more[k]];
    assert ((h + more[..k]) + [more[k]])[..|h + more[..k]|] == h + more[..k];
  }

  lemma {:induction false} RunForward(h: seq<Action>, more: seq<Action>)
    ensures Forward(Run(h), Run(h + more))
    decreases |more|
  {
    if more == [] {
      assert h + more == h;
    } else {
      var n := |more| - 1;
      RunForward(h, more[..n]);
      RunStep(h, more, n);
      assert more[..n + 1] == more;
      RunShape(h + more[..n]);
      OthersForward(Run(h + more[..n]), more[n]);
      GcForward(Run(h + more[..n]), more[n]);
      ForwardTwice(Run(h), Run(h + more[..n]), Run(h + more));
    }
  }

  // What holds at first and not at the end is ended by some step.
  lemma {:induction false} Flip(h: seq<Action>, more: seq<Action>, p: State -> bool) returns (k: nat)
    requires p(Run(h)) && !p(Run(h + more))
    ensures k < |more| && p(Run(h + more[..k])) && !p(Step(Run(h + more[..k]), more[k]))
    decreases |more|
  {
    assert h + [] == h;
    var n := |more| - 1;
    RunStep(h, more, n);
    assert more[..n + 1] == more;
    if p(Run(h + more[..n])) {
      k := n;
    } else {
      k := Flip(h, more[..n], p);
      assert more[..n][..k] == more[..k];
    }
  }

  // Condemned instances were listed as running and are past 30 seconds,
  // forsaken nodes' were listed as stopped and are past 5 minutes; both were
  // managed, and no claim had recorded them.
  ghost predicate ChosenOk(gc: Gc, now: int) {
    gc.Collecting? ==>
      && (forall id :: id in gc.condemned ==>
            && id in gc.cloud && gc.cloud[id].managed && !gc.cloud[id].stopped && id !in gc.resolved
            && now - gc.cloud[id].createdAt > 30_000_000_000)
      && (forall id :: id in gc.forsaken ==>
            && id in gc.cloud && gc.cloud[id].managed && gc.cloud[id].stopped && id !in gc.resolved
            && now - gc.cloud[id].createdAt > 300_000_000_000)
  }

  lemma {:induction false} RunChosen(run: seq<Action>, pid: nat)
    requires pid in Run(run).gcs
    ensures ChosenOk(Run(run).gcs[pid], Run(run).now)
  {
    var s, a := Run(run[..|run| - 1]), run[|run| - 1];
    if pid in s.gcs { RunChosen(run[..|run| - 1], pid); }
    ChosenStep(s, a, pid);
  }

  lemma ChosenStep(s: State, a: Action, pid: nat)
    requires pid in s.gcs ==> ChosenOk(s.gcs[pid], s.now)
    ensures pid in Step(s, a).gcs ==> ChosenOk(Step(s, a).gcs[pid], Step(s, a).now)
  {
    ChosenGcStep(s, a, pid);
    assert OthersStep(s, a).gcs == s.gcs && OthersStep(s, a).now >= s.now;
  }

  lemma ChosenGcStep(s: State, a: Action, pid: nat)
    requires pid in s.gcs ==> ChosenOk(s.gcs[pid], s.now)
    ensures pid in GcStep(s, a).gcs ==> ChosenOk(GcStep(s, a).gcs[pid], GcStep(s, a).now)
  {
    if a.Check? && IsCollecting(s, a.pid) {
      assert GcStep(s, a) == CheckStep(s, a.pid, a.id);
      if a.pid == pid { ChosenCheckStep(s, pid, a.id); }
    }
  }

  lemma ChosenCheckStep(s: State, pid: nat, id: nat)
    requires IsCollecting(s, pid) && ChosenOk(s.gcs[pid], s.now)
    ensures ChosenOk(CheckStep(s, pid, id).gcs[pid], s.now)
  {
    var gc := s.gcs[pid];
    if Overdue(gc, id, s.now) {
      if gc.cloud[id].stopped {
        assert CheckStep(s, pid, id).gcs[pid] == gc.(forsaken := gc.forsaken + {id});
      } else {
        assert CheckStep(s, pid, id).gcs[pid] == gc.(condemned := gc.condemned + {id});
      }
    }
  }

  lemma CondemnedKnown(run: seq<Action>, pid: nat, id: nat)
    requires IsCollecting(Run(run), pid) && id in Run(run).gcs[pid].condemned
    ensures id < Run(run).next
  {
    RunShape(run);
    RunChosen(run, pid);
    assert SnapshotOk(Run(run), Run(run).gcs[pid].cloud);
  }

  // The claims were listed at step l of the run, in the reconcile under way.
  ghost predicate ListedAt(run: seq<Action>, l: nat, pid: nat, resolved: set<nat>) {
    && l < |run| && run[l] == ListClaims(pid) && Begin(pid) !in run[l..]
    && forall id :: id in resolved <==> exists c :: c in Run(run[..l]).claims && Run(run[..l]).claims[c] == Some(id)
  }

  lemma {:induction false} ClaimsListed(run: seq<Action>, pid: nat) returns (l: nat)
    requires IsCollecting(Run(run), pid)
    ensures ListedAt(run, l, pid, Run(run).gcs[pid].resolved)
  {
    var last := |run| - 1;
    var s := Run(run[..last]);
    if IsCollecting(s, pid) {
      l := ClaimsListed(run[..last], pid);
      ResolvedStays(s, run[last], pid);
      assert run[..last][..l] == run[..l] && run[l..] == run[..last][l..] + [run[last]];
    } else {
      l := last;
      CollectingStarts(s, run[last], pid);
    }
  }

  lemma ResolvedStays(s: State, a: Action, pid: nat)
    requires IsCollecting(s, pid) && IsCollecting(Step(s, a), pid)
    ensures Step(s, a).gcs[pid].resolved == s.gcs[pid].resolved && Step(s, a).gcs[pid].cloud == s.gcs[pid].cloud
    ensures a != Begin(pid)
  {
    if Pid(a) != Some(pid) { ForeignStep(s, a, pid); }
  }

  lemma CollectingStarts(s: State, a: Action, pid: nat)
    requires !IsCollecting(s, pid) && IsCollecting(Step(s, a), pid)
    ensures a == ListClaims(pid) && Step(s, a).gcs[pid].condemned == {} && Step(s, a).gcs[pid].forsaken == {}
    ensures forall id :: id in Step(s, a).gcs[pid].resolved <==> exists c :: c in s.claims && s.claims[c] == Some(id)
  {
    if Pid(a) != Some(pid) { ForeignStep(s, a, pid); }
  }

  // Step m checked the age of i, listed as id, after the claims listed at step l
  // recorded nothing of that ID.
  ghost predicate CheckedAt(run: seq<Action>, l: nat, m: nat, pid: nat, id: nat, i: Instance, age: int) {
    && l < m < |run| && run[l] == ListClaims(pid) && Begin(pid) !in run[l..] && run[m] == Check(pid, id)
    && (forall c :: c in Run(run[..l]).claims ==> Run(run[..l]).claims[c] != Some(id))
    && Run(run[..m]).now - i.createdAt > age
  }

  // One that was just chosen passed its check.
  lemma ChosenBy(s: State, a: Action, pid: nat, id: nat)
    requires IsCollecting(s, pid) && IsCollecting(Step(s, a), pid)
    requires id !in s.gcs[pid].condemned + s.gcs[pid].forsaken
    requires id in Step(s, a).gcs[pid].condemned + Step(s, a).gcs[pid].forsaken
    ensures a == Check(pid, id) && id in s.gcs[pid].cloud && id !in s.gcs[pid].resolved
    ensures s.now - s.gcs[pid].cloud[id].createdAt
            > if s.gcs[pid].cloud[id].stopped then 300_000_000_000 else 30_000_000_000
  {
    if Pid(a) != Some(pid) { ForeignStep(s, a, pid); }
  }

  // Whatever a collector has chosen was checked after its claims were listed.
  lemma {:induction false} ChosenChecked(run: seq<Action>, pid: nat, id: nat) returns (l: nat, m: nat)
    requires IsCollecting(Run(run), pid) && id in Run(run).gcs[pid].condemned + Run(run).gcs[pid].forsaken
    ensures id in Run(run).gcs[pid].cloud
    ensures var i := Run(run).gcs[pid].cloud[id];
            CheckedAt(run, l, m, pid, id, i, if i.stopped then 300_000_000_000 else 30_000_000_000)
  {
    var last := |run| - 1;
    var front := run[..last];
    var s := Run(front);
    if !IsCollecting(s, pid) { CollectingStarts(s, run[last], pid); }
    ResolvedStays(s, run[last], pid);
    if id in s.gcs[pid].condemned + s.gcs[pid].forsaken {
      l, m := ChosenChecked(front, pid, id);
      assert front[..l] == run[..l] && front[..m] == run[..m] && run[l..] == front[l..] + [run[last]];
    } else {
      ChosenBy(s, run[last], pid, id);
      l := ClaimsListed(front, pid);
      m := last;
      assert front[..l] == run[..l] && run[l..] == front[l..] + [run[last]];
    }
  }

  predicate Running(s: State, id: nat) { id in s.instances && !s.instances[id].stopped }

  // What can stop an instance.
  lemma StepStops(s: State, a: Action, id: nat)
    requires Running(s, id) && !Running(Step(s, a), id)
    ensures a == Stop(id) || a == Vanish(id)
            || (a.Terminate? && a.id == id && IsCollecting(s, a.pid) && id in s.gcs[a.pid].condemned)
  {
  }

  // No instance is stopped by a collector, in any run, unless it is managed, the
  // collector's listing of claims had not recorded it, and it was older than 30
  // seconds when the collector checked it.
  lemma StoppedWasDue(run: seq<Action>, n: nat, pid: nat, id: nat, delivery: Delivery)
    requires n < |run| && run[n] == Terminate(pid, id, delivery)
    requires Running(Run(run[..n]), id) && !Running(Run(run[..n + 1]), id)
    ensures var i := Run(run[..n]).instances[id];
            i.managed && exists l, m :: CheckedAt(run[..n], l, m, pid, id, i, 30_000_000_000)
  {
    var s := Run(run[..n]);
    assert run[..n + 1][..n] == run[..n];
    StepStops(s, run[n], id);
    RunShape(run[..n]);
    RunChosen(run[..n], pid);
    assert SnapshotOk(s, s.gcs[pid].cloud);
    var l, m := ChosenChecked(run[..n], pid, id);
    assert CheckedAt(run[..n], l, m, pid, id, s.instances[id], 30_000_000_000);
  }

  // What can remove a node.
  lemma StepDrops(s: State, a: Action, id: nat)
    requires id in s.nodes && id !in Step(s, a).nodes
    ensures a == RemoveNode(id) || (a.DropNode? && a.id == id && IsCollecting(s, a.pid) && id in s.gcs[a.pid].nodes
                                    && (id in s.gcs[a.pid].condemned
                                        || (id in s.gcs[a.pid].forsaken && s.gcs[a.pid].nodes[id])))
  {
  }

  // The nodes were listed as they were at step k, or have not been listed.
  lemma {:induction false} NodesListedAt(run: seq<Action>, pid: nat) returns (k: nat)
    requires IsCollecting(Run(run), pid) && Run(run).gcs[pid].nodes != map[]
    ensures k < |run| && run[k] == ListNodes(pid) && Run(run).gcs[pid].nodes == Run(run[..k]).nodes
  {
    var last := |run| - 1;
    var s := Run(run[..last]);
    if IsCollecting(s, pid) && Run(run).gcs[pid].nodes == s.gcs[pid].nodes {
      k := NodesListedAt(run[..last], pid);
      assert run[..last][..k] == run[..k];
    } else {
      NodesChange(s, run[last], pid);
      k := last;
    }
  }

  lemma NodesChange(s: State, a: Action, pid: nat)
    requires IsCollecting(Step(s, a), pid) && Step(s, a).gcs[pid].nodes != map[]
    requires !IsCollecting(s, pid) || Step(s, a).gcs[pid].nodes != s.gcs[pid].nodes
    ensures a == ListNodes(pid) && Step(s, a).gcs[pid].nodes == s.nodes
  {
    if Pid(a) != Some(pid) { ForeignStep(s, a, pid); }
  }

  // No node is dropped by a collector, in any run, unless the collector listed
  // it, and its instance i as managed, unrecorded and past its grace period when
  // checked: 30 seconds when running; 5 minutes when stopped, and then the node
  // was unreachable when listed.
  lemma DroppedWasDue(run: seq<Action>, n: nat, pid: nat, id: nat, delivery: Delivery)
    returns (i: Instance, l: nat, m: nat, k: nat)
    requires n < |run| && run[n] == DropNode(pid, id, delivery)
    requires id in Run(run[..n]).nodes && id !in Run(run[..n + 1]).nodes
    ensures i.managed && (id in Run(run[..n]).instances ==> SameInstance(i, Run(run[..n]).instances[id]))
    ensures CheckedAt(run[..n], l, m, pid, id, i, if i.stopped then 300_000_000_000 else 30_000_000_000)
    ensures k < n && run[k] == ListNodes(pid) && id in Run(run[..k]).nodes && (i.stopped ==> Run(run[..k]).nodes[id])
  {
    var s := Run(run[..n]);
    assert run[..n + 1][..n] == run[..n];
    StepDrops(s, run[n], id);
    RunShape(run[..n]);
    RunChosen(run[..n], pid);
    assert SnapshotOk(s, s.gcs[pid].cloud);
    l, m := ChosenChecked(run[..n], pid, id);
    i := s.gcs[pid].cloud[id];
    k := NodesListedAt(run[..n], pid);
    assert run[..n][..k] == run[..k];
  }

  // Under the bounds, collectors neither stop an instance whose claim has
  // recorded it or nothing yet, nor take its node.
  lemma LiveUntouched(run: seq<Action>, r: nat, d: nat, a: Action, id: nat, claim: nat)
    requires Timely(run, r, d) && r + d <= 30_000_000_000 && (a.Terminate? || a.DropNode?)
    requires id in Run(run).instances && Run(run).instances[id].owner == Some(claim) && claim in Run(run).claims
    requires Run(run).claims[claim] in {None, Some(id)}
    ensures var s, t := Run(run), Step(Run(run), a);
            id in t.instances && t.instances[id] == s.instances[id] && (id in s.nodes ==> id in t.nodes)
  {
    RunInv(run, r, d);
    if a.pid in Run(run).gcs { assert GcSafe(Run(run), Run(run).gcs[a.pid], r); }
    LiveStep(Run(run), a, id, r);
  }

  lemma LiveStep(s: State, a: Action, id: nat, r: nat)
    requires (a.Terminate? || a.DropNode?) && Live(s, id)
    requires a.pid in s.gcs ==> GcSafe(s, s.gcs[a.pid], r)
    ensures var t := GcStep(s, a);
            id in t.instances && t.instances[id] == s.instances[id] && (id in s.nodes ==> id in t.nodes)
  {
  }
}
