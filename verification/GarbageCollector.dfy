// pkg/controllers/nodeclaim/garbagecollection/controller.go as a program: the
// reconcile with its listings and its two loops of workers, over a cluster in
// which everyone else goes on acting.
module GarbageCollector {
  import opened Text
  import opened GarbageCollection

  // ---- collection ---------------------------------------------------------------------------------

  // A managed instance past the grace period that no claim has or may still
  // record.
  ghost predicate Orphan(s: State, id: nat) {
    id < s.next && !Live(s, id)
      && (id in s.instances ==> s.instances[id].managed && s.now - s.instances[id].createdAt > GRACE)
  }

  ghost predicate Gone(s: State, id: nat) { id < s.next && !Running(s, id) }

  // So is an instance that was leaked when its claim was launched again.
  lemma SupersededIsOrphan(s: State, id: nat, claim: nat)
    requires Shape(s) && id in s.instances && s.instances[id].owner == Some(claim) && claim in s.claims
    requires s.claims[claim].Some? && s.claims[claim] != Some(id)
    ensures Orphan(s, id) <==> s.instances[id].managed && s.now - s.instances[id].createdAt > 30_000_000_000
  {
  }

  ghost predicate AllOrphans(s: State, ids: set<nat>) { forall id :: id in ids ==> Orphan(s, id) }

  // What the cloud listing must show of an orphan.
  ghost predicate Seen(s: State, gc: Gc, id: nat) {
    Gone(s, id)
      || (id in gc.cloud && gc.cloud[id].managed && !gc.cloud[id].stopped && s.now - gc.cloud[id].createdAt > GRACE)
  }

  ghost predicate AllSeen(s: State, pid: nat, ids: set<nat>) {
    pid in s.gcs && s.gcs[pid].Listing? && forall id :: id in ids ==> Seen(s, s.gcs[pid], id)
  }

  // What the checks must find.
  ghost predicate AllDue(s: State, pid: nat, ids: set<nat>) {
    && IsCollecting(s, pid)
    && forall id :: id in ids ==> Seen(s, s.gcs[pid], id) && (Gone(s, id) || id !in s.gcs[pid].resolved)
  }

  lemma OrphansKept(s: State, t: State, pid: nat, ids: set<nat>)
    requires Forward(s, t)
    ensures AllOrphans(s, ids) ==> AllOrphans(t, ids)
    ensures pid in s.gcs && pid in t.gcs && t.gcs[pid] == s.gcs[pid] ==>
              (AllSeen(s, pid, ids) ==> AllSeen(t, pid, ids)) && (AllDue(s, pid, ids) ==> AllDue(t, pid, ids))
  {
  }

  // A page shows the orphans on it, and does not hide those seen before.
  lemma PageSees(s: State, pid: nat, page: set<nat>, ids: set<nat>, more: set<nat>)
    requires AllOrphans(s, ids) && AllSeen(s, pid, more) && more <= ids
    ensures AllSeen(Step(s, Page(pid, page)), pid, more + (page * ids))
  {
  }

  lemma ClaimsResolve(s: State, pid: nat, ids: set<nat>)
    requires Shape(s) && AllOrphans(s, ids) && AllSeen(s, pid, ids)
    ensures AllDue(Step(s, ListClaims(pid)), pid, ids)
  {
  }

  lemma NodesListed(s: State, pid: nat, ids: set<nat>)
    requires AllDue(s, pid, ids)
    ensures AllDue(Step(s, ListNodes(pid)), pid, ids)
  {
  }

  // What a process can rely on while others act.
  ghost predicate Away(s: State, t: State, pid: nat) {
    Forward(s, t) && (pid in s.gcs ==> pid in t.gcs && t.gcs[pid] == s.gcs[pid])
  }

  class Cluster {
    var state: State
    ghost var history: seq<Action>

    ghost predicate Valid()
      reads this
    {
      state == Run(history)
    }

    constructor ()
      ensures Valid() && history == []
    {
      state, history := INIT, [];
    }

    method Perform(a: Action)
      requires Valid()
      modifies this
      ensures Valid() && history == old(history) + [a] && state == Step(old(state), a) && Forward(old(state), state)
    {
      assert (history + [a])[..|history|] == history;
      RunShape(history);
      OthersForward(state, a);
      GcForward(state, a);
      state := Step(state, a);
      history := history + [a];
    }

    method PerformForeign(a: Action, pid: nat)
      requires Valid() && Pid(a) != Some(pid)
      modifies this
      ensures Valid() && history == old(history) + [a] && Away(old(state), state, pid)
    {
      ForeignStep(state, a, pid);
      Perform(a);
    }

    method Interfere(others: seq<Action>, pid: nat)
      requires Valid() && Foreign(others, pid)
      modifies this
      ensures Valid() && history == old(history) + others && Away(old(state), state, pid)
    {
      for i := 0 to |others|
        invariant Valid() && history == old(history) + others[..i] && Away(old(state), state, pid)
      {
        assert others[i] in others;
        ghost var t := state;
        PerformForeign(others[i], pid);
        ForwardTwice(old(state), t, state);
        assert others[..i + 1] == others[..i] + [others[i]];
      }
    }
  }

  // The orphans on the pages.
  ghost function OrphansOn(s: State, pages: seq<set<nat>>): (ids: set<nat>)
    ensures AllOrphans(s, ids) && OnPages(pages, ids)
    ensures forall k, id :: 0 <= k < |pages| && id in pages[k] && Orphan(s, id) ==> id in ids
  {
    set id, k | 0 <= k < |pages| && id in pages[k] && Orphan(s, id) :: id
  }

  ghost predicate OnPages(pages: seq<set<nat>>, ids: set<nat>) {
    forall id :: id in ids ==> exists k :: 0 <= k < |pages| && id in pages[k]
  }

  // Those on the first i pages have been seen.
  ghost predicate PagesSeen(pages: seq<set<nat>>, i: nat, ids: set<nat>, seen: set<nat>)
    requires i <= |pages|
  {
    seen <= ids && forall k :: 0 <= k < i ==> pages[k] * ids <= seen
  }

  ghost function SeenWith(pages: seq<set<nat>>, i: nat, ids: set<nat>, seen: set<nat>): (more: set<nat>)
    requires i < |pages| && PagesSeen(pages, i, ids, seen)
    ensures PagesSeen(pages, i + 1, ids, more) && more == seen + pages[i] * ids
  {
    seen + pages[i] * ids
  }

  lemma AllPagesSeen(pages: seq<set<nat>>, ids: set<nat>, seen: set<nat>)
    requires OnPages(pages, ids) && PagesSeen(pages, |pages|, ids, seen)
    ensures seen == ids
  {
    forall id | id in ids ensures id in seen {
      var k :| 0 <= k < |pages| && id in pages[k];
      assert id in pages[k] * ids;
    }
  }

  // ---- whose doing a change is ------------------------------------------------------------------

  ghost predicate StoppedIn(more: seq<Action>, pid: nat, id: nat) {
    exists a :: a in more && (a == Stop(id) || a == Vanish(id) || (a.Terminate? && a.id == id && a.pid != pid))
  }

  ghost predicate SetIn(more: seq<Action>, id: nat) {
    exists a :: a in more && a.SetNode? && a.id == id
  }

  ghost predicate TakenIn(more: seq<Action>, pid: nat, id: nat) {
    exists a :: a in more && (a == RemoveNode(id) || (a.DropNode? && a.id == id && a.pid != pid))
  }

  // The process's own steps only list.
  ghost predicate Lists(more: seq<Action>, pid: nat) {
    forall a :: a in more && Pid(a) == Some(pid) ==> a.Begin? || a.Page? || a.ListClaims? || a.ListNodes?
  }

  // A reconcile that has only listed so far.
  ghost predicate OnlyListed(since: seq<Action>, pid: nat) {
    since != [] && since[0] == Begin(pid) && Lists(since, pid)
  }

  lemma ListsOn(since: seq<Action>, others: seq<Action>, call: Action, pid: nat)
    requires OnlyListed(since, pid) && Foreign(others, pid) && (call.Begin? || call.Page?)
    ensures OnlyListed(since + others + [call], pid)
  {
  }

  // The process's own steps only check, terminate and drop nodes among ids.
  ghost predicate Works(more: seq<Action>, pid: nat, ids: set<nat>) {
    forall a :: a in more && Pid(a) == Some(pid) ==> a.Check? || a.Terminate? || (a.DropNode? && a.id in ids)
  }

  // What stopped an instance that nobody else stopped.
  lemma StoppedByOwn(h: seq<Action>, more: seq<Action>, pid: nat, id: nat) returns (k: nat)
    requires Running(Run(h), id) && !Running(Run(h + more), id) && !StoppedIn(more, pid, id)
    ensures k < |more| && more[k] in more && more[k].Terminate? && more[k].pid == pid && more[k].id == id
    ensures var s := Run(h + more[..k]);
            Running(s, id) && IsCollecting(s, pid) && id in s.gcs[pid].condemned
  {
    k := Flip(h, more, (s: State) => Running(s, id));
    StepStops(Run(h + more[..k]), more[k], id);
    assert more[k] in more;
  }

  // What took a node that nobody else took.
  lemma TakenByOwn(h: seq<Action>, more: seq<Action>, pid: nat, id: nat) returns (k: nat)
    requires id in Run(h).nodes && id !in Run(h + more).nodes && !TakenIn(more, pid, id)
    ensures k < |more| && more[k] in more && more[k].DropNode? && more[k].pid == pid && more[k].id == id
    ensures var s := Run(h + more[..k]);
            && IsCollecting(s, pid) && id in s.gcs[pid].nodes
            && (id in s.gcs[pid].condemned || (id in s.gcs[pid].forsaken && s.gcs[pid].nodes[id]))
  {
    k := Flip(h, more, (s: State) => id in s.nodes);
    StepDrops(Run(h + more[..k]), more[k], id);
    assert more[k] in more;
  }

  lemma AppearedBySet(h: seq<Action>, more: seq<Action>, id: nat)
    requires id !in Run(h).nodes && id in Run(h + more).nodes
    ensures SetIn(more, id)
  {
    var k := Flip(h, more, (s: State) => id !in s.nodes);
    StepSets(Run(h + more[..k]), more[k], id);
    assert more[k] in more;
  }

  lemma StepSets(s: State, a: Action, id: nat)
    requires id !in s.nodes && id in Step(s, a).nodes
    ensures a.SetNode? && a.id == id
  {
  }

  lemma NodesAppear(h: seq<Action>, more: seq<Action>)
    ensures forall id :: id !in Run(h).nodes && id in Run(h + more).nodes ==> SetIn(more, id)
  {
    forall id | id !in Run(h).nodes && id in Run(h + more).nodes ensures SetIn(more, id) {
      AppearedBySet(h, more, id);
    }
  }

  // A collector that only works keeps its lists.
  lemma {:induction false} ListsKept(h: seq<Action>, more: seq<Action>, pid: nat, ids: set<nat>)
    requires IsCollecting(Run(h), pid) && Works(more, pid, ids)
    ensures IsCollecting(Run(h + more), pid)
    ensures var gc, was := Run(h + more).gcs[pid], Run(h).gcs[pid];
            gc.cloud == was.cloud && gc.resolved == was.resolved && gc.nodes == was.nodes
    decreases |more|
  {
    if more == [] {
      assert h + more == h;
    } else {
      var n := |more| - 1;
      ListsKept(h, more[..n], pid, ids);
      RunStep(h, more, n);
      assert more[..n + 1] == more && more[n] in more;
      WorkStep(Run(h + more[..n]), more[n], pid);
    }
  }

  lemma WorkStep(s: State, a: Action, pid: nat)
    requires IsCollecting(s, pid) && (Pid(a) == Some(pid) ==> a.Check? || a.Terminate? || a.DropNode?)
    ensures IsCollecting(Step(s, a), pid)
    ensures var gc, was := Step(s, a).gcs[pid], s.gcs[pid];
            gc.cloud == was.cloud && gc.resolved == was.resolved && gc.nodes == was.nodes
  {
    if Pid(a) != Some(pid) { ForeignStep(s, a, pid); }
  }

  // A run of h that ends in more, up to its k-th step.
  lemma CutHere(h: seq<Action>, more: seq<Action>, k: nat)
    requires k <= |more|
    ensures h + more == (h + more[..k]) + more[k..]
  {
  }

  // What a working collector stops by itself, it listed as running, managed,
  // unrecorded and past the grace period, and so the instance was.
  lemma WorkStops(h: seq<Action>, more: seq<Action>, pid: nat, ids: set<nat>, id: nat)
    requires IsCollecting(Run(h), pid) && Works(more, pid, ids)
    requires Running(Run(h), id) && !Running(Run(h + more), id) && !StoppedIn(more, pid, id)
    ensures var i, gc := Run(h).instances[id], Run(h).gcs[pid];
            i.managed && id !in gc.resolved && Run(h + more).now - i.createdAt > 30_000_000_000
  {
    var k := StoppedByOwn(h, more, pid, id);
    var s := Run(h + more[..k]);
    ListsKept(h, more[..k], pid, ids);
    StoppedDue(h, more, k, pid, id);
  }

  lemma StoppedDue(h: seq<Action>, more: seq<Action>, k: nat, pid: nat, id: nat)
    requires k <= |more| && Running(Run(h), id) && Running(Run(h + more[..k]), id)
    requires IsCollecting(Run(h + more[..k]), pid) && id in Run(h + more[..k]).gcs[pid].condemned
    ensures var i, gc := Run(h).instances[id], Run(h + more[..k]).gcs[pid];
            i.managed && id !in gc.resolved && Run(h + more).now - i.createdAt > 30_000_000_000
  {
    var s := Run(h + more[..k]);
    RunChosen(h + more[..k], pid);
    RunShape(h);
    RunShape(h + more[..k]);
    assert SnapshotOk(s, s.gcs[pid].cloud);
    RunForward(h, more[..k]);
    CutHere(h, more, k);
    RunForward(h + more[..k], more[k..]);
  }

  // What a working collector takes by itself are listed nodes: of instances it
  // listed as managed, unrecorded and past the grace period, and if stopped, then
  // only unreachable ones.
  lemma WorkTakes(h: seq<Action>, more: seq<Action>, pid: nat, ids: set<nat>, id: nat)
    requires IsCollecting(Run(h), pid) && Works(more, pid, ids)
    requires id in Run(h).nodes && id !in Run(h + more).nodes && !TakenIn(more, pid, id)
    ensures var gc := Run(h).gcs[pid];
            && id in ids && id in gc.nodes && id in gc.cloud && gc.cloud[id].managed && id !in gc.resolved
            && Run(h + more).now - gc.cloud[id].createdAt
               > (if gc.cloud[id].stopped then 300_000_000_000 else 30_000_000_000)
            && (gc.cloud[id].stopped ==> gc.nodes[id])
  {
    var k := TakenByOwn(h, more, pid, id);
    ListsKept(h, more[..k], pid, ids);
    RunChosen(h + more[..k], pid);
    CutHere(h, more, k);
    RunForward(h + more[..k], more[k..]);
  }

  // A record stays for as long as its claim does, and a collector that lists the
  // claims meanwhile resolves it.
  ghost predicate Resolving(s: State, pid: nat, id: nat, claim: nat) {
    && claim < s.next
    && (claim in s.claims ==>
          && s.claims[claim] == Some(id)
          && (IsCollecting(s, pid) ==> id in s.gcs[pid].resolved && id !in s.gcs[pid].condemned + s.gcs[pid].forsaken))
  }

  lemma ResolvingStep(s: State, a: Action, pid: nat, id: nat, claim: nat)
    requires Resolving(s, pid, id, claim)
    ensures Resolving(Step(s, a), pid, id, claim)
  {
    ResolvingOthers(s, a, pid, id, claim);
    ResolvingGc(s, a, pid, id, claim);
  }

  lemma ResolvingOthers(s: State, a: Action, pid: nat, id: nat, claim: nat)
    requires Resolving(s, pid, id, claim)
    ensures Resolving(OthersStep(s, a), pid, id, claim)
  {
    OthersGcs(s, a);
  }

  lemma ResolvingGc(s: State, a: Action, pid: nat, id: nat, claim: nat)
    requires Resolving(s, pid, id, claim)
    ensures Resolving(GcStep(s, a), pid, id, claim)
  {
    if a == ListClaims(pid) && claim in s.claims { assert id in Resolved(s.claims); }
    if Pid(a) != Some(pid) { ForeignGcStep(s, a, pid); }
  }

  lemma {:induction false} ResolvingOn(h: seq<Action>, more: seq<Action>, pid: nat, id: nat, claim: nat)
    requires Resolving(Run(h), pid, id, claim)
    ensures Resolving(Run(h + more), pid, id, claim)
    decreases |more|
  {
    if more == [] {
      assert h + more == h;
    } else {
      var n := |more| - 1;
      ResolvingOn(h, more[..n], pid, id, claim);
      RunStep(h, more, n);
      assert more[..n + 1] == more;
      ResolvingStep(Run(h + more[..n]), more[n], pid, id, claim);
    }
  }

  lemma ResolvingBegins(s: State, pid: nat, id: nat, claim: nat)
    requires claim < s.next && claim in s.claims && s.claims[claim] == Some(id)
    ensures Resolving(Step(s, Begin(pid)), pid, id, claim)
  {
  }

  lemma ResolvingFrom(h: seq<Action>, more: seq<Action>, pid: nat, id: nat, claim: nat)
    requires more != [] && more[0] == Begin(pid)
    requires claim in Run(h).claims && Run(h).claims[claim] == Some(id)
    ensures Resolving(Run(h + more), pid, id, claim)
  {
    RunShape(h);
    RunStep(h, more, 0);
    assert h + more[..0] == h;
    ResolvingBegins(Run(h), pid, id, claim);
    CutHere(h, more, 1);
    ResolvingOn(h + more[..1], more[1..], pid, id, claim);
  }

  // Once a reconcile has begun, what it chooses is not what a claim records
  // throughout.
  lemma RecordedUnchosen(h: seq<Action>, more: seq<Action>, k: nat, pid: nat, id: nat, claim: nat)
    requires 0 < k <= |more| && more[0] == Begin(pid)
    requires claim in Run(h).claims && Run(h).claims[claim] == Some(id) && claim in Run(h + more).claims
    ensures var s := Run(h + more[..k]);
            IsCollecting(s, pid) ==> id !in s.gcs[pid].condemned + s.gcs[pid].forsaken
  {
    ResolvingFrom(h, more[..k], pid, id, claim);
    CutHere(h, more, k);
    if claim !in Run(h + more[..k]).claims {
      StaysRemoved(h + more[..k], more[k..], claim);
    }
  }

  // Removed claims do not come back.
  lemma {:induction false} StaysRemoved(h: seq<Action>, more: seq<Action>, claim: nat)
    requires claim < Run(h).next && claim !in Run(h).claims
    ensures claim !in Run(h + more).claims
    decreases |more|
  {
    if more == [] {
      assert h + more == h;
    } else {
      var n := |more| - 1;
      StaysRemoved(h, more[..n], claim);
      RunStep(h, more, n);
      RunForward(h, more[..n]);
      assert more[..n + 1] == more;
      StepRemoved(Run(h + more[..n]), more[n], claim);
    }
  }

  lemma StepRemoved(s: State, a: Action, claim: nat)
    requires claim < s.next && claim !in s.claims
    ensures claim !in Step(s, a).claims
  {
  }

  // ---- the first worker loop ---------------------------------------------------------------------

  // What the workers of the first loop have left to do.
  datatype Work = Work(toCheck: set<nat>, toTerminate: set<nat>, toDrop: set<nat>)

  // Listed as running, and past its check.
  ghost predicate Due(s: State, pid: nat, id: nat) {
    IsCollecting(s, pid) && Overdue(s.gcs[pid], id, s.now) && !s.gcs[pid].cloud[id].stopped
  }

  // A listed node is gone, or was set again.
  ghost predicate NodeGone(gc: Gc, s: State, since: seq<Action>, id: nat)
    requires gc.Collecting?
  {
    id !in gc.nodes || id !in s.nodes || SetIn(since, id)
  }

  // Every due instance has its check or its termination ahead, or is gone; then
  // so is its node, or that is ahead.
  ghost predicate Covered(start: State, s: State, pid: nat, since: seq<Action>, w: Work) {
    forall id :: Due(start, pid, id) ==>
      || id in w.toCheck || id in w.toTerminate
      || (Gone(s, id) && (id in w.toDrop || NodeGone(start.gcs[pid], s, since, id)))
  }

  // The collector's lists stay as they are while its choices grow.
  ghost predicate Collects(s: State, t: State, pid: nat) {
    && IsCollecting(s, pid) && IsCollecting(t, pid) && Forward(s, t)
    && t.gcs[pid] == s.gcs[pid].(condemned := t.gcs[pid].condemned, forsaken := t.gcs[pid].forsaken)
    && s.gcs[pid].condemned <= t.gcs[pid].condemned && s.gcs[pid].forsaken <= t.gcs[pid].forsaken
  }

  // The instances listed as stopped, or as running.
  ghost function ListedAs(gc: Gc, stopped: bool): set<nat>
    requires gc.Collecting?
  {
    set id | id in gc.cloud && gc.cloud[id].stopped == stopped
  }

  // The state of the first loop.
  ghost predicate WorkLeft(start: State, s: State, pid: nat, since: seq<Action>, w: Work, calm: bool) {
    && Collects(start, s, pid) && w.toTerminate + w.toDrop <= s.gcs[pid].condemned
    && Works(since, pid, ListedAs(start.gcs[pid], false))
    && (calm ==> Covered(start, s, pid, since, w))
  }

  lemma WorkStarts(s: State, pid: nat, w: Work, calm: bool)
    requires IsCollecting(s, pid) && w.toTerminate == w.toDrop == {}
    requires forall id :: id in s.gcs[pid].cloud && s.gcs[pid].cloud[id].managed && !s.gcs[pid].cloud[id].stopped ==>
             id in w.toCheck
    ensures WorkLeft(s, s, pid, [], w, calm)
  {
  }

  lemma NodeGoneOn(gc: Gc, s: State, t: State, since: seq<Action>, more: seq<Action>, id: nat)
    requires gc.Collecting? && NodeGone(gc, s, since, id)
    requires id !in s.nodes && id in t.nodes ==> SetIn(more, id)
    ensures NodeGone(gc, t, since + more, id)
  {
    if SetIn(since, id) { SetMore(since, since + more, id); }
    if SetIn(more, id) { SetMore(more, since + more, id); }
  }

  lemma CoveredOn(start: State, s: State, t: State, pid: nat, since: seq<Action>, more: seq<Action>, w: Work)
    requires IsCollecting(start, pid) && Covered(start, s, pid, since, w) && Forward(s, t)
    requires forall id :: id !in s.nodes && id in t.nodes ==> SetIn(more, id)
    ensures Covered(start, t, pid, since + more, w)
  {
    forall id | Due(start, pid, id) && id !in w.toCheck && id !in w.toTerminate
      ensures Gone(t, id) && (id in w.toDrop || NodeGone(start.gcs[pid], t, since + more, id))
    {
      if id !in w.toDrop { NodeGoneOn(start.gcs[pid], s, t, since, more, id); }
    }
  }

  lemma WorksOn(since: seq<Action>, more: seq<Action>, pid: nat, ids: set<nat>)
    requires Works(since, pid, ids) && Works(more, pid, ids)
    ensures Works(since + more, pid, ids)
  {
  }

  // Others act, or the collector makes a call.
  lemma WorkOnward(start: State, s: State, t: State, pid: nat, since: seq<Action>, more: seq<Action>, w: Work,
                   calm: bool)
    requires WorkLeft(start, s, pid, since, w, calm) && Collects(s, t, pid)
    requires Works(more, pid, ListedAs(start.gcs[pid], false))
    requires forall id :: id !in s.nodes && id in t.nodes ==> SetIn(more, id)
    ensures WorkLeft(start, t, pid, since + more, w, calm)
  {
    ForwardTwice(start, s, t);
    WorksOn(since, more, pid, ListedAs(start.gcs[pid], false));
    if calm { CoveredOn(start, s, t, pid, since, more, w); }
  }

  // One call of a worker.
  lemma CallCollects(s: State, a: Action, pid: nat)
    requires IsCollecting(s, pid) && Pid(a) == Some(pid) && (a.Check? || a.Terminate? || a.DropNode?)
    requires Forward(s, Step(s, a))
    ensures Collects(s, Step(s, a), pid)
    ensures forall id :: id in Step(s, a).nodes ==> id in s.nodes
  {
  }

  lemma CheckCondemns(s: State, pid: nat, id: nat)
    requires Due(s, pid, id)
    ensures IsCollecting(Step(s, Check(pid, id)), pid) && id in Step(s, Check(pid, id)).gcs[pid].condemned
  {
  }

  lemma DueStays(start: State, s: State, pid: nat, id: nat)
    requires Due(start, pid, id) && Collects(start, s, pid)
    ensures Due(s, pid, id)
  {
  }

  lemma TerminateStops(s: State, pid: nat, id: nat)
    requires Shape(s) && IsCollecting(s, pid) && id in s.gcs[pid].condemned && id < s.next
    ensures Gone(Step(s, Terminate(pid, id, Done)), id)
  {
  }

  lemma DropRemoves(s: State, pid: nat, id: nat)
    requires IsCollecting(s, pid) && id in s.gcs[pid].condemned && id in s.gcs[pid].nodes
    ensures id !in Step(s, DropNode(pid, id, Done)).nodes
  {
  }

  // ---- the second worker loop -----------------------------------------------------------------------

  // Listed as stopped, and past its check.
  ghost predicate Stale(s: State, pid: nat, id: nat) {
    IsCollecting(s, pid) && Overdue(s.gcs[pid], id, s.now) && s.gcs[pid].cloud[id].stopped
  }

  // Its node was listed as unreachable.
  predicate Unreachable(gc: Gc, id: nat) { gc.Collecting? && id in gc.nodes && gc.nodes[id] }

  lemma SetMore(few: seq<Action>, more: seq<Action>, id: nat)
    requires SetIn(few, id) && forall a :: a in few ==> a in more
    ensures SetIn(more, id)
  {
  }

  // What removing the node of a forsaken instance does.
  lemma DropEffect(s: State, pid: nat, id: nat, delivery: Delivery)
    requires IsCollecting(s, pid) && id in s.gcs[pid].forsaken && ChosenOk(s.gcs[pid], s.now)
    ensures Step(s, DropNode(pid, id, delivery)).nodes
            == if Unreachable(s.gcs[pid], id) && !delivery.Lost? then s.nodes - {id} else s.nodes
  {
  }

  function NodeCall(pid: nat, id: nat, checking: bool, delivery: Delivery): Action {
    if checking then Check(pid, id) else DropNode(pid, id, delivery)
  }

  // What an acknowledged call leaves.
  ghost predicate NodeDone(t: State, pid: nat, id: nat, checking: bool) {
    if checking then Stale(t, pid, id) ==> id in t.gcs[pid].forsaken
    else IsCollecting(t, pid) && Unreachable(t.gcs[pid], id) ==> id !in t.nodes
  }

  // Every stale and unreachable node is gone, or was set again, or is ahead.
  ghost predicate NodesGone(s: State, t: State, pid: nat, since: seq<Action>, toCheck: set<nat>, toDrop: set<nat>) {
    forall id :: Stale(s, pid, id) && Unreachable(s.gcs[pid], id) ==>
      id in toCheck || id in toDrop || id !in t.nodes || SetIn(since, id)
  }

  lemma GoneOn(s0: State, s: State, t: State, pid: nat, since: seq<Action>, others: seq<Action>, call: Action,
               id: nat, checking: bool,
               toCheck: set<nat>, toDrop: set<nat>)
    requires Collects(s0, s, pid) && Collects(s, t, pid) && NodeDone(t, pid, id, checking)
    requires forall i :: i !in s.nodes && i in t.nodes ==> SetIn(others, i)
    requires NodesGone(s0, s, pid, since, toCheck, toDrop) && (if checking then id in toCheck else id !in toCheck)
    ensures NodesGone(s0, t, pid, since + (others + [call]), if checking then toCheck - {id} else toCheck,
                      if !checking then toDrop - {id} else if id in t.gcs[pid].forsaken then toDrop + {id} else toDrop)
  {
    var more := since + (others + [call]);
    forall i | Stale(s0, pid, i) && Unreachable(s0.gcs[pid], i) && i != id && i !in toCheck && i !in toDrop
      ensures i !in t.nodes || SetIn(more, i)
    {
      if SetIn(since, i) { SetMore(since, more, i); }
      if SetIn(others, i) { SetMore(others, more, i); }
    }
    assert Stale(s0, pid, id) ==> Stale(t, pid, id);
  }

  // The state of the second loop.
  ghost predicate NodesLeft(start: State, s: State, pid: nat, since: seq<Action>, toCheck: set<nat>, toDrop: set<nat>,
                            calm: bool) {
    && Collects(start, s, pid) && toDrop <= s.gcs[pid].forsaken
    && Works(since, pid, ListedAs(start.gcs[pid], true))
    && (calm ==> NodesGone(start, s, pid, since, toCheck, toDrop))
  }

  lemma NodesStart(s: State, pid: nat, toCheck: set<nat>, calm: bool)
    requires IsCollecting(s, pid)
    requires forall id :: id in s.gcs[pid].cloud && s.gcs[pid].cloud[id].managed && s.gcs[pid].cloud[id].stopped ==>
             id in toCheck
    ensures NodesLeft(s, s, pid, [], toCheck, {}, calm)
  {
  }

  lemma LeftOn(start: State, s: State, t: State, pid: nat, since: seq<Action>, others: seq<Action>, call: Action,
               id: nat, checking: bool,
               toCheck: set<nat>, toDrop: set<nat>, calm: bool)
    requires NodesLeft(start, s, pid, since, toCheck, toDrop, calm)
    requires Collects(s, t, pid) && (calm ==> NodeDone(t, pid, id, checking))
    requires forall i :: i !in s.nodes && i in t.nodes ==> SetIn(others, i)
    requires Works(others + [call], pid, ListedAs(start.gcs[pid], true))
    requires if checking then id in toCheck else id !in toCheck
    ensures NodesLeft(start, t, pid, since + (others + [call]), if checking then toCheck - {id} else toCheck,
                      if !checking then toDrop - {id} else if id in t.gcs[pid].forsaken then toDrop + {id}
                        else toDrop, calm)
  {
    ForwardTwice(start, s, t);
    WorksOn(since, others + [call], pid, ListedAs(start.gcs[pid], true));
    if calm { GoneOn(start, s, t, pid, since, others, call, id, checking, toCheck, toDrop); }
  }

  // Which of the three lists the API answers.
  datatype Listed = Listed(cloud: bool, claims: bool, nodes: bool)

  // What others do before the n-th call of a loop, and how that call fares.
  datatype Schedule = Schedule(others: nat -> seq<Action>, delivery: nat -> Delivery)

  // ---- a whole reconcile ------------------------------------------------------------------------------

  // What is listed since a reconcile began is as it was, or newly stopped.
  ghost predicate ListedSince(start: State, s: State, pid: nat, id: nat) {
    pid in s.gcs && id in s.gcs[pid].cloud ==>
      id in start.instances && SameInstance(start.instances[id], s.gcs[pid].cloud[id])
  }

  lemma ListedSinceStep(start: State, s: State, a: Action, pid: nat, id: nat)
    requires Forward(start, s) && id < start.next && ListedSince(start, s, pid, id)
    ensures ListedSince(start, Step(s, a), pid, id)
  {
    if Pid(a) != Some(pid) { ForeignStep(s, a, pid); }
  }

  lemma {:induction false} ListedSinceBegin(h: seq<Action>, more: seq<Action>, pid: nat, id: nat)
    requires more != [] && more[0] == Begin(pid) && id < Run(h).next
    ensures ListedSince(Run(h), Run(h + more), pid, id)
    decreases |more|
  {
    var n := |more| - 1;
    RunStep(h, more, n);
    assert more[..n + 1] == more;
    if n > 0 {
      ListedSinceBegin(h, more[..n], pid, id);
      RunForward(h, more[..n]);
      ListedSinceStep(Run(h), Run(h + more[..n]), more[n], pid, id);
    }
  }

  // What a reconcile chooses among the instances it found at its start.
  lemma ReconcileChooses(h: seq<Action>, more: seq<Action>, k: nat, pid: nat, id: nat)
    requires 0 < k <= |more| && more[0] == Begin(pid) && id in Run(h).instances
    requires IsCollecting(Run(h + more[..k]), pid)
    requires id in Run(h + more[..k]).gcs[pid].condemned + Run(h + more[..k]).gcs[pid].forsaken
    ensures var i := Run(h).instances[id];
            && i.managed
            && Run(h + more).now - i.createdAt > (if i.stopped then 300_000_000_000 else 30_000_000_000)
    ensures forall c :: c in Run(h).claims && Run(h).claims[c] == Some(id) ==> c !in Run(h + more).claims
  {
    RunShape(h);
    RunChosen(h + more[..k], pid);
    ListedSinceBegin(h, more[..k], pid, id);
    CutHere(h, more, k);
    RunForward(h + more[..k], more[k..]);
    forall c | c in Run(h).claims && Run(h).claims[c] == Some(id) && c in Run(h + more).claims ensures false {
      RecordedUnchosen(h, more, k, pid, id, c);
    }
  }

  // One that a reconcile stopped by itself was there for it to collect.
  lemma ReconcileStops(h: seq<Action>, more: seq<Action>, pid: nat, id: nat)
    requires more == [] || more[0] == Begin(pid)
    requires Running(Run(h), id) && !Running(Run(h + more), id) && !StoppedIn(more, pid, id)
    ensures Run(h).instances[id].managed && Run(h + more).now - Run(h).instances[id].createdAt > 30_000_000_000
    ensures forall c :: c in Run(h).claims && Run(h).claims[c] == Some(id) ==> c !in Run(h + more).claims
  {
    var k := StoppedByOwn(h, more, pid, id);
    ReconcileChooses(h, more, k, pid, id);
  }

  lemma ReconcileTakes(h: seq<Action>, more: seq<Action>, pid: nat, id: nat)
    requires more == [] || more[0] == Begin(pid)
    requires id in Run(h).nodes && id !in Run(h + more).nodes && !TakenIn(more, pid, id) && id in Run(h).instances
    ensures var i := Run(h).instances[id];
            && i.managed
            && Run(h + more).now - i.createdAt > (if i.stopped then 300_000_000_000 else 30_000_000_000)
    ensures forall c :: c in Run(h).claims && Run(h).claims[c] == Some(id) ==> c !in Run(h + more).claims
  {
    var k := TakenByOwn(h, more, pid, id);
    ReconcileChooses(h, more, k, pid, id);
  }

  // A process that only lists stops nothing.
  lemma ListsStopNothing(h: seq<Action>, more: seq<Action>, pid: nat, id: nat)
    requires Lists(more, pid) && Running(Run(h), id) && !Running(Run(h + more), id)
    ensures StoppedIn(more, pid, id)
  {
    if !StoppedIn(more, pid, id) {
      var k := StoppedByOwn(h, more, pid, id);
      assert false;
    }
  }

  // The first loop has collected the listed instance id, and its node.
  ghost predicate CollectedOne(s: State, t: State, pid: nat, since: seq<Action>, id: nat)
    requires IsCollecting(s, pid)
  {
    !Running(t, id) && (id in s.gcs[pid].nodes && id in t.nodes ==> SetIn(since, id))
  }

  // An orphan through the listing, the first loop and the second.
  lemma OrphanCollected(h: seq<Action>, listing: seq<Action>, first: seq<Action>, second: seq<Action>, pid: nat,
                        id: nat)
    requires Running(Run(h), id) && Lists(listing, pid) && IsCollecting(Run(h + listing), pid)
    requires Run(h + listing).gcs[pid].nodes == Run(h + listing).nodes
    requires Running(Run(h + listing), id)
             ==> CollectedOne(Run(h + listing), Run(h + listing + first), pid, first, id)
    ensures var end, since := Run(h + listing + first + second), listing + first + second;
            !Running(end, id) && (id in end.nodes ==> StoppedIn(since, pid, id) || SetIn(since, id))
  {
    RunShape(h);
    RunForward(h, listing);
    RunForward(h + listing, first);
    RunForward(h + listing + first, second);
    var end, since := Run(h + listing + first + second), listing + first + second;
    if id in end.nodes && !StoppedIn(since, pid, id) {
      if !Running(Run(h + listing), id) {
        ListsStopNothing(h, listing, pid, id);
        StoppedMore(listing, since, pid, id);
      }
      CollectedSet(h + listing, first, second, pid, id);
      SetMore(first + second, since, id);
    }
  }

  lemma StoppedMore(few: seq<Action>, more: seq<Action>, pid: nat, id: nat)
    requires StoppedIn(few, pid, id) && forall a :: a in few ==> a in more
    ensures StoppedIn(more, pid, id)
  {
  }

  lemma CollectedSet(h: seq<Action>, first: seq<Action>, second: seq<Action>, pid: nat, id: nat)
    requires IsCollecting(Run(h), pid) && Run(h).gcs[pid].nodes == Run(h).nodes
    requires CollectedOne(Run(h), Run(h + first), pid, first, id) && id in Run(h + first + second).nodes
    ensures SetIn(first + second, id)
  {
    if id !in Run(h + first).nodes {
      AppearedBySet(h + first, second, id);
      SetMore(second, first + second, id);
    } else {
      if id !in Run(h).nodes { AppearedBySet(h, first, id); }
      SetMore(first, first + second, id);
    }
  }

  // The orphans that ran at the start have stopped, and their nodes have gone
  // unless someone else stopped them or set the node again.
  ghost predicate OrphansGone(start: State, end: State, pid: nat, since: seq<Action>, orphans: set<nat>) {
    forall id :: id in orphans && Running(start, id) ==>
      !Running(end, id) && (id in end.nodes ==> StoppedIn(since, pid, id) || SetIn(since, id))
  }

  lemma OrphansCollected(h: seq<Action>, listing: seq<Action>, first: seq<Action>, second: seq<Action>, pid: nat,
                         orphans: set<nat>)
    requires Lists(listing, pid) && AllDue(Run(h + listing), pid, orphans)
    requires Run(h + listing).gcs[pid].nodes == Run(h + listing).nodes
    requires WorkLeft(Run(h + listing), Run(h + listing + first), pid, first, Work({}, {}, {}), true)
    ensures OrphansGone(Run(h), Run(h + listing + first + second), pid, listing + first + second, orphans)
  {
    forall id | id in orphans && Running(Run(h), id)
      ensures var end, since := Run(h + listing + first + second), listing + first + second;
              !Running(end, id) && (id in end.nodes ==> StoppedIn(since, pid, id) || SetIn(since, id))
    {
      var s, t := Run(h + listing), Run(h + listing + first);
      if Running(s, id) {
        assert Seen(s, s.gcs[pid], id) && Due(s, pid, id);
        assert CollectedOne(s, t, pid, first, id);
      }
      OrphanCollected(h, listing, first, second, pid, id);
    }
  }

  class Controller {
    const cluster: Cluster
    var successfulCount: nat

    constructor (cluster: Cluster)
      ensures this.cluster == cluster && successfulCount == 0
    {
      this.cluster, successfulCount := cluster, 0;
    }

    // Every call is answered.
    ghost predicate Calm(delivery: nat -> Delivery) { forall n :: delivery(n) == Done }

    ghost predicate Ready(others: nat -> seq<Action>, pid: nat)
      reads cluster
    {
      cluster.Valid() && forall n :: Foreign(others(n), pid)
    }

    // Reconcile. The cloud is listed page by page, then the claims, then the
    // nodes; listing(n) are the steps everyone else takes before the n-th list
    // call, and first and second say the same of the two worker loops. None is
    // an error; since is everything that happened meanwhile.
    //
    // If nothing fails, running orphans on the pages stop, and their nodes go
    // unless someone else stopped them or set the node again. Whatever happens, an
    // instance that is unmanaged, young, or recorded by a claim throughout keeps
    // running and keeps its node, unless someone else's step ended that.
    method Reconcile(pid: nat, pages: seq<set<nat>>, listed: Listed, listing: nat -> seq<Action>,
                     first: Schedule, second: Schedule)
      returns (requeueAfter: Option<int>, ghost since: seq<Action>)
      requires Ready(listing, pid) && Ready(first.others, pid) && Ready(second.others, pid)
      modifies this, cluster
      ensures cluster.Valid() && cluster.history == old(cluster.history) + since
      ensures successfulCount == old(successfulCount) + if requeueAfter.Some? then 1 else 0
      ensures requeueAfter.Some? ==>
                requeueAfter.value == if successfulCount <= 20 then 10_000_000_000 else 120_000_000_000
      ensures listed == Listed(true, true, true) && Calm(first.delivery) && Calm(second.delivery) ==>
                && requeueAfter.Some?
                && forall k, id ::
                  (&& 0 <= k < |pages| && id in pages[k] && Running(old(cluster.state), id)
                   && old(cluster.state).instances[id].managed && !Live(old(cluster.state), id)
                   && old(cluster.state).now - old(cluster.state).instances[id].createdAt > 30_000_000_000) ==>
                    && !Running(cluster.state, id)
                    && (id in cluster.state.nodes ==> StoppedIn(since, pid, id) || SetIn(since, id))
      ensures forall id ::
                (Running(old(cluster.state), id) && !Running(cluster.state, id) && !StoppedIn(since, pid, id)) ==>
                && old(cluster.state).instances[id].managed
                && cluster.state.now - old(cluster.state).instances[id].createdAt > 30_000_000_000
                && forall c :: c in old(cluster.state).claims && old(cluster.state).claims[c] == Some(id) ==>
                     c !in cluster.state.claims
      ensures forall id ::
                (&& id in old(cluster.state).nodes && id !in cluster.state.nodes && !TakenIn(since, pid, id)
                 && id in old(cluster.state).instances) ==>
                var i := old(cluster.state).instances[id];
                && i.managed
                && cluster.state.now - i.createdAt > (if i.stopped then 300_000_000_000 else 30_000_000_000)
                && forall c :: c in old(cluster.state).claims && old(cluster.state).claims[c] == Some(id) ==>
                     c !in cluster.state.claims
    {
      ghost var h := cluster.history;
      RunShape(h);
      requeueAfter, since := ReconcileOnce(pid, pages, listed, listing, first, second);
      forall id | Running(Run(h), id) && !Running(Run(h + since), id) && !StoppedIn(since, pid, id)
        ensures && Run(h).instances[id].managed
                && Run(h + since).now - Run(h).instances[id].createdAt > 30_000_000_000
                && forall c :: c in Run(h).claims && Run(h).claims[c] == Some(id) ==> c !in Run(h + since).claims
      {
        ReconcileStops(h, since, pid, id);
      }
      forall id | id in Run(h).nodes && id !in Run(h + since).nodes && !TakenIn(since, pid, id)
                  && id in Run(h).instances
        ensures var i := Run(h).instances[id];
                && i.managed
                && Run(h + since).now - i.createdAt > (if i.stopped then 300_000_000_000 else 30_000_000_000)
                && forall c :: c in Run(h).claims && Run(h).claims[c] == Some(id) ==> c !in Run(h + since).claims
      {
        ReconcileTakes(h, since, pid, id);
      }
    }

    // The reconcile itself.
    method ReconcileOnce(pid: nat, pages: seq<set<nat>>, listed: Listed, listing: nat -> seq<Action>,
                         first: Schedule, second: Schedule)
      returns (requeueAfter: Option<int>, ghost since: seq<Action>)
      requires Ready(listing, pid) && Ready(first.others, pid) && Ready(second.others, pid)
      modifies this, cluster
      ensures cluster.Valid() && cluster.history == old(cluster.history) + since
      ensures since == [] || since[0] == Begin(pid)
      ensures successfulCount == old(successfulCount) + if requeueAfter.Some? then 1 else 0
      ensures requeueAfter.Some? ==>
                requeueAfter.value == if successfulCount <= 20 then 10 * SECOND else 120 * SECOND
      ensures listed == Listed(true, true, true) && Calm(first.delivery) && Calm(second.delivery) ==>
                && requeueAfter.Some?
                && OrphansGone(old(cluster.state), cluster.state, pid, since, OrphansOn(old(cluster.state), pages))
    {
      requeueAfter, since := None, [];
      ghost var h := cluster.history;
      ghost var orphans := OrphansOn(cluster.state, pages);
      if !listed.cloud {
        return;
      }
      since := ListAll(pid, pages, listed, listing, orphans);
      if !listed.claims || !listed.nodes {
        return;
      }
      ghost var more;
      requeueAfter, more := Collect(pid, h, since, first, second, orphans);
      since := since + more;
    }

    // The listings, up to one that fails.
    method ListAll(pid: nat, pages: seq<set<nat>>, listed: Listed, listing: nat -> seq<Action>, ghost orphans: set<nat>)
      returns (ghost since: seq<Action>)
      requires Ready(listing, pid) && AllOrphans(cluster.state, orphans) && OnPages(pages, orphans)
      modifies cluster
      ensures cluster.Valid() && cluster.history == old(cluster.history) + since && OnlyListed(since, pid)
      ensures listed.claims && listed.nodes ==>
                AllDue(cluster.state, pid, orphans) && cluster.state.gcs[pid].nodes == cluster.state.nodes
    {
      since := ListCloud(pid, pages, listing, orphans);
      if listed.claims && listed.nodes {
        ghost var more := ListObjects(pid, listing(|pages|), listing(|pages| + 1), orphans);
        since := since + more;
      }
    }

    // The two worker loops, once everything is listed.
    method Collect(pid: nat, ghost h: seq<Action>, ghost listing: seq<Action>, first: Schedule, second: Schedule,
                   ghost orphans: set<nat>)
      returns (requeueAfter: Option<int>, ghost since: seq<Action>)
      requires Ready(first.others, pid) && Ready(second.others, pid)
      requires cluster.history == h + listing && Lists(listing, pid) && AllDue(cluster.state, pid, orphans)
      requires cluster.state.gcs[pid].nodes == cluster.state.nodes
      modifies this, cluster
      ensures cluster.Valid() && cluster.history == old(cluster.history) + since
      ensures successfulCount == old(successfulCount) + if requeueAfter.Some? then 1 else 0
      ensures requeueAfter.Some? ==>
                requeueAfter.value == if successfulCount <= 20 then 10 * SECOND else 120 * SECOND
      ensures Calm(first.delivery) && Calm(second.delivery) ==> requeueAfter.Some?
      ensures Calm(first.delivery) ==> OrphansGone(Run(h), cluster.state, pid, listing + since, orphans)
    {
      requeueAfter := None;
      var ok, done := CollectInstances(pid, first.others, first.delivery);
      var ok2, done2 := CollectNodes(pid, second.others, second.delivery);
      since := done + done2;
      if ok && ok2 {
        successfulCount := successfulCount + 1;
        requeueAfter := Some(if successfulCount <= 20 then 10 * SECOND else 120 * SECOND);
      }
      assert listing + done + done2 == listing + since && h + listing + done + done2 == cluster.history;
      if Calm(first.delivery) {
        OrphansCollected(h, listing, done, done2, pid, orphans);
      }
    }

    method ListCloud(pid: nat, pages: seq<set<nat>>, others: nat -> seq<Action>, ghost orphans: set<nat>)
      returns (ghost since: seq<Action>)
      requires Ready(others, pid) && AllOrphans(cluster.state, orphans)
      requires OnPages(pages, orphans)
      modifies cluster
      ensures cluster.Valid() && cluster.history == old(cluster.history) + since
      ensures OnlyListed(since, pid)
      ensures AllOrphans(cluster.state, orphans) && AllSeen(cluster.state, pid, orphans)
    {
      ghost var h, seen := cluster.history, {};
      BeginListing(pid, orphans);
      since := [Begin(pid)];
      for i := 0 to |pages|
        invariant cluster.Valid() && cluster.history == h + since
        invariant PagesListed(cluster.state, pid, pages, i, orphans, seen, since)
      {
        seen, since := ListNext(pid, pages, i, others(i), orphans, seen, h, since);
      }
      AllPagesSeen(pages, orphans, seen);
    }

    // The state of the loop over pages.
    ghost predicate PagesListed(s: State, pid: nat, pages: seq<set<nat>>, i: nat, orphans: set<nat>, seen: set<nat>,
                                since: seq<Action>)
    {
      && i <= |pages| && OnlyListed(since, pid) && AllOrphans(s, orphans) && AllSeen(s, pid, seen)
      && PagesSeen(pages, i, orphans, seen)
    }

    method ListNext(pid: nat, pages: seq<set<nat>>, i: nat, others: seq<Action>, ghost orphans: set<nat>,
                    ghost seen: set<nat>, ghost h: seq<Action>, ghost since: seq<Action>)
      returns (ghost more: set<nat>, ghost now: seq<Action>)
      requires cluster.Valid() && cluster.history == h + since && Foreign(others, pid) && i < |pages|
      requires PagesListed(cluster.state, pid, pages, i, orphans, seen, since)
      modifies cluster
      ensures cluster.Valid() && cluster.history == h + now
      ensures PagesListed(cluster.state, pid, pages, i + 1, orphans, more, now)
    {
      ListPage(pid, pages[i], others, orphans, seen);
      ListsOn(since, others, Page(pid, pages[i]), pid);
      now := since + others + [Page(pid, pages[i])];
      more := SeenWith(pages, i, orphans, seen);
    }

    method BeginListing(pid: nat, ghost orphans: set<nat>)
      requires cluster.Valid() && AllOrphans(cluster.state, orphans)
      modifies cluster
      ensures cluster.Valid() && cluster.history == old(cluster.history) + [Begin(pid)]
      ensures AllOrphans(cluster.state, orphans) && AllSeen(cluster.state, pid, {})
    {
      ghost var s := cluster.state;
      cluster.Perform(Begin(pid));
      OrphansKept(s, cluster.state, pid, orphans);
    }

    method ListPage(pid: nat, page: set<nat>, others: seq<Action>, ghost orphans: set<nat>, ghost seen: set<nat>)
      requires cluster.Valid() && Foreign(others, pid)
      requires AllOrphans(cluster.state, orphans) && AllSeen(cluster.state, pid, seen) && seen <= orphans
      modifies cluster
      ensures cluster.Valid() && cluster.history == old(cluster.history) + others + [Page(pid, page)]
      ensures AllOrphans(cluster.state, orphans) && AllSeen(cluster.state, pid, seen + page * orphans)
    {
      ghost var s := cluster.state;
      cluster.Interfere(others, pid);
      ghost var t := cluster.state;
      OrphansKept(s, t, pid, orphans);
      OrphansKept(s, t, pid, seen);
      PageSees(t, pid, page, orphans, seen);
      cluster.Perform(Page(pid, page));
      OrphansKept(t, cluster.state, pid, orphans);
    }

    method ListObjects(pid: nat, beforeClaims: seq<Action>, beforeNodes: seq<Action>, ghost orphans: set<nat>)
      returns (ghost since: seq<Action>)
      requires cluster.Valid() && Foreign(beforeClaims, pid) && Foreign(beforeNodes, pid)
      requires AllOrphans(cluster.state, orphans) && AllSeen(cluster.state, pid, orphans)
      modifies cluster
      ensures cluster.Valid() && cluster.history == old(cluster.history) + since && Lists(since, pid)
      ensures AllDue(cluster.state, pid, orphans) && cluster.state.gcs[pid].nodes == cluster.state.nodes
    {
      ListAllClaims(pid, beforeClaims, orphans);
      ghost var s := cluster.state;
      cluster.Interfere(beforeNodes, pid);
      OrphansKept(s, cluster.state, pid, orphans);
      NodesListed(cluster.state, pid, orphans);
      cluster.Perform(ListNodes(pid));
      since := beforeClaims + [ListClaims(pid)] + beforeNodes + [ListNodes(pid)];
    }

    method ListAllClaims(pid: nat, others: seq<Action>, ghost orphans: set<nat>)
      requires cluster.Valid() && Foreign(others, pid)
      requires AllOrphans(cluster.state, orphans) && AllSeen(cluster.state, pid, orphans)
      modifies cluster
      ensures cluster.Valid() && cluster.history == old(cluster.history) + others + [ListClaims(pid)]
      ensures AllDue(cluster.state, pid, orphans)
    {
      ghost var s := cluster.state;
      cluster.Interfere(others, pid);
      OrphansKept(s, cluster.state, pid, orphans);
      RunShape(cluster.history);
      ClaimsResolve(cluster.state, pid, orphans);
      cluster.Perform(ListClaims(pid));
    }

    // The first worker loop, and garbageCollect: whichever worker goes next, an
    // instance is checked, then terminated, then loses its node. If nothing fails,
    // every running instance listed as managed, unrecorded and older than 30
    // seconds goes, and its listed node with it; nothing else is stopped, and no
    // other node goes, but by what others do meanwhile.
    method CollectInstances(pid: nat, others: nat -> seq<Action>, delivery: nat -> Delivery)
      returns (ok: bool, ghost since: seq<Action>)
      requires Ready(others, pid) && IsCollecting(cluster.state, pid)
      modifies cluster
      ensures cluster.Valid() && cluster.history == old(cluster.history) + since && IsCollecting(cluster.state, pid)
      ensures Calm(delivery) ==> ok
      ensures WorkLeft(old(cluster.state), cluster.state, pid, since, Work({}, {}, {}), Calm(delivery))
      ensures Calm(delivery) ==>
                var gc := old(cluster.state).gcs[pid];
                forall id ::
                  (&& id in gc.cloud && gc.cloud[id].managed && !gc.cloud[id].stopped && id !in gc.resolved
                   && old(cluster.state).now - gc.cloud[id].createdAt > 30_000_000_000) ==>
                  && !Running(cluster.state, id)
                  && (id in gc.nodes && id in cluster.state.nodes ==> SetIn(since, id))
      ensures forall id ::
                (Running(old(cluster.state), id) && !Running(cluster.state, id) && !StoppedIn(since, pid, id)) ==>
                && old(cluster.state).instances[id].managed && id !in old(cluster.state).gcs[pid].resolved
                && cluster.state.now - old(cluster.state).instances[id].createdAt > 30_000_000_000
      ensures var gc := old(cluster.state).gcs[pid];
              forall id :: id in old(cluster.state).nodes && id !in cluster.state.nodes && !TakenIn(since, pid, id) ==>
                && id in gc.nodes && id in gc.cloud && gc.cloud[id].managed && !gc.cloud[id].stopped
                && id !in gc.resolved && cluster.state.now - gc.cloud[id].createdAt > 30_000_000_000
    {
      ghost var h := cluster.history;
      ok, since := WorkThrough(pid, others, delivery);
      WorkDone(h, since, pid, Calm(delivery));
      assert cluster.state == Run(h + since) && old(cluster.state) == Run(h);
    }

    method WorkThrough(pid: nat, others: nat -> seq<Action>, delivery: nat -> Delivery)
      returns (ok: bool, ghost since: seq<Action>)
      requires Ready(others, pid) && IsCollecting(cluster.state, pid)
      modifies cluster
      ensures cluster.Valid() && cluster.history == old(cluster.history) + since
      ensures Calm(delivery) ==> ok
      ensures WorkLeft(old(cluster.state), cluster.state, pid, since, Work({}, {}, {}), Calm(delivery))
    {
      ghost var start, calm, h := cluster.state, Calm(delivery), cluster.history;
      var cloud := cluster.state.gcs[pid].cloud;
      var w := Work(set id | id in cloud && cloud[id].managed && !cloud[id].stopped, {}, {});
      var n := 0;
      ok, since := true, [];
      WorkStarts(start, pid, w, calm);
      while w.toCheck + w.toTerminate + w.toDrop != {}
        invariant cluster.Valid() && cluster.history == h + since && (calm ==> ok)
        invariant WorkLeft(start, cluster.state, pid, since, w, calm)
        decreases w.toCheck, w.toTerminate, w.toDrop
      {
        var id :| id in w.toCheck + w.toTerminate + w.toDrop;
        var done;
        w, done, since := WorkOn(pid, id, w, others(n), delivery(n), start, h, since, calm);
        ok := ok && done;
        n := n + 1;
      }
      assert w == Work({}, {}, {});
    }

    // What is left when the first loop ends.
    lemma WorkDone(h: seq<Action>, since: seq<Action>, pid: nat, calm: bool)
      requires IsCollecting(Run(h), pid)
      requires WorkLeft(Run(h), Run(h + since), pid, since, Work({}, {}, {}), calm)
      ensures var gc, s := Run(h).gcs[pid], Run(h + since);
              calm ==> forall id ::
                id in gc.cloud && gc.cloud[id].managed && !gc.cloud[id].stopped && id !in gc.resolved
                && Run(h).now - gc.cloud[id].createdAt > 30_000_000_000 ==>
                !Running(s, id) && (id in gc.nodes && id in s.nodes ==> SetIn(since, id))
      ensures forall id :: Running(Run(h), id) && !Running(Run(h + since), id) && !StoppedIn(since, pid, id) ==>
                && Run(h).instances[id].managed && id !in Run(h).gcs[pid].resolved
                && Run(h + since).now - Run(h).instances[id].createdAt > 30_000_000_000
      ensures var gc := Run(h).gcs[pid];
              forall id :: id in Run(h).nodes && id !in Run(h + since).nodes && !TakenIn(since, pid, id) ==>
                && id in gc.nodes && id in gc.cloud && gc.cloud[id].managed && !gc.cloud[id].stopped
                && id !in gc.resolved && Run(h + since).now - gc.cloud[id].createdAt > 30_000_000_000
    {
      var gc, s, ids := Run(h).gcs[pid], Run(h + since), ListedAs(Run(h).gcs[pid], false);
      forall id | calm && id in gc.cloud && gc.cloud[id].managed && !gc.cloud[id].stopped && id !in gc.resolved
                  && Run(h).now - gc.cloud[id].createdAt > 30_000_000_000
        ensures !Running(s, id) && (id in gc.nodes && id in s.nodes ==> SetIn(since, id))
      {
        assert Due(Run(h), pid, id);
      }
      forall id | Running(Run(h), id) && !Running(s, id) && !StoppedIn(since, pid, id)
        ensures && Run(h).instances[id].managed && id !in gc.resolved
                && s.now - Run(h).instances[id].createdAt > 30_000_000_000
      {
        WorkStops(h, since, pid, ids, id);
      }
      forall id | id in Run(h).nodes && id !in s.nodes && !TakenIn(since, pid, id)
        ensures && id in gc.nodes && id in gc.cloud && gc.cloud[id].managed && !gc.cloud[id].stopped
                && id !in gc.resolved && s.now - gc.cloud[id].createdAt > 30_000_000_000
      {
        WorkTakes(h, since, pid, ids, id);
      }
    }

    // One stage has one instance less to go, and earlier ones are as they were.
    ghost predicate Lessens(was: Work, w: Work) {
      || w.toCheck < was.toCheck
      || (w.toCheck == was.toCheck
          && (w.toTerminate < was.toTerminate || (w.toTerminate == was.toTerminate && w.toDrop < was.toDrop)))
    }

    // One worker's next call, for one instance.
    method WorkOn(pid: nat, id: nat, was: Work, others: seq<Action>, delivery: Delivery, ghost start: State,
                  ghost h: seq<Action>, ghost since: seq<Action>, ghost calm: bool)
      returns (w: Work, ok: bool, ghost now: seq<Action>)
      requires cluster.Valid() && cluster.history == h + since && Foreign(others, pid)
      requires WorkLeft(start, cluster.state, pid, since, was, calm) && (calm ==> delivery == Done)
      requires id in was.toCheck + was.toTerminate + was.toDrop
      modifies cluster
      ensures cluster.Valid() && cluster.history == h + now
      ensures WorkLeft(start, cluster.state, pid, now, w, calm) && (calm ==> ok)
      ensures Lessens(was, w)
    {
      now := WaitToWork(pid, was, others, start, h, since, calm);
      if id in was.toCheck {
        w := CheckAge(pid, id, was, start, now, calm);
        ok, now := true, now + [Check(pid, id)];
      } else if id in was.toTerminate {
        w, ok := TerminateInstance(pid, id, was, delivery, start, now, calm);
        now := now + [Terminate(pid, id, delivery)];
      } else {
        w, ok := DropItsNode(pid, id, was, delivery, start, now, calm);
        now := now + [DropNode(pid, id, delivery)];
      }
    }

    // What others do before the call.
    method WaitToWork(pid: nat, ghost w: Work, others: seq<Action>, ghost start: State, ghost h: seq<Action>,
                      ghost since: seq<Action>, ghost calm: bool)
      returns (ghost now: seq<Action>)
      requires cluster.Valid() && cluster.history == h + since && Foreign(others, pid)
      requires WorkLeft(start, cluster.state, pid, since, w, calm)
      modifies cluster
      ensures cluster.Valid() && cluster.history == h + now && WorkLeft(start, cluster.state, pid, now, w, calm)
    {
      ghost var s := cluster.state;
      NodesAppear(cluster.history, others);
      cluster.Interfere(others, pid);
      WorkOnward(start, s, cluster.state, pid, since, others, w, calm);
      now := since + others;
    }

    method CheckAge(pid: nat, id: nat, was: Work, ghost start: State, ghost since: seq<Action>, ghost calm: bool)
      returns (w: Work)
      requires cluster.Valid() && WorkLeft(start, cluster.state, pid, since, was, calm) && id in was.toCheck
      modifies cluster
      ensures cluster.Valid() && cluster.history == old(cluster.history) + [Check(pid, id)]
      ensures WorkLeft(start, cluster.state, pid, since + [Check(pid, id)], w, calm)
      ensures w.toCheck == was.toCheck - {id}
    {
      ghost var s := cluster.state;
      if Due(start, pid, id) {
        DueStays(start, s, pid, id);
        CheckCondemns(s, pid, id);
      }
      cluster.Perform(Check(pid, id));
      CallCollects(s, Check(pid, id), pid);
      WorkOnward(start, s, cluster.state, pid, since, [Check(pid, id)], was, calm);
      var condemned := id in cluster.state.gcs[pid].condemned;
      w := Work(was.toCheck - {id}, if condemned then was.toTerminate + {id} else was.toTerminate, was.toDrop);
    }

    method TerminateInstance(pid: nat, id: nat, was: Work, delivery: Delivery, ghost start: State,
                             ghost since: seq<Action>, ghost calm: bool)
      returns (w: Work, ok: bool)
      requires cluster.Valid() && WorkLeft(start, cluster.state, pid, since, was, calm)
      requires id in was.toTerminate && (calm ==> delivery == Done)
      modifies cluster
      ensures cluster.Valid() && cluster.history == old(cluster.history) + [Terminate(pid, id, delivery)]
      ensures WorkLeft(start, cluster.state, pid, since + [Terminate(pid, id, delivery)], w, calm)
      ensures ok <==> delivery == Done
      ensures w.toCheck == was.toCheck && w.toTerminate == was.toTerminate - {id}
    {
      ghost var s := cluster.state;
      RunShape(cluster.history);
      CondemnedKnown(cluster.history, pid, id);
      TerminateStops(s, pid, id);
      cluster.Perform(Terminate(pid, id, delivery));
      CallCollects(s, Terminate(pid, id, delivery), pid);
      WorkOnward(start, s, cluster.state, pid, since, [Terminate(pid, id, delivery)], was, calm);
      ok := delivery == Done;
      w := Work(was.toCheck, was.toTerminate - {id}, if ok then was.toDrop + {id} else was.toDrop);
    }

    method DropItsNode(pid: nat, id: nat, was: Work, delivery: Delivery, ghost start: State,
                       ghost since: seq<Action>, ghost calm: bool)
      returns (w: Work, ok: bool)
      requires cluster.Valid() && WorkLeft(start, cluster.state, pid, since, was, calm)
      requires id in was.toDrop && (calm ==> delivery == Done)
      modifies cluster
      ensures cluster.Valid() && cluster.history == old(cluster.history) + [DropNode(pid, id, delivery)]
      ensures WorkLeft(start, cluster.state, pid, since + [DropNode(pid, id, delivery)], w, calm)
      ensures delivery == Done ==> ok
      ensures w == was.(toDrop := was.toDrop - {id})
    {
      ghost var s := cluster.state;
      RunChosen(cluster.history, pid);
      if id in s.gcs[pid].nodes { DropRemoves(s, pid, id); }
      cluster.Perform(DropNode(pid, id, delivery));
      CallCollects(s, DropNode(pid, id, delivery), pid);
      WorkOnward(start, s, cluster.state, pid, since, [DropNode(pid, id, delivery)], was, calm);
      ok := delivery == Done || id !in cluster.state.gcs[pid].nodes;
      w := was.(toDrop := was.toDrop - {id});
    }

    // The second worker loop, and garbageNode: if nothing fails, every node goes
    // that was listed as unreachable and whose instance was listed as stopped,
    // managed, unrecorded and older than 5 minutes; no other does, but by what
    // others do meanwhile.
    method CollectNodes(pid: nat, others: nat -> seq<Action>, delivery: nat -> Delivery)
      returns (ok: bool, ghost since: seq<Action>)
      requires Ready(others, pid) && IsCollecting(cluster.state, pid)
      modifies cluster
      ensures cluster.Valid() && cluster.history == old(cluster.history) + since
      ensures Calm(delivery) ==> ok
      ensures Calm(delivery) ==>
                var gc := old(cluster.state).gcs[pid];
                forall id ::
                  (&& id in gc.cloud && gc.cloud[id].managed && gc.cloud[id].stopped && id !in gc.resolved
                   && old(cluster.state).now - gc.cloud[id].createdAt > 300_000_000_000
                   && id in gc.nodes && gc.nodes[id]) ==>
                  id in cluster.state.nodes ==> SetIn(since, id)
      ensures var gc := old(cluster.state).gcs[pid];
              forall id :: id in old(cluster.state).nodes && id !in cluster.state.nodes && !TakenIn(since, pid, id) ==>
                && id in gc.nodes && gc.nodes[id] && id in gc.cloud && gc.cloud[id].managed && gc.cloud[id].stopped
                && id !in gc.resolved && cluster.state.now - gc.cloud[id].createdAt > 300_000_000_000
    {
      ghost var h := cluster.history;
      ok, since := NodesThrough(pid, others, delivery);
      NodesDone(h, since, pid, Calm(delivery));
    }

    method NodesThrough(pid: nat, others: nat -> seq<Action>, delivery: nat -> Delivery)
      returns (ok: bool, ghost since: seq<Action>)
      requires Ready(others, pid) && IsCollecting(cluster.state, pid)
      modifies cluster
      ensures cluster.Valid() && cluster.history == old(cluster.history) + since
      ensures Calm(delivery) ==> ok
      ensures NodesLeft(old(cluster.state), cluster.state, pid, since, {}, {}, Calm(delivery))
    {
      ghost var start, calm, h := cluster.state, Calm(delivery), cluster.history;
      var cloud := cluster.state.gcs[pid].cloud;
      var toCheck := set id | id in cloud && cloud[id].managed && cloud[id].stopped;
      var toDrop := {};
      var n := 0;
      ok, since := true, [];
      NodesStart(start, pid, toCheck, calm);
      while toCheck + toDrop != {}
        invariant cluster.Valid() && cluster.history == h + since && (calm ==> ok)
        invariant NodesLeft(start, cluster.state, pid, since, toCheck, toDrop, calm)
        decreases toCheck, toDrop
      {
        var id :| id in toCheck + toDrop;
        var done;
        toCheck, toDrop, done, since :=
          WorkOnNode(pid, id, others(n), delivery(n), start, h, since, toCheck, toDrop, calm);
        ok := ok && done;
        n := n + 1;
      }
      assert toCheck == {} && toDrop == {};
    }

    // What is left when the second loop ends.
    lemma NodesDone(h: seq<Action>, since: seq<Action>, pid: nat, calm: bool)
      requires IsCollecting(Run(h), pid) && NodesLeft(Run(h), Run(h + since), pid, since, {}, {}, calm)
      ensures var gc, s := Run(h).gcs[pid], Run(h + since);
              calm ==> forall id ::
                id in gc.cloud && gc.cloud[id].managed && gc.cloud[id].stopped && id !in gc.resolved
                && Run(h).now - gc.cloud[id].createdAt > 300_000_000_000 && id in gc.nodes && gc.nodes[id] ==>
                id in s.nodes ==> SetIn(since, id)
      ensures var gc := Run(h).gcs[pid];
              forall id :: id in Run(h).nodes && id !in Run(h + since).nodes && !TakenIn(since, pid, id) ==>
                && id in gc.nodes && gc.nodes[id] && id in gc.cloud && gc.cloud[id].managed && gc.cloud[id].stopped
                && id !in gc.resolved && Run(h + since).now - gc.cloud[id].createdAt > 300_000_000_000
    {
      var gc, s, ids := Run(h).gcs[pid], Run(h + since), ListedAs(Run(h).gcs[pid], true);
      forall id | calm && id in gc.cloud && gc.cloud[id].managed && gc.cloud[id].stopped && id !in gc.resolved
                  && Run(h).now - gc.cloud[id].createdAt > 300_000_000_000 && id in gc.nodes && gc.nodes[id]
        ensures id in s.nodes ==> SetIn(since, id)
      {
        assert Stale(Run(h), pid, id) && Unreachable(gc, id);
      }
      forall id | id in Run(h).nodes && id !in s.nodes && !TakenIn(since, pid, id)
        ensures && id in gc.nodes && gc.nodes[id] && id in gc.cloud && gc.cloud[id].managed && gc.cloud[id].stopped
                && id !in gc.resolved && s.now - gc.cloud[id].createdAt > 300_000_000_000
      {
        WorkTakes(h, since, pid, ids, id);
      }
    }

    // One worker's next call, for one stopped instance.
    method WorkOnNode(pid: nat, id: nat, others: seq<Action>, delivery: Delivery, ghost start: State,
                      ghost h: seq<Action>, ghost since: seq<Action>,
                      toCheck: set<nat>, toDrop: set<nat>, ghost calm: bool)
      returns (check: set<nat>, drop: set<nat>, ok: bool, ghost now: seq<Action>)
      requires cluster.Valid() && cluster.history == h + since && Foreign(others, pid)
               && NodesLeft(start, cluster.state, pid, since, toCheck, toDrop, calm)
      requires id in toCheck + toDrop && (calm ==> delivery == Done)
      modifies cluster
      ensures cluster.Valid() && cluster.history == h + now
      ensures NodesLeft(start, cluster.state, pid, now, check, drop, calm)
      ensures check < toCheck || (check == toCheck && drop < toDrop)
      ensures calm ==> ok
    {
      ghost var s := cluster.state;
      var checking, forsaken := id in toCheck, false;
      RunChosen(cluster.history, pid);
      ok, forsaken := CallForNode(pid, id, checking, others, delivery);
      LeftOn(start, s, cluster.state, pid, since, others, NodeCall(pid, id, checking, delivery), id, checking,
        toCheck, toDrop, calm);
      now := since + (others + [NodeCall(pid, id, checking, delivery)]);
      check := if checking then toCheck - {id} else toCheck;
      drop := if !checking then toDrop - {id} else if forsaken then toDrop + {id} else toDrop;
    }

    method CallForNode(pid: nat, id: nat, checking: bool, others: seq<Action>, delivery: Delivery)
      returns (ok: bool, forsaken: bool)
      requires cluster.Valid() && Foreign(others, pid) && IsCollecting(cluster.state, pid)
      requires !checking ==> id in cluster.state.gcs[pid].forsaken
      modifies cluster
      ensures cluster.Valid()
              && cluster.history == old(cluster.history) + others + [NodeCall(pid, id, checking, delivery)]
      ensures Collects(old(cluster.state), cluster.state, pid)
      ensures checking ==> (forsaken <==> id in cluster.state.gcs[pid].forsaken)
      ensures forall i :: i !in old(cluster.state).nodes && i in cluster.state.nodes ==> SetIn(others, i)
      ensures delivery == Done ==> ok && NodeDone(cluster.state, pid, id, checking)
    {
      ghost var s := cluster.state;
      NodesAppear(cluster.history, others);
      cluster.Interfere(others, pid);
      ghost var t := cluster.state;
      RunChosen(cluster.history, pid);
      ok, forsaken := true, false;
      if checking {
        forsaken := CheckStopped(pid, id);
      } else {
        ok := DropStopped(pid, id, delivery);
      }
      ForwardTwice(s, t, cluster.state);
    }

    method CheckStopped(pid: nat, id: nat) returns (forsaken: bool)
      requires cluster.Valid() && IsCollecting(cluster.state, pid)
      modifies cluster
      ensures cluster.Valid() && cluster.history == old(cluster.history) + [Check(pid, id)]
      ensures Forward(old(cluster.state), cluster.state) && Collects(old(cluster.state), cluster.state, pid)
      ensures cluster.state.nodes == old(cluster.state).nodes
      ensures forsaken <==> id in cluster.state.gcs[pid].forsaken
      ensures Stale(old(cluster.state), pid, id) ==> forsaken
    {
      cluster.Perform(Check(pid, id));
      forsaken := id in cluster.state.gcs[pid].forsaken;
    }

    method DropStopped(pid: nat, id: nat, delivery: Delivery) returns (ok: bool)
      requires cluster.Valid() && IsCollecting(cluster.state, pid) && id in cluster.state.gcs[pid].forsaken
      modifies cluster
      ensures cluster.Valid() && cluster.history == old(cluster.history) + [DropNode(pid, id, delivery)]
      ensures Forward(old(cluster.state), cluster.state) && cluster.state.gcs == old(cluster.state).gcs
      ensures cluster.state.nodes
              == if Unreachable(old(cluster.state).gcs[pid], id) && !delivery.Lost? then old(cluster.state).nodes - {id}
                                     else old(cluster.state).nodes
      ensures delivery == Done ==> ok
    {
      RunChosen(cluster.history, pid);
      DropEffect(cluster.state, pid, id, delivery);
      ok := delivery == Done || !Droppable(cluster.state.gcs[pid], id);
      cluster.Perform(DropNode(pid, id, delivery));
    }
  }
}
