// The life of a NodeClass: nodeclass/status (adds the finalizer, then sets
// readiness), nodeclass/termination (lists claims, then drops the finalizer) and
// CloudProvider.Create (reads the class, then launches), interleaved with users,
// other controllers, crashes and failing writes on one API server.
module NodeClassLifecycle {
  import opened Text

  datatype Condition = Yes | No | Unknown

  datatype Status = Status(images: Condition, subnets: Condition, securityGroups: Condition)

  // The root condition Ready of the condition set.
  function Ready(s: Status): Condition {
    if s.images.No? || s.subnets.No? || s.securityGroups.No? then No
    else if s.images.Yes? && s.subnets.Yes? && s.securityGroups.Yes? then Yes
    else Unknown
  }

  const NEW_STATUS := Status(Unknown, Unknown, Unknown)

  // rv is the resource version; others are finalizers this provider does not own.
  datatype NodeClass = NodeClass(uid: nat, rv: nat, deleting: bool, finalizer: bool, others: set<string>,
                                 status: Status)

  // What a controller in the middle of its work holds on to.
  datatype Proc =
    | StatusRead(name: string, seen: NodeClass)
    | StatusReady(name: string, seen: NodeClass)
    | TermRead(name: string, seen: NodeClass)
    | TermEmpty(name: string, seen: NodeClass)
    | Creating(binding: Binding)

  // A claim and the class object its launch was resolved against.
  datatype Binding = Binding(claim: nat, name: string, class_: nat)

  // claims maps a NodeClaim to the class name it refers to; resolved and
  // launched record what Create has let through.
  datatype State = State(
    classes: map<string, NodeClass>,
    claims: map<nat, string>,
    procs: map<nat, Proc>,
    resolved: set<Binding>,
    launched: set<Binding>,
    next: nat)

  // A write is applied and answered, never arrives, or is applied but its
  // answer is lost.
  datatype Delivery = Done | Lost | Unanswered

  // What the sub-reconcilers conclude; None when one fails and leaves its
  // condition as it was. touched says that other status fields change.
  datatype Findings = Findings(images: Option<Condition>, subnets: Option<Condition>,
                               securityGroups: Option<Condition>, touched: bool)

  datatype Action =
    | CreateClass(name: string, finalizer: bool, others: set<string>)
    | EditClass(name: string)
    | DeleteClass(name: string)
    | DropOther(name: string, other: string)
    | CreateClaim(name: string)
    | RemoveClaim(claim: nat)
    | BeginStatus(pid: nat, name: string)
    | PatchFinalizer(pid: nat, delivery: Delivery)
    | PatchStatus(pid: nat, findings: Findings, delivery: Delivery)
    | BeginTermination(pid: nat, name: string)
    | ListClaims(pid: nat)
    | PatchRelease(pid: nat, delivery: Delivery)
    | BeginCreate(pid: nat, claim: nat)
    | Launch(pid: nat, accepted: bool)
    | Crash(pid: nat)

  const INIT := State(map[], map[], map[], {}, {}, 0)

  // ---- the API server ---------------------------------------------------------------

  // A write bumps the resource version; a deleting object without finalizers
  // disappears.
  function Store(s: State, name: string, c: NodeClass): State {
    if c.deleting && !c.finalizer && c.others == {} then s.(classes := s.classes - {name}, next := s.next + 1)
    else s.(classes := s.classes[name := c.(rv := s.next)], next := s.next + 1)
  }

  // The optimistic lock: the write is refused unless nothing was written since.
  predicate Current(s: State, name: string, seen: NodeClass) {
    name in s.classes && s.classes[name].rv == seen.rv
  }

  function End(s: State, pid: nat): State { s.(procs := s.procs - {pid}) }

  function Enter(s: State, pid: nat, p: Proc): State { s.(procs := s.procs[pid := p]) }

  function Or(found: Option<Condition>, was: Condition): Condition {
    if found.Some? then found.value else was
  }

  function Apply(was: Status, f: Findings): Status {
    Status(Or(f.images, was.images), Or(f.subnets, was.subnets), Or(f.securityGroups, was.securityGroups))
  }

  // Every sub-reconciler came to a conclusion.
  predicate Complete(f: Findings) { f.images.Some? && f.subnets.Some? && f.securityGroups.Some? }

  predicate Changes(c: NodeClass, f: Findings) { Apply(c.status, f) != c.status || f.touched }

  predicate ClassReferred(s: State, name: string) { exists c :: c in s.claims && s.claims[c] == name }

  // ---- the steps ------------------------------------------------------------------------

  function ClassStep(s: State, a: Action): State {
    match a
    case CreateClass(name, finalizer, others) =>
      if name in s.classes then s
      else s.(classes := s.classes[name := NodeClass(s.next, s.next, false, finalizer, others, NEW_STATUS)],
        next := s.next + 1)
    case EditClass(name) =>
      if name in s.classes then Store(s, name, s.classes[name]) else s
    case DeleteClass(name) =>
      if name in s.classes then Store(s, name, s.classes[name].(deleting := true)) else s
    case DropOther(name, other) =>
      if name in s.classes then Store(s, name, s.classes[name].(others := s.classes[name].others - {other})) else s
    case CreateClaim(name) =>
      s.(claims := s.claims[s.next := name], next := s.next + 1)
    case RemoveClaim(claim) =>
      s.(claims := s.claims - {claim})
    case _ => s
  }

  function StatusStep(s: State, a: Action): State {
    match a
    case BeginStatus(pid, name) =>
      if name !in s.classes then End(s, pid)
      else if s.classes[name].finalizer then Enter(s, pid, StatusReady(name, s.classes[name]))
      else Enter(s, pid, StatusRead(name, s.classes[name]))
    case PatchFinalizer(pid, delivery) =>
      if pid !in s.procs || !s.procs[pid].StatusRead? then s
      else
        var StatusRead(name, seen) := s.procs[pid];
        // the API also refuses a new finalizer on a deleting object
        if delivery.Lost? || !Current(s, name, seen) || seen.deleting then End(s, pid)
        else
          var written := Store(s, name, seen.(finalizer := true));
          if delivery.Done? then Enter(written, pid, StatusReady(name, written.classes[name])) else End(written, pid)
    case PatchStatus(pid, findings, delivery) =>
      if pid !in s.procs || !s.procs[pid].StatusReady? then s
      else
        var StatusReady(name, seen) := s.procs[pid];
        var found := Apply(seen.status, findings);
        if !Changes(seen, findings) || delivery.Lost? || !Current(s, name, seen) then End(s, pid)
        else End(Store(s, name, seen.(status := found)), pid)
    case _ => s
  }

  function TerminationStep(s: State, a: Action): State {
    match a
    case BeginTermination(pid, name) =>
      if name in s.classes && s.classes[name].deleting && s.classes[name].finalizer
      then Enter(s, pid, TermRead(name, s.classes[name])) else End(s, pid)
    case ListClaims(pid) =>
      if pid !in s.procs || !s.procs[pid].TermRead? then s
      else
        var TermRead(name, seen) := s.procs[pid];
        if ClassReferred(s, name) then End(s, pid) else Enter(s, pid, TermEmpty(name, seen))
    case PatchRelease(pid, delivery) =>
      if pid !in s.procs || !s.procs[pid].TermEmpty? then s
      else
        var TermEmpty(name, seen) := s.procs[pid];
        if delivery.Lost? || !Current(s, name, seen) then End(s, pid)
        else End(Store(s, name, seen.(finalizer := false)), pid)
    case _ => s
  }

  function CreateStep(s: State, a: Action): State {
    match a
    case BeginCreate(pid, claim) =>
      if claim in s.claims && s.claims[claim] in s.classes
         && !s.classes[s.claims[claim]].deleting && Ready(s.classes[s.claims[claim]].status) == Yes
      then
        var b := Binding(claim, s.claims[claim], s.classes[s.claims[claim]].uid);
        Enter(s, pid, Creating(b)).(resolved := s.resolved + {b})
      else End(s, pid)
    case Launch(pid, accepted) =>
      if pid !in s.procs || !s.procs[pid].Creating? then s
      else if accepted then End(s.(launched := s.launched + {s.procs[pid].binding}), pid)
      else End(s, pid)
    case Crash(pid) => End(s, pid)
    case _ => s
  }

  function Step(s: State, a: Action): State {
    match a
    case CreateClass(_, _, _) => ClassStep(s, a)
    case EditClass(_) => ClassStep(s, a)
    case DeleteClass(_) => ClassStep(s, a)
    case DropOther(_, _) => ClassStep(s, a)
    case CreateClaim(_) => ClassStep(s, a)
    case RemoveClaim(_) => ClassStep(s, a)
    case BeginStatus(_, _) => StatusStep(s, a)
    case PatchFinalizer(_, _) => StatusStep(s, a)
    case PatchStatus(_, _, _) => StatusStep(s, a)
    case BeginTermination(_, _) => TerminationStep(s, a)
    case ListClaims(_) => TerminationStep(s, a)
    case PatchRelease(_, _) => TerminationStep(s, a)
    case BeginCreate(_, _) => CreateStep(s, a)
    case Launch(_, _) => CreateStep(s, a)
    case Crash(_) => CreateStep(s, a)
  }

  function Run(actions: seq<Action>): State {
    if actions == [] then INIT else Step(Run(actions[..|actions| - 1]), actions[|actions| - 1])
  }

  // ---- the invariant ------------------------------------------------------------------------

  // While the claim exists, so does the class object, held by the finalizer.
  predicate Held(s: State, b: Binding) {
    b.claim in s.claims ==>
      && s.claims[b.claim] == b.name && b.name in s.classes
      && s.classes[b.name].uid == b.class_ && s.classes[b.name].finalizer
  }

  predicate Fresh(s: State) {
    && (forall n :: n in s.classes ==> s.classes[n].uid < s.next && s.classes[n].rv < s.next)
    && (forall c :: c in s.claims ==> c < s.next)
    && (forall b :: b in s.resolved ==> b.claim < s.next)
  }

  // Readiness of a class that is not being deleted implies the finalizer.
  predicate ReadyIsFinalized(s: State) {
    forall n :: n in s.classes && Ready(s.classes[n].status) == Yes && !s.classes[n].deleting ==> s.classes[n].finalizer
  }

  // The same version of an object is the same object.
  predicate SnapshotOk(s: State, name: string, seen: NodeClass) {
    seen.rv < s.next && seen.uid < s.next && (Current(s, name, seen) ==> s.classes[name] == seen)
  }

  predicate StaysDeleting(s: State, name: string, seen: NodeClass) {
    seen.deleting && seen.finalizer
      && (name in s.classes && s.classes[name].uid == seen.uid ==> s.classes[name].deleting)
  }

  predicate ProcOk(s: State, p: Proc) {
    match p
    case StatusRead(name, seen) => SnapshotOk(s, name, seen)
    case StatusReady(name, seen) => SnapshotOk(s, name, seen) && seen.finalizer
    case TermRead(name, seen) => SnapshotOk(s, name, seen) && StaysDeleting(s, name, seen)
    case TermEmpty(name, seen) =>
      && SnapshotOk(s, name, seen) && StaysDeleting(s, name, seen)
      && (forall b :: b in s.resolved && b.name == name && b.class_ == seen.uid ==> b.claim !in s.claims)
    case Creating(b) => b in s.resolved
  }

  predicate Inv(s: State) {
    && Fresh(s)
    && ReadyIsFinalized(s)
    && (forall pid :: pid in s.procs ==> ProcOk(s, s.procs[pid]))
    && (forall b :: b in s.resolved ==> Held(s, b))
    && s.launched <= s.resolved
  }

  // A write to a class whose object existed keeps every other process sound.
  lemma StoreKeepsProc(s: State, name: string, c: NodeClass, p: Proc)
    requires Fresh(s) && name in s.classes && c.uid == s.classes[name].uid && (s.classes[name].deleting ==> c.deleting)
    requires ProcOk(s, p)
    ensures ProcOk(Store(s, name, c), p)
  {
  }

  lemma StoreKeepsInv(s: State, name: string, c: NodeClass)
    requires Inv(s) && name in s.classes && c.uid == s.classes[name].uid && (s.classes[name].deleting ==> c.deleting)
    requires Ready(c.status) == Yes && !c.deleting ==> c.finalizer
    requires c.finalizer || !s.classes[name].finalizer
             || forall b :: b in s.resolved && b.name == name && b.class_ == c.uid ==> b.claim !in s.claims
    ensures Inv(Store(s, name, c))
  {
    var t := Store(s, name, c);
    forall pid | pid in t.procs ensures ProcOk(t, t.procs[pid]) { StoreKeepsProc(s, name, c, s.procs[pid]); }
    forall b | b in t.resolved ensures Held(t, b) { assert Held(s, b); }
  }

  lemma CreateClassInv(s: State, name: string, finalizer: bool, others: set<string>)
    requires Inv(s) && name !in s.classes
    ensures Inv(ClassStep(s, CreateClass(name, finalizer, others)))
  {
    var t := ClassStep(s, CreateClass(name, finalizer, others));
    forall pid | pid in t.procs ensures ProcOk(t, t.procs[pid]) { assert ProcOk(s, s.procs[pid]); }
    forall b | b in t.resolved ensures Held(t, b) { assert Held(s, b); }
  }

  lemma CreateClaimInv(s: State, name: string)
    requires Inv(s)
    ensures Inv(ClassStep(s, CreateClaim(name)))
  {
    var t := ClassStep(s, CreateClaim(name));
    forall pid | pid in t.procs ensures ProcOk(t, t.procs[pid]) { assert ProcOk(s, s.procs[pid]); }
    forall b | b in t.resolved ensures Held(t, b) { assert Held(s, b); }
  }

  lemma RemoveClaimInv(s: State, claim: nat)
    requires Inv(s)
    ensures Inv(ClassStep(s, RemoveClaim(claim)))
  {
    var t := ClassStep(s, RemoveClaim(claim));
    forall pid | pid in t.procs ensures ProcOk(t, t.procs[pid]) { assert ProcOk(s, s.procs[pid]); }
    forall b | b in t.resolved ensures Held(t, b) { assert Held(s, b); }
  }

  lemma ClassStepInv(s: State, a: Action)
    requires Inv(s)
    ensures Inv(ClassStep(s, a))
  {
    match a
    case CreateClass(name, finalizer, others) => if name !in s.classes { CreateClassInv(s, name, finalizer, others); }
    case EditClass(name) => if name in s.classes { UserWrite(s, name, s.classes[name]); }
    case DeleteClass(name) => if name in s.classes { UserWrite(s, name, s.classes[name].(deleting := true)); }
    case DropOther(name, other) =>
      if name in s.classes { UserWrite(s, name, s.classes[name].(others := s.classes[name].others - {other})); }
    case CreateClaim(name) => CreateClaimInv(s, name);
    case RemoveClaim(claim) => RemoveClaimInv(s, claim);
    case _ =>
  }

  // Users and other controllers leave this provider's finalizer alone.
  lemma UserWrite(s: State, name: string, c: NodeClass)
    requires Inv(s) && name in s.classes
    requires c.uid == s.classes[name].uid && c.finalizer == s.classes[name].finalizer
             && c.status == s.classes[name].status
    requires s.classes[name].deleting ==> c.deleting
    ensures Inv(Store(s, name, c))
  {
    StoreKeepsInv(s, name, c);
  }

  lemma EndKeepsInv(s: State, pid: nat)
    requires Inv(s)
    ensures Inv(End(s, pid))
  {
    forall q | q in End(s, pid).procs
      ensures ProcOk(End(s, pid), End(s, pid).procs[q])
    {
      assert ProcOk(s, s.procs[q]);
    }
    forall b | b in s.resolved ensures Held(End(s, pid), b) { assert Held(s, b); }
  }

  lemma EnterKeepsInv(s: State, pid: nat, p: Proc)
    requires Inv(s) && ProcOk(s, p)
    ensures Inv(Enter(s, pid, p))
  {
    var t := Enter(s, pid, p);
    forall q | q in t.procs ensures ProcOk(t, t.procs[q]) { assert q != pid ==> ProcOk(s, s.procs[q]); }
    forall b | b in s.resolved ensures Held(t, b) { assert Held(s, b); }
  }

  lemma PatchFinalizerInv(s: State, pid: nat, delivery: Delivery)
    requires Inv(s)
    ensures Inv(StatusStep(s, PatchFinalizer(pid, delivery)))
  {
    EndKeepsInv(s, pid);
    if pid in s.procs && s.procs[pid].StatusRead? {
      var StatusRead(name, seen) := s.procs[pid];
      assert ProcOk(s, s.procs[pid]);
      if !delivery.Lost? && Current(s, name, seen) && !seen.deleting {
        var written := Store(s, name, seen.(finalizer := true));
        StoreKeepsInv(s, name, seen.(finalizer := true));
        EndKeepsInv(written, pid);
        EnterKeepsInv(written, pid, StatusReady(name, written.classes[name]));
      }
    }
  }

  lemma PatchStatusInv(s: State, pid: nat, findings: Findings, delivery: Delivery)
    requires Inv(s)
    ensures Inv(StatusStep(s, PatchStatus(pid, findings, delivery)))
  {
    EndKeepsInv(s, pid);
    if pid in s.procs && s.procs[pid].StatusReady? {
      var StatusReady(name, seen) := s.procs[pid];
      assert ProcOk(s, s.procs[pid]);
      if Current(s, name, seen) {
        var c := seen.(status := Apply(seen.status, findings));
        StoreKeepsInv(s, name, c);
        EndKeepsInv(Store(s, name, c), pid);
      }
    }
  }

  lemma StatusStepInv(s: State, a: Action)
    requires Inv(s)
    ensures Inv(StatusStep(s, a))
  {
    match a
    case BeginStatus(pid, name) =>
      EndKeepsInv(s, pid);
      if name in s.classes {
        var seen := s.classes[name];
        EnterKeepsInv(s, pid, if seen.finalizer then StatusReady(name, seen) else StatusRead(name, seen));
      }
    case PatchFinalizer(pid, delivery) => PatchFinalizerInv(s, pid, delivery);
    case PatchStatus(pid, findings, delivery) => PatchStatusInv(s, pid, findings, delivery);
    case _ =>
  }

  lemma TerminationStepInv(s: State, a: Action)
    requires Inv(s)
    ensures Inv(TerminationStep(s, a))
  {
    match a
    case BeginTermination(pid, name) =>
      EndKeepsInv(s, pid);
      if name in s.classes && s.classes[name].deleting && s.classes[name].finalizer {
        EnterKeepsInv(s, pid, TermRead(name, s.classes[name]));
      }
    case ListClaims(pid) =>
      EndKeepsInv(s, pid);
      if pid in s.procs && s.procs[pid].TermRead? {
        var TermRead(name, seen) := s.procs[pid];
        assert ProcOk(s, s.procs[pid]);
        if !ClassReferred(s, name) {
          forall b | b in s.resolved && b.name == name && b.class_ == seen.uid ensures b.claim !in s.claims {
            assert Held(s, b);
          }
          EnterKeepsInv(s, pid, TermEmpty(name, seen));
        }
      }
    case PatchRelease(pid, delivery) =>
      EndKeepsInv(s, pid);
      if pid in s.procs && s.procs[pid].TermEmpty? {
        var TermEmpty(name, seen) := s.procs[pid];
        assert ProcOk(s, s.procs[pid]);
        if Current(s, name, seen) {
          StoreKeepsInv(s, name, seen.(finalizer := false));
          EndKeepsInv(Store(s, name, seen.(finalizer := false)), pid);
        }
      }
    case _ =>
  }

  // The class that Create reads is live and ready, hence finalized.
  lemma ResolveInv(s: State, b: Binding)
    requires Inv(s) && b.claim in s.claims && s.claims[b.claim] == b.name && b.name in s.classes
             && s.classes[b.name].uid == b.class_
    requires !s.classes[b.name].deleting && Ready(s.classes[b.name].status) == Yes
    ensures Inv(s.(resolved := s.resolved + {b}))
  {
    var t := s.(resolved := s.resolved + {b});
    forall q | q in t.procs ensures ProcOk(t, t.procs[q]) { assert ProcOk(s, s.procs[q]); }
    forall c | c in t.resolved ensures Held(t, c) { assert c != b ==> Held(s, c); }
  }

  lemma LaunchInv(s: State, pid: nat)
    requires Inv(s) && pid in s.procs && s.procs[pid].Creating?
    ensures Inv(s.(launched := s.launched + {s.procs[pid].binding}))
  {
    assert ProcOk(s, s.procs[pid]);
    var t := s.(launched := s.launched + {s.procs[pid].binding});
    forall q | q in t.procs ensures ProcOk(t, t.procs[q]) { assert ProcOk(s, s.procs[q]); }
    forall b | b in t.resolved ensures Held(t, b) { assert Held(s, b); }
  }

  lemma CreateStepInv(s: State, a: Action)
    requires Inv(s)
    ensures Inv(CreateStep(s, a))
  {
    match a
    case BeginCreate(pid, claim) =>
      EndKeepsInv(s, pid);
      if claim in s.claims && s.claims[claim] in s.classes {
        var name := s.claims[claim];
        if !s.classes[name].deleting && Ready(s.classes[name].status) == Yes {
          var b := Binding(claim, name, s.classes[name].uid);
          ResolveInv(s, b);
          EnterKeepsInv(s.(resolved := s.resolved + {b}), pid, Creating(b));
        }
      }
    case Launch(pid, accepted) =>
      EndKeepsInv(s, pid);
      if pid in s.procs && s.procs[pid].Creating? {
        LaunchInv(s, pid);
        EndKeepsInv(s.(launched := s.launched + {s.procs[pid].binding}), pid);
      }
    case Crash(pid) => EndKeepsInv(s, pid);
    case _ =>
  }

  lemma StepInv(s: State, a: Action)
    requires Inv(s)
    ensures Inv(Step(s, a))
  {
    ClassStepInv(s, a);
    StatusStepInv(s, a);
    TerminationStepInv(s, a);
    CreateStepInv(s, a);
  }

  lemma {:induction false} RunInv(run: seq<Action>)
    ensures Inv(Run(run))
  {
    if run != [] {
      RunInv(run[..|run| - 1]);
      StepInv(Run(run[..|run| - 1]), run[|run| - 1]);
    }
  }

  // In every interleaving: as long as a claim that was launched still exists,
  // the very class object it was launched from still exists under its name,
  // with the termination finalizer on it.
  lemma LaunchedClaimsKeepTheirClass(run: seq<Action>, b: Binding)
    requires b in Run(run).launched && b.claim in Run(run).claims
    ensures var s := Run(run);
            b.name in s.classes && s.classes[b.name].uid == b.class_ && s.classes[b.name].finalizer
  {
    RunInv(run);
    assert Held(Run(run), b);
  }

  // No class is ever ready, short of being deleted, without the finalizer.
  lemma ReadyImpliesFinalizer(run: seq<Action>, name: string)
    requires name in Run(run).classes && !Run(run).classes[name].deleting
    requires Run(run).classes[name].status == Status(Yes, Yes, Yes)
    ensures Run(run).classes[name].finalizer
  {
    RunInv(run);
  }

  // Step n is a Create of b's claim that reads the live class object of b with
  // all three conditions true.
  ghost predicate ReadReady(run: seq<Action>, n: nat, b: Binding)
    requires n < |run|
  {
    var s := Run(run[..n]);
    && (exists pid :: run[n] == BeginCreate(pid, b.claim))
    && b.claim in s.claims && s.claims[b.claim] == b.name && b.name in s.classes
    && s.classes[b.name].uid == b.class_ && !s.classes[b.name].deleting
    && s.classes[b.name].status == Status(Yes, Yes, Yes)
  }

  // In every interleaving: what Create lets through was read from a class whose
  // images, subnets and security groups were all ready at that moment.
  lemma {:induction false} ResolvedWasReady(run: seq<Action>, b: Binding)
    requires b in Run(run).resolved
    ensures exists n :: 0 <= n < |run| && ReadReady(run, n, b)
  {
    var last := |run| - 1;
    var s := Run(run[..last]);
    if b in s.resolved {
      ResolvedWasReady(run[..last], b);
      var n :| 0 <= n < last && ReadReady(run[..last], n, b);
      assert run[..last][..n] == run[..n];
      assert ReadReady(run, n, b);
    } else {
      ResolvedByCreate(s, run[last], b);
      assert ReadReady(run, last, b);
    }
  }

  lemma ResolvedByCreate(s: State, a: Action, b: Binding)
    requires b in Step(s, a).resolved && b !in s.resolved
    ensures a.BeginCreate? && a.claim == b.claim && b.claim in s.claims && s.claims[b.claim] == b.name
    ensures b.name in s.classes && s.classes[b.name].uid == b.class_ && !s.classes[b.name].deleting
    ensures s.classes[b.name].status == Status(Yes, Yes, Yes)
  {
  }

  // Every launch was let through by such a read.
  lemma LaunchedWasReady(run: seq<Action>, b: Binding)
    requires b in Run(run).launched
    ensures exists n :: 0 <= n < |run| && ReadReady(run, n, b)
  {
    RunInv(run);
    ResolvedWasReady(run, b);
  }

  // The other direction: a class that is being deleted and that no claim refers
  // to is let go by one undisturbed reconcile, and goes unless someone else
  // holds it.
  lemma UnusedClassReleased(s: State, pid: nat, name: string)
    requires name in s.classes && s.classes[name].deleting && s.classes[name].finalizer
    requires forall c :: c in s.claims ==> s.claims[c] != name
    ensures var t := Step(Step(Step(s, BeginTermination(pid, name)), ListClaims(pid)), PatchRelease(pid, Done));
            if s.classes[name].others == {} then name !in t.classes
            else name in t.classes && t.classes[name].uid == s.classes[name].uid && !t.classes[name].finalizer
  {
    var s1 := Step(s, BeginTermination(pid, name));
    assert s1.claims == s.claims && s1.classes == s.classes;
    assert !ClassReferred(s1, name);
    var s2 := Step(s1, ListClaims(pid));
    assert s2.procs[pid] == TermEmpty(name, s.classes[name]) && s2.classes == s.classes;
  }

  // ---- the controllers as programs over the shared cluster --------------------------------

  function Pid(a: Action): Option<nat> {
    match a
    case BeginStatus(pid, _) => Some(pid)
    case PatchFinalizer(pid, _) => Some(pid)
    case PatchStatus(pid, _, _) => Some(pid)
    case BeginTermination(pid, _) => Some(pid)
    case ListClaims(pid) => Some(pid)
    case PatchRelease(pid, _) => Some(pid)
    case BeginCreate(pid, _) => Some(pid)
    case Launch(pid, _) => Some(pid)
    case Crash(pid) => Some(pid)
    case _ => None
  }

  // Steps of everyone else.
  predicate Foreign(others: seq<Action>, pid: nat) {
    forall a :: a in others ==> Pid(a) != Some(pid)
  }

  // A step of another process leaves this one's alone.
  ghost predicate LeavesProc(s: State, t: State, pid: nat) {
    (pid in t.procs <==> pid in s.procs) && (pid in s.procs ==> t.procs[pid] == s.procs[pid])
  }

  lemma ForeignClassStep(s: State, a: Action, pid: nat)
    ensures LeavesProc(s, ClassStep(s, a), pid)
  {
  }

  lemma ForeignStatusStep(s: State, a: Action, pid: nat)
    requires Pid(a) != Some(pid)
    ensures LeavesProc(s, StatusStep(s, a), pid)
  {
  }

  lemma ForeignTerminationStep(s: State, a: Action, pid: nat)
    requires Pid(a) != Some(pid)
    ensures LeavesProc(s, TerminationStep(s, a), pid)
  {
  }

  lemma ForeignCreateStep(s: State, a: Action, pid: nat)
    requires Pid(a) != Some(pid)
    ensures LeavesProc(s, CreateStep(s, a), pid)
  {
  }

  lemma ForeignStep(s: State, a: Action, pid: nat)
    requires Pid(a) != Some(pid)
    ensures LeavesProc(s, Step(s, a), pid)
  {
    ForeignClassStep(s, a, pid);
    ForeignStatusStep(s, a, pid);
    ForeignTerminationStep(s, a, pid);
    ForeignCreateStep(s, a, pid);
  }

  class Cluster {
    var state: State
    ghost var history: seq<Action>

    // Whatever has happened is a run of the protocol.
    ghost predicate Valid()
      reads this
    {
      state == Run(history)
    }

    constructor ()
      ensures Valid() && history == []
    {
      state, history := INIT, [];
    }

    method Perform(a: Action)
      requires Valid()
      modifies this
      ensures Valid() && history == old(history) + [a] && state == Step(old(state), a)
    {
      assert (history + [a])[..|history|] == history;
      state := Step(state, a);
      history := history + [a];
    }

    // Time for everyone else between two of a controller's API calls.
    method Interfere(others: seq<Action>, pid: nat)
      requires Valid() && Foreign(others, pid)
      modifies this
      ensures Valid() && history == old(history) + others
      ensures pid in old(state).procs ==> pid in state.procs && state.procs[pid] == old(state).procs[pid]
      ensures others == [] ==> state == old(state)
    {
      for i := 0 to |others|
        invariant Valid() && history == old(history) + others[..i]
        invariant pid in old(state).procs ==> pid in state.procs && state.procs[pid] == old(state).procs[pid]
        invariant i == 0 ==> state == old(state)
      {
        assert others[i] in others;
        ForeignStep(state, others[i], pid);
        Perform(others[i]);
        assert others[..i + 1] == others[..i] + [others[i]];
      }
    }
  }

  datatype Result = Settled | Requeue | RequeueInTenMinutes | Error

  class TerminationController {
    const cluster: Cluster

    constructor (cluster: Cluster)
      ensures this.cluster == cluster
    {
      this.cluster := cluster;
    }

    // Reconcile and finalize. Undisturbed, it releases the class exactly when
    // no claim refers to it; under any interference it is a run of the protocol.
    method Reconcile(pid: nat, name: string, afterRead: seq<Action>, listed: bool, afterList: seq<Action>,
                     delivery: Delivery)
      returns (r: Result)
      requires cluster.Valid() && Foreign(afterRead, pid) && Foreign(afterList, pid)
      modifies cluster
      ensures cluster.Valid() && old(cluster.history) <= cluster.history
      ensures r == RequeueInTenMinutes && afterRead == [] ==>
                && (exists c :: c in old(cluster.state).claims && old(cluster.state).claims[c] == name)
                && cluster.state.classes == old(cluster.state).classes
      ensures name in old(cluster.state).classes && old(cluster.state).classes[name].deleting
              && old(cluster.state).classes[name].finalizer
              && (forall c :: c in old(cluster.state).claims ==> old(cluster.state).claims[c] != name)
              && afterRead == [] && listed && afterList == [] && delivery == Done ==>
                && r == Settled
                && (name in cluster.state.classes ==> !cluster.state.classes[name].finalizer)
                && (name in cluster.state.classes <==> old(cluster.state).classes[name].others != {})
    {
      cluster.Perform(BeginTermination(pid, name));
      if pid !in cluster.state.procs {
        return Settled;  // gone, not deleting, or already released
      }
      cluster.Interfere(afterRead, pid);
      r := Finalize(pid, name, listed, afterList, delivery);
    }

    // listed says whether the API answers the listing of claims.
    method Finalize(pid: nat, name: string, listed: bool, afterList: seq<Action>, delivery: Delivery)
      returns (r: Result)
      requires cluster.Valid() && Foreign(afterList, pid)
      requires pid in cluster.state.procs && cluster.state.procs[pid].TermRead? && cluster.state.procs[pid].name == name
      modifies cluster
      ensures cluster.Valid() && old(cluster.history) <= cluster.history
      ensures r == RequeueInTenMinutes <==>
              listed && exists c :: c in old(cluster.state).claims && old(cluster.state).claims[c] == name
      ensures !listed ==> r == Error
      ensures !listed || r == RequeueInTenMinutes ==> cluster.state.classes == old(cluster.state).classes
      ensures var c := old(cluster.state).procs[pid].seen;
              listed && (forall c :: c in old(cluster.state).claims ==> old(cluster.state).claims[c] != name)
              && afterList == [] && delivery == Done && Current(old(cluster.state), name, c) && c.deleting ==>
                && r == Settled
                && (name in cluster.state.classes ==> !cluster.state.classes[name].finalizer)
                && (name in cluster.state.classes <==> c.others != {})
    {
      var nodeClass := cluster.state.procs[pid].seen;
      if !listed {
        return Error;
      }
      cluster.Perform(ListClaims(pid));
      if pid !in cluster.state.procs {
        return RequeueInTenMinutes;
      }
      cluster.Interfere(afterList, pid);
      r := Release(pid, name, nodeClass, delivery);
    }

    method Release(pid: nat, name: string, nodeClass: NodeClass, delivery: Delivery) returns (r: Result)
      requires cluster.Valid() && pid in cluster.state.procs && cluster.state.procs[pid] == TermEmpty(name, nodeClass)
      modifies cluster
      ensures cluster.Valid() && cluster.history == old(cluster.history) + [PatchRelease(pid, delivery)]
      ensures r != RequeueInTenMinutes
      ensures delivery == Done && Current(old(cluster.state), name, nodeClass) ==>
                && r == Settled
                && (name in cluster.state.classes <==> !nodeClass.deleting || nodeClass.others != {})
                && (name in cluster.state.classes ==> !cluster.state.classes[name].finalizer)
    {
      var conflict := name in cluster.state.classes && !Current(cluster.state, name, nodeClass);
      cluster.Perform(PatchRelease(pid, delivery));
      r := if delivery != Done then Error else if conflict then Requeue else Settled;
    }
  }

  // The class read by a status reconcile is still the one stored, and live.
  predicate Reading(s: State, pid: nat, name: string, c: NodeClass) {
    && pid in s.procs && (s.procs[pid].StatusRead? || s.procs[pid].StatusReady?)
    && (s.procs[pid].StatusReady? <==> c.finalizer)
    && s.procs[pid].name == name && s.procs[pid].seen == c && Current(s, name, c) && !c.deleting
  }

  lemma FinalizerPatched(s: State, pid: nat, name: string, c: NodeClass)
    requires Reading(s, pid, name, c) && !c.finalizer
    ensures Reading(Step(s, PatchFinalizer(pid, Done)), pid, name, c.(finalizer := true, rv := s.next))
  {
  }

  lemma ConditionsPatched(s: State, pid: nat, name: string, c: NodeClass, findings: Findings)
    requires Reading(s, pid, name, c) && s.classes[name] == c && c.finalizer
    ensures var t := Step(s, PatchStatus(pid, findings, Done));
            name in t.classes && t.classes[name] == c.(status := Apply(c.status, findings), rv := t.classes[name].rv)
  {
  }

  class StatusController {
    const cluster: Cluster

    constructor (cluster: Cluster)
      ensures this.cluster == cluster
    {
      this.cluster := cluster;
    }

    // Reconcile. Undisturbed on a live class, it leaves the finalizer and the
    // conditions the sub-reconcilers found.
    method Reconcile(pid: nat, name: string, findings: Findings, afterRead: seq<Action>, afterPatch: seq<Action>,
                     first: Delivery, second: Delivery)
      returns (r: Result)
      requires cluster.Valid() && Foreign(afterRead, pid) && Foreign(afterPatch, pid)
      modifies cluster
      ensures cluster.Valid() && old(cluster.history) <= cluster.history
      ensures name in old(cluster.state).classes && !old(cluster.state).classes[name].deleting
              && afterRead == [] && afterPatch == [] && first == Done && second == Done ==>
                && r == (if Complete(findings) then Settled else Error) && name in cluster.state.classes
                && cluster.state.classes[name].uid == old(cluster.state).classes[name].uid
                && cluster.state.classes[name].finalizer
                && var was, now := old(cluster.state).classes[name].status, cluster.state.classes[name].status;
                && now.images == (if findings.images.Some? then findings.images.value else was.images)
                && now.subnets == (if findings.subnets.Some? then findings.subnets.value else was.subnets)
                && now.securityGroups == (if findings.securityGroups.Some? then findings.securityGroups.value
                                          else was.securityGroups)
    {
      var found := Begin(pid, name);
      if !found {
        return Settled;
      }
      cluster.Interfere(afterRead, pid);
      var early := AddFinalizer(pid, name, first);
      if early.Some? {
        return early.value;
      }
      cluster.Interfere(afterPatch, pid);
      r := PatchConditions(pid, name, findings, second);
    }

    method Begin(pid: nat, name: string) returns (found: bool)
      requires cluster.Valid()
      modifies cluster
      ensures cluster.Valid() && old(cluster.history) <= cluster.history
              && cluster.state.classes == old(cluster.state).classes
      ensures found <==> name in cluster.state.classes
      ensures found ==> pid in cluster.state.procs && AtFinalizer(cluster.state.procs[pid], name)
      ensures found && !cluster.state.classes[name].deleting ==>
              Reading(cluster.state, pid, name, cluster.state.classes[name])
    {
      cluster.Perform(BeginStatus(pid, name));
      found := pid in cluster.state.procs;
    }

    // The finalizer is persisted before anything else; Some means the reconcile
    // ends here.
    method AddFinalizer(pid: nat, name: string, delivery: Delivery) returns (early: Option<Result>)
      requires cluster.Valid() && pid in cluster.state.procs && AtFinalizer(cluster.state.procs[pid], name)
      modifies cluster
      ensures cluster.Valid() && old(cluster.history) <= cluster.history
      ensures cluster.state == if old(cluster.state).procs[pid].seen.finalizer then old(cluster.state)
                               else Step(old(cluster.state), PatchFinalizer(pid, delivery))
      ensures early.None? <==> pid in cluster.state.procs
      ensures early.None? ==> cluster.state.procs[pid].StatusReady? && cluster.state.procs[pid].name == name
      ensures var c := old(cluster.state).procs[pid].seen;
              delivery == Done && Reading(old(cluster.state), pid, name, c) && old(cluster.state).classes[name] == c ==>
                early.None? && exists rv :: Reading(cluster.state, pid, name, c.(finalizer := true, rv := rv))
                                            && cluster.state.classes[name] == c.(finalizer := true, rv := rv)
    {
      early := None;
      var nodeClass := cluster.state.procs[pid].seen;
      if !nodeClass.finalizer {
        if delivery == Done && Reading(cluster.state, pid, name, nodeClass) {
          FinalizerPatched(cluster.state, pid, name, nodeClass);
        }
        var conflict := name in cluster.state.classes && !Current(cluster.state, name, nodeClass);
        cluster.Perform(PatchFinalizer(pid, delivery));
        if pid !in cluster.state.procs {
          early := Some(if conflict && delivery == Done then Requeue else Error);
        }
      } else {
        assert nodeClass == nodeClass.(finalizer := true, rv := nodeClass.rv);
      }
    }

    predicate AtFinalizer(p: Proc, name: string) {
      (p.StatusRead? || p.StatusReady?) && p.name == name && (p.StatusReady? <==> p.seen.finalizer)
    }

    method PatchConditions(pid: nat, name: string, findings: Findings, delivery: Delivery) returns (r: Result)
      requires cluster.Valid() && pid in cluster.state.procs && cluster.state.procs[pid].StatusReady?
      modifies cluster
      ensures cluster.Valid() && cluster.history == old(cluster.history) + [PatchStatus(pid, findings, delivery)]
      ensures cluster.state == Step(old(cluster.state), PatchStatus(pid, findings, delivery))
      ensures var c := old(cluster.state).procs[pid].seen;
              delivery == Done && Reading(old(cluster.state), pid, name, c) && old(cluster.state).classes[name] == c
                && c.finalizer ==>
                && r == (if Complete(findings) then Settled else Error) && name in cluster.state.classes
                && cluster.state.classes[name]
                   == c.(status := Apply(c.status, findings), rv := cluster.state.classes[name].rv)
    {
      var nodeClass := cluster.state.procs[pid].seen;
      if Reading(cluster.state, pid, name, nodeClass) && cluster.state.classes[name] == nodeClass
        && nodeClass.finalizer {
        ConditionsPatched(cluster.state, pid, name, nodeClass, findings);
      }
      var stale := name in cluster.state.classes && !Current(cluster.state, name, nodeClass);
      var writes := Changes(nodeClass, findings);
      cluster.Perform(PatchStatus(pid, findings, delivery));
      r := if writes && delivery != Done then Error
           else if writes && stale then Requeue
           else if !Complete(findings) then Error else Settled;
    }
  }

  lemma CreateBegun(s: State, pid: nat, claim: nat)
    requires claim in s.claims && s.claims[claim] in s.classes && !s.classes[s.claims[claim]].deleting
    requires Ready(s.classes[s.claims[claim]].status) == Yes
    ensures var t := Step(s, BeginCreate(pid, claim));
            && pid in t.procs && t.launched == s.launched
            && t.procs[pid] == Creating(Binding(claim, s.claims[claim], s.classes[s.claims[claim]].uid))
  {
  }

  lemma CreateLaunched(s: State, pid: nat, b: Binding, accepted: bool)
    requires pid in s.procs && s.procs[pid] == Creating(b)
    ensures Step(s, Launch(pid, accepted)).launched == if accepted then s.launched + {b} else s.launched
  {
  }

  // How many instance types are found for the claim, or an error.
  datatype Resolution = Types(count: nat) | ResolveFailed

  datatype CreateResult =
    | Created | NodeClassGone | NotReady | ReadinessUnknown | ResolutionFailed | NoInstanceTypes | LaunchFailed

  class CloudProvider {
    const cluster: Cluster

    constructor (cluster: Cluster)
      ensures this.cluster == cluster
    {
      this.cluster := cluster;
    }

    // Create: a deleting class counts as not found, only a ready class is
    // launched from, and only if there are types to launch.
    method Create(pid: nat, claim: nat, resolution: Resolution, beforeLaunch: seq<Action>, accepted: bool)
      returns (r: CreateResult)
      requires cluster.Valid() && Foreign(beforeLaunch, pid) && claim in cluster.state.claims
      modifies cluster
      ensures cluster.Valid() && old(cluster.history) <= cluster.history
      ensures var s, name := old(cluster.state), old(cluster.state).claims[claim];
              r == NodeClassGone <==> name !in s.classes || s.classes[name].deleting
      ensures r != NodeClassGone ==>
                var c := old(cluster.state).classes[old(cluster.state).claims[claim]].status;
                && (r == NotReady <==> c.images == No || c.subnets == No || c.securityGroups == No)
                && (r == ReadinessUnknown <==>
                    No !in {c.images, c.subnets, c.securityGroups}
                    && Unknown in {c.images, c.subnets, c.securityGroups})
                && (r == ResolutionFailed <==> c == Status(Yes, Yes, Yes) && resolution.ResolveFailed?)
                && (r == NoInstanceTypes <==> c == Status(Yes, Yes, Yes) && resolution == Types(0))
                && (r == Created <==>
                    c == Status(Yes, Yes, Yes) && resolution.Types? && resolution.count > 0 && accepted)
      ensures r in {NodeClassGone, NotReady, ReadinessUnknown} ==> cluster.state == old(cluster.state)
      ensures r == Created ==>
                var name := old(cluster.state).claims[claim];
                Binding(claim, name, old(cluster.state).classes[name].uid) in cluster.state.launched
      ensures r != Created && beforeLaunch == [] ==> cluster.state.launched == old(cluster.state).launched
    {
      var name := cluster.state.claims[claim];
      if name !in cluster.state.classes || cluster.state.classes[name].deleting {
        return NodeClassGone;
      }
      var readiness := Ready(cluster.state.classes[name].status);
      if readiness == No {
        return NotReady;
      }
      if readiness == Unknown {
        return ReadinessUnknown;
      }
      ghost var b := Binding(claim, name, cluster.state.classes[name].uid);
      CreateBegun(cluster.state, pid, claim);
      cluster.Perform(BeginCreate(pid, claim));
      cluster.Interfere(beforeLaunch, pid);
      if resolution.ResolveFailed? {
        return ResolutionFailed;
      }
      if resolution.count == 0 {
        return NoInstanceTypes;
      }
      CreateLaunched(cluster.state, pid, b, accepted);
      cluster.Perform(Launch(pid, accepted));
      r := if accepted then Created else LaunchFailed;
    }
  }
}
