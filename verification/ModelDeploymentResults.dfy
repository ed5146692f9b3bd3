/** The results about ModelDeployment that hold of every run. */
module ModelDeploymentResults {
  import opened Api
  import opened Kubernetes
  import opened Conditions
  import opened ModelDeploymentProtocol
  import opened ModelDeploymentSafety

  /* ---- No committed edit is lost ---- */

  /** Whatever races - any number of commands, the reconciler's finalizer and status writes, deletes, crashes - the
      stored spec is the created one with the committed commands applied in commit order, and each committed promote
      or rollback found a canary. */
  lemma EditsAreNeverLost(actions: seq<Action>, name: string)
    ensures var s := Run(actions);
            name in s.store ==>
              && name in s.ledgers
              && s.store[name].spec == Fold(s.ledgers[name].origin, s.ledgers[name].commits)
              && Legal(s.ledgers[name].origin, s.ledgers[name].commits)
  {
    RunsKeepInv(actions);
  }

  predicate Succeeds(s: State, id: nat) { id in s.sessions && Current(s, s.sessions[id].name, s.sessions[id].md) }

  /** What each command makes of a spec. */
  ghost predicate Changes(c: Command, before: Spec, after: Spec) {
    match c
    case SetCanary(target, weight) =>
      after == before.(canary := Some(Canary(target, weight, Resources(0, "", ""))))
    case Promote =>
      before.canary.Some? && after == before.(source := before.canary.value.source, canary := None)
    case Rollback => before.canary.Some? && after == before.(canary := None)
    case Scale(replicas) => after == before.(replicas := Some(replicas))
    case Edit(spec) => after == spec
  }

  /** A commit acts on the spec that is stored when it lands, not on the copy it was computed from: rollback drops the
      canary present at that moment and promote moves it in, where there is one, scale and canary set their own field to
      their own argument. Nothing but the spec of that one object changes, and the ledger records it. */
  lemma CommitActsOnTheStoredSpec(actions: seq<Action>, id: nat)
    ensures var s := Run(actions);
            var t := Run(actions + [Commit(id, true)]);
            if !Succeeds(s, id) then t.store == s.store && t.ledgers == s.ledgers
            else
              var name, c := s.sessions[id].name, s.sessions[id].command;
              var before := s.store[name];
              && name in s.ledgers && name in t.ledgers
              && t.ledgers == s.ledgers[name := s.ledgers[name].(commits := s.ledgers[name].commits + [c])]
              && (name in t.store ==>
                    && Changes(c, before.spec, t.store[name].spec)
                    && t.store[name].(spec := before.spec, generation := before.generation,
                                      resourceVersion := before.resourceVersion) == before)
              && t.store - {name} == s.store - {name}
  {
    RunsKeepInv(actions);
    ContinueAppend(Init(), actions, [Commit(id, true)]);
    assert Continue(Run(actions), [Commit(id, true)]) == Apply(Run(actions), Commit(id, true));
    if Succeeds(Run(actions), id) { CommitStep(Run(actions), id); }
  }

  lemma CommitStep(s: State, id: nat)
    requires VersionInv(s) && LedgerInv(s) && Succeeds(s, id)
    ensures var t := ApplyCommit(s, id, true);
            var name, c := s.sessions[id].name, s.sessions[id].command;
            var before := s.store[name];
            && name in t.ledgers
            && t.ledgers == s.ledgers[name := s.ledgers[name].(commits := s.ledgers[name].commits + [c])]
            && (name in t.store ==>
                  && Changes(c, before.spec, t.store[name].spec)
                  && t.store[name].(spec := before.spec, generation := before.generation,
                                    resourceVersion := before.resourceVersion) == before)
            && t.store - {name} == s.store - {name}
  {
  }

  /* ---- What commands do to each other ---- */

  lemma FoldTwo(origin: Spec, commits: seq<Command>, a: Command, b: Command)
    ensures Fold(origin, commits + [a, b]) == Execute(b, Execute(a, Fold(origin, commits)))
  {
    assert (commits + [a, b])[..|commits| + 1] == commits + [a];
    assert (commits + [a])[..|commits|] == commits;
  }

  /** Whatever was committed before: a canary that is rolled back leaves a spec that had none as it was, and one that is
      promoted leaves its target as the source. */
  lemma CanaryIsUndoneOrTakenOver(origin: Spec, commits: seq<Command>, target: string, weight: int)
    ensures var before := Fold(origin, commits);
            && Fold(origin, commits + [SetCanary(target, weight), Rollback]) == before.(canary := None)
            && Fold(origin, commits + [SetCanary(target, weight), Promote]) == before.(source := target, canary := None)
            && (before.canary.None? ==> Fold(origin, commits + [SetCanary(target, weight), Rollback]) == before)
  {
    FoldTwo(origin, commits, SetCanary(target, weight), Rollback);
    FoldTwo(origin, commits, SetCanary(target, weight), Promote);
  }

  /** Without an edit, commands change the source, the replicas and the canary only; the replicas by scale alone, and
      the source to a canary's that was the object's from the start or set by one of them. */
  lemma {:induction false} CommandsTouchOnly(origin: Spec, commits: seq<Command>)
    requires forall c :: c in commits ==> !c.Edit?
    ensures var spec := Fold(origin, commits);
            && spec.(source := origin.source, replicas := origin.replicas, canary := origin.canary) == origin
            && ((forall c :: c in commits ==> !c.Scale?) ==> spec.replicas == origin.replicas)
            && ((forall c :: c in commits ==> !c.Promote?) ==> spec.source == origin.source)
            && (forall x :: (spec.source == x || (spec.canary.Some? && spec.canary.value.source == x)) ==>
                  Offered(origin, commits, x))
  {
    if commits != [] {
      var init, last := commits[..|commits| - 1], commits[|commits| - 1];
      CommandsTouchOnly(origin, init);
      assert commits == init + [last];
      forall x | Offered(origin, init, x) ensures Offered(origin, commits, x) {}
      var before, spec := Fold(origin, init), Fold(origin, commits);
      assert last.SetCanary? ==> Offered(origin, commits, last.target);
      assert before.canary.Some? ==> Offered(origin, init, before.canary.value.source);
    }
  }

  // A source somebody asked for: the object's own, its first canary's, or the target of a canary command.
  ghost predicate Offered(origin: Spec, commits: seq<Command>, source: string) {
    || source == origin.source || (origin.canary.Some? && source == origin.canary.value.source)
    || exists c :: c in commits && c.SetCanary? && c.target == source
  }

  /** The replicas are those of the last scale, unless the whole spec was edited since. */
  lemma {:induction false} LastScaleWins(origin: Spec, past: seq<Command>, replicas: int, later: seq<Command>)
    requires forall c :: c in later ==> !c.Scale? && !c.Edit?
    ensures Fold(origin, past + [Scale(replicas)] + later).replicas == Some(replicas)
  {
    var all := past + [Scale(replicas)] + later;
    if later == [] {
      assert all == past + [Scale(replicas)] && all[..|all| - 1] == past;
    } else {
      var n := |later| - 1;
      assert all[..|all| - 1] == past + [Scale(replicas)] + later[..n] && all[|all| - 1] == later[n];
      LastScaleWins(origin, past, replicas, later[..n]);
    }
  }

  /** Of two commands that fetched the same version, the one that commits a change first wins: the other is refused. */
  lemma SecondCommitIsRefused(actions: seq<Action>, first: nat, second: nat)
    requires var s := Run(actions);
             && first != second && Succeeds(s, first) && Succeeds(s, second)
             && s.sessions[first].name == s.sessions[second].name
             && Execute(s.sessions[first].command, s.sessions[first].md.spec) != s.sessions[first].md.spec
    ensures var t := Apply(Run(actions), Commit(first, true));
            Apply(t, Commit(second, true)).store == t.store
  {
    RunsKeepInv(actions);
  }

  /** Which commands the webhook admits on a valid spec: every promote and rollback, a scale to a non-negative count, a
      canary with a source and a weight in range. So a valid spec can always be promoted or rolled back to a valid
      one. */
  lemma CommandsOnValidSpecs(spec: Spec, c: Command)
    requires Validate(spec).None? && Allowed(c, spec) && !c.Edit?
    ensures Validate(Execute(c, spec)).None? <==>
            (c.SetCanary? ==> c.target != "" && 0 <= c.weight <= 100) && (c.Scale? ==> c.replicas >= 0)
  {
    ValidateAdmitsTheValid(spec);
    ValidateAdmitsTheValid(Execute(c, spec));
  }

  /* ---- What one reconcile reports ---- */

  predicate Reaches(spec: Spec, ready: int) {
    var desired := if spec.replicas.Some? then spec.replicas.value else 1; ready >= desired && desired > 0
  }

  function StatusRound(ready: int, total: int): seq<Action> {
    [EnsureChildren(true, ready, total), Refetch(true), WriteStatus(true)]
  }

  // The status that counts these replicas of an object.
  ghost predicate Reported(md: ModelDeployment, ready: int, total: int, status: Status) {
    && (status.phase == Ready <==> Reaches(md.spec, ready))
    && (status.phase == Degraded <==> ready > 0 && !Reaches(md.spec, ready))
    && (status.phase == Deploying <==> ready <= 0)
    && status.readyReplicas == ready && status.totalReplicas == total
    && var reason := if Reaches(md.spec, ready) then "AllReplicasReady" else "ReplicasNotReady";
       AsMap(status.conditions) ==
       AsMap(md.status.conditions)["Ready" := Condition("Ready", Reaches(md.spec, ready), reason, md.generation)]
  }

  lemma Computed(md: ModelDeployment, ready: int, total: int)
    ensures Reported(md, ready, total, StatusOf(md, ready, total))
  {
    var phase := PhaseOf(md.spec, ready);
    SetIsMapUpdate(md.status.conditions, Condition("Ready", phase == Ready,
                   if phase == Ready then "AllReplicasReady" else "ReplicasNotReady", md.generation));
  }

  lemma ComputesAndRefetches(s: State, ready: int, total: int)
    requires s.r.pc.Children? && s.r.name in s.store
    ensures var status := StatusOf(s.r.md, ready, total);
            Continue(s, StatusRound(ready, total)[..2])
            == s.(r := Local(Writing, s.r.name, s.store[s.r.name].(status := status)))
  {
    var acts := StatusRound(ready, total)[..2];
    ContinueHead(s, acts);
    ContinueHead(Apply(s, acts[0]), acts[1..]);
  }

  lemma StatusRoundIs(s: State, ready: int, total: int)
    requires s.r.pc.Children? && Held(s, s.r.name)
    ensures var name, status := s.r.name, StatusOf(s.r.md, ready, total);
            var written := StatusUpdated(s.store[name], status, s.clock);
            Continue(s, StatusRound(ready, total))
            == s.(store := s.store[name := written], clock := s.clock + 1, reported := s.reported[name := s.held],
                  r := Local(if status.phase == Ready then Registering else Idle, name, written))
  {
    var acts := StatusRound(ready, total);
    ContinueAppend(s, acts[..2], acts[2..]);
    assert acts[..2] + acts[2..] == acts;
    ComputesAndRefetches(s, ready, total);
    ContinueHead(Continue(s, acts[..2]), acts[2..]);
  }

  /** With nothing in between, what is stored after the children are ensured: Ready exactly when the ready replicas
      reach the positive number the spec at hand asks for, one if it says nothing, Degraded when some are ready and not
      that, Deploying when none is; the counts and the condition with it; and registration follows Ready alone. */
  lemma StatusIsReported(s: State, ready: int, total: int)
    requires s.r.pc.Children? && Held(s, s.r.name)
    ensures var t, name := Continue(s, StatusRound(ready, total)), s.r.name;
            && Held(t, name) && Reported(s.r.md, ready, total, t.store[name].status)
            && t.store[name].spec == s.store[name].spec && t.store - {name} == s.store - {name}
            && t.gateway == s.gateway && t.r.name == name
            && t.r.pc == if Reaches(s.r.md.spec, ready) then Registering else Idle
  {
    Computed(s.r.md, ready, total);
    StatusRoundIs(s, ready, total);
  }

  lemma RegistersWhenReady(s: State)
    ensures var t := Continue(s, [Register(true)]);
            && t.store == s.store && t.r.pc == (if s.r.pc.Registering? then Idle else s.r.pc)
            && t.gateway == if s.r.pc.Registering? then s.gateway + {s.r.name} else s.gateway
  {
    ContinueHead(s, [Register(true)]);
  }

  function FetchRound(name: string): seq<Action> { [Fetch(name, true), AddFinalizer(true)] }

  lemma FetchHolds(s: State, name: string)
    requires s.r.pc.Idle? && name in s.store && !s.store[name].deleting
    ensures var t := Continue(s, FetchRound(name));
            && t.r.pc.Children? && t.r.name == name && Held(t, name) && t.r.md == t.store[name]
            && t.store[name].spec == s.store[name].spec && t.store[name].generation == s.store[name].generation
            && t.store[name].status == s.store[name].status
            && t.store[name].finalizers == s.store[name].finalizers + {FINALIZER}
            && t.store - {name} == s.store - {name} && t.gateway == s.gateway
  {
    ContinueHead(s, FetchRound(name));
    ContinueHead(Apply(s, Fetch(name, true)), FetchRound(name)[1..]);
  }

  /** A whole fault-free reconcile of an object nobody asked to delete, from any state: the finalizer is there, the
      status counts the replicas against the stored spec, nothing else moved, and the name is registered exactly when
      it was or the model is Ready. */
  lemma LiveReconcile(s: State, name: string, ready: int, total: int)
    requires s.r.pc.Idle? && name in s.store && !s.store[name].deleting
    ensures var t := Continue(s, FetchRound(name) + (StatusRound(ready, total) + [Register(true)]));
            && t.r.pc.Idle? && Held(t, name) && t.store[name].spec == s.store[name].spec
            && Reported(s.store[name], ready, total, t.store[name].status)
            && t.store - {name} == s.store - {name} && t.gateway - {name} == s.gateway - {name}
            && (name in t.gateway <==> name in s.gateway || Reaches(s.store[name].spec, ready))
  {
    ContinueAppend(s, FetchRound(name), StatusRound(ready, total) + [Register(true)]);
    FetchHolds(s, name);
    var u := Continue(s, FetchRound(name));
    ContinueAppend(u, StatusRound(ready, total), [Register(true)]);
    StatusIsReported(u, ready, total);
    var v := Continue(u, StatusRound(ready, total));
    RegistersWhenReady(v);
  }

  /* ---- Finalizer and gateway ---- */

  /** In every run a name that no object holds is registered exactly when it was registered and its last deregistration
      failed: one failure leaks one name, and says nothing of any other. */
  lemma RegisteredNamesAreHeld(actions: seq<Action>, name: string)
    ensures var s := Run(actions); !Held(s, name) ==> (name in s.gateway <==> name in s.leaked)
  {
    RunsKeepInv(actions);
  }

  /** A name enters the gateway only after a Ready status was stored for it, whose ready replicas reached the positive
      count that the spec asked for which it was computed. */
  lemma RegistrationFollowsReady(actions: seq<Action>, a: Action, name: string)
    requires name in Apply(Run(actions), a).gateway && name !in Run(actions).gateway
    ensures var s := Run(actions);
            && name in s.store && s.store[name].status.phase == Ready && FINALIZER in s.store[name].finalizers
            && name in s.reported && name in s.ledgers && s.reported[name] <= |s.ledgers[name].commits|
            && var asked := Fold(s.ledgers[name].origin, s.ledgers[name].commits[..s.reported[name]]).replicas;
               s.store[name].status.readyReplicas >= (if asked.Some? then asked.value else 1) > 0
  {
    RunsKeepInv(actions);
    OnlyRegisterAdds(Run(actions), a, name);
  }

  lemma OnlyRegisterAdds(s: State, a: Action, name: string)
    requires name in Apply(s, a).gateway && name !in s.gateway
    ensures a.Register? && s.r.pc.Registering? && s.r.name == name
  {
  }

  /** An object that holds the finalizer only leaves the store through the reconciler's own removal, after a delete. */
  lemma HeldObjectsStay(actions: seq<Action>, a: Action, name: string)
    requires Held(Run(actions), name) && !Held(Apply(Run(actions), a), name)
    ensures a.RemoveFinalizer? && Run(actions).store[name].deleting
  {
    RunsKeepInv(actions);
    RemovalIsOfTheDeleted(actions);
    OnlyRemovalReleases(Run(actions), a, name);
  }

  lemma OnlyRemovalReleases(s: State, a: Action, name: string)
    requires VersionInv(s) && Held(s, name) && !Held(Apply(s, a), name)
    requires s.r.pc.RemovingFinalizer? ==> s.r.md.deleting
    ensures a.RemoveFinalizer? && s.store[name].deleting
  {
    if a.Commit? { CommitsKeepFinalizers(s, a.id, a.ok, name); }
  }

  lemma CommitsKeepFinalizers(s: State, id: nat, ok: bool, name: string)
    requires VersionInv(s) && Held(s, name)
    ensures Held(ApplyCommit(s, id, ok), name)
  {
  }

  lemma {:induction false} RemovalIsOfTheDeleted(actions: seq<Action>)
    ensures var s := Run(actions); s.r.pc.Deregistering? || s.r.pc.RemovingFinalizer? ==> s.r.md.deleting
  {
    if actions != [] {
      RemovalIsOfTheDeleted(actions[..|actions| - 1]);
      StepIsOfTheDeleted(Run(actions[..|actions| - 1]), actions[|actions| - 1]);
    }
  }

  lemma StepIsOfTheDeleted(s: State, a: Action)
    requires s.r.pc.Deregistering? || s.r.pc.RemovingFinalizer? ==> s.r.md.deleting
    ensures var r := Apply(s, a).r; r.pc.Deregistering? || r.pc.RemovingFinalizer? ==> r.md.deleting
  {
  }

  /** The finalizers of others are theirs: no step of any run adds or removes one, and an object that has one stays. */
  lemma OtherFinalizersStay(actions: seq<Action>, a: Action, name: string)
    requires name in Run(actions).store
    ensures var s, t := Run(actions), Apply(Run(actions), a);
            if name in t.store then t.store[name].finalizers - {FINALIZER} == s.store[name].finalizers - {FINALIZER}
            else s.store[name].finalizers <= {FINALIZER}
  {
    RunsKeepInv(actions);
    var s := Run(actions);
    if a.Commit? { CommitKeepsOthers(s, a.id, a.ok, name); }
    else if a.AddFinalizer? { AddingKeepsOthers(s, a.ok, name); }
    else if a.RemoveFinalizer? { RemovalKeepsOthers(s, a.ok, name); }
    else { RestKeepsOthers(s, a, name); }
  }

  lemma CommitKeepsOthers(s: State, id: nat, ok: bool, name: string)
    requires VersionInv(s) && name in s.store
    ensures var t := ApplyCommit(s, id, ok);
            if name in t.store then t.store[name].finalizers == s.store[name].finalizers
            else s.store[name].finalizers == {}
  {
  }

  lemma ReconcilerKeepsOthers(s: State, ok: bool, finalizers: set<string>, next: Pc, name: string)
    requires name in s.store && finalizers - {FINALIZER} == s.r.md.finalizers - {FINALIZER}
    requires Current(s, s.r.name, s.r.md) ==> s.r.md.finalizers == s.store[s.r.name].finalizers
    ensures var t := ApplyFinalizers(s, ok, finalizers, next);
            if name in t.store then t.store[name].finalizers - {FINALIZER} == s.store[name].finalizers - {FINALIZER}
            else s.store[name].finalizers <= {FINALIZER}
  {
    if s.r.name != name {
      OtherObject(s, ok, finalizers, next, name);
    } else if Current(s, name, s.r.md) {
      assert finalizers == {} ==> s.store[name].finalizers - {FINALIZER} == {};
    }
  }

  lemma AddingKeepsOthers(s: State, ok: bool, name: string)
    requires VersionInv(s) && name in s.store
    ensures var t := Apply(s, AddFinalizer(ok));
            if name in t.store then t.store[name].finalizers - {FINALIZER} == s.store[name].finalizers - {FINALIZER}
            else s.store[name].finalizers <= {FINALIZER}
  {
    if s.r.pc.AddingFinalizer? { ReconcilerKeepsOthers(s, ok, s.r.md.finalizers + {FINALIZER}, Children, name); }
  }

  lemma RemovalKeepsOthers(s: State, ok: bool, name: string)
    requires VersionInv(s) && name in s.store
    ensures var t := Apply(s, RemoveFinalizer(ok));
            if name in t.store then t.store[name].finalizers - {FINALIZER} == s.store[name].finalizers - {FINALIZER}
            else s.store[name].finalizers <= {FINALIZER}
  {
    if s.r.pc.RemovingFinalizer? { ReconcilerKeepsOthers(s, ok, s.r.md.finalizers - {FINALIZER}, Idle, name); }
  }

  lemma OtherObject(s: State, ok: bool, finalizers: set<string>, next: Pc, name: string)
    requires name in s.store && name != s.r.name
    ensures var t := ApplyFinalizers(s, ok, finalizers, next); name in t.store && t.store[name] == s.store[name]
  {
  }

  lemma RestKeepsOthers(s: State, a: Action, name: string)
    requires name in s.store && !a.Commit? && !a.AddFinalizer? && !a.RemoveFinalizer?
    ensures var t := Apply(s, a);
            if name in t.store then t.store[name].finalizers == s.store[name].finalizers
            else s.store[name].finalizers == {}
  {
  }

  function ReleaseOf(name: string, ok: bool): seq<Action> {
    [Fetch(name, true), Deregister(ok), RemoveFinalizer(true)]
  }

  /** The release of a deleted object leaves its name in the gateway exactly when it was there and the deregistration
      failed, which is logged and dropped. */
  lemma ReleaseLeaks(s: State, name: string, ok: bool)
    requires s.r.pc.Idle? && name in s.store
    requires s.store[name].deleting && s.store[name].finalizers == {FINALIZER}
    ensures var t := Continue(s, ReleaseOf(name, ok));
            && t.r.pc.Idle? && t.store == s.store - {name} && (name in t.gateway <==> name in s.gateway && !ok)
            && t.gateway - {name} == s.gateway - {name}
  {
    var acts := ReleaseOf(name, ok);
    ContinueHead(s, acts);
    var s1 := Apply(s, acts[0]);
    ContinueHead(s1, acts[1..]);
    ContinueHead(Apply(s1, acts[1]), acts[2..]);
  }

  function UpToChildren(name: string, spec: Spec): seq<Action> {
    [Create(name, spec, {}), Fetch(name, true), AddFinalizer(true)]
  }

  function UpToReady(ready: int): seq<Action> { StatusRound(ready, ready) }
  function UpToDelete(name: string): seq<Action> { [Register(true), Delete(name)] }

  lemma CreatedAndHeld(name: string, spec: Spec)
    ensures var s := Run(UpToChildren(name, spec));
            && s.r.pc.Children? && s.r.name == name && s.gateway == {} && s.store == map[name := s.r.md]
            && s.r.md.spec == spec && s.r.md.finalizers == {FINALIZER} && !s.r.md.deleting
  {
    var acts := UpToChildren(name, spec);
    ContinueHead(Init(), acts);
    var s1 := Apply(Init(), acts[0]);
    ContinueHead(s1, acts[1..]);
    ContinueHead(Apply(s1, acts[1]), acts[2..]);
  }

  lemma BecomesReady(s: State, ready: int)
    requires s.r.pc.Children? && s.store == map[s.r.name := s.r.md]
    requires s.r.md.finalizers == {FINALIZER} && !s.r.md.deleting && Reaches(s.r.md.spec, ready)
    ensures var t := Continue(s, UpToReady(ready));
            && t.r.pc.Registering? && t.r.name == s.r.name && t.gateway == s.gateway
                && t.store == map[t.r.name := t.r.md]
            && t.r.md.finalizers == {FINALIZER} && !t.r.md.deleting
  {
    StatusRoundIs(s, ready, ready);
  }

  lemma RegisteredAndDeleted(s: State)
    requires s.r.pc.Registering? && s.store == map[s.r.name := s.r.md]
    requires s.r.md.finalizers == {FINALIZER} && !s.r.md.deleting
    ensures var t := Continue(s, UpToDelete(s.r.name));
            && t.r.pc.Idle? && t.gateway == s.gateway + {s.r.name} && t.store.Keys == {s.r.name}
            && t.store[s.r.name].deleting && t.store[s.r.name].finalizers == {FINALIZER}
  {
    var acts := UpToDelete(s.r.name);
    ContinueHead(s, acts);
    ContinueHead(Apply(s, acts[0]), acts[1..]);
  }

  /** Such a leak, from the start: a model is created, becomes Ready, is registered, deleted and released while the
      gateway does not answer; no object is left, and its name still is. */
  lemma FailedDeregistrationLeaks(name: string, spec: Spec, ready: int)
    requires Reaches(spec, ready)
    ensures var life := UpToChildren(name, spec) + UpToReady(ready) + UpToDelete(name);
            var t := Run(life + ReleaseOf(name, false));
            t.store == map[] && t.gateway == {name}
  {
    var born := UpToChildren(name, spec);
    var life := born + UpToReady(ready) + UpToDelete(name);
    CreatedAndHeld(name, spec);
    ContinueAppend(Init(), born, UpToReady(ready));
    BecomesReady(Run(born), ready);
    ContinueAppend(Init(), born + UpToReady(ready), UpToDelete(name));
    RegisteredAndDeleted(Run(born + UpToReady(ready)));
    ContinueAppend(Init(), life, ReleaseOf(name, false));
    ReleaseLeaks(Run(life), name, false);
    var t := Run(life + ReleaseOf(name, false));
    assert t.gateway == t.gateway - {name} + {name};
  }

  /* ---- Conditions ---- */

  /** In every run, a stored phase that is set measures the ready replicas against what some committed version of the
      spec asked for, the one its reconcile held. */
  lemma PhaseMeasuresACommittedSpec(actions: seq<Action>, name: string)
    ensures var s := Run(actions);
            name in s.store && s.store[name].status.phase != Unset ==>
              && name in s.reported && name in s.ledgers && s.reported[name] <= |s.ledgers[name].commits|
              && var asked := Fold(s.ledgers[name].origin, s.ledgers[name].commits[..s.reported[name]]).replicas;
                 var desired, status := if asked.Some? then asked.value else 1, s.store[name].status;
                 && (status.phase == Ready <==> status.readyReplicas >= desired && desired > 0)
                 && (status.phase == Degraded <==>
                       status.readyReplicas > 0 && !(status.readyReplicas >= desired && desired > 0))
                 && (status.phase == Deploying <==> status.readyReplicas <= 0)
  {
    RunsKeepInv(actions);
  }

  /** Condition types never repeat, Ready is True exactly when the phase is, and the phase is Ready or Degraded exactly
      when it counts ready replicas. */
  lemma ConditionTracksPhase(actions: seq<Action>, name: string)
    ensures var s := Run(actions);
            name in s.store ==>
              && Unique(s.store[name].status.conditions)
              && (Holds(s.store[name].status.conditions, READY) <==> s.store[name].status.phase == Ready)
              && (s.store[name].status.readyReplicas > 0
                  <==> s.store[name].status.phase == Ready || s.store[name].status.phase == Degraded)
  {
    RunsKeepInv(actions);
  }
}
