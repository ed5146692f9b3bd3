/** What every run of PlatformProtocol keeps: what the store and the reconcile in progress say of each other, what Helm
    deploys when Ready is reported, the budget of Helm calls, and the repairs. */
module PlatformSafety {
  import opened Kubernetes
  import opened Conditions
  import opened HelmValues
  import opened PlatformProtocol

  /* ---- What holds of every state ---- */

  ghost predicate Coherent(status: Status) {
    && Unique(status.conditions)
    && (Holds(status.conditions, HELM_RELEASE) <==> status.phase == Ready)
    && (status.phase == Unset ==> status.observedGeneration == 0)
  }

  ghost predicate CoherentInv(s: State) {
    && (s.store.Some? ==> Coherent(s.store.value.status))
    && (!s.r.pc.Idle? ==> Coherent(s.r.platform.status))
  }

  // The history is that of the stored object.
  ghost predicate HistoryInv(s: State) {
    && |s.h.specs| > 0
    && (s.store.Some? ==>
          var p := s.store.value;
          p.resourceVersion < s.clock && p.generation == |s.h.specs| && p.spec == s.h.specs[p.generation - 1])
  }

  predicate Fixing(pc: Pc) { pc.FixRollback? || pc.RollingBack? || pc.FixUninstall? }
  predicate Reporting(pc: Pc) { pc.Refetch2? || pc.Write2? }

  // Helm between the steps of the one reconcile that calls it.
  ghost predicate HelmInv(s: State) {
    && (s.helm.Release? ==> |s.helm.revisions| > 0)
    && (Fixing(s.r.pc) ==> s.helm.Release?)
    && (s.r.pc.Calling? ==>
          && Pending(s.helm)
          && s.helm.revisions[|s.helm.revisions| - 1] == s.r.values)
    && (Reporting(s.r.pc) && s.r.platform.status.phase == Ready ==>
          && Deploys(s.helm, s.r.values)
          && s.r.platform.status.helmRevision == |s.helm.revisions|)
  }

  function One(b: bool): nat { if b then 1 else 0 }

  predicate Stuck(s: State) { Fixing(s.r.pc) || (Pending(s.helm) && !s.r.pc.Calling?) }

  predicate BeforeCall(pc: Pc) { pc.Refetch1? || pc.Write1? || pc.Call? }

  ghost predicate RecoveryInv(s: State) {
    && s.h.fixes + One(Stuck(s)) <= s.h.interrupted + s.h.stuckFixes
    && (s.r.pc.FixCheck? || Fixing(s.r.pc) ==> !s.r.blind)
    && (s.r.pc.Lookup? ==> (s.r.blind <==> Pending(s.helm)))
    && (BeforeCall(s.r.pc) ==> (s.r.blind <==> !Accepts(s.helm, s.r.verb)))
  }

  predicate AfterWrite(pc: Pc) { pc.Call? || pc.Calling? || pc.Refetch2? || pc.Write2? }

  // What a reconcile that fetched this very object remembers of it.
  ghost predicate OwnObject(s: State) {
    var r, p := s.r, s.r.platform;
    && 1 <= r.fetched <= |s.h.specs| && r.wanted == s.h.specs[r.fetched - 1]
    && p.generation <= |s.h.specs| && p.resourceVersion < s.clock
    && (s.store.Some? && s.store.value.resourceVersion == p.resourceVersion
        ==> s.store.value.generation == p.generation)
    && (InWindow(r.pc) ==> p.generation == r.fetched && (r.edited <==> r.fetched < |s.h.specs|))
    && (r.pc.Write1? || r.pc.Call? || r.pc.Calling? ==>
          r.fetched <= p.generation && (r.edited <==> r.fetched < p.generation))
    && (Reporting(r.pc) && p.status.phase == Ready ==>
          && r.fetched <= p.status.observedGeneration <= |s.h.specs|
          && (r.edited <==> r.fetched < p.status.observedGeneration))
  }

  ghost predicate FetchedInv(s: State) {
    !s.r.pc.Idle? ==> s.r.values == s.translate(s.r.wanted) && (!s.r.stale ==> OwnObject(s))
  }

  ghost predicate ReadyInv(s: State) {
    && (s.r.pc.Refetch1? || s.r.pc.Write1? ==> s.r.platform.status.phase == Running(s.r.verb))
    && (Fixing(s.r.pc) || AfterWrite(s.r.pc) ==> s.store.Some? ==> s.store.value.status.phase != Ready)
    && (s.store.Some? && s.store.value.status.phase == Ready ==>
          && Deploys(s.helm, s.translate(s.h.served))
          && s.store.value.status.helmRevision == |s.helm.revisions|
          && (!s.h.basisStale ==>
                && 1 <= s.h.basis <= s.store.value.status.observedGeneration <= |s.h.specs|
                && (s.h.basisEdited <==> s.h.basis < s.store.value.status.observedGeneration)
                && s.h.served == s.h.specs[s.h.basis - 1]))
  }

  /* ---- What holds of an object no reconcile of an earlier one has written to ---- */

  ghost predicate StoreInv(s: State) {
    HistoryInv(s) && (s.store.Some? ==> s.store.value.status.observedGeneration <= s.store.value.generation)
  }

  predicate BeforeLookup(pc: Pc) { InWindow(pc) && !pc.Refetch1? }

  ghost predicate LocalInv(s: State) {
    var r, p := s.r, s.r.platform;
    !r.pc.Idle? ==>
      && (BeforeLookup(r.pc) ==>
            && !Skips(p) && p.status.observedGeneration <= p.generation
            && (s.store.Some? ==> s.store.value.status == p.status))
      && (r.pc.Refetch1? || r.pc.Write1? ==>
            && p.status.phase == Running(r.verb)
            && p.status.observedGeneration == r.fetched
            && (s.store.Some? ==> s.store.value.status.observedGeneration <= r.fetched)
            && (s.store.Some? && s.store.value.status.observedGeneration == r.fetched
                ==> s.store.value.status.phase == Failed))
      && (AfterWrite(r.pc) && s.store.Some? ==>
            && s.store.value.status.phase == Running(r.verb)
            && s.store.value.status.observedGeneration == r.fetched)
      && (r.pc.Call? || r.pc.Calling? ==> p.status.observedGeneration == r.fetched)
      && (Reporting(r.pc) ==>
            && (p.status.phase == Ready || p.status.phase == Failed)
            && (p.status.phase == Failed ==> p.status.observedGeneration == r.fetched))
  }

  // A failed phase, a call about to be made and a failure about to be reported each hold one unit of budget.
  predicate Owes(s: State) {
    || (s.store.Some? && s.store.value.status.phase == Failed)
    || s.r.pc.Call?
    || (Reporting(s.r.pc) && s.r.platform.status.phase == Failed)
  }

  ghost predicate BudgetInv(s: State) {
    s.store.Some? ==> s.h.calls + One(Owes(s)) <= s.store.value.status.observedGeneration + s.h.failures
  }

  // A reconcile that fetched an earlier object of the name is still at work.
  predicate Stale(s: State) { !s.r.pc.Idle? && s.r.stale }

  // Until it writes, the new object's status is as it was created.
  ghost predicate FreshInv(s: State) {
    (s.store.Some? ==> s.store.value.status == EmptyStatus()) && s.h.calls == 0
  }

  // A reconcile skips at once or repairs an object whose status does not skip; so it is when it requeues.
  ghost predicate RequeueInv(s: State) {
    s.r.pc.Idle? && s.result == Requeue && s.store.Some? ==> !Skips(s.store.value)
  }

  ghost predicate ObjectInv(s: State) {
    && StoreInv(s) && RequeueInv(s)
    && if Stale(s) then FreshInv(s) else LocalInv(s) && BudgetInv(s)
  }

  ghost predicate Inv(s: State) {
    && CoherentInv(s) && HistoryInv(s) && HelmInv(s) && RecoveryInv(s) && FetchedInv(s) && ReadyInv(s)
    && (!s.h.tainted ==> ObjectInv(s))
  }

  /* ---- Preservation ---- */

  lemma SetCoherent(status: Status, c: Condition)
    requires Unique(status.conditions) && c.kind == HELM_RELEASE
    ensures Unique(Set(status.conditions, c))
    ensures Holds(Set(status.conditions, c), HELM_RELEASE) <==> c.holds
  {
    SetKeepsOthers(status.conditions, c);
    SetIsMapUpdate(status.conditions, c);
  }

  lemma StatusesCoherent(p: Platform, verb: Verb, revision: nat)
    requires Unique(p.status.conditions)
    ensures Coherent(BeforeHelm(p, verb)) && Coherent(AfterFailure(p, verb))
        && Coherent(AfterSuccess(p, verb, revision))
  {
    SetCoherent(p.status, Condition(HELM_RELEASE, false, RunningReason(verb), p.generation));
    SetCoherent(p.status, Condition(HELM_RELEASE, false, FailedReason(verb), p.generation));
    SetCoherent(p.status, Condition(HELM_RELEASE, true, SucceededReason(verb), p.generation));
  }

  predicate Foreign(a: Action) { a.EditSpec? || a.Touch? || a.Delete? || a.Crash? }
  predicate Repair(a: Action) { a.Fetch? || a.Inspect? || a.BeginRollback? || a.EndRollback? || a.Uninstall? }
  predicate Report(a: Action) { a.Refetch? || a.WriteStatus? }
  predicate Computes(a: Action) { a.GetRelease? || a.BeginHelm? || a.EndHelm? }

  /* Conditions */

  lemma OthersKeepCoherentInv(s: State, a: Action)
    requires CoherentInv(s) && !Computes(a)
    ensures CoherentInv(Apply(s, a))
  {
  }

  lemma LookupKeepsCoherentInv(s: State, ok: bool)
    requires CoherentInv(s)
    ensures CoherentInv(ApplyGetRelease(s, ok))
  {
    if s.r.pc.Lookup? { StatusesCoherent(s.r.platform, if !ok || s.helm.Absent? then Install else Upgrade, 0); }
  }

  lemma BeginHelmKeepsCoherentInv(s: State, ok: bool)
    requires CoherentInv(s)
    ensures CoherentInv(ApplyBeginHelm(s, ok))
  {
    if s.r.pc.Call? { StatusesCoherent(s.r.platform, s.r.verb, 0); }
  }

  lemma EndHelmKeepsCoherentInv(s: State, ok: bool)
    requires CoherentInv(s)
    ensures CoherentInv(ApplyEndHelm(s, ok))
  {
    if s.r.pc.Calling? { StatusesCoherent(s.r.platform, s.r.verb, if s.helm.Release? then |s.helm.revisions| else 0); }
  }

  lemma StepKeepsCoherentInv(s: State, a: Action)
    requires CoherentInv(s)
    ensures CoherentInv(Apply(s, a))
  {
    if a.GetRelease? { LookupKeepsCoherentInv(s, a.ok); }
    else if a.BeginHelm? { BeginHelmKeepsCoherentInv(s, a.ok); }
    else if a.EndHelm? { EndHelmKeepsCoherentInv(s, a.ok); }
    else { OthersKeepCoherentInv(s, a); }
  }

  /* History */

  lemma StepKeepsHistoryInv(s: State, a: Action)
    requires HistoryInv(s)
    ensures HistoryInv(Apply(s, a))
  {
  }

  /* Helm */

  lemma RepairKeepsHelmInv(s: State, a: Action)
    requires HelmInv(s) && Repair(a)
    ensures HelmInv(Apply(s, a))
  {
  }

  lemma CallKeepsHelmInv(s: State, a: Action)
    requires HelmInv(s) && Computes(a)
    ensures HelmInv(Apply(s, a))
  {
  }

  lemma OthersKeepHelmInv(s: State, a: Action)
    requires HelmInv(s) && !Repair(a) && !Computes(a)
    ensures HelmInv(Apply(s, a))
  {
  }

  lemma RollbackKeepsRecoveryInv(s: State, a: Action)
    requires HelmInv(s) && RecoveryInv(s) && (a.BeginRollback? || a.EndRollback?)
    ensures RecoveryInv(Apply(s, a))
  {
  }

  lemma RepairKeepsRecoveryInv(s: State, a: Action)
    requires HelmInv(s) && RecoveryInv(s) && (a.Fetch? || a.Inspect? || a.Uninstall?)
    ensures RecoveryInv(Apply(s, a))
  {
  }

  lemma CallKeepsRecoveryInv(s: State, a: Action)
    requires HelmInv(s) && RecoveryInv(s) && Computes(a)
    ensures RecoveryInv(Apply(s, a))
  {
  }

  lemma CrashKeepsRecoveryInv(s: State)
    requires HelmInv(s) && RecoveryInv(s)
    ensures RecoveryInv(ApplyCrash(s))
  {
  }

  lemma RefetchKeepsRecoveryInv(s: State, ok: bool)
    requires RecoveryInv(s)
    ensures RecoveryInv(ApplyRefetch(s, ok))
  {
  }

  lemma WriteKeepsRecoveryInv(s: State, ok: bool)
    requires RecoveryInv(s)
    ensures RecoveryInv(ApplyWriteStatus(s, ok))
  {
  }

  lemma OthersKeepRecoveryInv(s: State, a: Action)
    requires RecoveryInv(s) && (a.EditSpec? || a.Touch? || a.Delete? || a.Recreate?)
    ensures RecoveryInv(Apply(s, a))
  {
  }

  lemma StepKeepsHelm(s: State, a: Action)
    requires HelmInv(s) && RecoveryInv(s)
    ensures HelmInv(Apply(s, a)) && RecoveryInv(Apply(s, a))
  {
    if Computes(a) { CallKeepsHelmInv(s, a); CallKeepsRecoveryInv(s, a); }
    else if Repair(a) {
      RepairKeepsHelmInv(s, a);
      if a.BeginRollback? || a.EndRollback? { RollbackKeepsRecoveryInv(s, a); } else { RepairKeepsRecoveryInv(s, a); }
    }
    else {
      OthersKeepHelmInv(s, a);
      if a.Crash? { CrashKeepsRecoveryInv(s); }
      else if a.Refetch? { RefetchKeepsRecoveryInv(s, a.ok); }
      else if a.WriteStatus? { WriteKeepsRecoveryInv(s, a.ok); }
      else { OthersKeepRecoveryInv(s, a); }
    }
  }

  /* The fetched object and the deployed values */

  lemma OthersKeepFetchedInv(s: State, a: Action)
    requires HistoryInv(s) && FetchedInv(s) && !Repair(a) && !Report(a) && !Computes(a)
    ensures FetchedInv(Apply(s, a))
  {
  }

  lemma FetchKeepsFetchedInv(s: State, ok: bool)
    requires HistoryInv(s) && FetchedInv(s)
    ensures FetchedInv(ApplyFetch(s, ok))
  {
  }

  lemma RollbackKeepsFetchedInv(s: State, a: Action)
    requires FetchedInv(s) && (a.BeginRollback? || a.EndRollback?)
    ensures FetchedInv(Apply(s, a))
  {
  }

  lemma RepairKeepsFetchedInv(s: State, a: Action)
    requires FetchedInv(s) && (a.Inspect? || a.Uninstall?)
    ensures FetchedInv(Apply(s, a))
  {
  }

  lemma RefetchKeepsFetchedInv(s: State, ok: bool)
    requires HistoryInv(s) && FetchedInv(s)
    ensures FetchedInv(ApplyRefetch(s, ok))
  {
  }

  lemma WriteKeepsFetchedInv(s: State, ok: bool)
    requires HistoryInv(s) && FetchedInv(s)
    ensures FetchedInv(ApplyWriteStatus(s, ok))
  {
  }

  lemma LookupKeepsFetchedInv(s: State, ok: bool)
    requires FetchedInv(s)
    ensures FetchedInv(ApplyGetRelease(s, ok))
  {
  }

  lemma BeginHelmKeepsFetchedInv(s: State, ok: bool)
    requires FetchedInv(s)
    ensures FetchedInv(ApplyBeginHelm(s, ok))
  {
  }

  lemma EndHelmKeepsFetchedInv(s: State, ok: bool)
    requires FetchedInv(s)
    ensures FetchedInv(ApplyEndHelm(s, ok))
  {
  }

  lemma StepKeepsFetchedInv(s: State, a: Action)
    requires HistoryInv(s) && FetchedInv(s)
    ensures FetchedInv(Apply(s, a))
  {
    if a.Fetch? { FetchKeepsFetchedInv(s, a.ok); }
    else if a.BeginRollback? || a.EndRollback? { RollbackKeepsFetchedInv(s, a); }
    else if a.Inspect? || a.Uninstall? { RepairKeepsFetchedInv(s, a); }
    else if a.Refetch? { RefetchKeepsFetchedInv(s, a.ok); }
    else if a.WriteStatus? { WriteKeepsFetchedInv(s, a.ok); }
    else if a.GetRelease? { LookupKeepsFetchedInv(s, a.ok); }
    else if a.BeginHelm? { BeginHelmKeepsFetchedInv(s, a.ok); }
    else if a.EndHelm? { EndHelmKeepsFetchedInv(s, a.ok); }
    else { OthersKeepFetchedInv(s, a); }
  }

  lemma OthersKeepReadyInv(s: State, a: Action)
    requires HistoryInv(s) && ReadyInv(s) && !Repair(a) && !Report(a) && !Computes(a)
    ensures ReadyInv(Apply(s, a))
  {
  }

  lemma RollbackKeepsReadyInv(s: State, a: Action)
    requires ReadyInv(s) && HelmInv(s) && (a.BeginRollback? || a.EndRollback?)
    ensures ReadyInv(Apply(s, a))
  {
  }

  lemma RepairKeepsReadyInv(s: State, a: Action)
    requires ReadyInv(s) && HelmInv(s) && (a.Fetch? || a.Inspect? || a.Uninstall?)
    ensures ReadyInv(Apply(s, a))
  {
  }

  lemma RefetchKeepsReadyInv(s: State, ok: bool)
    requires ReadyInv(s)
    ensures ReadyInv(ApplyRefetch(s, ok))
  {
  }

  lemma WriteKeepsReadyInv(s: State, ok: bool)
    requires ReadyInv(s) && FetchedInv(s) && HelmInv(s)
    ensures ReadyInv(ApplyWriteStatus(s, ok))
  {
  }

  lemma CallKeepsReadyInv(s: State, a: Action)
    requires ReadyInv(s) && Computes(a)
    ensures ReadyInv(Apply(s, a))
  {
  }

  lemma StepKeepsReadyInv(s: State, a: Action)
    requires HistoryInv(s) && HelmInv(s) && FetchedInv(s) && ReadyInv(s)
    ensures ReadyInv(Apply(s, a))
  {
    if Computes(a) { CallKeepsReadyInv(s, a); }
    else if a.BeginRollback? || a.EndRollback? { RollbackKeepsReadyInv(s, a); }
    else if Repair(a) { RepairKeepsReadyInv(s, a); }
    else if a.Refetch? { RefetchKeepsReadyInv(s, a.ok); }
    else if a.WriteStatus? { WriteKeepsReadyInv(s, a.ok); }
    else { OthersKeepReadyInv(s, a); }
  }

  /* The object, as long as the reconcile at work fetched it */

  lemma WriteKeepsStoreInv(s: State, ok: bool)
    requires StoreInv(s) && FetchedInv(s) && !Stale(s) && LocalInv(s)
    ensures StoreInv(ApplyWriteStatus(s, ok))
  {
  }

  lemma StepKeepsStoreInv(s: State, a: Action)
    requires StoreInv(s) && FetchedInv(s) && !Stale(s) && LocalInv(s) && !a.Recreate?
    ensures StoreInv(Apply(s, a))
  {
    StepKeepsHistoryInv(s, a);
    if a.WriteStatus? { WriteKeepsStoreInv(s, a.ok); } else { OthersKeepTheStatus(s, a); }
  }

  lemma OthersKeepTheStatus(s: State, a: Action)
    requires !a.WriteStatus? && !a.Recreate?
    ensures var t := Apply(s, a);
            t.store.Some? ==> s.store.Some? && t.store.value.status == s.store.value.status
                              && s.store.value.generation <= t.store.value.generation
  {
  }

  lemma ForeignKeepsLocalInv(s: State, a: Action)
    requires StoreInv(s) && FetchedInv(s) && !Stale(s) && LocalInv(s) && Foreign(a)
    ensures LocalInv(Apply(s, a))
  {
  }

  lemma FetchKeepsLocalInv(s: State, ok: bool)
    requires StoreInv(s) && FetchedInv(s) && !Stale(s) && LocalInv(s)
    ensures LocalInv(ApplyFetch(s, ok))
  {
  }

  lemma InspectKeepsLocalInv(s: State, ok: bool)
    requires StoreInv(s) && FetchedInv(s) && !Stale(s) && LocalInv(s)
    ensures LocalInv(ApplyInspect(s, ok))
  {
  }

  lemma RollbackKeepsLocalInv(s: State, a: Action)
    requires StoreInv(s) && FetchedInv(s) && !Stale(s) && LocalInv(s) && (a.BeginRollback? || a.EndRollback?)
    ensures LocalInv(Apply(s, a))
  {
  }

  lemma UninstallKeepsLocalInv(s: State, ok: bool)
    requires FetchedInv(s) && !Stale(s) && LocalInv(s)
    ensures LocalInv(ApplyUninstall(s, ok))
  {
  }

  lemma RefetchKeepsLocalInv(s: State, ok: bool)
    requires StoreInv(s) && FetchedInv(s) && !Stale(s) && LocalInv(s)
    ensures LocalInv(ApplyRefetch(s, ok))
  {
  }

  lemma WriteKeepsLocalInv(s: State, ok: bool)
    requires StoreInv(s) && FetchedInv(s) && !Stale(s) && LocalInv(s)
    ensures LocalInv(ApplyWriteStatus(s, ok))
  {
  }

  lemma LookupKeepsLocalInv(s: State, ok: bool)
    requires CoherentInv(s) && StoreInv(s) && FetchedInv(s) && !Stale(s) && LocalInv(s)
    ensures LocalInv(ApplyGetRelease(s, ok))
  {
  }

  lemma BeginHelmKeepsLocalInv(s: State, ok: bool)
    requires StoreInv(s) && FetchedInv(s) && !Stale(s) && LocalInv(s)
    ensures LocalInv(ApplyBeginHelm(s, ok))
  {
  }

  lemma EndHelmKeepsLocalInv(s: State, ok: bool)
    requires StoreInv(s) && FetchedInv(s) && !Stale(s) && LocalInv(s)
    ensures LocalInv(ApplyEndHelm(s, ok))
  {
  }

  lemma StepKeepsLocalInv(s: State, a: Action)
    requires CoherentInv(s) && StoreInv(s) && FetchedInv(s) && !Stale(s) && LocalInv(s) && !a.Recreate?
    ensures LocalInv(Apply(s, a))
  {
    if a.Fetch? { FetchKeepsLocalInv(s, a.ok); }
    else if a.Inspect? { InspectKeepsLocalInv(s, a.ok); }
    else if a.GetRelease? { LookupKeepsLocalInv(s, a.ok); }
    else if a.BeginHelm? { BeginHelmKeepsLocalInv(s, a.ok); }
    else if a.EndHelm? { EndHelmKeepsLocalInv(s, a.ok); }
    else if Foreign(a) { ForeignKeepsLocalInv(s, a); }
    else if a.Uninstall? { UninstallKeepsLocalInv(s, a.ok); }
    else if a.Refetch? { RefetchKeepsLocalInv(s, a.ok); }
    else if a.WriteStatus? { WriteKeepsLocalInv(s, a.ok); }
    else { RollbackKeepsLocalInv(s, a); }
  }

  lemma OthersKeepBudgetInv(s: State, a: Action)
    requires StoreInv(s) && FetchedInv(s) && !Stale(s) && LocalInv(s) && BudgetInv(s)
        && (Foreign(a) || Repair(a) || a.GetRelease?)
    ensures BudgetInv(Apply(s, a))
  {
  }

  lemma RefetchKeepsBudgetInv(s: State, ok: bool)
    requires StoreInv(s) && FetchedInv(s) && !Stale(s) && LocalInv(s) && BudgetInv(s)
    ensures BudgetInv(ApplyRefetch(s, ok))
  {
  }

  lemma WriteKeepsBudgetInv(s: State, ok: bool)
    requires StoreInv(s) && FetchedInv(s) && !Stale(s) && LocalInv(s) && BudgetInv(s)
    ensures BudgetInv(ApplyWriteStatus(s, ok))
  {
  }

  lemma BeginHelmKeepsBudgetInv(s: State, ok: bool)
    requires StoreInv(s) && FetchedInv(s) && !Stale(s) && LocalInv(s) && BudgetInv(s)
    ensures BudgetInv(ApplyBeginHelm(s, ok))
  {
  }

  lemma EndHelmKeepsBudgetInv(s: State, ok: bool)
    requires StoreInv(s) && FetchedInv(s) && !Stale(s) && LocalInv(s) && BudgetInv(s)
    ensures BudgetInv(ApplyEndHelm(s, ok))
  {
  }

  lemma StepKeepsBudgetInv(s: State, a: Action)
    requires StoreInv(s) && FetchedInv(s) && !Stale(s) && LocalInv(s) && BudgetInv(s) && !a.Recreate?
    ensures BudgetInv(Apply(s, a))
  {
    if a.Refetch? { RefetchKeepsBudgetInv(s, a.ok); }
    else if a.WriteStatus? { WriteKeepsBudgetInv(s, a.ok); }
    else if a.BeginHelm? { BeginHelmKeepsBudgetInv(s, a.ok); }
    else if a.EndHelm? { EndHelmKeepsBudgetInv(s, a.ok); }
    else { OthersKeepBudgetInv(s, a); }
  }

  lemma StepKeepsRequeueInv(s: State, a: Action)
    requires StoreInv(s) && FetchedInv(s) && !Stale(s) && LocalInv(s) && RequeueInv(s) && !a.Recreate?
    ensures RequeueInv(Apply(s, a))
  {
  }

  lemma StepKeepsObject(s: State, a: Action)
    requires CoherentInv(s) && FetchedInv(s) && ObjectInv(s) && !Stale(s) && !a.Recreate?
    ensures ObjectInv(Apply(s, a)) && !Stale(Apply(s, a))
  {
    StepKeepsStoreInv(s, a);
    StepKeepsLocalInv(s, a);
    StepKeepsRequeueInv(s, a);
    StaysCurrent(s, a);
    StepKeepsBudgetInv(s, a);
  }

  lemma StaysCurrent(s: State, a: Action)
    requires !Stale(s) && !a.Recreate?
    ensures !Stale(Apply(s, a))
  {
  }

  /* The object while a reconcile of an earlier one is at work, and its beginning */

  lemma StepKeepsFresh(s: State, a: Action)
    requires StoreInv(s) && FreshInv(s) && Stale(s) && !a.Recreate? && !Apply(s, a).h.tainted
    ensures StoreInv(Apply(s, a)) && FreshInv(Apply(s, a))
  {
  }

  lemma FreshIsSound(s: State)
    requires StoreInv(s) && FreshInv(s) && (Stale(s) || s.r.pc.Idle?)
    ensures ObjectInv(s)
  {
  }

  lemma RecreateStarts(s: State, spec: PlatformSpec)
    requires s.store.None?
    ensures StoreInv(ApplyRecreate(s, spec)) && FreshInv(ApplyRecreate(s, spec)) && !ApplyRecreate(s, spec).h.tainted
    ensures Stale(ApplyRecreate(s, spec)) || s.r.pc.Idle?
  {
  }

  lemma StepKeepsObjectInv(s: State, a: Action)
    requires CoherentInv(s) && FetchedInv(s) && (!s.h.tainted ==> ObjectInv(s)) && !Apply(s, a).h.tainted
    ensures ObjectInv(Apply(s, a))
  {
    if a.Recreate? {
      if s.store.None? { RecreateStarts(s, a.spec); FreshIsSound(Apply(s, a)); }
    } else if s.h.tainted {
      StaysTainted(s, a);
    } else if Stale(s) {
      StepKeepsFresh(s, a);
      StaleOrIdle(s, a);
      FreshIsSound(Apply(s, a));
    } else {
      StepKeepsObject(s, a);
    }
  }

  lemma StaysTainted(s: State, a: Action)
    requires s.h.tainted && !a.Recreate?
    ensures Apply(s, a).h.tainted
  {
  }

  lemma StaleOrIdle(s: State, a: Action)
    requires Stale(s)
    ensures Stale(Apply(s, a)) || Apply(s, a).r.pc.Idle?
  {
  }

  lemma StepKeepsInv(s: State, a: Action)
    requires Inv(s)
    ensures Inv(Apply(s, a))
  {
    StepKeepsCoherentInv(s, a);
    StepKeepsHistoryInv(s, a);
    StepKeepsHelm(s, a);
    StepKeepsFetchedInv(s, a);
    StepKeepsReadyInv(s, a);
    if !Apply(s, a).h.tainted { StepKeepsObjectInv(s, a); }
  }

  lemma {:induction false} RunsKeepInv(translate: PlatformSpec -> Value, spec: PlatformSpec, actions: seq<Action>)
    ensures Inv(Run(translate, spec, actions))
  {
    if actions != [] {
      RunsKeepInv(translate, spec, actions[..|actions| - 1]);
      StepKeepsInv(Run(translate, spec, actions[..|actions| - 1]), actions[|actions| - 1]);
    }
  }
}
