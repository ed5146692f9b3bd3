/** What one reconcile of an LLMPlatform does when nobody interferes, step by step: which objects it lets pass, what it
    announces and reports, how it fails and repairs, and that a fault-free one brings Helm to the stored spec. */
module PlatformRecovery {
  import opened Kubernetes
  import opened Conditions
  import opened HelmValues
  import opened PlatformProtocol

  function UpToTheCall(): seq<Action> { [Fetch(true), Inspect(true), GetRelease(true), Refetch(true)] }
  // The status that announces the call is written, and the call begins.
  function CallBegins(): seq<Action> { [WriteStatus(true), BeginHelm(true)] }
  function UpToHelm(): seq<Action> { [WriteStatus(true), BeginHelm(true), EndHelm(true)] }
  function AfterHelm(): seq<Action> { [Refetch(true), WriteStatus(true)] }
  function Whole(): seq<Action> { UpToTheCall() + (UpToHelm() + AfterHelm()) }

  function VerbFor(helm: Helm): Verb { if helm.Absent? then Install else Upgrade }

  // The object has not been dealt with at its generation, or its last call failed.
  ghost predicate MayStart(s: State) {
    && s.r.pc == Idle && s.store.Some?
    && (s.store.value.status.observedGeneration != s.store.value.generation
        || s.store.value.status.phase == Unset || s.store.value.status.phase == Failed)
  }

  /** The guard, exactly: a reconcile goes on if and only if the observed generation is not the object's, or the phase
      is unset or Failed; otherwise it is done and has changed nothing. */
  lemma GuardLetsPass(s: State)
    requires s.r.pc == Idle && s.store.Some?
    ensures var t, p := Continue(s, [Fetch(true)]), s.store.value;
            && (t.r.pc == FixCheck <==> p.status.observedGeneration != p.generation || p.status.phase == Unset
                                        || p.status.phase == Failed)
            && (t.r.pc != FixCheck ==> t.r.pc == Idle && t.result == Done)
            && t.store == s.store && t.helm == s.helm
  {
    ContinueHead(s, [Fetch(true)]);
  }

  lemma ReachesTheLookup(s: State)
    requires MayStart(s) && !Pending(s.helm)
    ensures var t := Continue(s, UpToTheCall()[..2]);
            && t.r.pc == Lookup && t.r.platform == s.store.value && t.r.values == s.translate(s.store.value.spec)
            && t == s.(r := t.r)
  {
    ContinueHead(s, UpToTheCall()[..2]);
    ContinueHead(Apply(s, Fetch(true)), UpToTheCall()[..2][1..]);
  }

  lemma LeavesTheLookup(s: State)
    requires s.r.pc == Lookup && s.store.Some?
    ensures var t := Continue(s, UpToTheCall()[2..]);
            var verb := VerbFor(s.helm);
            && t.r.pc == Write1 && t.r.verb == verb && t.r.values == s.r.values
            && t.r.platform == s.store.value.(status := BeforeHelm(s.r.platform, verb)) && t == s.(r := t.r)
  {
    ContinueHead(s, UpToTheCall()[2..]);
    ContinueHead(Apply(s, GetRelease(true)), UpToTheCall()[2..][1..]);
  }

  lemma ReachesTheWrite(s: State)
    requires MayStart(s) && !Pending(s.helm)
    ensures var t := Continue(s, UpToTheCall());
            var verb := VerbFor(s.helm);
            && t.r.pc == Write1 && t.r.verb == verb && Accepts(t.helm, verb)
            && t.r.values == s.translate(s.store.value.spec)
            && t.r.platform == s.store.value.(status := BeforeHelm(s.store.value, verb)) && t == s.(r := t.r)
  {
    ContinueAppend(s, UpToTheCall()[..2], UpToTheCall()[2..]);
    assert UpToTheCall()[..2] + UpToTheCall()[2..] == UpToTheCall();
    ReachesTheLookup(s);
    LeavesTheLookup(Continue(s, UpToTheCall()[..2]));
  }

  // In whichever status it was refetched.
  ghost predicate Announces(s: State) {
    && s.r.pc == Write1 && Accepts(s.helm, s.r.verb) && s.store.Some?
    && s.r.platform.resourceVersion == s.store.value.resourceVersion
  }

  // The status as written, conditions included: one entry changed, the others as they were.
  ghost predicate Shows(before: Status, after: Status, phase: Phase, holds: bool, reason: string, generation: nat) {
    && after.phase == phase && after.observedGeneration == generation
    && AsMap(after.conditions) ==
       AsMap(before.conditions)["HelmRelease" := Condition("HelmRelease", holds, reason, generation)]
  }

  /** What is stored when the call begins: Installing when Helm has no release and Upgrading otherwise, for the
      generation fetched, with the condition False and everything else as it was. */
  lemma AnnouncesTheCall(s: State)
    requires MayStart(s) && !Pending(s.helm)
    ensures var t := Continue(s, UpToTheCall() + CallBegins());
            var install := s.helm.Absent?;
            && t.r.pc == Calling && SameObject(s, t)
            && Shows(s.store.value.status, t.store.value.status, if install then Installing else Upgrading, false,
                     if install then "Installing" else "Upgrading", s.store.value.generation)
            && t.store.value.status.helmRevision == s.store.value.status.helmRevision
            && t.helm.Release? && t.helm.status == (if install then PendingInstall else PendingUpgrade)
            && t.helm.revisions == (if install then [] else s.helm.revisions) + [s.translate(s.store.value.spec)]
            && t.translate == s.translate && t.h.fixes == s.h.fixes
  {
    ContinueAppend(s, UpToTheCall(), CallBegins());
    ReachesTheWrite(s);
    Begins(Continue(s, UpToTheCall()));
    var p, verb := s.store.value, VerbFor(s.helm);
    SetIsMapUpdate(p.status.conditions, Condition("HelmRelease", false, RunningReason(verb), p.generation));
  }

  // The status aside, the object is the same.
  ghost predicate SameObject(s: State, t: State) {
    && s.store.Some? && t.store.Some?
    && t.store.value.spec == s.store.value.spec && t.store.value.generation == s.store.value.generation
  }

  lemma Begins(s: State)
    requires Announces(s)
    ensures var t := Continue(s, CallBegins());
            && t.r.pc == Calling && t.helm == Started(s.helm, s.r.verb, s.r.values) && t.r.verb == s.r.verb
            && t.r.values == s.r.values && SameObject(s, t) && t.store.value.status == s.r.platform.status
            && t.r.platform == t.store.value && t.h.fixes == s.h.fixes && t.translate == s.translate
  {
    ContinueHead(s, CallBegins());
    ContinueHead(Apply(s, WriteStatus(true)), CallBegins()[1..]);
  }

  lemma Ends(s: State)
    requires s.r.pc == Calling && s.helm.Release?
    ensures var t := Continue(s, [EndHelm(true)]);
            && t.r.pc == Refetch2 && t.helm == s.helm.(status := Deployed) && t.store == s.store
            && t.r.platform.status == AfterSuccess(s.r.platform, s.r.verb, |s.helm.revisions|)
            && t.translate == s.translate
  {
    ContinueHead(s, [EndHelm(true)]);
  }

  lemma Calls(s: State)
    requires Announces(s)
    ensures var t := Continue(s, UpToHelm());
            && t.r.pc == Refetch2 && t.helm == Started(s.helm, s.r.verb, s.r.values).(status := Deployed)
            && t.r.platform.status.phase == Ready
            && t.r.platform.status.observedGeneration == s.store.value.generation
            && t.r.platform.status.helmRevision == |t.helm.revisions|
            && AsMap(t.r.platform.status.conditions) ==
               AsMap(s.r.platform.status.conditions)["HelmRelease" :=
                 Condition("HelmRelease", true, SucceededReason(s.r.verb), s.store.value.generation)]
            && SameObject(s, t) && t.translate == s.translate
  {
    Begins(s);
    assert UpToHelm() == CallBegins() + [EndHelm(true)];
    ContinueAppend(s, CallBegins(), [EndHelm(true)]);
    var u := Continue(s, CallBegins());
    Ends(u);
    SetIsMapUpdate(u.r.platform.status.conditions,
                   Condition("HelmRelease", true, SucceededReason(s.r.verb), s.store.value.generation));
  }

  lemma Reports(s: State)
    requires s.r.pc == Refetch2 && s.store.Some? && s.r.platform.status.phase == Ready
    ensures var t := Continue(s, AfterHelm());
            && t.r.pc == Idle && t.result == Done && t.helm == s.helm && SameObject(s, t)
            && t.store.value.status == s.r.platform.status && t.translate == s.translate
  {
    ContinueHead(s, AfterHelm());
    ContinueHead(Apply(s, Refetch(true)), AfterHelm()[1..]);
  }

  // Ready, for the stored generation, over the values of the stored spec, as s stored it.
  ghost predicate Converged(s: State, t: State) {
    && t.r.pc == Idle && t.result == Done && SameObject(s, t)
    && t.store.value.status.phase == Ready && t.store.value.status.observedGeneration == s.store.value.generation
    && t.helm.Release? && t.helm.status == Deployed && |t.helm.revisions| > 0
    && t.helm.revisions[|t.helm.revisions| - 1] == s.translate(s.store.value.spec)
    && t.store.value.status.helmRevision == |t.helm.revisions|
  }

  lemma WholeConverges(s: State)
    requires MayStart(s) && !Pending(s.helm)
    ensures var t := Continue(s, Whole());
            && Converged(s, t)
            && Shows(s.store.value.status, t.store.value.status, Ready, true,
                     if s.helm.Absent? then "InstallSucceeded" else "UpgradeSucceeded", s.store.value.generation)
  {
    ContinueAppend(s, UpToTheCall(), UpToHelm() + AfterHelm());
    ReachesTheWrite(s);
    var t := Continue(s, UpToTheCall());
    ContinueAppend(t, UpToHelm(), AfterHelm());
    Calls(t);
    Reports(Continue(t, UpToHelm()));
    var p, verb := s.store.value, VerbFor(s.helm);
    SetIsMapUpdate(p.status.conditions, Condition("HelmRelease", false, RunningReason(verb), p.generation));
  }

  /* ---- A call that fails ---- */

  function CallFails(): seq<Action> { [WriteStatus(true), BeginHelm(true), EndHelm(false)] }
  // The call is begun and fails, and the failure is written.
  function Failing(): seq<Action> { UpToTheCall() + (CallFails() + AfterHelm()) }

  lemma FailsToEnd(s: State)
    requires s.r.pc == Calling && s.helm.Release?
    ensures var t := Continue(s, [EndHelm(false)]);
            && t.r.pc == Refetch2 && t.helm == s.helm.(status := FailedRelease) && t.store == s.store
            && t.r.platform.status == AfterFailure(s.r.platform, s.r.verb) && t.translate == s.translate
  {
    ContinueHead(s, [EndHelm(false)]);
  }

  lemma ReportsFailure(s: State)
    requires s.r.pc == Refetch2 && s.store.Some? && s.r.platform.status.phase == Failed
    ensures var t := Continue(s, AfterHelm());
            && t.r.pc == Idle && t.result == Error && t.helm == s.helm && SameObject(s, t)
            && t.store.value.status == s.r.platform.status && t.translate == s.translate
  {
    ContinueHead(s, AfterHelm());
    ContinueHead(Apply(s, Refetch(true)), AfterHelm()[1..]);
  }

  lemma CallsInVain(s: State)
    requires Announces(s)
    ensures var t := Continue(s, CallFails());
            && t.r.pc == Refetch2 && t.helm == Started(s.helm, s.r.verb, s.r.values).(status := FailedRelease)
            && SameObject(s, t) && t.translate == s.translate
            && t.r.platform.status.phase == Failed
            && t.r.platform.status.observedGeneration == s.r.platform.status.observedGeneration
            && t.r.platform.status.helmRevision == s.r.platform.status.helmRevision
            && AsMap(t.r.platform.status.conditions) ==
               AsMap(s.r.platform.status.conditions)["HelmRelease" :=
                 Condition("HelmRelease", false, FailedReason(s.r.verb), s.store.value.generation)]
  {
    Begins(s);
    assert CallFails() == CallBegins() + [EndHelm(false)];
    ContinueAppend(s, CallBegins(), [EndHelm(false)]);
    var u := Continue(s, CallBegins());
    FailsToEnd(u);
    SetIsMapUpdate(u.r.platform.status.conditions,
                   Condition("HelmRelease", false, FailedReason(s.r.verb), s.store.value.generation));
  }

  lemma FailsAndReports(s: State)
    requires Announces(s)
    ensures var t := Continue(s, CallFails() + AfterHelm());
            && t.r.pc == Idle && t.result == Error && SameObject(s, t) && t.translate == s.translate
            && t.helm == Started(s.helm, s.r.verb, s.r.values).(status := FailedRelease)
            && t.store.value.status.phase == Failed
            && t.store.value.status.observedGeneration == s.r.platform.status.observedGeneration
            && t.store.value.status.helmRevision == s.r.platform.status.helmRevision
            && AsMap(t.store.value.status.conditions) ==
               AsMap(s.r.platform.status.conditions)["HelmRelease" :=
                 Condition("HelmRelease", false, FailedReason(s.r.verb), s.store.value.generation)]
  {
    ContinueAppend(s, CallFails(), AfterHelm());
    CallsInVain(s);
    ReportsFailure(Continue(s, CallFails()));
  }

  /** A call that fails is reported and is an error: Failed at the generation fetched, the condition False with the
      reason of the call that was made, the release failed with the values that were tried on top. */
  lemma FailureIsReported(s: State)
    requires MayStart(s) && !Pending(s.helm)
    ensures var t := Continue(s, Failing());
            && t.r.pc == Idle && t.result == Error && SameObject(s, t) && t.translate == s.translate
            && Shows(s.store.value.status, t.store.value.status, Failed, false,
                     if s.helm.Absent? then "InstallFailed" else "UpgradeFailed", s.store.value.generation)
            && t.store.value.status.helmRevision == s.store.value.status.helmRevision
            && t.helm.Release? && t.helm.status == FailedRelease
            && t.helm.revisions == (if s.helm.Absent? then [] else s.helm.revisions)
                                   + [s.translate(s.store.value.spec)]
  {
    ContinueAppend(s, UpToTheCall(), CallFails() + AfterHelm());
    ReachesTheWrite(s);
    FailsAndReports(Continue(s, UpToTheCall()));
    var p, verb := s.store.value, VerbFor(s.helm);
    SetIsMapUpdate(p.status.conditions, Condition("HelmRelease", false, RunningReason(verb), p.generation));
  }

  /** And it is made up for: the next fault-free reconcile upgrades to Ready over the values of the stored spec. */
  lemma FailureIsRetried(s: State)
    requires MayStart(s) && !Pending(s.helm)
    ensures Converged(s, Continue(s, Failing() + Whole()))
  {
    ContinueAppend(s, Failing(), Whole());
    FailureIsReported(s);
    WholeConverges(Continue(s, Failing()));
  }

  /** So from creation: an install that fails is reported at generation 1, and the reconcile after it ends Ready. */
  lemma FailedInstallIsRetried(translate: PlatformSpec -> Value, spec: PlatformSpec)
    ensures var s, t := Run(translate, spec, Failing()), Run(translate, spec, Failing() + Whole());
            && s.store.Some? && s.store.value.status.phase == Failed && s.store.value.status.observedGeneration == 1
            && s.result == Error
            && t.store.Some? && t.store.value.spec == spec && t.store.value.status.phase == Ready
            && t.store.value.status.observedGeneration == 1
            && t.helm == Release(Deployed, [translate(spec), translate(spec)])
  {
    FailureIsReported(Init(translate, spec));
    var s := Run(translate, spec, Failing());
    ContinueAppend(Init(translate, spec), Failing(), Whole());
    WholeConverges(s);
    WholeAddsARevision(s);
  }

  lemma WholeAddsARevision(s: State)
    requires MayStart(s) && !Pending(s.helm)
    ensures Continue(s, Whole()).helm ==
            Release(Deployed, (if s.helm.Release? then s.helm.revisions else []) + [s.translate(s.store.value.spec)])
  {
    ContinueAppend(s, UpToTheCall(), UpToHelm() + AfterHelm());
    ReachesTheWrite(s);
    var t := Continue(s, UpToTheCall());
    ContinueAppend(t, UpToHelm(), AfterHelm());
    Calls(t);
    Reports(Continue(t, UpToHelm()));
  }

  /* ---- Repairs ---- */

  // A reconcile that finds a pending release; the steps that do not apply change nothing.
  function RepairRound(): seq<Action> {
    [Fetch(true), Inspect(true), BeginRollback(true), EndRollback(true), Uninstall(true)]
  }

  lemma ReachesTheRepair(s: State)
    requires MayStart(s) && Pending(s.helm)
    ensures var t := Continue(s, RepairRound()[..2]);
            && t.r.pc == (if s.helm.status == PendingInstall then FixUninstall else FixRollback) && t == s.(r := t.r)
  {
    ContinueHead(s, RepairRound()[..2]);
    ContinueHead(Apply(s, Fetch(true)), RepairRound()[..2][1..]);
  }

  lemma RepairEnds(s: State)
    requires s.helm.Release? && (s.r.pc == FixUninstall || s.r.pc == FixRollback)
    ensures var t, n := Continue(s, RepairRound()[2..]), |s.helm.revisions|;
            && t.r.pc == Idle && t.result == Requeue && t.store == s.store && t.translate == s.translate
            && t.helm == if s.r.pc == FixUninstall || n < 2 then Absent
                         else Release(Deployed, s.helm.revisions + [s.helm.revisions[n - 2]])
  {
    ContinueHead(s, RepairRound()[2..]);
    var s1 := Apply(s, BeginRollback(true));
    ContinueHead(s1, RepairRound()[2..][1..]);
    ContinueHead(Apply(s1, EndRollback(true)), RepairRound()[2..][2..]);
  }

  /** What a repair leaves of a pending release, exactly: nothing of an install, nor where there is no revision to go
      back to; otherwise a new revision, deployed, with the values of the one before the current one. */
  lemma RepairLeaves(s: State)
    requires MayStart(s) && s.helm.Release? && s.helm.status in {PendingInstall, PendingUpgrade, PendingRollback}
    ensures var t, n := Continue(s, RepairRound()), |s.helm.revisions|;
            && t.r.pc == Idle && t.result == Requeue && t.store == s.store && t.translate == s.translate
            && t.helm == if s.helm.status == PendingInstall || n < 2 then Absent
                         else Release(Deployed, s.helm.revisions + [s.helm.revisions[n - 2]])
  {
    ContinueAppend(s, RepairRound()[..2], RepairRound()[2..]);
    assert RepairRound()[..2] + RepairRound()[2..] == RepairRound();
    ReachesTheRepair(s);
    RepairEnds(Continue(s, RepairRound()[..2]));
  }

  // The repair in which Helm refuses the rollback, or fails in the middle of it.
  function FailedRollback(begun: bool): seq<Action> { [BeginRollback(begun), EndRollback(false), Uninstall(true)] }

  lemma FallsBack(s: State, begun: bool)
    requires s.r.pc == FixUninstall || s.r.pc == FixRollback
    ensures var t := Continue(s, FailedRollback(begun)); t.helm == Absent && t.r.pc == Idle && t.result == Requeue
  {
    ContinueHead(s, FailedRollback(begun));
    var s1 := Apply(s, BeginRollback(begun));
    ContinueHead(s1, FailedRollback(begun)[1..]);
    ContinueHead(Apply(s1, EndRollback(false)), FailedRollback(begun)[1..][1..]);
  }

  /** A rollback that fails falls back on Uninstall, which leaves no release. */
  lemma FailedRollbackUninstalls(s: State, begun: bool)
    requires MayStart(s) && s.helm.Release? && s.helm.status in {PendingInstall, PendingUpgrade, PendingRollback}
    ensures var t := Continue(s, NextReconcile() + FailedRollback(begun));
            t.helm == Absent && t.r.pc == Idle && t.result == Requeue
  {
    ContinueAppend(s, NextReconcile(), FailedRollback(begun));
    assert NextReconcile() == RepairRound()[..2];
    ReachesTheRepair(s);
    FallsBack(Continue(s, NextReconcile()), begun);
  }

  function NextReconcile(): seq<Action> { [Fetch(true), Inspect(true)] }

  // An upgrade is cut short, and the spec is edited so that the guard lets the next reconcile in.
  function Interrupted(edit: PlatformSpec): seq<Action> { [Crash, EditSpec(edit)] }

  lemma InterruptedMayStart(s: State, edit: PlatformSpec)
    requires s.r.pc == Calling && s.store.Some? && s.store.value.spec != edit
    requires s.store.value.status.observedGeneration == s.store.value.generation
    ensures var t := Continue(s, Interrupted(edit)); MayStart(t) && t.helm == s.helm && t.store.value.spec == edit
  {
    ContinueHead(s, Interrupted(edit));
  }

  /** An upgrade that is cut short is undone: after an edit, which the guard asks for, the next reconcile rolls back to
      the values that were current when the upgrade began, and deploys them. */
  lemma InterruptedUpgradeIsUndone(s: State, edit: PlatformSpec)
    requires MayStart(s) && s.helm.Release? && !Pending(s.helm) && |s.helm.revisions| > 0 && edit != s.store.value.spec
    ensures var t := Continue(s, UpToTheCall() + CallBegins() + (Interrupted(edit) + RepairRound()));
            && t.r.pc == Idle && t.helm.Release? && t.helm.status == Deployed
            && |t.helm.revisions| == |s.helm.revisions| + 2
            && t.helm.revisions[|t.helm.revisions| - 1] == s.helm.revisions[|s.helm.revisions| - 1]
  {
    var begin := UpToTheCall() + CallBegins();
    ContinueAppend(s, begin, Interrupted(edit) + RepairRound());
    AnnouncesTheCall(s);
    var u := Continue(s, begin);
    ContinueAppend(u, Interrupted(edit), RepairRound());
    InterruptedMayStart(u, edit);
    RepairLeaves(Continue(u, Interrupted(edit)));
  }

  // One reconcile, or two when the first has a pending release to repair.
  function FaultFree(helm: Helm): seq<Action> { (if Pending(helm) then RepairRound() else []) + Whole() }

  /** From any state in which the reconciler is idle and the stored object is not skipped, whatever led there and
      whatever state the release is in, one fault-free reconcile - or a repairing one and another - ends with Ready at
      the stored generation and the release deployed with the values of the stored spec. */
  lemma FaultFreeConverges(s: State)
    requires MayStart(s)
    ensures Converged(s, Continue(s, FaultFree(s.helm)))
  {
    if Pending(s.helm) {
      ContinueAppend(s, RepairRound(), Whole());
      RepairLeaves(s);
      WholeConverges(Continue(s, RepairRound()));
    } else {
      assert FaultFree(s.helm) == Whole();
      WholeConverges(s);
    }
  }
}
