/** The results about LLMPlatform that hold of every run. */
module PlatformResults {
  import opened Kubernetes
  import opened Conditions
  import opened HelmValues
  import opened PlatformProtocol
  import opened PlatformRecovery
  import opened PlatformSafety

  lemma {:induction false} RunKeepsTranslate(s: State, actions: seq<Action>)
    ensures Continue(s, actions).translate == s.translate
  {
    if actions != [] { RunKeepsTranslate(s, actions[..|actions| - 1]); }
  }

  lemma StepKeepsHistory(s: State, a: Action)
    requires !a.Recreate?
    ensures s.h.specs <= Apply(s, a).h.specs
  {
  }

  lemma {:induction false} ContinueKeepsHistory(s: State, actions: seq<Action>)
    requires forall a :: a in actions ==> !a.Recreate?
    ensures s.h.specs <= Continue(s, actions).h.specs
  {
    if actions != [] {
      ContinueKeepsHistory(s, actions[..|actions| - 1]);
      StepKeepsHistory(Continue(s, actions[..|actions| - 1]), actions[|actions| - 1]);
    }
  }

  /** specs[g - 1] really is what the stored spec was at generation g, at any earlier point of the object's life. */
  lemma SpecsAreTheHistory(translate: PlatformSpec -> Value, spec: PlatformSpec, past: seq<Action>, later: seq<Action>)
    requires forall a :: a in later ==> !a.Recreate?
    ensures var s, t := Run(translate, spec, past), Run(translate, spec, past + later);
            s.store.Some? ==> 1 <= s.store.value.generation <= |t.h.specs|
                              && t.h.specs[s.store.value.generation - 1] == s.store.value.spec
  {
    RunsKeepInv(translate, spec, past);
    ContinueAppend(Init(translate, spec), past, later);
    ContinueKeepsHistory(Run(translate, spec, past), later);
  }

  /* ---- Ready is truthful ---- */

  /** In every run, whatever happens, a stored Ready means that the release is deployed, at the recorded revision, with
      the values of the spec that the reporting reconcile had fetched first; they are those of the stored spec exactly
      when the two translate alike. */
  lemma ReadyMeansDeployed(translate: PlatformSpec -> Value, spec: PlatformSpec, actions: seq<Action>)
    ensures var s := Run(translate, spec, actions);
            s.store.Some? && s.store.value.status.phase == Ready ==>
              && Deploys(s.helm, translate(s.h.served))
              && s.store.value.status.helmRevision == |s.helm.revisions|
              && (Deploys(s.helm, translate(s.store.value.spec))
                  <==> translate(s.h.served) == translate(s.store.value.spec))
  {
    RunsKeepInv(translate, spec, actions);
    RunKeepsTranslate(Init(translate, spec), actions);
  }

  /** Unless the reconcile that reported it had fetched an earlier object of the name, that spec is the one of a
      generation of the stored object: a Ready at generation g means the values of the generation first fetched, which
      is g itself unless the spec was edited before the first refetch; so they are those of g exactly when the two
      generations translate alike. */
  lemma ReadyDeploysTheFetchedSpec(translate: PlatformSpec -> Value, spec: PlatformSpec, actions: seq<Action>)
    ensures var s := Run(translate, spec, actions);
            !s.h.basisStale && s.store.Some? && s.store.value.status.phase == Ready ==>
              var g := s.store.value.status.observedGeneration;
              && 1 <= s.h.basis <= g <= |s.h.specs| && s.h.served == s.h.specs[s.h.basis - 1]
              && (s.h.basis == g <==> !s.h.basisEdited)
              && (Deploys(s.helm, translate(s.h.specs[g - 1]))
                  <==> translate(s.h.specs[s.h.basis - 1]) == translate(s.h.specs[g - 1]))
  {
    RunsKeepInv(translate, spec, actions);
    ReadyMeansDeployed(translate, spec, actions);
  }

  predicate ChangesSpec(s: State, a: Action) { a.EditSpec? && s.store.Some? && s.store.value.spec != a.spec }
  predicate Replaces(s: State, a: Action) { a.Recreate? && s.store.None? && !s.r.pc.Idle? }

  // No spec edit ever lands between a reconcile's first Get and its first refetch, and no re-creation during a
  // reconcile.
  ghost predicate QuietWindows(translate: PlatformSpec -> Value, spec: PlatformSpec, actions: seq<Action>) {
    forall i :: 0 <= i < |actions| ==>
      var s := Run(translate, spec, actions[..i]);
      (InWindow(s.r.pc) ==> !ChangesSpec(s, actions[i])) && !Replaces(s, actions[i])
  }

  ghost predicate Quiet(s: State) {
    !s.r.edited && !s.h.basisEdited && !s.h.basisStale && (!s.r.pc.Idle? ==> !s.r.stale)
  }

  lemma StepStaysQuiet(s: State, a: Action)
    requires Quiet(s) && (InWindow(s.r.pc) ==> !ChangesSpec(s, a)) && !Replaces(s, a)
    ensures Quiet(Apply(s, a))
  {
  }

  lemma {:induction false} QuietWindowsAreQuiet(translate: PlatformSpec -> Value, spec: PlatformSpec,
      actions: seq<Action>)
    requires QuietWindows(translate, spec, actions)
    ensures Quiet(Run(translate, spec, actions))
  {
    if actions != [] {
      var n := |actions| - 1;
      forall i | 0 <= i < n
        ensures var s := Run(translate, spec, actions[..n][..i]);
                (InWindow(s.r.pc) ==> !ChangesSpec(s, actions[..n][i])) && !Replaces(s, actions[..n][i])
      {
        assert actions[..n][..i] == actions[..i];
      }
      QuietWindowsAreQuiet(translate, spec, actions[..n]);
      StepStaysQuiet(Run(translate, spec, actions[..n]), actions[n]);
    }
  }

  /** With quiet windows, whatever else happens - edits during and after the Helm call, conflicts, failed calls,
      crashes, repairs, deletes - Ready at generation g means the release carries exactly the translation of the spec
      at g. */
  lemma ReadyIsTruthful(translate: PlatformSpec -> Value, spec: PlatformSpec, actions: seq<Action>)
    requires QuietWindows(translate, spec, actions)
    ensures var s := Run(translate, spec, actions);
            s.store.Some? && s.store.value.status.phase == Ready ==>
              var g := s.store.value.status.observedGeneration;
              && 1 <= g <= |s.h.specs|
              && Deploys(s.helm, translate(s.h.specs[g - 1]))
              && s.store.value.status.helmRevision == |s.helm.revisions|
  {
    ReadyMeansDeployed(translate, spec, actions);
    ReadyDeploysTheFetchedSpec(translate, spec, actions);
    QuietWindowsAreQuiet(translate, spec, actions);
  }

  function UpToTheRefetch(edit: PlatformSpec): seq<Action> {
    [Fetch(true), EditSpec(edit), Inspect(true), GetRelease(true), Refetch(true)]
  }

  lemma RaceReachesTheLookup(translate: PlatformSpec -> Value, spec: PlatformSpec, edit: PlatformSpec)
    requires spec != edit
    ensures var s := Run(translate, spec, UpToTheRefetch(edit)[..3]);
            && s.r.pc == Lookup && s.r.values == translate(spec) && s.helm == Absent
                && s.r.platform.status == EmptyStatus()
            && s.store.Some? && s.store.value.spec == edit && s.store.value.generation == 2
  {
    var s0, acts := Init(translate, spec), UpToTheRefetch(edit)[..3];
    ContinueHead(s0, acts);
    var s1 := Apply(s0, acts[0]);
    ContinueHead(s1, acts[1..]);
    ContinueHead(Apply(s1, acts[1]), acts[2..]);
  }

  lemma RaceReachesTheWrite(translate: PlatformSpec -> Value, spec: PlatformSpec, edit: PlatformSpec)
    requires spec != edit
    ensures var s := Run(translate, spec, UpToTheRefetch(edit));
            && s.r.pc == Write1 && s.r.verb == Install && s.r.values == translate(spec) && s.helm == Absent
            && s.store.Some? && s.store.value.spec == edit
            && s.store.value.generation == s.r.platform.generation == 2
            && s.r.platform.resourceVersion == s.store.value.resourceVersion
  {
    var acts := UpToTheRefetch(edit);
    RaceReachesTheLookup(translate, spec, edit);
    ContinueAppend(Init(translate, spec), acts[..3], acts[3..]);
    assert acts[..3] + acts[3..] == acts;
    var s := Run(translate, spec, acts[..3]);
    ContinueHead(s, acts[3..]);
    ContinueHead(Apply(s, GetRelease(true)), acts[3..][1..]);
  }

  /** The condition is needed: one edit inside the window, and the first install reports Ready for generation 2
      while the release carries generation 1; the generation guard then hides the difference. */
  lemma EditInTheWindowIsHidden(translate: PlatformSpec -> Value, spec: PlatformSpec, edit: PlatformSpec)
    requires translate(spec) != translate(edit)
    ensures var s := Run(translate, spec, UpToTheRefetch(edit) + (UpToHelm() + AfterHelm()));
            && s.store.Some? && s.store.value.spec == edit && s.store.value.status.phase == Ready
            && s.store.value.status.observedGeneration == s.store.value.generation == 2
            && Deploys(s.helm, translate(spec)) && !Deploys(s.helm, translate(edit))
            && s.r.pc == Idle && Skips(s.store.value)
  {
    ContinueAppend(Init(translate, spec), UpToTheRefetch(edit), UpToHelm() + AfterHelm());
    RaceReachesTheWrite(translate, spec, edit);
    var s := Run(translate, spec, UpToTheRefetch(edit));
    ContinueAppend(s, UpToHelm(), AfterHelm());
    Calls(s);
    Reports(Continue(s, UpToHelm()));
  }

  function Replaced(edit: PlatformSpec): seq<Action> { [Delete, Recreate(edit), EndHelm(true)] }

  lemma ReplacedWhileCalling(s: State, edit: PlatformSpec)
    requires s.r.pc == Calling && s.helm == Release(PendingInstall, [s.r.values]) && s.r.platform.generation == 1
    ensures var t := Continue(s, Replaced(edit));
            && t.r.pc == Refetch2 && t.helm == Release(Deployed, [s.r.values])
            && t.store.Some? && t.store.value.spec == edit && t.store.value.generation == 1
            && t.r.platform.status.phase == Ready && t.r.platform.status.observedGeneration == 1
  {
    ContinueHead(s, Replaced(edit));
    var s1 := Apply(s, Delete);
    ContinueHead(s1, Replaced(edit)[1..]);
    ContinueHead(Apply(s1, Recreate(edit)), Replaced(edit)[2..]);
  }

  lemma ReplacedAndReported(s: State, edit: PlatformSpec)
    requires s.r.pc == Calling && s.helm == Release(PendingInstall, [s.r.values]) && s.r.platform.generation == 1
    ensures var t := Continue(s, Replaced(edit) + AfterHelm());
            && t.r.pc == Idle && t.helm == Release(Deployed, [s.r.values]) && t.store.Some?
            && t.store.value.spec == edit && t.store.value.status.phase == Ready
            && t.store.value.status.observedGeneration == t.store.value.generation == 1
  {
    ContinueAppend(s, Replaced(edit), AfterHelm());
    ReplacedWhileCalling(s, edit);
    Reports(Continue(s, Replaced(edit)));
  }

  /** The other half of the condition is needed too: a delete and a re-creation with another spec during the first
      install, with no edit in the window, and Ready at generation 1 is reported on the new object while the release
      carries the values of the old one; the guard skips it. */
  lemma ReplacementIsHidden(translate: PlatformSpec -> Value, spec: PlatformSpec, edit: PlatformSpec)
    ensures var s := Run(translate, spec, UpToTheCall() + (CallBegins() + (Replaced(edit) + AfterHelm())));
            && s.store.Some? && s.store.value.spec == edit && s.store.value.status.phase == Ready
            && s.store.value.status.observedGeneration == s.store.value.generation == 1
            && (Deploys(s.helm, translate(edit)) <==> translate(spec) == translate(edit))
            && s.r.pc == Idle && Skips(s.store.value)
  {
    ContinueAppend(Init(translate, spec), UpToTheCall(), CallBegins() + (Replaced(edit) + AfterHelm()));
    ReachesTheWrite(Init(translate, spec));
    var s := Run(translate, spec, UpToTheCall());
    ContinueAppend(s, CallBegins(), Replaced(edit) + AfterHelm());
    Begins(s);
    ReplacedAndReported(Continue(s, CallBegins()), edit);
  }

  /** And it stays hidden: once the guard skips, nothing but a spec edit or a delete changes the status or Helm. */
  lemma {:induction false} SkippedIsFrozen(s: State, actions: seq<Action>)
    requires s.r.pc == Idle && s.store.Some? && Skips(s.store.value)
    requires forall a :: a in actions ==> !a.EditSpec? && !a.Delete?
    ensures var t := Continue(s, actions);
            && t.r.pc == Idle && t.helm == s.helm && t.store.Some? && Skips(t.store.value)
            && t.store.value.status == s.store.value.status && t.store.value.spec == s.store.value.spec
  {
    if actions != [] {
      SkippedIsFrozen(s, actions[..|actions| - 1]);
    }
  }

  // The reconcile ends after announcing its call without writing how it went: the operator crashed, the refetch
  // failed, or the status write did, by an error or a conflict.
  predicate LosesTheReport(s: State, a: Action) {
    && AfterWrite(s.r.pc) && s.store.Some?
    && (a.Crash? || a.Refetch? || a.WriteStatus?) && Apply(s, a).r.pc.Idle? && Apply(s, a).store == s.store
  }

  /** After a lost report the guard decides: if it lets the object pass, one fault-free reconcile, after another that
      repairs if the call was cut short, brings release and status to the stored spec; if it takes the announced call
      for done, neither the status nor Helm moves again without an edit. As long as no earlier object's reconcile wrote
      to this one, the report is lost for good if and only if the object is the one that was fetched, and unedited
      since. */
  lemma LostReport(translate: PlatformSpec -> Value, spec: PlatformSpec, actions: seq<Action>, a: Action,
      later: seq<Action>)
    requires LosesTheReport(Run(translate, spec, actions), a)
    requires forall x :: x in later ==> !x.EditSpec? && !x.Delete?
    ensures var s := Run(translate, spec, actions);
            var lost := Apply(s, a);
            var t := Continue(lost, later);
            && (!s.h.tainted ==>
                  (Skips(s.store.value) <==> !s.r.stale && s.store.value.generation == s.r.fetched))
            && if Skips(s.store.value) then
                 t.store.Some? && t.store.value.status == s.store.value.status && t.helm == s.helm
               else MayStart(lost) && Converged(lost, Continue(lost, FaultFree(lost.helm)))
  {
    var s := Run(translate, spec, actions);
    RunsKeepInv(translate, spec, actions);
    LosingLeavesHelm(s, a);
    if !s.h.tainted { GuardAfterTheLoss(s); }
    if Skips(s.store.value) { SkippedIsFrozen(Apply(s, a), later); } else { FaultFreeConverges(Apply(s, a)); }
  }

  lemma GuardAfterTheLoss(s: State)
    requires Inv(s) && !s.h.tainted && AfterWrite(s.r.pc) && s.store.Some?
    ensures Skips(s.store.value) <==> !s.r.stale && s.store.value.generation == s.r.fetched
  {
  }

  lemma LosingLeavesHelm(s: State, a: Action)
    requires LosesTheReport(s, a)
    ensures Apply(s, a).helm == s.helm
  {
  }

  /** Losing it takes no crash: an answer to the refetch or to the status write that does not come, or an annotation by
      somebody else in between, is enough. */
  lemma WaysToLoseTheReport(s: State)
    requires s.store.Some?
    ensures AfterWrite(s.r.pc) ==> LosesTheReport(s, Crash)
    ensures s.r.pc.Refetch2? ==> LosesTheReport(s, Refetch(false))
    ensures s.r.pc.Write2? ==> LosesTheReport(s, WriteStatus(false))
    ensures s.r.pc.Write2? && s.r.platform.resourceVersion < s.clock
        ==> LosesTheReport(Apply(s, Touch), WriteStatus(true))
  {
  }

  /* ---- The upgrade loop ---- */

  /** Every Helm install or upgrade made for an object is paid for by a generation or by a failed call: with a working
      Helm the operator makes at most one call per generation, however often it crashes or loses a status write. */
  lemma HelmCallsArePaidFor(translate: PlatformSpec -> Value, spec: PlatformSpec, actions: seq<Action>)
    ensures var s := Run(translate, spec, actions);
            !s.h.tainted && s.store.Some? ==>
              var status := s.store.value.status;
              && s.h.calls + (if status.phase == Failed then 1 else 0) <= status.observedGeneration + s.h.failures
              && status.observedGeneration <= s.store.value.generation
  {
    RunsKeepInv(translate, spec, actions);
  }

  lemma ObservedGenerationNeverFalls(translate: PlatformSpec -> Value, spec: PlatformSpec, actions: seq<Action>,
      a: Action)
    ensures var s, t := Run(translate, spec, actions), Run(translate, spec, actions + [a]);
            s.store.Some? && t.store.Some? && !t.h.tainted
            ==> s.store.value.status.observedGeneration <= t.store.value.status.observedGeneration
  {
    ContinueAppend(Init(translate, spec), actions, [a]);
    assert Continue(Run(translate, spec, actions), [a]) == Apply(Run(translate, spec, actions), a);
    RunsKeepInv(translate, spec, actions);
    StepRaisesObserved(Run(translate, spec, actions), a);
  }

  lemma StepRaisesObserved(s: State, a: Action)
    requires Inv(s)
    ensures var t := Apply(s, a);
            s.store.Some? && t.store.Some? && !t.h.tainted
            ==> s.store.value.status.observedGeneration <= t.store.value.status.observedGeneration
  {
    if s.h.tainted && !a.Recreate? { StaysTainted(s, a); }
  }

  /* ---- Stuck releases ---- */

  /** In every run, when Helm is about to be called: Install finds no release and Upgrade one with no pending operation
      if and only if no query of this reconcile failed on a release that mattered - FixStuckRelease's on a pending one,
      the lookup's on any. Whether Uninstall works plays no part. */
  lemma HelmIsCalledOnSoundReleases(translate: PlatformSpec -> Value, spec: PlatformSpec, actions: seq<Action>)
    ensures var s := Run(translate, spec, actions);
            s.r.pc == Call ==>
              ((if s.r.verb == Install then s.helm.Absent? else s.helm.Release? && !Pending(s.helm)) <==> !s.r.blind)
  {
    RunsKeepInv(translate, spec, actions);
  }

  /** Every repair, and a release still stuck, is paid for by an interrupted Helm call or by an earlier repair whose
      Uninstall failed on a pending release. */
  lemma RepairsArePaidFor(translate: PlatformSpec -> Value, spec: PlatformSpec, actions: seq<Action>)
    ensures var s := Run(translate, spec, actions);
            s.h.fixes + (if s.r.pc == Idle && Pending(s.helm) then 1 else 0) <= s.h.interrupted + s.h.stuckFixes
  {
    RunsKeepInv(translate, spec, actions);
  }

  lemma InspectsAgain(s: State)
    requires s.r.pc == Idle && s.store.Some? && !Skips(s.store.value)
    ensures Fixing(Continue(s, NextReconcile()).r.pc) <==> Pending(s.helm)
  {
    ContinueHead(s, NextReconcile());
  }

  /** The fix-and-requeue branch is taken twice in a row if and only if the first time its Uninstall fails and the
      release is still pending: a rollback that ran and failed leaves a failed release, which does not loop even if
      Uninstall then fails. */
  lemma SecondFixExactly(translate: PlatformSpec -> Value, spec: PlatformSpec, actions: seq<Action>, ok: bool)
    requires var s := Run(translate, spec, actions); s.r.pc == FixUninstall && s.store.Some? && !s.h.tainted
    ensures var s := Run(translate, spec, actions);
            var t := Apply(s, Uninstall(ok));
            && t.result == Requeue && t.r.pc == Idle
            && (Fixing(Continue(t, NextReconcile()).r.pc) <==> !ok && Pending(s.helm))
  {
    var s := Run(translate, spec, actions);
    RunsKeepInv(translate, spec, actions);
    FixingIsNotSkipped(s);
    InspectsAgain(Apply(s, Uninstall(ok)));
  }

  lemma FixingIsNotSkipped(s: State)
    requires Inv(s) && s.r.pc == FixUninstall && s.store.Some? && !s.h.tainted
    ensures !Skips(s.store.value)
  {
  }

  ghost predicate Repaired(s: State) { !Fixing(s.r.pc) && !s.r.pc.Calling? && !Pending(s.helm) }

  /** And from any point of any run at which the reconciler is idle: if the release is not pending, no repair is made
      before Helm is called again, whatever fails or crashes; if it is, and the object is there and not skipped, the
      next reconcile repairs. */
  lemma {:induction false} NoSecondFix(translate: PlatformSpec -> Value, spec: PlatformSpec, actions: seq<Action>,
      later: seq<Action>)
    requires Run(translate, spec, actions).r.pc == Idle
    requires forall a :: a in later ==> !a.BeginHelm?
    ensures var s := Run(translate, spec, actions);
            && (!Pending(s.helm) ==> Continue(s, later).h.fixes == s.h.fixes && Repaired(Continue(s, later)))
            && (Pending(s.helm) && s.store.Some? && !Skips(s.store.value) ==> Fixing(Continue(s, NextReconcile()).r.pc))
  {
    var s := Run(translate, spec, actions);
    if !Pending(s.helm) { RepairedStays(s, later); }
    if s.store.Some? && !Skips(s.store.value) { InspectsAgain(s); }
  }

  lemma {:induction false} RepairedStays(s: State, later: seq<Action>)
    requires Repaired(s) && forall a :: a in later ==> !a.BeginHelm?
    ensures Continue(s, later).h.fixes == s.h.fixes && Repaired(Continue(s, later))
  {
    if later != [] {
      RepairedStays(s, later[..|later| - 1]);
      StepKeepsRepaired(Continue(s, later[..|later| - 1]), later[|later| - 1]);
    }
  }

  lemma StepKeepsRepaired(s: State, a: Action)
    requires Repaired(s) && !a.BeginHelm?
    ensures Repaired(Apply(s, a)) && Apply(s, a).h.fixes == s.h.fixes
  {
  }

  // The first install is cut short, and the spec is edited so that the guard lets the next reconcile in.
  function CutShort(edit: PlatformSpec): seq<Action> { [Crash, EditSpec(edit)] }
  function FixInVain(): seq<Action> { [Fetch(true), Inspect(true), Uninstall(false)] }
  function Rounds(n: nat): seq<Action> { if n == 0 then [] else Rounds(n - 1) + FixInVain() }

  // A release left pending by an install, and an object that is not skipped.
  ghost predicate InTheLoop(s: State) {
    && s.r.pc == Idle && s.store.Some? && !Skips(s.store.value) && s.helm.Release? && s.helm.status == PendingInstall
  }

  lemma OneRoundInVain(s: State)
    requires InTheLoop(s)
    ensures var t := Continue(s, FixInVain());
            && InTheLoop(t) && t.store == s.store && t.helm == s.helm
            && t.result == Requeue && t.h.fixes == s.h.fixes + 1 && t.h.stuckFixes == s.h.stuckFixes + 1
  {
    ContinueHead(s, FixInVain());
    var s1 := Apply(s, Fetch(true));
    ContinueHead(s1, FixInVain()[1..]);
    ContinueHead(Apply(s1, Inspect(true)), FixInVain()[2..]);
  }

  lemma {:induction false} RoundsInVain(s: State, n: nat)
    requires InTheLoop(s)
    ensures var t := Continue(s, Rounds(n)); InTheLoop(t) && t.helm == s.helm && t.h.fixes == s.h.fixes + n
  {
    if n > 0 {
      RoundsInVain(s, n - 1);
      ContinueAppend(s, Rounds(n - 1), FixInVain());
      OneRoundInVain(Continue(s, Rounds(n - 1)));
    }
  }

  lemma CutShortIsPending(s: State, edit: PlatformSpec)
    requires s.r.pc == Calling && s.store.Some? && s.store.value.spec != edit && s.helm.Release?
        && s.helm.status == PendingInstall
    requires s.store.value.status.observedGeneration == s.store.value.generation
    ensures var t := Continue(s, CutShort(edit)); InTheLoop(t) && t.helm == s.helm && t.h.fixes == s.h.fixes
  {
    ContinueHead(s, CutShort(edit));
  }

  /** So there are runs without end: an install cut short by a crash, an edit, and an Uninstall that keeps failing -
      after n reconciles, n repairs have been made and the release is as pending as before. */
  lemma FailingUninstallLoops(translate: PlatformSpec -> Value, spec: PlatformSpec, edit: PlatformSpec, n: nat)
    requires spec != edit
    ensures var t := Run(translate, spec, UpToTheCall() + (CallBegins() + (CutShort(edit) + Rounds(n))));
            t.h.fixes == n && t.r.pc == Idle && t.helm == Release(PendingInstall, [translate(spec)])
  {
    ContinueAppend(Init(translate, spec), UpToTheCall(), CallBegins() + (CutShort(edit) + Rounds(n)));
    ReachesTheWrite(Init(translate, spec));
    var s := Run(translate, spec, UpToTheCall());
    NoFixesYet(translate, spec);
    ContinueAppend(s, CallBegins(), CutShort(edit) + Rounds(n));
    Begins(s);
    var t := Continue(s, CallBegins());
    ContinueAppend(t, CutShort(edit), Rounds(n));
    CutShortIsPending(t, edit);
    RoundsInVain(Continue(t, CutShort(edit)), n);
  }

  lemma NoFixesYet(translate: PlatformSpec -> Value, spec: PlatformSpec)
    ensures Run(translate, spec, UpToTheCall()).h.fixes == 0
  {
    var s0, acts := Init(translate, spec), UpToTheCall();
    RepairedStays(s0, acts);
  }

  /* ---- Conditions ---- */

  /** Condition types never repeat, and HelmRelease is True exactly when the phase is Ready. */
  lemma ConditionTracksPhase(translate: PlatformSpec -> Value, spec: PlatformSpec, actions: seq<Action>)
    ensures var s := Run(translate, spec, actions);
            s.store.Some? ==>
              && Unique(s.store.value.status.conditions)
              && (Holds(s.store.value.status.conditions, HELM_RELEASE) <==> s.store.value.status.phase == Ready)
  {
    RunsKeepInv(translate, spec, actions);
  }
}
