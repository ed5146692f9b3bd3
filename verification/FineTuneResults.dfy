/** What every run of FineTuneProtocol keeps: the life cycle of a fine-tuning run. */
module FineTuneResults {
  import opened Kubernetes
  import opened Conditions
  import opened FineTuneProtocol
  import Workflow

  ghost predicate Coherent(status: Status) {
    && Unique(status.conditions)
    && (Holds(status.conditions, WORKFLOW_READY) <==> status.phase == Succeeded)
  }

  // What Argo has said supports the status.
  ghost predicate Backed(s: State, status: Status) {
    && Coherent(status)
    && (status.phase == Succeeded ==> status.completed && status.workflow in s.h.succeeded)
    && (status.workflow == "" ==> status.phase == Unset || status.phase == Failed)
    && (status.workflow != "" && !Terminal(status.phase) ==>
          && status.started && status.workflow in s.argo
          && (!s.h.resubmitted ==> Rank(status.phase) <= Rank(PhaseFor(s.argo[status.workflow]))))
  }

  // A status that may replace another one.
  predicate Follows(resubmitted: bool, before: Status, after: Status) {
    && !Terminal(before.phase)
    && (!resubmitted ==> Rank(before.phase) <= Rank(after.phase))
    && (before.workflow != "" ==> after.workflow == before.workflow)
  }

  ghost predicate StatusInv(s: State) {
    && (s.store.Some? ==> Backed(s, s.store.value.status))
    && (!s.r.pc.Idle? ==> Backed(s, s.r.ftr.status))
    && (s.store.Some? && (s.r.pc.Syncing? || s.r.pc.Creating?) ==>
          s.store.value.status == s.r.ftr.status && !Terminal(s.r.ftr.status.phase))
    && (s.r.pc.Syncing? ==> s.r.ftr.status.workflow != "" && !Terminal(s.r.ftr.status.phase))
    && (s.r.pc.Creating? ==> s.r.ftr.status.workflow == "" && s.r.ftr.status.phase == Unset)
    && (s.store.Some? && (s.r.pc.Refetching? || s.r.pc.Writing?) ==>
          Follows(s.h.resubmitted, s.store.value.status, s.r.ftr.status))
    && (s.r.pc.Idle? && s.result == Done ==> s.store.None? || Terminal(s.store.value.status.phase))
    && (forall w :: w in s.argo && s.argo[w] == ArgoSucceeded ==> w in s.h.succeeded)
  }

  ghost predicate CountInv(s: State) {
    !s.h.renamed ==>
      && (s.store.Some? && s.store.value.status.workflow == "" ==> NameFor(s, s.store.value.spec) == OwnName(s))
      && (s.r.pc.Creating? ==> NameFor(s, s.r.ftr.spec) == OwnName(s))
      && s.h.made <= {OwnName(s)}
      && s.h.creations <= s.h.removals + if Lives(s, OwnName(s)) then 1 else 0
  }

  lemma SetCoherent(status: Status, c: Condition)
    requires Unique(status.conditions) && c.kind == WORKFLOW_READY
    ensures Unique(Set(status.conditions, c))
    ensures Holds(Set(status.conditions, c), WORKFLOW_READY) <==> c.holds
  {
    SetKeepsOthers(status.conditions, c);
    SetIsMapUpdate(status.conditions, c);
  }

  lemma LostCoherent(f: FineTuneRun, reason: string)
    requires Unique(f.status.conditions)
    ensures Coherent(Lost(f, reason))
  {
    SetCoherent(f.status, Condition(WORKFLOW_READY, false, reason, f.generation));
  }

  lemma OthersKeepStatusInv(s: State, a: Action)
    requires StatusInv(s) && (a.EditSpec? || a.Touch? || a.Delete? || a.InstallCRD? || a.Submit? || a.Crash?)
    ensures StatusInv(Apply(s, a))
  {
  }

  lemma AdvanceKeepsStatusInv(s: State, w: string, phase: ArgoPhase)
    requires StatusInv(s)
    ensures StatusInv(ApplyAdvance(s, w, phase))
  {
  }

  lemma FetchKeepsStatusInv(s: State, ok: bool)
    requires StatusInv(s)
    ensures StatusInv(ApplyFetch(s, ok))
  {
  }

  lemma RefetchKeepsStatusInv(s: State, ok: bool)
    requires StatusInv(s)
    ensures StatusInv(ApplyRefetch(s, ok))
  {
  }

  lemma WriteKeepsStatusInv(s: State, ok: bool)
    requires StatusInv(s)
    ensures StatusInv(ApplyWriteStatus(s, ok))
  {
  }

  lemma SyncKeepsStatusInv(s: State, ok: bool)
    requires StatusInv(s)
    ensures StatusInv(ApplyGetWorkflow(s, ok))
  {
    if s.r.pc.Syncing? {
      var f := s.r.ftr;
      LostCoherent(f, "WorkflowNotFound");
      if Lives(s, f.status.workflow) {
        var p := s.argo[f.status.workflow];
        SetCoherent(f.status, Condition(WORKFLOW_READY, p == ArgoSucceeded, ReasonFor(p), f.generation));
      }
    }
  }

  lemma SubmittedCoherent(f: FineTuneRun, workflow: string)
    requires Unique(f.status.conditions)
    ensures Coherent(Submitted(f, workflow))
  {
    SetCoherent(f.status, Condition(WORKFLOW_READY, false, "WorkflowCreated", f.generation));
  }

  lemma CreateKeepsStatusInv(s: State, fault: Option<ApiError>)
    requires StatusInv(s)
    ensures StatusInv(ApplyCreate(s, fault))
  {
    if s.r.pc.Creating? {
      var w := Workflow.WorkflowName(s.name, s.r.ftr.spec.outputName);
      LostCoherent(s.r.ftr, "ArgoCRDMissing");
      SubmittedCoherent(s.r.ftr, w);
      assert Verdict(s, w, fault).None? ==> w != "" && !Lives(s, w);
    }
  }

  lemma StepKeepsStatusInv(s: State, a: Action)
    requires StatusInv(s)
    ensures StatusInv(Apply(s, a))
  {
    match a
    case Advance(w, phase) => AdvanceKeepsStatusInv(s, w, phase);
    case GetWorkflow(ok) => SyncKeepsStatusInv(s, ok);
    case Create(fault) => CreateKeepsStatusInv(s, fault);
    case Fetch(ok) => FetchKeepsStatusInv(s, ok);
    case Refetch(ok) => RefetchKeepsStatusInv(s, ok);
    case WriteStatus(ok) => WriteKeepsStatusInv(s, ok);
    case _ => OthersKeepStatusInv(s, a);
  }

  lemma CreateKeepsCountInv(s: State, fault: Option<ApiError>)
    requires CountInv(s)
    ensures CountInv(ApplyCreate(s, fault))
  {
    if s.r.pc.Creating? && !s.h.renamed { assert NameFor(s, s.r.ftr.spec) == OwnName(s); }
  }

  lemma EditKeepsCountInv(s: State, spec: Spec)
    requires CountInv(s)
    ensures CountInv(ApplyEdit(s, spec))
  {
  }

  lemma WriteKeepsCountInv(s: State, ok: bool)
    requires StatusInv(s) && CountInv(s)
    ensures CountInv(ApplyWriteStatus(s, ok))
  {
  }

  lemma AdvanceKeepsCountInv(s: State, w: string, phase: ArgoPhase)
    requires CountInv(s)
    ensures CountInv(ApplyAdvance(s, w, phase))
  {
  }

  lemma SubmitKeepsCountInv(s: State, w: string)
    requires CountInv(s)
    ensures CountInv(ApplySubmit(s, w))
  {
  }

  lemma OthersKeepCountInv(s: State, a: Action)
    requires CountInv(s) && !a.Create? && !a.EditSpec? && !a.WriteStatus? && !a.Advance? && !a.Submit?
    ensures CountInv(Apply(s, a))
  {
  }

  lemma StepKeepsCountInv(s: State, a: Action)
    requires StatusInv(s) && CountInv(s)
    ensures CountInv(Apply(s, a))
  {
    if a.Create? { CreateKeepsCountInv(s, a.fault); }
    else if a.EditSpec? { EditKeepsCountInv(s, a.spec); }
    else if a.WriteStatus? { WriteKeepsCountInv(s, a.ok); }
    else if a.Advance? { AdvanceKeepsCountInv(s, a.workflow, a.phase); }
    else if a.Submit? { SubmitKeepsCountInv(s, a.workflow); }
    else { OthersKeepCountInv(s, a); }
  }

  lemma StepKeepsOrigin(s: State, a: Action)
    ensures Apply(s, a).name == s.name && Apply(s, a).created == s.created
  {
  }

  lemma {:induction false} RunsKeepInv(name: string, spec: Spec, actions: seq<Action>)
    ensures var s := Run(name, spec, actions);
            StatusInv(s) && CountInv(s) && s.name == name && s.created == spec
  {
    if actions != [] {
      RunsKeepInv(name, spec, actions[..|actions| - 1]);
      StepKeepsInv(Run(name, spec, actions[..|actions| - 1]), actions[|actions| - 1]);
    }
  }

  lemma StepKeepsInv(s: State, a: Action)
    requires StatusInv(s) && CountInv(s)
    ensures var t := Apply(s, a); StatusInv(t) && CountInv(t) && t.name == s.name && t.created == s.created
  {
    StepKeepsStatusInv(s, a);
    StepKeepsCountInv(s, a);
    StepKeepsOrigin(s, a);
  }

  /* ---- Results ---- */

  /** One step of any run moves the stored status only forward: a terminal status never changes again, a recorded
      workflow name stays, and the rank (unset, Pending, Training, terminal) never falls, unless somebody else has
      submitted the recorded workflow again after a delete. */
  lemma LifeCycleOnlyAdvances(name: string, spec: Spec, actions: seq<Action>, a: Action)
    ensures var s := Run(name, spec, actions);
            var t := Apply(s, a);
            s.store.Some? && t.store.Some? ==>
              var before, after := s.store.value.status, t.store.value.status;
              && (!t.h.resubmitted ==> Rank(before.phase) <= Rank(after.phase))
              && (before.phase == Succeeded || before.phase == Failed ==> after == before)
              && (before.workflow != "" ==> after.workflow == before.workflow)
  {
    RunsKeepInv(name, spec, actions);
    StepOnlyAdvances(Run(name, spec, actions), a);
  }

  lemma StepOnlyAdvances(s: State, a: Action)
    requires StatusInv(s)
    ensures var t := Apply(s, a);
            s.store.Some? && t.store.Some? ==>
              || t.store.value.status == s.store.value.status
              || Follows(t.h.resubmitted, s.store.value.status, t.store.value.status)
  {
  }

  // A fault-free reconcile once a workflow is recorded.
  function SyncRound(): seq<Action> { [Fetch(true), GetWorkflow(true), Refetch(true), WriteStatus(true)] }

  // Whether the run is not over.
  predicate Open(status: Status) { status.phase != Succeeded && status.phase != Failed }

  /** The guard, exactly: a run that is over is left alone, one with a recorded workflow is synchronised, and for any
      other one a workflow is created. */
  lemma GuardDecides(s: State)
    requires s.r.pc.Idle? && s.store.Some?
    ensures var t, status := Continue(s, [Fetch(true)]), s.store.value.status;
            && (t.r.pc.Idle? <==> status.phase == Succeeded || status.phase == Failed)
            && (t.r.pc.Idle? ==> t.result == Done)
            && (t.r.pc.Syncing? <==> Open(status) && status.workflow != "")
            && (t.r.pc.Creating? <==> Open(status) && status.workflow == "")
            && t.store == s.store && t.argo == s.argo
  {
    ContinueHead(s, [Fetch(true)]);
  }

  // What Argo says of a workflow; nothing when it is gone.
  function Says(s: State, w: string): Option<ArgoPhase> {
    if w in s.argo && s.argo[w] != Gone then Some(s.argo[w]) else None
  }

  predicate Ended(argo: Option<ArgoPhase>) { argo in {Some(ArgoSucceeded), Some(ArgoFailed), Some(ArgoError)} }

  function Reason(argo: Option<ArgoPhase>): string {
    match argo
    case None => "WorkflowNotFound"
    case Some(ArgoPending) => "ArgoPhasePending"
    case Some(Running) => "ArgoPhaseRunning"
    case Some(ArgoSucceeded) => "ArgoPhaseSucceeded"
    case Some(ArgoFailed) => "ArgoPhaseFailed"
    case Some(ArgoError) => "ArgoPhaseError"
    case Some(_) => "ArgoPhaseUnknown"
  }

  // The condition for one type replaced, the others as they were.
  ghost predicate Shows(before: Status, after: Status, holds: bool, reason: string, generation: nat) {
    AsMap(after.conditions) ==
    AsMap(before.conditions)["WorkflowReady" := Condition("WorkflowReady", holds, reason, generation)]
  }

  // The status that follows Argo.
  ghost predicate Follow(before: Status, after: Status, argo: Option<ArgoPhase>, generation: nat) {
    && (after.phase == Succeeded <==> argo == Some(ArgoSucceeded))
    && (after.phase == Failed <==> argo in {None, Some(ArgoFailed), Some(ArgoError)})
    && (after.phase == Training <==> argo == Some(Running))
    && (after.phase == Pending <==> argo in {Some(NoPhase), Some(ArgoPending)})
    && after.workflow == before.workflow && after.started == before.started
    && (after.completed <==> before.completed || Ended(argo))
    && Shows(before, after, argo == Some(ArgoSucceeded), Reason(argo), generation)
  }

  lemma SyncComputes(s: State)
    requires s.r.pc.Idle? && s.store.Some? && s.store.value.status.workflow != "" && Open(s.store.value.status)
    ensures var t, before := Continue(s, SyncRound()[..2]), s.store.value.status;
            && t == s.(r := t.r) && t.r.pc.Refetching?
            && Follow(before, t.r.ftr.status, Says(s, before.workflow), s.store.value.generation)
  {
    ContinueHead(s, SyncRound()[..2]);
    ContinueHead(Apply(s, Fetch(true)), SyncRound()[..2][1..]);
    var f := s.store.value;
    SetIsMapUpdate(f.status.conditions, Condition("WorkflowReady", false, "WorkflowNotFound", f.generation));
    if Says(s, f.status.workflow).Some? {
      var p := s.argo[f.status.workflow];
      SetIsMapUpdate(f.status.conditions, Condition("WorkflowReady", p == ArgoSucceeded, ReasonFor(p), f.generation));
    }
  }

  lemma ReportWrites(s: State)
    requires s.r.pc.Refetching? && s.store.Some?
    ensures var t := Continue(s, SyncRound()[2..]);
            && t == s.(store := t.store, clock := t.clock, r := t.r, result := t.result) && t.r.pc.Idle?
            && t.store.Some? && t.store.value.status == s.r.ftr.status
            && t.result == if Open(s.r.ftr.status) then Requeue else Done
  {
    ContinueHead(s, SyncRound()[2..]);
    ContinueHead(Apply(s, Refetch(true)), SyncRound()[2..][1..]);
  }

  /** From any state with a recorded workflow, however it came about, one fault-free reconcile stores what Argo says of
      that workflow now: Succeeded, Training and Pending for just that, Failed for a failure, an error or a workflow
      that is gone; completed once it ended. It is done exactly when the workflow ended or is gone, and otherwise comes
      back. */
  lemma SyncReports(s: State)
    requires s.r.pc.Idle? && s.store.Some? && s.store.value.status.workflow != "" && Open(s.store.value.status)
    ensures var t, before := Continue(s, SyncRound()), s.store.value.status;
            var argo := Says(s, before.workflow);
            && t == s.(store := t.store, clock := t.clock, r := t.r, result := t.result) && t.r.pc.Idle?
            && t.store.Some? && Follow(before, t.store.value.status, argo, s.store.value.generation)
            && t.result == if Ended(argo) || argo.None? then Done else Requeue
  {
    ContinueAppend(s, SyncRound()[..2], SyncRound()[2..]);
    assert SyncRound()[..2] + SyncRound()[2..] == SyncRound();
    SyncComputes(s);
    ReportWrites(Continue(s, SyncRound()[..2]));
  }

  function SubmitRound(fault: Option<ApiError>): seq<Action> {
    [Fetch(true), Create(fault), Refetch(true), WriteStatus(true)]
  }

  // The errors that read as a missing CRD.
  predicate SaysNoCRD(e: ApiError) { e.NoMatch? || (e.StatusError? && (e.reasonIsNotFound || e.code == 404)) }

  lemma SubmitComputes(s: State, fault: Option<ApiError>)
    requires s.r.pc.Idle? && s.store.Some? && s.store.value.status.workflow == "" && Open(s.store.value.status)
    ensures var t, f := Continue(s, SubmitRound(fault)[..2]), s.store.value;
            var w := Workflow.WorkflowName(s.name, f.spec.outputName);
            var missing := if fault.Some? then SaysNoCRD(fault.value) else !s.crd;
            && (t.r.pc.Refetching? <==> missing || (fault.None? && w != "" && Says(s, w).None?))
            && (!t.r.pc.Refetching? ==> t.r.pc.Idle? && t.result == Error)
            && t.store == s.store && t.crd == s.crd
            && (missing ==>
                  && t.argo == s.argo && t.r.ftr.status.phase == Failed && t.r.ftr.status.workflow == ""
                  && t.r.ftr.status.completed == f.status.completed
                  && Shows(f.status, t.r.ftr.status, false, "ArgoCRDMissing", f.generation))
            && (t.r.pc.Refetching? && !missing ==>
                  && t.argo == s.argo[w := NoPhase] && t.r.ftr.status.phase == Pending
                  && t.r.ftr.status.workflow == w && t.r.ftr.status.started
                  && t.r.ftr.status.completed == f.status.completed
                  && Shows(f.status, t.r.ftr.status, false, "WorkflowCreated", f.generation))
            && (t.r.pc.Idle? ==> t.argo == s.argo)
  {
    var f := s.store.value;
    SetIsMapUpdate(f.status.conditions, Condition("WorkflowReady", false, "ArgoCRDMissing", f.generation));
    SetIsMapUpdate(f.status.conditions, Condition("WorkflowReady", false, "WorkflowCreated", f.generation));
    ContinueHead(s, SubmitRound(fault)[..2]);
    ContinueHead(Apply(s, Fetch(true)), SubmitRound(fault)[..2][1..]);
  }

  /** And from any state without one: a workflow that can be created is, and recorded as Pending; a missing CRD - or an
      error that reads as one - is Failed without a completion time, and done; every other error leaves the status, and
      is one. */
  lemma SubmitReports(s: State, fault: Option<ApiError>)
    requires s.r.pc.Idle? && s.store.Some? && s.store.value.status.workflow == "" && Open(s.store.value.status)
    ensures var t, f := Continue(s, SubmitRound(fault)), s.store.value;
            var w := Workflow.WorkflowName(s.name, f.spec.outputName);
            var missing := if fault.Some? then SaysNoCRD(fault.value) else !s.crd;
            && t.r.pc.Idle? && t.store.Some? && t.store.value.status.completed == f.status.completed && t.crd == s.crd
            && if missing then
                 && t.argo == s.argo && t.result == Done && t.store.value.status.phase == Failed
                 && t.store.value.status.workflow == ""
                 && Shows(f.status, t.store.value.status, false, "ArgoCRDMissing", f.generation)
               else if fault.None? && w != "" && Says(s, w).None? then
                 && t.argo == s.argo[w := NoPhase] && t.result == Requeue && t.store.value.status.phase == Pending
                 && t.store.value.status.workflow == w && t.store.value.status.started
                 && Shows(f.status, t.store.value.status, false, "WorkflowCreated", f.generation)
               else t.argo == s.argo && t.result == Error && t.store == s.store
  {
    var acts := SubmitRound(fault);
    ContinueAppend(s, acts[..2], acts[2..]);
    assert acts[..2] + acts[2..] == acts && acts[2..] == SyncRound()[2..];
    SubmitComputes(s, fault);
    var u := Continue(s, acts[..2]);
    if u.r.pc.Refetching? { ReportWrites(u); } else { NothingToReport(u); }
  }

  lemma NothingToReport(s: State)
    requires s.r.pc.Idle?
    ensures Continue(s, SyncRound()[2..]) == s
  {
    ContinueHead(s, SyncRound()[2..]);
    ContinueHead(Apply(s, Refetch(true)), SyncRound()[2..][1..]);
  }

  function Replace(w: string): seq<Action> { [Advance(w, Gone), Submit(w)] }

  lemma Replaces(s: State, w: string)
    requires s.r.pc.Idle? && s.crd && Lives(s, w)
    ensures var t := Continue(s, Replace(w));
            && t == s.(argo := t.argo, h := t.h) && t.argo == s.argo[w := NoPhase]
  {
    ContinueHead(s, Replace(w));
    ContinueHead(Apply(s, Advance(w, Gone)), Replace(w)[1..]);
  }

  /** The condition is needed, and what it lets happen is exactly this: if the recorded workflow is deleted and
      submitted again between two reconciles, the status starts over at Pending, so that its rank falls exactly when it
      was Training. */
  lemma ResubmissionStartsOver(s: State, w: string)
    requires s.r.pc.Idle? && s.crd && s.store.Some? && Lives(s, w) && w != ""
    requires s.store.value.status.workflow == w && Open(s.store.value.status)
    ensures var before, t := s.store.value.status.phase, Continue(s, Replace(w) + SyncRound());
            && t.store.Some? && t.store.value.status.phase == Pending && t.store.value.status.workflow == w
            && (Rank(t.store.value.status.phase) < Rank(before) <==> before == Training)
  {
    ContinueAppend(s, Replace(w), SyncRound());
    Replaces(s, w);
    SyncReports(Continue(s, Replace(w)));
  }

  function FirstReport(): seq<Action> { [InstallCRD(true)] + SubmitRound(None) }

  lemma FirstReportIsPending(name: string, spec: Spec)
    requires Workflow.TrimRight(name) != ""
    ensures var s, w := Run(name, spec, FirstReport()), Workflow.WorkflowName(name, spec.outputName);
            && s.r.pc.Idle? && s.store.Some? && s.argo == map[w := NoPhase] && s.crd && w != ""
            && s.store.value.status.workflow == w && s.store.value.status.phase == Pending
  {
    Workflow.NameIsNonEmpty(name, spec.outputName);
    var s := Init(name, spec);
    ContinueAppend(s, [InstallCRD(true)], SubmitRound(None));
    ContinueHead(s, [InstallCRD(true)]);
    var installed := Continue(s, [InstallCRD(true)]);
    assert installed == s.(crd := true);
    SubmitReports(installed, None);
  }

  function Trains(w: string): seq<Action> { [Advance(w, Running)] + SyncRound() }

  lemma BecomesTraining(s: State, w: string)
    requires s.r.pc.Idle? && s.crd && s.store.Some? && w in s.argo && s.argo[w] == NoPhase && w != ""
    requires s.store.value.status.workflow == w && s.store.value.status.phase == Pending
    ensures var t := Continue(s, Trains(w));
            && t.r.pc.Idle? && t.crd && t.store.Some? && Lives(t, w)
            && t.store.value.status.workflow == w && t.store.value.status.phase == Training
  {
    ContinueAppend(s, [Advance(w, Running)], SyncRound());
    ContinueHead(s, [Advance(w, Running)]);
    var u := Continue(s, [Advance(w, Running)]);
    assert u == Apply(s, Advance(w, Running));
    SyncReports(u);
  }

  /** So there is a run from creation, whatever the run is called and asks for, in which the stored phase falls from
      Training to Pending. */
  lemma TrainingFallsBack(name: string, spec: Spec)
    requires Workflow.TrimRight(name) != ""
    ensures var w := Workflow.WorkflowName(name, spec.outputName);
            var training := FirstReport() + Trains(w);
            var s, t := Run(name, spec, training), Run(name, spec, training + (Replace(w) + SyncRound()));
            && s.store.Some? && s.store.value.status.phase == Training
            && t.store.Some? && t.store.value.status.phase == Pending
  {
    var w := Workflow.WorkflowName(name, spec.outputName);
    var training := FirstReport() + Trains(w);
    FirstReportIsPending(name, spec);
    ContinueAppend(Init(name, spec), FirstReport(), Trains(w));
    BecomesTraining(Run(name, spec, FirstReport()), w);
    ContinueAppend(Init(name, spec), training, Replace(w) + SyncRound());
    ResubmissionStartsOver(Run(name, spec, training), w);
  }

  /** Succeeded is stored only after Argo reported the recorded workflow as succeeded, and always with a completion
      time; the condition is True exactly then. */
  lemma SucceededIsBacked(name: string, spec: Spec, actions: seq<Action>)
    ensures var s := Run(name, spec, actions);
            s.store.Some? ==>
              var status := s.store.value.status;
              && Unique(status.conditions)
              && (Holds(status.conditions, WORKFLOW_READY) <==> status.phase == Succeeded)
              && (status.phase == Succeeded ==> status.completed && status.workflow in s.h.succeeded)
  {
    RunsKeepInv(name, spec, actions);
  }

  /** Unless an edit changes the workflow's name before one is recorded, crashes and lost status writes included: all
      workflows the reconciler creates bear one name, so that two never live at once, and each but the last was deleted
      before the next was created. */
  lemma AtMostOneWorkflow(name: string, spec: Spec, actions: seq<Action>)
    ensures var s := Run(name, spec, actions);
            !s.h.renamed ==>
              && (forall v, w :: v in s.h.made && w in s.h.made && Lives(s, v) && Lives(s, w) ==> v == w)
              && s.h.made <= {Workflow.WorkflowName(name, spec.outputName)}
              && s.h.creations <= s.h.removals + if Lives(s, Workflow.WorkflowName(name, spec.outputName)) then 1 else 0
  {
    RunsKeepInv(name, spec, actions);
  }

  /** A reconcile that finishes without asking to be run again leaves a terminal phase, or no object. */
  lemma DoneMeansTerminal(name: string, spec: Spec, actions: seq<Action>)
    ensures var s := Run(name, spec, actions);
            s.r.pc == Idle && s.result == Done ==>
              s.store.None? || s.store.value.status.phase == Succeeded || s.store.value.status.phase == Failed
  {
    RunsKeepInv(name, spec, actions);
  }

  // A workflow is created, and the operator crashes before its name is recorded.
  function UpToTheCrash(): seq<Action> { [InstallCRD(true), Fetch(true), Create(None), Crash] }
  function Resubmit(spec: Spec): seq<Action> { [EditSpec(spec), Fetch(true), Create(None)] }

  // An unrecorded workflow: it lives, and the stored status does not know of it.
  ghost predicate Orphaned(s: State, w: string) {
    && s.store.Some? && s.store.value.status == EmptyStatus() && NameFor(s, s.store.value.spec) == w && s.crd
        && Lives(s, w)
    && (s.r.pc.Idle? || (s.r.pc.Creating? && NameFor(s, s.r.ftr.spec) == w))
  }

  lemma CreatesBeforeTheCrash(s: State)
    requires s.r.pc.Creating? && s.crd && NameFor(s, s.r.ftr.spec) != "" && s.argo == map[]
    ensures var t, w := Continue(s, [Create(None), Crash]), NameFor(s, s.r.ftr.spec);
            && t.r.pc.Idle? && t.store == s.store && t.crd && t.argo == map[w := NoPhase] && t.name == s.name
            && t.h.creations == s.h.creations + 1 && t.h.made == s.h.made + {w}
  {
    ContinueHead(s, [Create(None), Crash]);
  }

  lemma CrashOrphans(name: string, spec: Spec)
    requires Workflow.TrimRight(name) != ""
    ensures var s, w := Run(name, spec, UpToTheCrash()), Workflow.WorkflowName(name, spec.outputName);
            && Orphaned(s, w) && s.r.pc.Idle? && s.name == name && s.store.value.spec == spec
            && s.argo == map[w := NoPhase] && s.h.creations == 1 && s.h.made == {w}
  {
    var acts := UpToTheCrash();
    Workflow.NameIsNonEmpty(name, spec.outputName);
    ContinueHead(Init(name, spec), acts);
    var s1 := Apply(Init(name, spec), acts[0]);
    ContinueHead(s1, acts[1..]);
    var s2 := Apply(s1, acts[1]);
    assert acts[1..][1..] == [Create(None), Crash];
    CreatesBeforeTheCrash(s2);
  }

  lemma CreateBesideOrphan(s: State, w: string)
    requires s.r.pc.Creating? && s.crd && s.argo == map[w := NoPhase] && NameFor(s, s.r.ftr.spec) != ""
    ensures var t, v := ApplyCreate(s, None), NameFor(s, s.r.ftr.spec);
            if v == w then t.h.creations == s.h.creations && t.result == Error && t.argo == s.argo
            else t.h.creations == s.h.creations + 1 && t.h.made == s.h.made + {v} && Lives(t, v) && Lives(t, w)
  {
  }

  lemma ResubmitAfterOrphan(s: State, w: string, spec: Spec)
    requires Orphaned(s, w) && s.r.pc.Idle? && s.argo == map[w := NoPhase] && NameFor(s, spec) != ""
    ensures var t, v := Continue(s, Resubmit(spec)), NameFor(s, spec);
            if v == w then t.h.creations == s.h.creations && t.result == Error && t.argo == s.argo
            else t.h.creations == s.h.creations + 1 && t.h.made == s.h.made + {v} && Lives(t, v) && Lives(t, w)
  {
    var acts := Resubmit(spec);
    ContinueHead(s, acts);
    var s1 := ApplyEdit(s, spec);
    assert s1.store.Some? && s1.store.value.spec == spec && s1.store.value.status == EmptyStatus();
    ContinueHead(s1, acts[1..]);
    var s2 := ApplyFetch(s1, true);
    ContinueHead(s2, acts[1..][1..]);
    CreateBesideOrphan(s2, w);
  }

  /** The condition is exact: after such a crash and an edit, the next reconcile creates a second workflow beside the
      first if and only if the first eight bytes of the two output names differ, up to trailing dashes. */
  lemma RenameAfterCrashDuplicates(name: string, spec: Spec, edit: Spec)
    requires Workflow.TrimRight(name) != ""
    ensures var t := Run(name, spec, UpToTheCrash() + Resubmit(edit));
            var w, v := Workflow.WorkflowName(name, spec.outputName), Workflow.WorkflowName(name, edit.outputName);
            var first := (o: string) => Workflow.TrimRight(Workflow.First8(o));
            var same := first(spec.outputName) == first(edit.outputName);
            && (t.h.creations == 2 <==> !same) && (t.h.creations == 1 <==> same)
            && (!same ==> w != v && t.h.made == {w, v} && Lives(t, w) && Lives(t, v))
  {
    var s, w := Run(name, spec, UpToTheCrash()), Workflow.WorkflowName(name, spec.outputName);
    ContinueAppend(Init(name, spec), UpToTheCrash(), Resubmit(edit));
    CrashOrphans(name, spec);
    Workflow.NameIsNonEmpty(name, edit.outputName);
    Workflow.NamesShareAWorkflow(name, spec.outputName, edit.outputName);
    ResubmitAfterOrphan(s, w, edit);
  }

  // Nothing touches the orphan, its name or the CRD, and no error of Create reads as a missing CRD.
  predicate LeavesTheOrphan(name: string, w: string, a: Action) {
    match a
    case EditSpec(spec) => Workflow.WorkflowName(name, spec.outputName) == w
    case Delete => false
    case InstallCRD(present) => present
    case Advance(v, phase) => v != w || phase != Gone
    case Create(fault) => fault.Some? ==> !NoCRD(fault.value)
    case _ => true
  }

  lemma StepKeepsOrphan(s: State, w: string, a: Action)
    requires Orphaned(s, w) && w != "" && LeavesTheOrphan(s.name, w, a)
    ensures Orphaned(Apply(s, a), w) && Apply(s, a).name == s.name && Apply(s, a).h.creations == s.h.creations
  {
  }

  lemma {:induction false} OrphanStays(s: State, w: string, later: seq<Action>)
    requires Orphaned(s, w) && w != "" && forall a :: a in later ==> LeavesTheOrphan(s.name, w, a)
    ensures var t := Continue(s, later); Orphaned(t, w) && t.name == s.name && t.h.creations == s.h.creations
  {
    if later != [] {
      OrphanStays(s, w, later[..|later| - 1]);
      StepKeepsOrphan(Continue(s, later[..|later| - 1]), w, later[|later| - 1]);
    }
  }

  /** And without a rename the run is stuck: the orphan is never adopted. Every later reconcile is told that the
      workflow already exists, so the status stays empty, however Argo fares, for as long as the workflow is there. */
  lemma OrphanIsNeverAdopted(name: string, spec: Spec, later: seq<Action>)
    requires Workflow.TrimRight(name) != ""
    requires forall a :: a in later ==> LeavesTheOrphan(name, Workflow.WorkflowName(name, spec.outputName), a)
    ensures var t := Run(name, spec, UpToTheCrash() + later);
            && t.store.Some? && t.store.value.status == EmptyStatus() && t.h.creations == 1
            && Lives(t, Workflow.WorkflowName(name, spec.outputName))
  {
    CrashOrphans(name, spec);
    Workflow.NameIsNonEmpty(name, spec.outputName);
    ContinueAppend(Init(name, spec), UpToTheCrash(), later);
    OrphanStays(Run(name, spec, UpToTheCrash()), Workflow.WorkflowName(name, spec.outputName), later);
  }
}
