/** FineTuneRunReconciler over an API server and Argo, as atomic steps interleaved with spec edits, other writers, Argo
    moving its workflows forward, deleted workflows, failed calls and crashes. */
module FineTuneProtocol {
  import opened Kubernetes
  import opened Conditions
  import Workflow

  datatype Spec = Spec(baseModel: string, outputName: string)
  datatype Phase = Unset | Pending | Training | Succeeded | Failed
  datatype Status = Status(phase: Phase, workflow: string, started: bool, completed: bool, conditions: seq<Condition>)
  type FineTuneRun = Object<Spec, Status>

  const WORKFLOW_READY := "WorkflowReady"

  function EmptyStatus(): Status { Status(Unset, "", false, false, []) }
  predicate Terminal(p: Phase) { p == Succeeded || p == Failed }
  function Rank(p: Phase): nat { if p == Unset then 0 else if p == Pending then 1 else if p == Training then 2 else 3 }

  /* ---- Argo ---- */

  // The phase of a workflow only moves forward; Gone is a deleted workflow, whose name is free again.

  datatype ArgoPhase = NoPhase | ArgoPending | Running | ArgoSucceeded | ArgoFailed | ArgoError | Gone

  function ArgoRank(p: ArgoPhase): nat {
    match p
    case NoPhase => 0
    case ArgoPending => 1
    case Running => 2
    case Gone => 4
    case _ => 3
  }

  // The phase reported for an Argo phase; anything unknown is Pending.
  function PhaseFor(p: ArgoPhase): Phase {
    match p
    case ArgoSucceeded => Succeeded
    case ArgoFailed => Failed
    case ArgoError => Failed
    case Running => Training
    case Gone => Failed
    case _ => Pending
  }

  /* ---- Errors of Create ---- */

  datatype ApiError = StatusError(reasonIsNotFound: bool, code: int) | NoMatch | OtherError

  // isNoCRDError
  predicate NoCRD(e: ApiError) {
    match e
    case StatusError(reasonIsNotFound, code) => reasonIsNotFound || code == 404
    case NoMatch => true
    case OtherError => false
  }

  const ALREADY_EXISTS := StatusError(false, 409)
  const INVALID := StatusError(false, 422)

  /* ---- State ---- */

  datatype Pc = Idle | Syncing | Creating | Refetching | Writing
  datatype Result = Never | Done | Requeue | Error | Crashed
  datatype Local = Local(pc: Pc, ftr: FineTuneRun)

  // Bookkeeping: how many workflows this reconciler created, and which; how often the workflow of the original output
  // name was deleted; whether an edit changed the workflow's name before one was recorded; the workflows Argo has
  // reported as succeeded; and whether somebody else submitted the recorded workflow again after it had been deleted.
  datatype History = History(creations: nat, made: set<string>, removals: nat, renamed: bool, succeeded: set<string>,
                             resubmitted: bool)

  // name is the run's own name, created the spec it was created with.
  datatype State = State(name: string, created: Spec, store: Option<FineTuneRun>, clock: nat,
                         argo: map<string, ArgoPhase>, crd: bool, r: Local, result: Result, h: History)

  datatype Action =
    | EditSpec(spec: Spec) | Touch | Delete | InstallCRD(present: bool)
    | Submit(workflow: string) | Advance(workflow: string, phase: ArgoPhase)   // other users of Argo, and Argo itself
    | Crash
    | Fetch(ok: bool) | GetWorkflow(ok: bool) | Create(fault: Option<ApiError>) | Refetch(ok: bool)
        | WriteStatus(ok: bool)

  function Init(name: string, spec: Spec): State {
    var ftr := Created(spec, EmptyStatus(), {}, 0);
    State(name, spec, Some(ftr), 1, map[], false, Local(Idle, ftr), Never, History(0, {}, 0, false, {}, false))
  }

  /* ---- Steps ---- */

  function Goto(s: State, pc: Pc): State { s.(r := s.r.(pc := pc)) }
  function Return(s: State, result: Result): State { s.(r := s.r.(pc := Idle), result := result) }
  function Report(s: State, status: Status): State { s.(r := Local(Refetching, s.r.ftr.(status := status))) }

  predicate Lives(s: State, workflow: string) { workflow in s.argo && s.argo[workflow] != Gone }

  function NameFor(s: State, spec: Spec): string { Workflow.WorkflowName(s.name, spec.outputName) }
  function OwnName(s: State): string { NameFor(s, s.created) }

  // The edit changes the workflow's name while none is recorded.
  predicate Renames(s: State, f: FineTuneRun, spec: Spec) {
    f.status.workflow == "" && NameFor(s, spec) != NameFor(s, f.spec)
  }

  function ApplyEdit(s: State, spec: Spec): State {
    if s.store.None? then s
    else s.(store := Some(Updated(s.store.value, spec, s.store.value.finalizers, s.clock)), clock := s.clock + 1,
            h := s.h.(renamed := s.h.renamed || Renames(s, s.store.value, spec)))
  }

  function ApplyAdvance(s: State, w: string, phase: ArgoPhase): State {
    if w !in s.argo || ArgoRank(phase) <= ArgoRank(s.argo[w]) then s
    else s.(argo := s.argo[w := phase],
            h := s.h.(removals := s.h.removals + (if phase == Gone && w == OwnName(s) then 1 else 0),
                      succeeded := if phase == ArgoSucceeded then s.h.succeeded + {w} else s.h.succeeded))
  }

  // In the stored status, or in the one about to be stored.
  predicate Recorded(s: State, w: string) {
    (s.store.Some? && s.store.value.status.workflow == w) || (!s.r.pc.Idle? && s.r.ftr.status.workflow == w)
  }

  // Somebody else creates a workflow under a name that is free.
  function ApplySubmit(s: State, w: string): State {
    if !s.crd || Lives(s, w) then s
    else s.(argo := s.argo[w := NoPhase], h := s.h.(resubmitted := s.h.resubmitted || (w in s.argo && Recorded(s, w))))
  }

  function ApplyFetch(s: State, ok: bool): State {
    if !s.r.pc.Idle? then s
    else if !ok then Return(s, Error)
    else if s.store.None? || Terminal(s.store.value.status.phase) then Return(s, Done)
    else s.(r := Local(if s.store.value.status.workflow != "" then Syncing else Creating, s.store.value))
  }

  function Lost(f: FineTuneRun, reason: string): Status {
    f.status.(phase := Failed,
      conditions := Set(f.status.conditions, Condition(WORKFLOW_READY, false, reason, f.generation)))
  }

  // The Argo phase as it appears in the condition's reason.
  function ReasonFor(p: ArgoPhase): string {
    match p
    case NoPhase => "ArgoPhaseUnknown"
    case ArgoPending => "ArgoPhasePending"
    case Running => "ArgoPhaseRunning"
    case ArgoSucceeded => "ArgoPhaseSucceeded"
    case ArgoFailed => "ArgoPhaseFailed"
    case _ => "ArgoPhaseError"
  }

  function Synced(f: FineTuneRun, p: ArgoPhase): Status {
    f.status.(phase := PhaseFor(p), completed := f.status.completed || Terminal(PhaseFor(p)),
      conditions := Set(f.status.conditions, Condition(WORKFLOW_READY, p == ArgoSucceeded, ReasonFor(p), f.generation)))
  }

  function Submitted(f: FineTuneRun, workflow: string): Status {
    f.status.(phase := Pending, workflow := workflow, started := true,
      conditions := Set(f.status.conditions, Condition(WORKFLOW_READY, false, "WorkflowCreated", f.generation)))
  }

  function ApplyGetWorkflow(s: State, ok: bool): State {
    if !s.r.pc.Syncing? then s
    else if !ok then Return(s, Error)
    else if !Lives(s, s.r.ftr.status.workflow) then Report(s, Lost(s.r.ftr, "WorkflowNotFound"))
    else Report(s, Synced(s.r.ftr, s.argo[s.r.ftr.status.workflow]))
  }

  // What Create answers when no other fault gets in the way.
  function Verdict(s: State, workflow: string, fault: Option<ApiError>): Option<ApiError> {
    if fault.Some? then fault
    else if !s.crd then Some(NoMatch)
    else if workflow == "" then Some(INVALID)
    else if Lives(s, workflow) then Some(ALREADY_EXISTS)
    else None
  }

  function ApplyCreate(s: State, fault: Option<ApiError>): State {
    if !s.r.pc.Creating? then s
    else
      var w := NameFor(s, s.r.ftr.spec);
      match Verdict(s, w, fault)
      case Some(e) => if NoCRD(e) then Report(s, Lost(s.r.ftr, "ArgoCRDMissing")) else Return(s, Error)
      case None =>
        Report(s.(argo := s.argo[w := NoPhase], h := s.h.(creations := s.h.creations + 1, made := s.h.made + {w})),
               Submitted(s.r.ftr, w))
  }

  function ApplyRefetch(s: State, ok: bool): State {
    if !s.r.pc.Refetching? then s
    else if !ok || s.store.None? then Return(s, Error)
    else s.(r := Local(Writing, s.store.value.(status := s.r.ftr.status)))
  }

  function ApplyWriteStatus(s: State, ok: bool): State {
    if !s.r.pc.Writing? then s
    else if !ok || s.store.None? || s.store.value.resourceVersion != s.r.ftr.resourceVersion then Return(s, Error)
    else
      var f := StatusUpdated(s.store.value, s.r.ftr.status, s.clock);
      Return(s.(store := Some(f), clock := s.clock + 1, r := s.r.(ftr := f)), if Terminal(f.status.phase) then Done
          else Requeue)
  }

  function Apply(s: State, a: Action): State {
    match a
    case EditSpec(spec) => ApplyEdit(s, spec)
    case Touch => if s.store.None? then s
                  else s.(store := Some(Touched(s.store.value, s.clock)), clock := s.clock + 1)
    case Delete => s.(store := None)
    case InstallCRD(present) => s.(crd := present)
    case Submit(w) => ApplySubmit(s, w)
    case Advance(w, phase) => ApplyAdvance(s, w, phase)
    case Crash => Return(s, Crashed)
    case Fetch(ok) => ApplyFetch(s, ok)
    case GetWorkflow(ok) => ApplyGetWorkflow(s, ok)
    case Create(fault) => ApplyCreate(s, fault)
    case Refetch(ok) => ApplyRefetch(s, ok)
    case WriteStatus(ok) => ApplyWriteStatus(s, ok)
  }

  function Continue(s: State, actions: seq<Action>): State {
    if actions == [] then s else Apply(Continue(s, actions[..|actions| - 1]), actions[|actions| - 1])
  }

  function Run(name: string, spec: Spec, actions: seq<Action>): State { Continue(Init(name, spec), actions) }

  lemma {:induction false} ContinueAppend(s: State, actions: seq<Action>, later: seq<Action>)
    ensures Continue(s, actions + later) == Continue(Continue(s, actions), later)
  {
    if later == [] {
      assert actions + later == actions;
    } else {
      var n := |later| - 1;
      assert (actions + later)[..|actions + later| - 1] == actions + later[..n];
      ContinueAppend(s, actions, later[..n]);
    }
  }

  lemma ContinueHead(s: State, actions: seq<Action>)
    requires actions != []
    ensures Continue(s, actions) == Continue(Apply(s, actions[0]), actions[1..])
  {
    ContinueAppend(s, actions[..1], actions[1..]);
    assert actions[..1] + actions[1..] == actions && actions[..1][..0] == [];
    assert Continue(s, actions[..1]) == Apply(s, actions[0]);
  }
}
