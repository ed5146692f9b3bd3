/** FineTuneRunReconciler as imperative code against an API server and Argo between whose calls everybody else acts at
    will; each call is matched with one step of FineTuneProtocol. */
module FineTuneController {
  import opened Kubernetes
  import opened Conditions
  import opened FineTuneProtocol
  import Workflow

  predicate Own(a: Action) {
    a.Crash? || a.Fetch? || a.GetWorkflow? || a.Create? || a.Refetch? || a.WriteStatus?
  }

  // What others do to the object, Argo and the CRD does not depend on the reconcile in progress, nor touch it.
  lemma OthersLeaveAlone(s: State, world: State, a: Action)
    requires !Own(a) && world.store == s.store && world.clock == s.clock && world.argo == s.argo && world.crd == s.crd
    ensures var t, u := Apply(s, a), Apply(world, a);
            && t.r == s.r && t.result == s.result && t.name == s.name
            && u.store == t.store && u.clock == t.clock && u.argo == t.argo && u.crd == t.crd
  {
  }

  class Cluster {
    var store: Option<FineTuneRun>
    var clock: nat
    var argo: map<string, ArgoPhase>
    var crd: bool
    const name: string
    ghost const created: Spec
    ghost var protocol: State
    ghost var log: seq<Action>
    ghost var faults: nat   // how many calls have failed, by error, conflict or a missing object

    // Everything real is as the protocol says.
    ghost predicate Matches(s: State)
      reads this
    {
      store == s.store && clock == s.clock && argo == s.argo && crd == s.crd
    }

    ghost predicate Traced()
      reads this
    {
      protocol == Run(name, created, log) && protocol.name == name
    }

    ghost predicate Agrees()
      reads this
    {
      Traced() && Matches(protocol)
    }

    // What others cannot touch of the reconcile in progress. So many calls failed meanwhile.
    twostate predicate Untouched(failed: nat)
      reads this
    {
      && old(log) <= log && faults == old(faults) + failed
      && protocol.r == old(protocol.r) && protocol.result == old(protocol.result)
    }

    twostate predicate Grew()
      reads this
    {
      old(log) <= log && old(faults) <= faults
    }

    constructor (name: string, spec: Spec)
      ensures Agrees() && log == [] && this.name == name
    {
      store, clock, argo, crd := Some(Created(spec, EmptyStatus(), {}, 0)), 1, map[], false;
      this.name, created := name, spec;
      protocol, log, faults := Init(name, spec), [], 0;
    }

    // Record one protocol step; the cluster must already be where that step leads.
    ghost method Step(a: Action)
      requires Traced() && Matches(Apply(protocol, a))
      modifies `log, `protocol
      ensures Agrees() && log == old(log) + [a] && protocol == Apply(old(protocol), a)
    {
      assert (log + [a])[..|log|] == log;
      assert Apply(protocol, a).name == protocol.name;
      log, protocol := log + [a], Apply(protocol, a);
    }

    method Interfere()
      requires Agrees()
      modifies this
      ensures Agrees() && Untouched(0)
    {
      var n: nat := *;
      while n > 0
        invariant Agrees() && Untouched(0)
      {
        var a: Action := *;
        if !Own(a) {
          var world := Init(name, Spec("", "")).(store := store, clock := clock, argo := argo, crd := crd);
          OthersLeaveAlone(protocol, world, a);
          var next := Apply(world, a);
          store, clock, argo, crd := next.store, next.clock, next.argo, next.crd;
          Step(a);
        }
        n := n - 1;
      }
    }

    method Get() returns (up: bool, ftr: Option<FineTuneRun>)
      requires Agrees()
      modifies this
      ensures Agrees() && Untouched(if ftr.Some? then 0 else 1)
      ensures ftr == if up then store else None
    {
      Interfere();
      up := *;
      ftr := if up then store else None;
      if ftr.None? { faults := faults + 1; }
    }

    // NotFound is an answer: the workflow was deleted.
    method GetWorkflow(workflow: string) returns (up: bool, found: bool, phase: ArgoPhase)
      requires Agrees()
      modifies this
      ensures Agrees() && Untouched(if up then 0 else 1)
      ensures found <==> up && Lives(protocol, workflow)
      ensures found ==> phase == argo[workflow]
    {
      Interfere();
      up := *;
      found := up && workflow in argo && argo[workflow] != Gone;
      phase := if found then argo[workflow] else NoPhase;
      if !up { faults := faults + 1; }
    }

    method CreateWorkflow(workflow: string) returns (fault: Option<ApiError>, error: Option<ApiError>)
      requires Agrees()
      modifies this
      ensures Traced() && Untouched(if error.Some? then 1 else 0)
      ensures error == Verdict(protocol, workflow, fault)
      ensures store == protocol.store && clock == protocol.clock && crd == protocol.crd
      ensures argo == if error.None? then protocol.argo[workflow := NoPhase] else protocol.argo
    {
      Interfere();
      fault := *;
      error := if fault.Some? then fault
               else if !crd then Some(NoMatch)
               else if workflow == "" then Some(INVALID)
               else if workflow in argo && argo[workflow] != Gone then Some(ALREADY_EXISTS)
               else None;
      if error.None? { argo := argo[workflow := NoPhase]; } else { faults := faults + 1; }
    }

    method UpdateStatus(ftr: FineTuneRun) returns (up: bool, ok: bool, written: FineTuneRun)
      requires Agrees()
      modifies this
      ensures Traced() && Untouched(if ok then 0 else 1) && argo == protocol.argo && crd == protocol.crd
      ensures ok <==> up && protocol.store.Some? && protocol.store.value.resourceVersion == ftr.resourceVersion
      ensures !ok ==> Agrees()
      ensures ok ==> written == StatusUpdated(protocol.store.value, ftr.status, protocol.clock)
      ensures ok ==> store == Some(written) && clock == protocol.clock + 1
    {
      Interfere();
      up := *;
      ok, written := up && store.Some? && store.value.resourceVersion == ftr.resourceVersion, ftr;
      if ok {
        written := StatusUpdated(store.value, ftr.status, clock);
        store, clock := Some(written), clock + 1;
      } else {
        faults := faults + 1;
      }
    }
  }

  class FineTuneRunReconciler {
    const cluster: Cluster
    var ftr: FineTuneRun   // the object a Reconcile works on, overwritten by every Get and Update

    constructor (cluster: Cluster)
      ensures this.cluster == cluster
    {
      this.cluster, ftr := cluster, Created(Spec("", ""), EmptyStatus(), {}, 0);
    }

    ghost predicate At(pc: Pc)
      reads this, cluster
    {
      cluster.Agrees() && cluster.protocol.r == Local(pc, ftr)
    }

    // The reconcile ended with this result; an error means that a call failed.
    twostate predicate Ended(result: Result)
      reads this, cluster
    {
      && cluster.Agrees() && cluster.protocol.r.pc.Idle? && cluster.Grew()
      && result == cluster.protocol.result && result in {Done, Requeue, Error}
      && (result == Error ==> old(cluster.faults) < cluster.faults)
    }

    method SetStatus(status: Status)
      modifies `ftr
      ensures ftr == old(ftr).(status := status)
    {
      ftr := ftr.(status := status);
    }

    // setCondition with the kind's one condition.
    method SetReady(holds: bool, reason: string)
      modifies `ftr
      ensures ftr == old(ftr).(status := old(ftr.status).(
                       conditions := Set(old(ftr.status.conditions),
                           Condition(WORKFLOW_READY, holds, reason, old(ftr.generation)))))
    {
      var conditions := SetCondition(ftr.status.conditions, Condition(WORKFLOW_READY, holds, reason, ftr.generation));
      SetStatus(ftr.status.(conditions := conditions));
    }

    // refetchAndUpdateStatus, and what Reconcile returns after it.
    method RefetchAndUpdateStatus() returns (result: Result)
      requires At(Refetching)
      modifies this, cluster
      ensures Ended(result)
    {
      var status := ftr.status;
      var up, found := cluster.Get();
      cluster.Step(Refetch(found.Some?));
      if found.None? { return Error; }
      ftr := found.value;
      SetStatus(status);
      result := WriteStatus();
    }

    method WriteStatus() returns (result: Result)
      requires At(Writing)
      modifies this, cluster
      ensures Ended(result)
    {
      var up, ok, written := cluster.UpdateStatus(ftr);
      cluster.Step(Action.WriteStatus(up));
      if !ok { return Error; }
      ftr := written;
      result := if ftr.status.phase == Succeeded || ftr.status.phase == Failed then Done else Requeue;
    }

    method Fail(reason: string)
      modifies `ftr
      ensures ftr == old(ftr).(status := Lost(old(ftr), reason))
    {
      SetStatus(ftr.status.(phase := Failed));
      SetReady(false, reason);
    }

    method FollowWorkflow(argoPhase: ArgoPhase)
      requires argoPhase != Gone
      modifies `ftr
      ensures ftr == old(ftr).(status := Synced(old(ftr), argoPhase))
    {
      MapPhase(argoPhase);
      SetReady(argoPhase == ArgoSucceeded, ReasonFor(argoPhase));
    }

    method RecordWorkflow(workflow: string)
      modifies `ftr
      ensures ftr == old(ftr).(status := Submitted(old(ftr), workflow))
    {
      SetStatus(ftr.status.(phase := Pending));
      SetStatus(ftr.status.(workflow := workflow));
      SetStatus(ftr.status.(started := true));
      SetReady(false, "WorkflowCreated");
    }

    // The workflow is recorded: map Argo's phase.
    method SyncWorkflow() returns (result: Result)
      requires At(Syncing)
      modifies this, cluster
      ensures Ended(result)
    {
      var up, found, argoPhase := cluster.GetWorkflow(ftr.status.workflow);
      cluster.Step(GetWorkflow(up));
      if !up { return Error; }
      if found { FollowWorkflow(argoPhase); } else { Fail("WorkflowNotFound"); }
      result := RefetchAndUpdateStatus();
    }

    // The switch over Argo's phase.
    method MapPhase(argoPhase: ArgoPhase)
      requires argoPhase != Gone
      modifies `ftr
      ensures ftr == old(ftr).(status := old(ftr.status).(phase := ftr.status.phase, completed := ftr.status.completed))
      ensures ftr.status.phase == Succeeded <==> argoPhase == ArgoSucceeded
      ensures ftr.status.phase == Failed <==> argoPhase == ArgoFailed || argoPhase == ArgoError
      ensures ftr.status.phase == Training <==> argoPhase == Running
      ensures ftr.status.phase == Pending <==> argoPhase == NoPhase || argoPhase == ArgoPending
      ensures ftr.status.completed <==> old(ftr.status.completed)
                                        || argoPhase in {ArgoSucceeded, ArgoFailed, ArgoError}
    {
      if argoPhase == ArgoSucceeded {
        SetStatus(ftr.status.(phase := Succeeded, completed := true));
      } else if argoPhase == ArgoFailed || argoPhase == ArgoError {
        SetStatus(ftr.status.(phase := Failed, completed := true));
      } else if argoPhase == Running {
        SetStatus(ftr.status.(phase := Training));
      } else {
        SetStatus(ftr.status.(phase := Pending));
      }
    }

    // No workflow is recorded: create one.
    method SubmitWorkflow() returns (result: Result)
      requires At(Creating)
      modifies this, cluster
      ensures Ended(result)
    {
      var workflow := Workflow.WorkflowName(cluster.name, ftr.spec.outputName);
      var fault, error := cluster.CreateWorkflow(workflow);
      cluster.Step(Create(fault));
      if error.Some? {
        if !NoCRD(error.value) { return Error; }
        Fail("ArgoCRDMissing");
      } else {
        RecordWorkflow(workflow);
      }
      result := RefetchAndUpdateStatus();
    }

    /** One reconcile is a piece of a protocol run that starts with a fetch, ends idle and returns what the protocol
        returns; it reports an error only when a call failed. */
    method Reconcile() returns (result: Result)
      requires cluster.Agrees() && cluster.protocol.r.pc.Idle?
      modifies this, cluster
      ensures Ended(result)
      ensures exists i :: |old(cluster.log)| <= i < |cluster.log| && cluster.log[i].Fetch?
    {
      var up, found := cluster.Get();
      cluster.Step(Fetch(up));
      assert cluster.log[|cluster.log| - 1].Fetch?;
      if !up { return Error; }
      if found.None? { return Done; }
      ftr := found.value;
      if ftr.status.phase == Succeeded || ftr.status.phase == Failed { return Done; }
      if ftr.status.workflow != "" {
        result := SyncWorkflow();
      } else {
        result := SubmitWorkflow();
      }
    }
  }
}
