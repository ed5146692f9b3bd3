/** The command line and ModelDeploymentReconciler as imperative code against one API server and gateway between
    whose calls every other client acts at will; each call is matched with one step of ModelDeploymentProtocol. */
module ModelDeploymentClients {
  import opened Api
  import opened Conditions
  import opened Kubernetes
  import opened ModelDeploymentProtocol

  // Who a step belongs to: the reconciler, or one command session.
  datatype Client = Reconciler | Command(id: nat)

  predicate Own(c: Client, a: Action) {
    match c
    case Reconciler => !a.Create? && !a.Delete? && !a.Open? && !a.Commit?
    case Command(id) => (a.Open? || a.Commit?) && a.id == id
  }

  // A reconcile step whose call was answered; gateway calls are best-effort.
  predicate Smooth(a: Action) {
    match a
    case Crash => false
    case Deregister(_) => true
    case Register(_) => true
    case Fetch(_, ok) => ok
    case EnsureChildren(ok, _, _) => ok
    case AddFinalizer(ok) => ok
    case RemoveFinalizer(ok) => ok
    case Refetch(ok) => ok
    case WriteStatus(ok) => ok
    case _ => true
  }

  class Cluster {
    var store: map<string, ModelDeployment>
    var clock: nat
    var gateway: set<string>
    var protocol: State   // what every client holds in memory: the sessions and the reconciler in progress
    ghost var log: seq<Action>
    ghost var faults: nat   // how many calls have failed, by error, conflict or a missing object

    ghost predicate Agrees()
      reads this
    {
      protocol == Run(log) && store == protocol.store && clock == protocol.clock && gateway == protocol.gateway
    }

    // What others cannot touch of a client's own progress. So many calls failed meanwhile.
    twostate predicate Untouched(c: Client, failed: nat)
      reads this
    {
      && old(log) <= log && faults == old(faults) + failed
      && (forall i :: |old(log)| <= i < |log| ==> !Own(c, log[i]))
      && match c
         case Reconciler => protocol.r == old(protocol.r)
         case Command(id) => (id in protocol.sessions <==> id in old(protocol.sessions))
                             && (id in protocol.sessions ==> protocol.sessions[id] == old(protocol.sessions[id]))
    }

    // The reconciler got on: it did not crash, and every step of its own since then went through, or a call failed.
    twostate predicate Went(ok: bool)
      reads this
    {
      && old(log) <= log && old(faults) <= faults
      && (!ok ==> old(faults) < faults)
      && forall i :: |old(log)| <= i < |log| ==> !log[i].Crash? && (ok && Own(Reconciler, log[i]) ==> Smooth(log[i]))
    }

    constructor ()
      ensures Agrees() && log == []
    {
      store, clock, gateway, protocol, log, faults := map[], 1, {}, Init(), [], 0;
    }

    // Record one protocol step; the cluster must already be where that step leads.
    method Step(a: Action)
      requires protocol == Run(log)
      requires var next := Apply(protocol, a); store == next.store && clock == next.clock && gateway == next.gateway
      modifies `log, `protocol
      ensures Agrees() && log == old(log) + [a] && protocol == Apply(old(protocol), a)
    {
      assert (log + [a])[..|log|] == log;
      log, protocol := log + [a], Apply(protocol, a);
    }

    // Any number of steps of anybody else.
    method Interfere(c: Client)
      requires Agrees()
      modifies this
      ensures Agrees() && Untouched(c, 0)
    {
      var n: nat := *;
      while n > 0
        invariant Agrees() && Untouched(c, 0)
      {
        var a: Action := *;
        if !Own(c, a) {
          OthersLeaveAlone(protocol, c, a);
          var next := Apply(protocol, a);
          store, clock, gateway := next.store, next.clock, next.gateway;
          Step(a);
        }
        n := n - 1;
      }
    }

    /* ---- API calls ---- */

    method Get(c: Client, name: string) returns (up: bool, md: Option<ModelDeployment>)
      requires Agrees()
      modifies this
      ensures Agrees() && Untouched(c, if md.Some? then 0 else 1)
      ensures md == if up && name in store then Some(store[name]) else None
    {
      Interfere(c);
      up := *;
      md := if up && name in store then Some(store[name]) else None;
      if md.None? { faults := faults + 1; }
    }

    // Compare-and-swap of the whole object: spec and finalizers are taken, an empty deleted object disappears.
    method Update(c: Client, name: string, md: ModelDeployment) returns (up: bool, ok: bool, written: ModelDeployment)
      requires Agrees()
      modifies this
      ensures protocol == Run(log) && Untouched(c, if ok then 0 else 1) && gateway == protocol.gateway
      ensures ok <==> up && Current(protocol, name, md)
      ensures !ok ==> Agrees()
      ensures ok ==> written == Updated(protocol.store[name], md.spec, md.finalizers, protocol.clock)
      ensures ok ==> store == Put(protocol, name, written).store && clock == protocol.clock + 1
    {
      Interfere(c);
      up := *;
      ok, written := up && name in store && store[name].resourceVersion == md.resourceVersion, md;
      if ok {
        written := Updated(store[name], md.spec, md.finalizers, clock);
        store := if written.deleting && written.finalizers == {} then store - {name} else store[name := written];
        clock := clock + 1;
      } else {
        faults := faults + 1;
      }
    }

    /* ---- Gateway calls ---- */

    method DeregisterModel(name: string) returns (ok: bool)
      requires Agrees()
      modifies this
      ensures protocol == Run(log) && Untouched(Reconciler, 0) && store == protocol.store && clock == protocol.clock
      ensures gateway == if ok then protocol.gateway - {name} else protocol.gateway
    {
      Interfere(Reconciler);
      ok := *;
      if ok { gateway := gateway - {name}; }
    }

    method RegisterModel(name: string) returns (ok: bool)
      requires Agrees()
      modifies this
      ensures protocol == Run(log) && Untouched(Reconciler, 0) && store == protocol.store && clock == protocol.clock
      ensures gateway == if ok then protocol.gateway + {name} else protocol.gateway
    {
      Interfere(Reconciler);
      ok := *;
      if ok { gateway := gateway + {name}; }
    }

    method UpdateStatus(name: string, md: ModelDeployment) returns (up: bool, ok: bool, written: ModelDeployment)
      requires Agrees()
      modifies this
      ensures protocol == Run(log) && Untouched(Reconciler, if ok then 0 else 1) && gateway == protocol.gateway
      ensures ok <==> up && Current(protocol, name, md)
      ensures !ok ==> Agrees()
      ensures ok ==> written == StatusUpdated(protocol.store[name], md.status, protocol.clock)
      ensures ok ==> store == Put(protocol, name, written).store && clock == protocol.clock + 1
    {
      Interfere(Reconciler);
      up := *;
      ok, written := up && name in store && store[name].resourceVersion == md.resourceVersion, md;
      if ok {
        written := StatusUpdated(store[name], md.status, clock);
        store := if written.deleting && written.finalizers == {} then store - {name} else store[name := written];
        clock := clock + 1;
      } else {
        faults := faults + 1;
      }
    }
  }

  lemma OthersLeaveAlone(s: State, c: Client, a: Action)
    requires !Own(c, a)
    ensures match c
            case Reconciler => Apply(s, a).r == s.r
            case Command(id) => (id in Apply(s, a).sessions <==> id in s.sessions)
                                && (id in s.sessions ==> Apply(s, a).sessions[id] == s.sessions[id])
  {
  }

  /* ---- The command line ---- */

  // The in-memory object a command changes through a pointer.
  class Draft {
    var md: ModelDeployment

    constructor (md: ModelDeployment)
      ensures this.md == md
    {
      this.md := md;
    }

    method ApplyCanary(target: string, weight: int)
      modifies this
      ensures md == old(md).(spec := old(md.spec).(canary := Some(Canary(target, weight, Resources(0, "", "")))))
    {
      md := md.(spec := md.spec.(canary := Some(Canary(target, weight, Resources(0, "", "")))));
    }

    method ApplyPromote()
      requires md.spec.canary.Some?
      modifies this
      ensures md == old(md).(spec := old(md.spec).(source := old(md.spec.canary.value.source), canary := None))
    {
      md := md.(spec := md.spec.(source := md.spec.canary.value.source));
      md := md.(spec := md.spec.(canary := None));
    }

    method ApplyRollback()
      modifies this
      ensures md == old(md).(spec := old(md.spec).(canary := None))
    {
      md := md.(spec := md.spec.(canary := None));
    }

    method SetReplicas(replicas: int)
      modifies this
      ensures md == old(md).(spec := old(md.spec).(replicas := Some(replicas)))
    {
      md := md.(spec := md.spec.(replicas := Some(replicas)));
    }

    method Run(command: ModelDeploymentProtocol.Command)
      requires Allowed(command, md.spec)
      modifies this
      ensures md == old(md).(spec := Execute(command, old(md.spec)))
    {
      match command {
        case SetCanary(target, weight) => ApplyCanary(target, weight);
        case Promote => ApplyPromote();
        case Rollback => ApplyRollback();
        case Scale(replicas) => SetReplicas(replicas);
        case Edit(spec) => md := md.(spec := spec);
      }
    }
  }

  datatype Outcome = NotFound | NoCanary | DryRun | Committed | Refused

  predicate CommitOf(id: nat, a: Action) { a.Commit? && a.id == id }

  // The last step of the run is this session's commit, made in the state before it.
  ghost predicate EndsWithCommit(log: seq<Action>, id: nat, reached: bool, before: State) {
    log != [] && log[|log| - 1] == Commit(id, reached) && before == Run(log[..|log| - 1])
  }

  // Update with the whole changed object.
  method Send(cluster: Cluster, id: nat, draft: Draft, x: Session)
    returns (outcome: Outcome, ghost before: State, ghost reached: bool)
    requires cluster.Agrees() && id in cluster.protocol.sessions && cluster.protocol.sessions[id] == x
    requires draft.md == x.md.(spec := Execute(x.command, x.md.spec))
    modifies cluster
    ensures cluster.Agrees() && old(cluster.log) < cluster.log && old(cluster.faults) <= cluster.faults
    ensures EndsWithCommit(cluster.log, id, reached, before)
    ensures id in before.sessions && before.sessions[id] == x
    ensures outcome == if reached && Current(before, x.name, x.md) then Committed else Refused
    ensures outcome.Refused? ==> old(cluster.faults) < cluster.faults
  {
    var up, ok, written := cluster.Update(Command(id), x.name, draft.md);
    before, reached := cluster.protocol, up;
    ghost var log := cluster.log;
    cluster.Step(Commit(id, up));
    assert cluster.log[..|cluster.log| - 1] == log;
    outcome := if ok then Committed else Refused;
  }

  /** canary, promote, rollback and scale: get, guard, modify in memory, and unless this is a dry run update. Committed
      is reported exactly when the command's own commit landed, and a run that stops earlier commits nothing. */
  method RunCommand(cluster: Cluster, id: nat, name: string, command: ModelDeploymentProtocol.Command, dryRun: bool)
    returns (outcome: Outcome, ghost before: State, ghost reached: bool)
    requires cluster.Agrees() && id !in cluster.protocol.sessions
    modifies cluster
    ensures cluster.Agrees() && old(cluster.log) <= cluster.log
    ensures outcome.Committed? || outcome.Refused? ==>
              && !dryRun && old(cluster.log) < cluster.log
              && EndsWithCommit(cluster.log, id, reached, before)
              && id in before.sessions
              && before.sessions[id].name == name && before.sessions[id].command == command
              && (outcome.Committed? <==> reached && Current(before, name, before.sessions[id].md))
    ensures outcome.Refused? ==> old(cluster.faults) < cluster.faults
    ensures outcome.NotFound? ==> old(cluster.faults) < cluster.faults
    ensures outcome.NoCanary? ==> command.Promote? || command.Rollback?
    ensures outcome.DryRun? ==> dryRun
    ensures outcome.NotFound? || outcome.NoCanary? || outcome.DryRun? ==>
              forall i :: |old(cluster.log)| <= i < |cluster.log| ==> !CommitOf(id, cluster.log[i])
  {
    before, reached := cluster.protocol, false;
    var up, found := cluster.Get(Command(id), name);
    if found.None? { outcome := NotFound; return; }
    var draft := new Draft(found.value);
    if (command.Promote? || command.Rollback?) && draft.md.spec.canary.None? { outcome := NoCanary; return; }
    cluster.Step(Open(id, name, command));
    draft.Run(command);
    if dryRun { outcome := DryRun; return; }
    outcome, before, reached := Send(cluster, id, draft, Session(name, command, found.value));
  }

  /* ---- The reconciler ---- */

  class ModelDeploymentReconciler {
    const cluster: Cluster
    var md: ModelDeployment   // the object a Reconcile works on, overwritten by every Get and Update

    constructor (cluster: Cluster)
      ensures this.cluster == cluster
    {
      this.cluster, md := cluster, Blank();
    }

    // The in-memory object is the protocol's.
    ghost predicate At(name: string, pc: Pc)
      reads this, cluster
    {
      cluster.Agrees() && cluster.protocol.r == Local(pc, name, md)
    }

    ghost predicate Finished()
      reads this, cluster
    {
      cluster.Agrees() && cluster.protocol.r.pc.Idle?
    }

    // Update with one finalizer more or less; the written object comes back.
    method UpdateFinalizers(name: string, add: bool) returns (ok: bool)
      requires At(name, if add then AddingFinalizer else RemovingFinalizer)
      modifies this, cluster
      ensures cluster.Went(ok)
      ensures if ok && add then At(name, Children) else Finished()
    {
      md := md.(finalizers := if add then md.finalizers + {FINALIZER} else md.finalizers - {FINALIZER});
      var up, written;
      up, ok, written := cluster.Update(Reconciler, name, md);
      cluster.Step(if add then AddFinalizer(up) else RemoveFinalizer(up));
      if ok { md := written; }
    }

    // Best-effort: a failure is logged and the finalizer is removed all the same.
    method Deregister(name: string)
      requires At(name, Deregistering)
      modifies this, cluster
      ensures cluster.Went(true) && At(name, RemovingFinalizer)
    {
      var ok := cluster.DeregisterModel(name);
      cluster.Step(Action.Deregister(ok));
    }

    // The phase from the replica counts, and its condition.
    method ComputeStatus(ready: int, total: int)
      modifies `md
      ensures md == old(md).(status := StatusOf(old(md), ready, total))
    {
      var desired := 1;
      if md.spec.replicas.Some? { desired := md.spec.replicas.value; }
      var phase := Deploying;
      if ready >= desired && desired > 0 {
        phase := Ready;
      } else if ready > 0 {
        phase := Degraded;
      }
      var reason := "ReplicasNotReady";
      if phase == Ready { reason := "AllReplicasReady"; }
      var conditions := SetCondition(md.status.conditions, Condition(READY, phase == Ready, reason, md.generation));
      md := md.(status := Status(phase, ready, total, conditions));
    }

    // PVC, Deployment and Service, then the Deployment's replica counts; the status is computed from them.
    method EnsureChildren(name: string) returns (ok: bool)
      requires At(name, Children)
      modifies this, cluster
      ensures cluster.Went(ok)
      ensures if ok then At(name, Refetching) else Finished()
    {
      cluster.Interfere(Reconciler);
      var ready: int, total: int;
      ok, ready, total := *, *, *;
      if ok { ComputeStatus(ready, total); } else { cluster.faults := cluster.faults + 1; }
      cluster.Step(Action.EnsureChildren(ok, ready, total));
    }

    // Get for the latest version, put the computed status back, Status().Update.
    method ReportStatus(name: string) returns (ok: bool)
      requires At(name, Refetching)
      modifies this, cluster
      ensures cluster.Went(ok)
      ensures if ok && md.status.phase == Ready then At(name, Registering) else Finished()
    {
      var computed := md.status;
      var up, found := cluster.Get(Reconciler, name);
      cluster.Step(Refetch(found.Some?));
      if found.None? { return false; }
      md := found.value.(status := computed);
      ok := WriteStatus(name);
    }

    method WriteStatus(name: string) returns (ok: bool)
      requires At(name, Writing)
      modifies this, cluster
      ensures cluster.Went(ok)
      ensures if ok && md.status.phase == Ready then At(name, Registering) else Finished()
    {
      var up, written;
      up, ok, written := cluster.UpdateStatus(name, md);
      cluster.Step(Action.WriteStatus(up));
      if ok { md := written; }
    }

    method RegisterModel(name: string)
      requires At(name, Registering)
      modifies this, cluster
      ensures cluster.Went(true) && Finished()
    {
      var ok := cluster.RegisterModel(name);
      cluster.Step(Register(ok));
    }

    // Handle deletion: deregister, then release the object.
    method Release(name: string) returns (ok: bool)
      requires At(name, Deregistering)
      modifies this, cluster
      ensures Finished() && cluster.Went(ok)
    {
      Deregister(name);
      ok := UpdateFinalizers(name, false);
    }

    // Children, status, gateway.
    method Work(name: string) returns (ok: bool)
      requires At(name, Children)
      modifies this, cluster
      ensures Finished() && cluster.Went(ok)
    {
      ok := EnsureChildren(name);
      if !ok { return; }
      ok := ReportStatus(name);
      if ok && md.status.phase == Ready { RegisterModel(name); }
    }

    // The first Get.
    method FetchObject(name: string) returns (ok: bool, present: bool)
      requires Finished()
      modifies this, cluster
      ensures cluster.Went(ok) && cluster.Agrees()
      ensures exists i, up :: |old(cluster.log)| <= i < |cluster.log| && cluster.log[i] == Fetch(name, up)
      ensures !present ==> Finished()
      ensures present ==> ok && var held := FINALIZER in md.finalizers;
                var pc := if md.deleting then (if held then Deregistering else Idle)
                          else if held then Children else AddingFinalizer;
                At(name, pc)
    {
      var up, found := cluster.Get(Reconciler, name);
      cluster.Step(Fetch(name, up));
      assert cluster.log[|cluster.log| - 1] == Fetch(name, up);
      ok, present := up, found.Some?;
      if present { md := found.value; }
    }

    /** One reconcile is a piece of a protocol run that starts with a fetch and ends idle; it reports an error only when
        a call failed, and otherwise has gone through every step of the protocol. */
    method Reconcile(name: string) returns (ok: bool)
      requires Finished()
      modifies this, cluster
      ensures Finished() && cluster.Went(ok)
      ensures exists i, up :: |old(cluster.log)| <= i < |cluster.log| && cluster.log[i] == Fetch(name, up)
    {
      var present;
      ok, present := FetchObject(name);
      if !present { return; }
      if md.deleting {
        if FINALIZER in md.finalizers { ok := Release(name); }
        return;
      }
      if FINALIZER !in md.finalizers {
        ok := UpdateFinalizers(name, true);
        if !ok { return; }
      }
      ok := Work(name);
    }
  }
}
