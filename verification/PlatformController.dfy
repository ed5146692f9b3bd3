/** LLMPlatformReconciler as the imperative code it is, run against an API server and a Helm client between whose
    calls other clients act at will. Each call is matched with one step of PlatformProtocol, so whatever the
    protocol keeps over every run, the code keeps. */
module PlatformController {
  import opened Kubernetes
  import opened Conditions
  import opened HelmValues
  import opened PlatformProtocol
  import PlatformResults
  import Translation

  datatype Response = Failed404 | FailedCall | Found(platform: Platform)

  class Cluster {
    var store: Option<Platform>
    var clock: nat
    var helm: Helm
    ghost var faults: nat   // how many API calls have failed, by error, conflict or a missing object
    ghost const created: PlatformSpec   // the spec the platform was created with
    ghost var log: seq<Action>
    ghost var protocol: State

    // The protocol state is a run, and it agrees with the cluster.
    ghost predicate Agrees()
      reads this
    {
      && protocol == Run(Translate, created, log)
      && store == protocol.store && clock == protocol.clock && helm == protocol.helm
    }

    // What other clients cannot touch: Helm and the reconcile in progress. So many calls failed meanwhile.
    twostate predicate Untouched(failed: nat)
      reads this
    {
      && helm == old(helm) && protocol.helm == old(protocol.helm)
      && protocol.r.(edited := old(protocol.r.edited), stale := old(protocol.r.stale)) == old(protocol.r)
      && protocol.result == old(protocol.result)
      && old(log) <= log && faults == old(faults) + failed
      && forall i :: |old(log)| <= i < |log| ==> !log[i].Fetch?
    }

    twostate predicate Grew()
      reads this
    {
      old(log) <= log && old(faults) <= faults
    }

    constructor (spec: PlatformSpec)
      ensures Agrees() && log == [] && protocol.r.pc == Idle && created == spec
    {
      store, clock, helm := Some(Created(spec, EmptyStatus(), {}, 0)), 1, Absent;
      created, log, protocol, faults := spec, [], Init(Translate, spec), 0;
    }

    // Record one protocol step; the cluster must already be where that step leads.
    ghost method Step(a: Action)
      requires protocol == Run(Translate, created, log)
      requires var next := Apply(protocol, a); store == next.store && clock == next.clock && helm == next.helm
      modifies `log, `protocol
      ensures Agrees() && log == old(log) + [a] && protocol == Apply(old(protocol), a)
    {
      assert (log + [a])[..|log|] == log;
      log, protocol := log + [a], Apply(protocol, a);
    }

    // Any number of spec edits, metadata writes, deletes and re-creations by others.
    method Interfere()
      requires Agrees()
      modifies this
      ensures Agrees() && Untouched(0)
    {
      var n: nat := *;
      while n > 0
        invariant Agrees() && Untouched(0)
      {
        var spec: PlatformSpec, kind: int := *, *;
        if kind == 0 {
          store := None;
          Step(Delete);
        } else if store.None? {
          store, clock := Some(Created(spec, EmptyStatus(), {}, clock)), clock + 1;
          Step(Recreate(spec));
        } else if kind == 1 && store.Some? {
          store, clock := Some(Touched(store.value, clock)), clock + 1;
          Step(Touch);
        } else if store.Some? && store.value.spec != spec {
          store, clock := Some(Updated(store.value, spec, store.value.finalizers, clock)), clock + 1;
          Step(EditSpec(spec));
        }
        n := n - 1;
      }
    }

    /* ---- API server ---- */

    method Get() returns (r: Response)
      requires Agrees()
      modifies this
      ensures Agrees() && Untouched(if r.Found? then 0 else 1)
      ensures r.Found? ==> store == Some(r.platform)
      ensures r.Failed404? ==> store == None
    {
      Interfere();
      var up: bool := *;
      r := if !up then FailedCall else if store.None? then Failed404 else Found(store.value);
      if !r.Found? { faults := faults + 1; }
    }

    // Status().Update: compare-and-swap on the resource version; the written object comes back.
    method UpdateStatus(p: Platform) returns (ok: bool, written: Platform)
      requires Agrees()
      modifies this
      ensures protocol == Run(Translate, created, log) && Untouched(if ok then 0 else 1)
      ensures !ok ==> Agrees()
      ensures ok ==> protocol.store.Some? && protocol.store.value.resourceVersion == p.resourceVersion
      ensures ok ==> written == StatusUpdated(protocol.store.value, p.status, protocol.clock)
      ensures ok ==> store == Some(written) && clock == protocol.clock + 1
    {
      Interfere();
      var up: bool := *;
      ok, written := up && store.Some? && store.value.resourceVersion == p.resourceVersion, p;
      if ok {
        written := StatusUpdated(store.value, p.status, clock);
        store, clock := Some(written), clock + 1;
      } else {
        faults := faults + 1;
      }
    }

    /* ---- Helm ---- */

    method GetRelease() returns (ok: bool, release: Helm)
      requires Agrees()
      modifies this
      ensures Agrees() && Untouched(0)
      ensures release == if ok then helm else Absent
    {
      Interfere();
      ok := *;
      release := if ok then helm else Absent;
    }

    method Uninstall() returns (ok: bool)
      requires Agrees() && protocol.r.pc == FixUninstall
      modifies this
      ensures Agrees() && protocol.r.pc == Idle && protocol.result == Requeue && Grew()
    {
      Interfere();
      ok := *;
      if ok { helm := Absent; }
      Step(Action.Uninstall(ok));
    }

    method Rollback() returns (ok: bool)
      requires Agrees() && protocol.r.pc == FixRollback
      modifies this
      ensures Agrees() && Grew()
      ensures if ok then protocol.r.pc == Idle && protocol.result == Requeue else protocol.r.pc == FixUninstall
    {
      Interfere();
      var accepted: bool := *;
      ok := accepted && CanRollBack(helm);
      if ok { helm := RollbackStarted(helm); }
      Step(BeginRollback(accepted));
      if ok {
        Interfere();
        ok := *;
        helm := Finished(helm, ok);
        Step(EndRollback(ok));
      }
    }

    method Begin(verb: Verb, values: Value) returns (ok: bool)
      requires Agrees() && protocol.r.pc == Call && verb == protocol.r.verb && values == protocol.r.values
      modifies this
      ensures Agrees() && Grew() && protocol.r.verb == old(protocol.r.verb)
      ensures !ok ==> old(faults) < faults
      ensures var p := old(protocol.r.platform);
              if ok then protocol.r.pc == Calling && protocol.r.platform == p
              else protocol.r.pc == Refetch2 && protocol.r.platform == p.(status := AfterFailure(p, verb))
    {
      Interfere();
      var accepted: bool := *;
      ok := accepted && Accepts(helm, verb);
      if ok { helm := Started(helm, verb, values); } else { faults := faults + 1; }
      Step(BeginHelm(accepted));
    }

    method End() returns (ok: bool, revision: nat)
      requires Agrees() && protocol.r.pc == Calling
      modifies this
      ensures Agrees() && Grew() && protocol.r.verb == old(protocol.r.verb) && protocol.r.pc == Refetch2
      ensures !ok ==> old(faults) < faults
      ensures var p, verb := old(protocol.r.platform), old(protocol.r.verb);
              protocol.r.platform == p.(status := if ok then AfterSuccess(p, verb, revision) else AfterFailure(p, verb))
    {
      Interfere();
      ok := *;
      helm := Finished(helm, ok);
      if !ok || helm.Absent? { faults := faults + 1; }
      Step(EndHelm(ok));
      ok, revision := ok && helm.Release?, if helm.Release? then |helm.revisions| else 0;
    }

    // Install or Upgrade: refused outright, or begun and then finished either way.
    method Deploy(verb: Verb, values: Value) returns (ok: bool, revision: nat)
      requires Agrees() && protocol.r.pc == Call && verb == protocol.r.verb && values == protocol.r.values
      modifies this
      ensures Agrees() && Grew() && protocol.r.verb == old(protocol.r.verb) && protocol.r.pc == Refetch2
      ensures !ok ==> old(faults) < faults
      ensures var p := old(protocol.r.platform);
              protocol.r.platform == p.(status := if ok then AfterSuccess(p, verb, revision) else AfterFailure(p, verb))
    {
      revision := 0;
      ok := Begin(verb, values);
      if ok { ok, revision := End(); }
    }

    // FixStuckRelease. Errors of Rollback lead to Uninstall, errors of Uninstall are dropped.
    method FixStuckRelease() returns (fixed: bool)
      requires Agrees() && protocol.r.pc == FixCheck
      modifies this
      ensures Agrees() && Grew()
      ensures if fixed then protocol.r.pc == Idle && protocol.result == Requeue
              else protocol.r.(edited := old(protocol.r.edited), stale := old(protocol.r.stale),
                               blind := old(protocol.r.blind)) == old(protocol.r).(pc := Lookup)
    {
      var ok, release := GetRelease();
      Step(Inspect(ok));
      if release.Absent? { return false; }
      match release.status {
        case PendingInstall =>
          var _ := Uninstall();
          return true;
        case PendingUpgrade =>
          var rolledBack := Rollback();
          if !rolledBack { var _ := Uninstall(); }
          return true;
        case PendingRollback =>
          var rolledBack := Rollback();
          if !rolledBack { var _ := Uninstall(); }
          return true;
        case _ =>
          return false;
      }
    }
  }

  class LLMPlatformReconciler {
    const cluster: Cluster
    var platform: Platform   // the object a Reconcile works on, overwritten in place by every Get and Update

    constructor (cluster: Cluster, platform: Platform)
      ensures this.cluster == cluster
    {
      this.cluster, this.platform := cluster, platform;
    }

    // The in-memory object is the protocol's.
    ghost predicate At(pc: Pc)
      reads this, cluster
    {
      cluster.Agrees() && cluster.protocol.r.pc == pc && cluster.protocol.r.platform == platform
    }

    method SetStatus(status: Status)
      modifies `platform
      ensures platform == old(platform).(status := status)
    {
      platform := platform.(status := status);
    }

    // setCondition with the kind's one condition.
    method SetHelmRelease(holds: bool, reason: string)
      modifies `platform
      ensures platform == old(platform).(status := old(platform.status).(
                conditions := Set(old(platform.status.conditions),
                                  Condition(HELM_RELEASE, holds, reason, old(platform.generation)))))
    {
      var conditions := SetCondition(platform.status.conditions,
                                     Condition(HELM_RELEASE, holds, reason, platform.generation));
      SetStatus(platform.status.(conditions := conditions));
    }

    method Announce(verb: Verb)
      modifies `platform
      ensures platform == old(platform).(status := BeforeHelm(old(platform), verb))
    {
      SetStatus(platform.status.(phase := Running(verb)));
      SetStatus(platform.status.(observedGeneration := platform.generation));
      SetHelmRelease(false, RunningReason(verb));
    }

    method ReportFailure(verb: Verb)
      modifies `platform
      ensures platform == old(platform).(status := AfterFailure(old(platform), verb))
    {
      SetStatus(platform.status.(phase := Failed));
      SetHelmRelease(false, FailedReason(verb));
    }

    method ReportSuccess(verb: Verb, revision: nat)
      modifies `platform
      ensures platform == old(platform).(status := AfterSuccess(old(platform), verb, revision))
    {
      SetStatus(platform.status.(phase := Ready));
      SetStatus(platform.status.(helmRevision := revision));
      SetStatus(platform.status.(observedGeneration := platform.generation));
      SetHelmRelease(true, SucceededReason(verb));
    }

    // Fetch the object again for its resource version, put the computed status back, write it.
    method RefetchAndUpdateStatus() returns (ok: bool)
      requires At(Refetch1) || At(Refetch2)
      modifies this, cluster
      ensures cluster.Grew()
      ensures ok && old(cluster.protocol.r.pc) == Refetch1 ==>
                At(Call) && cluster.protocol.r.verb == old(cluster.protocol.r.verb)
                && cluster.protocol.r.values == old(cluster.protocol.r.values)
      ensures ok && old(cluster.protocol.r.pc) == Refetch2 ==>
                At(Idle) && platform.status == old(platform.status)
                && cluster.protocol.result == if platform.status.phase == Ready then Done else Error
      ensures !ok ==> cluster.Agrees() && cluster.protocol.r.pc == Idle && cluster.protocol.result == Error
      ensures !ok ==> old(cluster.faults) < cluster.faults
    {
      var status := platform.status;
      ok := Reload();
      if ok {
        SetStatus(status);
        ok := UpdateStatus();
      }
    }

    // r.Get into the in-memory object. The protocol's step puts the status back at once.
    method Reload() returns (ok: bool)
      requires At(Refetch1) || At(Refetch2)
      modifies this, cluster
      ensures cluster.Grew() && cluster.Agrees()
      ensures ok ==> cluster.protocol.r.pc == (if old(cluster.protocol.r.pc) == Refetch1 then Write1 else Write2)
                     && cluster.protocol.r.platform == platform.(status := old(platform.status))
                     && cluster.protocol.r.verb == old(cluster.protocol.r.verb)
                     && cluster.protocol.r.values == old(cluster.protocol.r.values)
      ensures !ok ==> cluster.protocol.r.pc == Idle && cluster.protocol.result == Error
      ensures !ok ==> old(cluster.faults) < cluster.faults
    {
      var r := cluster.Get();
      cluster.Step(Refetch(r.Found?));
      ok := r.Found?;
      if ok { platform := r.platform; }
    }

    // r.Status().Update of the in-memory object.
    method UpdateStatus() returns (ok: bool)
      requires At(Write1) || At(Write2)
      modifies this, cluster
      ensures cluster.Grew()
      ensures ok && old(cluster.protocol.r.pc) == Write1 ==>
                At(Call) && cluster.protocol.r.verb == old(cluster.protocol.r.verb)
                && cluster.protocol.r.values == old(cluster.protocol.r.values)
      ensures ok && old(cluster.protocol.r.pc) == Write2 ==>
                At(Idle) && platform.status == old(platform.status)
                && cluster.protocol.result == if platform.status.phase == Ready then Done else Error
      ensures !ok ==> cluster.Agrees() && cluster.protocol.r.pc == Idle && cluster.protocol.result == Error
      ensures !ok ==> old(cluster.faults) < cluster.faults
    {
      var written: Platform;
      ok, written := cluster.UpdateStatus(platform);
      cluster.Step(WriteStatus(ok));
      if ok { platform := written; }
    }

    // Is there a release? The status that announces the call is computed here.
    method LookUp() returns (verb: Verb)
      requires At(Lookup)
      modifies this, cluster
      ensures At(Refetch1) && cluster.Grew()
      ensures verb == cluster.protocol.r.verb && cluster.protocol.r.values == old(cluster.protocol.r.values)
    {
      var found, release := cluster.GetRelease();
      cluster.Step(Action.GetRelease(found));
      verb := if release.Absent? then Install else Upgrade;
      Announce(verb);
    }

    // Call Helm and compute the status that reports how it went.
    method DeployRelease(verb: Verb, values: Value) returns (ok: bool)
      requires At(Call) && verb == cluster.protocol.r.verb && values == cluster.protocol.r.values
      modifies this, cluster
      ensures At(Refetch2) && cluster.Grew()
      ensures platform.status.phase == if ok then Ready else Failed
      ensures !ok ==> old(cluster.faults) < cluster.faults
    {
      var revision: nat;
      ok, revision := cluster.Deploy(verb, values);
      if ok { ReportSuccess(verb, revision); } else { ReportFailure(verb); }
    }

    // Install when Helm reports no release, upgrade otherwise, with a status write before and after.
    method Roll(values: Value) returns (result: Result)
      requires At(Lookup) && values == cluster.protocol.r.values
      modifies this, cluster
      ensures cluster.Agrees() && cluster.protocol.r.pc == Idle && cluster.Grew()
      ensures result == cluster.protocol.result && result in {Done, Error}
      ensures result == Error ==> old(cluster.faults) < cluster.faults
    {
      var verb := LookUp();
      var written := RefetchAndUpdateStatus();
      if !written { return Error; }
      var deployed := DeployRelease(verb, values);
      written := RefetchAndUpdateStatus();
      return if written && deployed then Done else Error;
    }

    // r.Get at the top of Reconcile, the generation guard and the translation of the spec.
    method Fetch() returns (result: Result, values: Value)
      requires cluster.Agrees() && cluster.protocol.r.pc == Idle
      modifies this, cluster
      ensures cluster.Agrees() && cluster.Grew()
      ensures if result == Never then At(FixCheck) && values == cluster.protocol.r.values
              else cluster.protocol.r.pc == Idle && result == cluster.protocol.result && result in {Done, Error}
      ensures result == Error ==> old(cluster.faults) < cluster.faults
      ensures exists i :: |old(cluster.log)| <= i < |cluster.log| && cluster.log[i].Fetch?
    {
      values := Null;
      var r := cluster.Get();
      cluster.Step(Action.Fetch(!r.FailedCall?));
      if r.Failed404? { return Done, values; }
      if r.FailedCall? { return Error, values; }
      platform := r.platform;
      if platform.status.observedGeneration == platform.generation
         && (platform.status.phase == Ready || platform.status.phase == Upgrading
             || platform.status.phase == Installing) {
        return Done, values;
      }
      PlatformResults.RunKeepsTranslate(Init(Translate, cluster.created), cluster.log);
      var vals := Translation.TranslateValues(platform.spec);
      return Never, Dict(vals);
    }

    /** One reconcile is a piece of a protocol run that starts with a fetch, ends idle and returns what the protocol
        returns; it reports an error only when a call failed. */
    method Reconcile() returns (result: Result)
      requires cluster.Agrees() && cluster.protocol.r.pc == Idle
      modifies this, cluster
      ensures cluster.Agrees() && cluster.protocol.r.pc == Idle && cluster.Grew()
      ensures result == cluster.protocol.result && result in {Done, Requeue, Error}
      ensures result == Error ==> old(cluster.faults) < cluster.faults
      ensures exists i :: |old(cluster.log)| <= i < |cluster.log| && cluster.log[i].Fetch?
    {
      var values: Value;
      result, values := Fetch();
      if result != Never { return; }
      var fixed := cluster.FixStuckRelease();
      if fixed { return Requeue; }
      result := Roll(values);
    }
  }
}
