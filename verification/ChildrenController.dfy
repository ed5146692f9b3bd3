/** The children part of ModelDeploymentReconciler.Reconcile as imperative code against an API server between whose
    calls everybody else acts at will; each write is matched with one step of ChildrenProtocol. */
module ChildrenController {
  import opened Admission
  import opened Api
  import opened Kubernetes
  import opened HelmValues
  import opened Builders
  import opened ChildrenProtocol
  import M = ModelDeploymentProtocol

  predicate Own(a: Action) {
    !a.Edit? && !a.Touch? && !a.SetPlatform? && !a.Observe? && !a.Remove? && !a.Delete? && !a.Vanish?
  }

  // A step whose call was answered; a List that fails is not an error.
  predicate Smooth(a: Action) {
    match a
    case Crash => false
    case Fetch(ok) => ok
    case AddFinalizer(ok) => ok
    case EnsureClaim(ok) => ok
    case EnsureDeployment(ok) => ok
    case EnsureService(ok) => ok
    case _ => true
  }

  lemma DeploymentStep(s: State, ok: bool, built: Deployment)
    requires s.r.pc.EnsuringDeployment? && built == Built(s.name, s.r.md.spec, Engine(s.r.md.spec), s.r.platform)
    ensures Apply(s, ChildrenProtocol.EnsureDeployment(ok)) ==
            if ok && Admits(s.rules, s.deployment, built.spec) then
              s.(deployment := Some(Overwritten(s.deployment, built, s.clock)), deployed := Engine(s.r.md.spec),
                 clock := s.clock + 1, r := s.r.(pc := EnsuringService))
            else s.(r := s.r.(pc := Idle))
  {
  }

  // A quantity that does not parse is refused before the call is made.
  lemma PanicStops(s: State)
    requires s.r.pc.EnsuringDeployment? && Panics(s.rules.amounts, s.r.md.spec.resources)
    ensures Apply(s, ChildrenProtocol.EnsureDeployment(true)) == s.(r := s.r.(pc := Idle))
  {
    BuiltDeploymentIsAdmitted(s.rules, s.name, s.r.md.spec, s.r.platform);
    DeploymentStep(s, true, Built(s.name, s.r.md.spec, Engine(s.r.md.spec), s.r.platform));
  }

  class Namespace {
    const rules: Rules
    const name: string
    var present: bool
    var md: M.ModelDeployment
    var platform: Option<PlatformSpec>
    var clock: nat
    var claim: Option<Claim>
    var deployment: Option<Deployment>
    var service: Option<Service>
    ghost const origin: State
    ghost var protocol: State
    ghost var log: seq<Action>
    ghost var faults: nat   // how many calls have failed, by error, refusal, conflict, panic or a missing object

    // Everything real is as the protocol says.
    ghost predicate Matches(s: State)
      reads this
    {
      && Elsewhere(s) && present == s.present && md == s.md && clock == s.clock
      && claim == s.claim && deployment == s.deployment && service == s.service
    }

    // What the reconciler never writes.
    ghost predicate Elsewhere(s: State)
      reads this
    {
      rules == s.rules && name == s.name && platform == s.platform
    }

    ghost predicate Traced()
      reads this
    {
      protocol == Continue(origin, log)
    }

    ghost predicate Agrees()
      reads this
    {
      Traced() && Matches(protocol)
    }

    // What others cannot touch of the reconcile in progress. So many calls failed meanwhile.
    twostate predicate Untouched(failed: nat)
      reads this
    {
      && old(log) <= log && faults == old(faults) + failed && protocol.r == old(protocol.r)
      && forall i :: |old(log)| <= i < |log| ==> !Own(log[i])
    }

    // The reconciler got on: it did not crash, and every step of its own since then went through, or a call failed.
    twostate predicate Went(ok: bool)
      reads this
    {
      && old(log) <= log && old(faults) <= faults
      && (!ok ==> old(faults) < faults)
      && forall i :: |old(log)| <= i < |log| ==> !log[i].Crash? && (ok ==> Smooth(log[i]))
    }

    constructor (rules: Rules, name: string, spec: ModelDeploymentSpec, finalizers: set<string>,
                 platform: Option<PlatformSpec>)
      ensures Agrees() && log == [] && origin == Init(rules, name, spec, finalizers, platform)
    {
      this.rules, this.name, present, this.platform, clock := rules, name, true, platform, 1;
      md := Created(spec, M.EmptyStatus(), finalizers, 0);
      claim, deployment, service := None, None, None;
      ghost var start := Init(rules, name, spec, finalizers, platform);
      origin, protocol, log, faults := start, start, [], 0;
    }

    // Record one protocol step; the namespace must already be where that step leads.
    ghost method Step(a: Action)
      requires Traced() && Matches(Apply(protocol, a))
      modifies `log, `protocol
      ensures Agrees() && protocol == Apply(old(protocol), a)
      ensures old(log) <= log && |log| == |old(log)| + 1 && log[|old(log)|] == a
    {
      assert (log + [a])[..|log|] == log;
      log, protocol := log + [a], Apply(protocol, a);
    }

    // Another client updates the ModelDeployment's spec.
    method ForeignEdit()
      requires Agrees()
      modifies this
      ensures Agrees() && Untouched(0)
    {
      var spec: ModelDeploymentSpec := *;
      if present { md, clock := Updated(md, spec, md.finalizers, clock), clock + 1; }
      Step(Edit(spec));
    }

    // Another client asks for deletion.
    method ForeignDelete()
      requires Agrees()
      modifies this
      ensures Agrees() && Untouched(0)
    {
      if present && !md.deleting {
        if md.finalizers == {} {
          present := false;
        } else {
          md := md.(deleting := true, generation := md.generation + 1, resourceVersion := clock);
          clock := clock + 1;
        }
      }
      Step(Delete);
    }

    // The deleted object has been released.
    method ForeignRelease()
      requires Agrees()
      modifies this
      ensures Agrees() && Untouched(0)
    {
      if md.deleting { present := false; }
      Step(Vanish);
    }

    // Another client touches the ModelDeployment, or the platform comes, goes or changes.
    method ForeignWrite()
      requires Agrees()
      modifies this
      ensures Agrees() && Untouched(0)
    {
      var kind: int := *;
      if kind == 0 {
        if present { md, clock := Touched(md, clock), clock + 1; }
        Step(Touch);
      } else {
        platform := *;
        Step(SetPlatform(platform));
      }
    }

    // The Deployment's own controller reports replicas.
    method ForeignReport()
      requires Agrees()
      modifies this
      ensures Agrees() && Untouched(0)
    {
      if deployment.Some? {
        var ready: int, total: int := *, *;
        deployment := Some(deployment.value.(ready := ready, total := total, version := clock));
        clock := clock + 1;
        Step(Observe(ready, total));
      }
    }

    // Another client deletes a child.
    method ForeignRemoval()
      requires Agrees()
      modifies this
      ensures Agrees() && Untouched(0)
    {
      var child: Child := *;
      match child {
        case TheClaim => claim := None;
        case TheDeployment => deployment := None;
        case TheService => service := None;
      }
      Step(Remove(child));
    }

    // Any number of steps of anybody else.
    method Interfere()
      requires Agrees()
      modifies this
      ensures Agrees() && Untouched(0)
    {
      var n: nat := *;
      while n > 0
        invariant Agrees() && Untouched(0)
      {
        var kind: int := *;
        match kind {
          case 0 => ForeignEdit();
          case 1 => ForeignWrite();
          case 2 => ForeignReport();
          case 3 => ForeignDelete();
          case 4 => ForeignRelease();
          case _ => ForeignRemoval();
        }
        n := n - 1;
      }
    }

    // Whether a call is answered at all.
    method Call() returns (up: bool)
      requires Agrees()
      modifies this
      ensures Agrees() && Untouched(if up then 0 else 1)
    {
      Interfere();
      up := *;
      if !up { faults := faults + 1; }
    }

    // Building the Deployment panicked: no call is made.
    ghost method Panicked()
      requires Agrees() && Apply(protocol, ChildrenProtocol.EnsureDeployment(true)) == Goto(protocol, Idle)
      modifies `log, `protocol, `faults
      ensures Agrees() && faults == old(faults) + 1 && protocol == Goto(old(protocol), Idle)
      ensures old(log) <= log && |log| == |old(log)| + 1 && log[|old(log)|] == ChildrenProtocol.EnsureDeployment(true)
    {
      faults := faults + 1;
      Step(ChildrenProtocol.EnsureDeployment(true));
    }

    // Update of the finalizers: compare-and-swap on the resource version; the written object comes back.
    method Update(sent: M.ModelDeployment) returns (up: bool, ok: bool, written: M.ModelDeployment)
      requires Agrees()
      modifies this
      ensures Traced() && Untouched(if ok then 0 else 1) && Elsewhere(protocol) && protocol.claim == claim
      ensures present == protocol.present
      ensures ok <==> up && protocol.present && protocol.md.resourceVersion == sent.resourceVersion
      ensures ok ==> written == Updated(protocol.md, sent.spec, sent.finalizers, protocol.clock)
      ensures if ok then md == written && clock == protocol.clock + 1 else Agrees()
      ensures deployment == protocol.deployment && service == protocol.service
    {
      Interfere();
      up := *;
      ok, written := up && present && md.resourceVersion == sent.resourceVersion, sent;
      if ok {
        written := Updated(md, sent.spec, sent.finalizers, clock);
        md, clock := written, clock + 1;
      } else {
        faults := faults + 1;
      }
    }

    // Get the claim, and create it when it is not found, unless the API server refuses it.
    method GetOrCreateClaim(built: Claim) returns (up: bool, ok: bool)
      requires Agrees()
      modifies this
      ensures Traced() && Untouched(if ok then 0 else 1) && Elsewhere(protocol)
      ensures present == protocol.present && md == protocol.md && clock == protocol.clock
      ensures ok <==> up && (protocol.claim.Some? || AdmitsClaim(rules, built))
      ensures claim == if ok && protocol.claim.None? then Some(built) else protocol.claim
      ensures deployment == protocol.deployment && service == protocol.service
    {
      up := Call();
      ok := up;
      if !up || claim.Some? { return; }
      Interfere();
      up := *;
      ok := up && (claim.Some? || AdmitsClaim(rules, built));
      if !ok { faults := faults + 1; }
      if ok && claim.None? { claim := Some(built); }
    }

    // Get the Service, and create it when it is not found, unless the API server refuses it.
    method GetOrCreateService(built: Service) returns (up: bool, ok: bool)
      requires Agrees()
      modifies this
      ensures Traced() && Untouched(if ok then 0 else 1) && Elsewhere(protocol)
      ensures present == protocol.present && md == protocol.md && clock == protocol.clock && claim == protocol.claim
      ensures deployment == protocol.deployment
      ensures ok <==> up && (protocol.service.Some? || AdmitsService(rules, name, built))
      ensures service == if ok && protocol.service.None? then Some(built) else protocol.service
    {
      up := Call();
      ok := up;
      if !up || service.Some? { return; }
      Interfere();
      up := *;
      ok := up && (service.Some? || AdmitsService(rules, name, built));
      if !ok { faults := faults + 1; }
      if ok && service.None? { service := Some(built); }
    }

    // Get the Deployment, then create it, or update it with spec and labels overwritten: compare-and-swap on the
    // resource version that was read, and refused by the API server's rules.
    method CreateOrUpdate(desired: Deployment) returns (up: bool, ok: bool)
      requires Agrees()
      modifies this
      ensures Traced() && Untouched(if ok then 0 else 1) && Elsewhere(protocol)
      ensures present == protocol.present && md == protocol.md
      ensures claim == protocol.claim && service == protocol.service
      ensures ok <==> up && Admits(rules, protocol.deployment, desired.spec)
      ensures ok ==> deployment == Some(Overwritten(protocol.deployment, desired, protocol.clock))
      ensures ok ==> clock == protocol.clock + 1
      ensures !ok ==> deployment == protocol.deployment && clock == protocol.clock
    {
      up := Call();
      if !up { return up, false; }
      var existing := deployment;
      Interfere();
      up := *;
      up := up && (existing.None? <==> deployment.None?)
            && (existing.Some? && deployment.Some? ==> existing.value.version == deployment.value.version);
      ok := up && Admits(rules, deployment, desired.spec);
      if ok {
        deployment, clock := Some(Overwritten(deployment, desired, clock)), clock + 1;
      } else {
        faults := faults + 1;
      }
    }
  }

  class ChildrenReconciler {
    const namespace: Namespace
    var md: M.ModelDeployment         // the object a Reconcile works on
    var platform: Option<PlatformSpec>

    constructor (namespace: Namespace)
      ensures this.namespace == namespace
    {
      this.namespace, md, platform := namespace, M.Blank(), None;
    }

    // The in-memory objects are the protocol's.
    ghost predicate At(pc: Pc)
      reads this, namespace
    {
      namespace.Agrees() && namespace.protocol.r == Local(pc, md, platform)
    }

    ghost predicate Finished()
      reads this, namespace
    {
      namespace.Agrees() && namespace.protocol.r.pc.Idle?
    }

    // r.Get at the top of Reconcile. An object that is gone or being deleted gets no children.
    method FetchObject() returns (ok: bool, live: bool)
      requires Finished()
      modifies this, namespace
      ensures namespace.Went(ok)
      ensures exists i :: |old(namespace.log)| <= i < |namespace.log| && namespace.log[i] == Fetch(ok)
      ensures live ==> ok
      ensures if live then At(if M.FINALIZER in md.finalizers then Listing else AddingFinalizer) else Finished()
    {
      ok := namespace.Call();
      live := ok && namespace.present && !namespace.md.deleting;
      if live { md, platform := namespace.md, None; }
      namespace.Step(Fetch(ok));
      assert namespace.log[|namespace.log| - 1] == Fetch(ok);
    }

    // Update with the finalizer added: compare-and-swap on the resource version.
    method EnsureFinalizer() returns (ok: bool)
      requires At(AddingFinalizer)
      modifies this, namespace
      ensures namespace.Went(ok)
      ensures if ok then At(Listing) else Finished()
    {
      md := md.(finalizers := md.finalizers + {M.FINALIZER});
      var up, written;
      up, ok, written := namespace.Update(md);
      namespace.Step(AddFinalizer(up));
      if ok { md := written; }
    }

    // The first platform of the namespace, if the List says so.
    method FindPlatform()
      requires At(Listing)
      modifies this, namespace
      ensures namespace.Went(true) && At(EnsuringClaim) && md == old(md)
    {
      namespace.Interfere();
      var up: bool := *;
      platform := if up then namespace.platform else None;
      namespace.Step(ListPlatforms(up));
    }

    method EnsurePVC(engine: string) returns (ok: bool)
      requires At(EnsuringClaim) && engine == Engine(md.spec)
      modifies this, namespace
      ensures namespace.Went(ok) && md == old(md)
      ensures if ok then At(EnsuringDeployment) else Finished()
    {
      var pvc := BuildClaim(namespace.name, engine);
      var up;
      up, ok := namespace.GetOrCreateClaim(pvc);
      namespace.Step(ChildrenProtocol.EnsureClaim(up));
    }

    // Get, create or update of the Deployment that was built.
    method PutDeployment(desired: Deployment) returns (ok: bool)
      requires At(EnsuringDeployment) && desired == Built(namespace.name, md.spec, Engine(md.spec), platform)
      modifies namespace
      ensures namespace.Went(ok)
      ensures if ok then At(EnsuringService) else Finished()
    {
      var up;
      up, ok := namespace.CreateOrUpdate(desired);
      DeploymentStep(namespace.protocol, up, desired);
      namespace.Step(ChildrenProtocol.EnsureDeployment(up));
    }

    // BuildDeployment panics on a quantity that does not parse.
    method EnsureDeployment(engine: string) returns (ok: bool)
      requires At(EnsuringDeployment) && engine == Engine(md.spec)
      modifies this, namespace
      ensures namespace.Went(ok) && md == old(md)
      ensures if ok then At(EnsuringService) else Finished()
    {
      var desired := BuildDeployment(namespace.rules.amounts, namespace.name, md.spec, engine, platform);
      if desired.None? {
        PanicStops(namespace.protocol);
        namespace.Panicked();
        return false;
      }
      ok := PutDeployment(desired.value);
    }

    method EnsureService(engine: string) returns (ok: bool)
      requires At(EnsuringService) && engine == Engine(md.spec)
      modifies this, namespace
      ensures namespace.Went(ok) && Finished()
    {
      var svc := BuildService(namespace.name, engine);
      var up;
      up, ok := namespace.GetOrCreateService(svc);
      namespace.Step(ChildrenProtocol.EnsureService(up));
    }

    // The three children in order, stopping at the first error.
    method EnsureChildren(engine: string) returns (ok: bool)
      requires At(EnsuringClaim) && engine == Engine(md.spec)
      modifies this, namespace
      ensures Finished() && namespace.Went(ok)
    {
      ok := EnsurePVC(engine);
      if !ok { return; }
      ok := EnsureDeployment(engine);
      if !ok { return; }
      ok := EnsureService(engine);
    }

    /** One reconcile is a piece of a protocol run that starts with a fetch and ends idle; it reports an error only when
        a call failed, and otherwise has gone through every step. */
    method Reconcile() returns (ok: bool)
      requires Finished()
      modifies this, namespace
      ensures Finished() && namespace.Went(ok)
      ensures exists i, up :: |old(namespace.log)| <= i < |namespace.log| && namespace.log[i] == Fetch(up)
    {
      var live;
      ok, live := FetchObject();
      if !live { return; }
      if M.FINALIZER !in md.finalizers {
        ok := EnsureFinalizer();
        if !ok { return; }
      }
      var engine := Engine(md.spec);
      FindPlatform();
      ok := EnsureChildren(engine);
    }
  }
}
