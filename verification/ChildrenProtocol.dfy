/** The part of ModelDeploymentReconciler that makes the children of one ModelDeployment, one step per write,
    interleaved with spec edits, platform changes, other writers, deleted children, failed calls and crashes. */
module ChildrenProtocol {
  import opened Admission
  import opened Api
  import opened Kubernetes
  import opened HelmValues
  import opened Builders
  import M = ModelDeploymentProtocol

  datatype Pc = Idle | AddingFinalizer | Listing | EnsuringClaim | EnsuringDeployment | EnsuringService

  // md is the in-memory object, platform what the List found.
  datatype Local = Local(pc: Pc, md: M.ModelDeployment, platform: Option<PlatformSpec>)

  // deployed and routed are bookkeeping: the engine of the last Deployment write, and of the Service's creation.
  // rules are the API server's; md is the stored object as long as it is present.
  datatype State = State(rules: Rules, name: string, present: bool, md: M.ModelDeployment,
                         platform: Option<PlatformSpec>, clock: nat, claim: Option<Claim>,
                         deployment: Option<Deployment>, service: Option<Service>, r: Local, deployed: string,
                         routed: string)

  datatype Child = TheClaim | TheDeployment | TheService

  datatype Action =
    | Edit(spec: ModelDeploymentSpec) | Touch | SetPlatform(platform: Option<PlatformSpec>)
    | Observe(ready: int, total: int)   // the Deployment's own controller reports replicas
    | Remove(child: Child) | Delete | Vanish   // deletion is requested; the released object is gone
    | Crash
    | Fetch(ok: bool) | AddFinalizer(ok: bool) | ListPlatforms(ok: bool)
    | EnsureClaim(ok: bool) | EnsureDeployment(ok: bool) | EnsureService(ok: bool)

  function Init(rules: Rules, name: string, spec: ModelDeploymentSpec, finalizers: set<string>,
                platform: Option<PlatformSpec>): State
  {
    var md := Created(spec, M.EmptyStatus(), finalizers, 0);
    State(rules, name, true, md, platform, 1, None, None, None, Local(Idle, md, None), "", "")
  }

  function Goto(s: State, pc: Pc): State { s.(r := s.r.(pc := pc)) }

  function ApplyRemove(s: State, child: Child): State {
    match child
    case TheClaim => s.(claim := None)
    case TheDeployment => s.(deployment := None)
    case TheService => s.(service := None)
  }

  function ApplyDelete(s: State): State {
    if !s.present || s.md.deleting then s
    else if s.md.finalizers == {} then s.(present := false)
    else s.(md := s.md.(deleting := true, generation := s.md.generation + 1, resourceVersion := s.clock),
              clock := s.clock + 1)
  }

  // An object that is being deleted is released, which does not concern the children.
  function ApplyFetch(s: State, ok: bool): State {
    if !s.r.pc.Idle? || !ok || !s.present || s.md.deleting then s
    else s.(r := Local(if M.FINALIZER in s.md.finalizers then Listing else AddingFinalizer, s.md, None))
  }

  function ApplyAddFinalizer(s: State, ok: bool): State {
    if !s.r.pc.AddingFinalizer? then s
    else if !ok || !s.present || s.md.resourceVersion != s.r.md.resourceVersion then Goto(s, Idle)
    else
      var written := Updated(s.md, s.r.md.spec, s.r.md.finalizers + {M.FINALIZER}, s.clock);
      s.(md := written, clock := s.clock + 1, r := s.r.(pc := Listing, md := written))
  }

  // A List that fails or finds nothing is not an error: the model is deployed without a platform.
  function ApplyListPlatforms(s: State, ok: bool): State {
    if !s.r.pc.Listing? then s
    else s.(r := s.r.(pc := EnsuringClaim, platform := if ok then s.platform else None))
  }

  // What is created if nothing is there, unless the call fails or the API server refuses it.
  predicate ClaimStays(s: State, ok: bool) {
    !ok || (s.claim.None? && !AdmitsClaim(s.rules, BuildClaim(s.name, Engine(s.r.md.spec))))
  }

  function ApplyEnsureClaim(s: State, ok: bool): State {
    if !s.r.pc.EnsuringClaim? then s
    else if ClaimStays(s, ok) then Goto(s, Idle)
    else Goto(s.(claim := if s.claim.Some? then s.claim else Some(BuildClaim(s.name, Engine(s.r.md.spec)))),
              EnsuringDeployment)
  }

  // The API server also refuses to change the selector of an existing Deployment.
  predicate Admits(rules: Rules, existing: Option<Deployment>, desired: DeploymentSpec) {
    AdmitsDeployment(rules, desired) && (existing.Some? ==> existing.value.spec.selector == desired.selector)
  }

  // Created, or spec and labels overwritten; the status is the Deployment controller's.
  function Overwritten(existing: Option<Deployment>, desired: Deployment, version: nat): Deployment {
    if existing.None? then desired.(version := version)
    else if existing.value.labels == desired.labels && existing.value.spec == desired.spec then existing.value
    else existing.value.(labels := desired.labels, spec := desired.spec, version := version)
  }

  // ok: the call reached the API server, and the Deployment was as it had been read. A quantity that does not parse
  // makes building it panic, which ends the reconcile as a refusal does.
  ghost function ApplyEnsureDeployment(s: State, ok: bool): State {
    if !s.r.pc.EnsuringDeployment? then s
    else
      var engine := Engine(s.r.md.spec);
      var built := Built(s.name, s.r.md.spec, engine, s.r.platform);
      if !ok || !Admits(s.rules, s.deployment, built.spec) then Goto(s, Idle)
      else Goto(s.(deployment := Some(Overwritten(s.deployment, built, s.clock)), deployed := engine,
                   clock := s.clock + 1), EnsuringService)
  }

  function ApplyEnsureService(s: State, ok: bool): State {
    if !s.r.pc.EnsuringService? then s
    else if !ok || s.service.Some? || !AdmitsService(s.rules, s.name, BuildService(s.name, Engine(s.r.md.spec)))
      then Goto(s, Idle)
    else
      var engine := Engine(s.r.md.spec);
      Goto(s.(service := Some(BuildService(s.name, engine)), routed := engine), Idle)
  }

  ghost function Apply(s: State, a: Action): State {
    match a
    case Edit(spec) =>
      if !s.present then s else s.(md := Updated(s.md, spec, s.md.finalizers, s.clock), clock := s.clock + 1)
    case Touch => if !s.present then s else s.(md := Touched(s.md, s.clock), clock := s.clock + 1)
    case SetPlatform(platform) => s.(platform := platform)
    case Observe(ready, total) =>
      if s.deployment.None? then s
      else s.(deployment := Some(s.deployment.value.(ready := ready, total := total, version := s.clock)),
              clock := s.clock + 1)
    case Remove(child) => ApplyRemove(s, child)
    case Delete => ApplyDelete(s)
    case Vanish => if s.md.deleting then s.(present := false) else s
    case Crash => Goto(s, Idle)
    case Fetch(ok) => ApplyFetch(s, ok)
    case AddFinalizer(ok) => ApplyAddFinalizer(s, ok)
    case ListPlatforms(ok) => ApplyListPlatforms(s, ok)
    case EnsureClaim(ok) => ApplyEnsureClaim(s, ok)
    case EnsureDeployment(ok) => ApplyEnsureDeployment(s, ok)
    case EnsureService(ok) => ApplyEnsureService(s, ok)
  }

  ghost function Continue(s: State, actions: seq<Action>): State {
    if actions == [] then s else Apply(Continue(s, actions[..|actions| - 1]), actions[|actions| - 1])
  }

  // One uninterrupted reconcile whose calls all succeed; adding the finalizer is skipped when it is there.
  function Whole(): seq<Action> {
    [Fetch(true), AddFinalizer(true), ListPlatforms(true), EnsureClaim(true), EnsureDeployment(true),
        EnsureService(true)]
  }

  lemma {:induction false} ContinueAppend(s: State, actions: seq<Action>, later: seq<Action>)
    ensures Continue(s, actions + later) == Continue(Continue(s, actions), later)
  {
    if later == [] {
      assert actions + later == actions;
    } else {
      var n := |later| - 1;
      assert (actions + later)[..|actions + later| - 1] == actions + later[..n];
      ContinueAppend(s, actions, later[..n]);
    }
  }

  lemma ContinueHead(s: State, actions: seq<Action>)
    requires actions != []
    ensures Continue(s, actions) == Continue(Apply(s, actions[0]), actions[1..])
  {
    ContinueAppend(s, actions[..1], actions[1..]);
    assert actions[..1] + actions[1..] == actions && actions[..1][..0] == [];
    assert Continue(s, actions[..1]) == Apply(s, actions[0]);
  }
}
