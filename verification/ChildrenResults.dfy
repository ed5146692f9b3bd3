/** What the children are after crashes and retries, and how they stay wired over every run. */
module ChildrenResults {
  import opened Admission
  import opened Api
  import opened Kubernetes
  import opened HelmValues
  import opened Builders
  import opened ChildrenProtocol
  import EngineResolver
  import M = ModelDeploymentProtocol
  import PlatformUpdate

  /* ---- The invariant ---- */

  function PodSelector(name: string): Labels { map[InstanceLabel := name] }

  ghost predicate DeploymentInv(s: State) {
    s.deployment.Some? ==>
      var d := s.deployment.value;
      && d.labels == d.spec.podLabels == DeploymentLabels(s.name, s.deployed)
      && d.spec.selector == PodSelector(s.name)
      && d.spec.port == ContainerPort(s.deployed) && KnownEngine(s.deployed)
      && AdmitsDeployment(s.rules, d.spec)
      && d.spec.claim == ClaimName(s.name)
  }

  ghost predicate Inv(s: State) {
    && DeploymentInv(s)
    && (s.service.Some? ==> s.service.value == BuildService(s.name, s.routed))
    && (s.service.Some? ==> KnownEngine(s.routed) && s.rules.serviceName(s.name))
    && (s.claim.Some? ==> s.claim.value.name == ClaimName(s.name) && s.rules.labelValue(s.name))
    && (s.r.pc.EnsuringService? ==> DeploymentOk(s.rules, s.name, s.r.md.spec, s.r.platform))
    && s.md.resourceVersion < s.clock
    && (s.r.pc.AddingFinalizer? ==>
          s.r.md.resourceVersion < s.clock && (s.r.md.resourceVersion == s.md.resourceVersion
              ==> s.r.md.spec == s.md.spec && s.r.md.finalizers == s.md.finalizers))
  }

  // The name and the API server's rules never change.
  ghost predicate Same(s: State, t: State) { t.name == s.name && t.rules == s.rules }

  predicate Ensures(a: Action) { a.EnsureClaim? || a.EnsureDeployment? || a.EnsureService? }

  lemma ClaimKeepsInv(s: State, ok: bool)
    requires Inv(s)
    ensures Inv(ApplyEnsureClaim(s, ok)) && Same(s, ApplyEnsureClaim(s, ok))
  {
  }

  lemma ServiceKeepsInv(s: State, ok: bool)
    requires Inv(s)
    ensures Inv(ApplyEnsureService(s, ok)) && Same(s, ApplyEnsureService(s, ok))
  {
  }

  lemma DeploymentEnsured(s: State)
    requires s.r.pc.EnsuringDeployment? && DeploymentInv(s)
    ensures var t := Apply(s, EnsureDeployment(true));
            var built := Built(s.name, s.r.md.spec, Engine(s.r.md.spec), s.r.platform);
            if DeploymentOk(s.rules, s.name, s.r.md.spec, s.r.platform) then
              && t.deployment.Some? && t.deployment.value.labels == built.labels
              && t.deployment.value.spec == built.spec
              && t == s.(r := s.r.(pc := EnsuringService), deployment := t.deployment, deployed := Engine(s.r.md.spec),
                         clock := t.clock)
            else t == s.(r := s.r.(pc := Idle))
  {
    BuiltDeploymentIsAdmitted(s.rules, s.name, s.r.md.spec, s.r.platform);
  }

  // From what a write leaves.
  lemma WrittenKeepsInv(s: State, t: State)
    requires Inv(s) && t.deployment.Some? && DeploymentOk(s.rules, s.name, s.r.md.spec, s.r.platform)
    requires var built := Built(s.name, s.r.md.spec, Engine(s.r.md.spec), s.r.platform);
             t.deployment.value.labels == built.labels && t.deployment.value.spec == built.spec
    requires t == s.(r := s.r.(pc := EnsuringService), deployment := t.deployment, deployed := Engine(s.r.md.spec),
                     clock := t.clock) && s.clock <= t.clock
    ensures Inv(t)
  {
    BuiltDeploymentIsAdmitted(s.rules, s.name, s.r.md.spec, s.r.platform);
  }

  lemma ClockRises(s: State, ok: bool)
    ensures s.clock <= ApplyEnsureDeployment(s, ok).clock
    ensures !ok && s.r.pc.EnsuringDeployment? ==> ApplyEnsureDeployment(s, ok) == Goto(s, Idle)
  {
  }

  lemma StoppingKeepsInv(s: State)
    requires Inv(s)
    ensures Inv(Goto(s, Idle)) && Same(s, Goto(s, Idle))
  {
  }

  lemma WriteKeepsInv(s: State)
    requires Inv(s) && s.r.pc.EnsuringDeployment? && DeploymentOk(s.rules, s.name, s.r.md.spec, s.r.platform)
    ensures Inv(Apply(s, EnsureDeployment(true))) && Same(s, Apply(s, EnsureDeployment(true)))
  {
    ClockRises(s, true);
    DeploymentEnsured(s);
    WrittenKeepsInv(s, Apply(s, EnsureDeployment(true)));
  }

  // A write that is refused or fails leaves everything as it is.
  lemma NoWrite(s: State, ok: bool)
    requires DeploymentInv(s) && s.r.pc.EnsuringDeployment?
    requires ok ==> !DeploymentOk(s.rules, s.name, s.r.md.spec, s.r.platform)
    ensures ApplyEnsureDeployment(s, ok) == Goto(s, Idle)
  {
    if ok { DeploymentEnsured(s); } else { ClockRises(s, ok); }
  }

  lemma DeploymentKeepsInv(s: State, ok: bool)
    requires Inv(s)
    ensures Inv(Apply(s, EnsureDeployment(ok))) && Same(s, Apply(s, EnsureDeployment(ok)))
  {
    if s.r.pc.EnsuringDeployment? {
      if ok && DeploymentOk(s.rules, s.name, s.r.md.spec, s.r.platform) {
        WriteKeepsInv(s);
      } else {
        NoWrite(s, ok);
        StoppingKeepsInv(s);
      }
    }
  }

  lemma EditKeepsInv(s: State, spec: ModelDeploymentSpec)
    requires Inv(s)
    ensures Inv(Apply(s, Edit(spec))) && Same(s, Apply(s, Edit(spec)))
  {
  }

  lemma ObjectKeepsInv(s: State, a: Action)
    requires Inv(s) && (a.Touch? || a.Delete? || a.Vanish? || a.SetPlatform?)
    ensures Inv(Apply(s, a)) && Same(s, Apply(s, a))
  {
  }

  lemma ReportKeepsInv(s: State, ready: int, total: int)
    requires Inv(s)
    ensures Inv(Apply(s, Observe(ready, total))) && Same(s, Apply(s, Observe(ready, total)))
  {
  }

  lemma RemovalKeepsInv(s: State, child: Child)
    requires Inv(s)
    ensures Inv(ApplyRemove(s, child)) && Same(s, ApplyRemove(s, child))
  {
  }

  lemma ReadsKeepInv(s: State, a: Action)
    requires Inv(s) && (a.Crash? || a.Fetch? || a.AddFinalizer? || a.ListPlatforms?)
    ensures Inv(Apply(s, a)) && Same(s, Apply(s, a))
  {
  }

  lemma StepKeepsInv(s: State, a: Action)
    requires Inv(s)
    ensures Inv(Apply(s, a)) && Same(s, Apply(s, a))
  {
    if a.EnsureClaim? { ClaimKeepsInv(s, a.ok); }
    else if a.EnsureDeployment? { DeploymentKeepsInv(s, a.ok); }
    else if a.EnsureService? { ServiceKeepsInv(s, a.ok); }
    else if a.Edit? { EditKeepsInv(s, a.spec); }
    else if a.Touch? || a.Delete? || a.Vanish? || a.SetPlatform? { ObjectKeepsInv(s, a); }
    else if a.Observe? { ReportKeepsInv(s, a.ready, a.total); }
    else if a.Remove? { RemovalKeepsInv(s, a.child); }
    else { ReadsKeepInv(s, a); }
  }

  lemma {:induction false} RunKeepsInv(s: State, actions: seq<Action>)
    requires Inv(s)
    ensures Inv(Continue(s, actions)) && Same(s, Continue(s, actions))
  {
    if actions != [] {
      RunKeepsInv(s, actions[..|actions| - 1]);
      StepKeepsInv(Continue(s, actions[..|actions| - 1]), actions[|actions| - 1]);
    }
  }

  ghost function Run(rules: Rules, name: string, spec: ModelDeploymentSpec, finalizers: set<string>,
                     platform: Option<PlatformSpec>, actions: seq<Action>): State
  {
    Continue(Init(rules, name, spec, finalizers, platform), actions)
  }

  /* ---- Wiring ---- */

  /** In every run the Deployment's selector is the same one and selects its own pods, which mount the claim; and the
      Service selects those pods exactly when it was created for the engine the Deployment was last written for. */
  lemma Wired(rules: Rules, name: string, spec: ModelDeploymentSpec, finalizers: set<string>,
              platform: Option<PlatformSpec>, actions: seq<Action>)
    ensures var s := Run(rules, name, spec, finalizers, platform, actions);
            s.deployment.Some? ==>
              var d := s.deployment.value.spec;
              && d.selector == PodSelector(name) && Selects(d.selector, d.podLabels)
              && (s.claim.Some? ==> d.claim == s.claim.value.name)
              && (s.service.Some? ==> (Selects(s.service.value.selector, d.podLabels) <==> s.routed == s.deployed))
  {
    var s := Run(rules, name, spec, finalizers, platform, actions);
    RunKeepsInv(Init(rules, name, spec, finalizers, platform), actions);
    ServiceSelects(name, spec, s.deployed, platform, s.routed);
  }

  /** When the API server lets a reconcile go on, exactly, in every run: past the claim when it exists or name and
      engine are label values; past the Deployment when name, spec and the platform that was found pass - the immutable
      selector never stands in the way; and the Service comes to be when the name is also a Service name. */
  lemma AdmissionExactly(rules: Rules, name: string, spec: ModelDeploymentSpec, finalizers: set<string>,
                         platform: Option<PlatformSpec>, actions: seq<Action>)
    ensures var s := Run(rules, name, spec, finalizers, platform, actions);
            && (s.r.pc.EnsuringClaim? ==>
                  (Apply(s, EnsureClaim(true)).r.pc.EnsuringDeployment?
                   <==> s.claim.Some? || ClaimOk(rules, name, Engine(s.r.md.spec))))
            && (s.r.pc.EnsuringDeployment? ==>
                  (Apply(s, EnsureDeployment(true)).r.pc.EnsuringService?
                   <==> DeploymentOk(rules, name, s.r.md.spec, s.r.platform)))
            && (s.r.pc.EnsuringService? ==>
                  (Apply(s, EnsureService(true)).service.Some?
                   <==> s.service.Some? || ServiceOk(rules, name, Engine(s.r.md.spec))))
  {
    var s := Run(rules, name, spec, finalizers, platform, actions);
    RunKeepsInv(Init(rules, name, spec, finalizers, platform), actions);
    if s.r.pc.EnsuringClaim? { ClaimGoesOn(s); }
    if s.r.pc.EnsuringDeployment? { DeploymentGoesOn(s); }
    if s.r.pc.EnsuringService? { ServiceGoesOn(s); }
  }

  lemma ClaimGoesOn(s: State)
    requires s.r.pc.EnsuringClaim?
    ensures Apply(s, EnsureClaim(true)).r.pc.EnsuringDeployment?
            <==> s.claim.Some? || ClaimOk(s.rules, s.name, Engine(s.r.md.spec))
  {
    BuiltClaimIsAdmitted(s.rules, s.name, Engine(s.r.md.spec));
  }

  lemma DeploymentGoesOn(s: State)
    requires DeploymentInv(s) && s.r.pc.EnsuringDeployment?
    ensures Apply(s, EnsureDeployment(true)).r.pc.EnsuringService?
            <==> DeploymentOk(s.rules, s.name, s.r.md.spec, s.r.platform)
  {
    BuiltDeploymentIsAdmitted(s.rules, s.name, s.r.md.spec, s.r.platform);
  }

  lemma ServiceGoesOn(s: State)
    requires s.r.pc.EnsuringService?
    ensures Apply(s, EnsureService(true)).service.Some?
            <==> s.service.Some? || ServiceOk(s.rules, s.name, Engine(s.r.md.spec))
  {
    BuiltServiceIsAdmitted(s.rules, s.name, Engine(s.r.md.spec));
  }

  /** Names the object may have but a child may not: with a name that is no label value there is never a claim, and with
      one that is no Service name never a Service, in any run. */
  lemma NamesThatAreRefused(rules: Rules, name: string, spec: ModelDeploymentSpec, finalizers: set<string>,
                            platform: Option<PlatformSpec>, actions: seq<Action>)
    ensures var s := Run(rules, name, spec, finalizers, platform, actions);
            && (!rules.labelValue(name) ==> s.claim.None? && s.deployment.None?)
            && (!rules.serviceName(name) ==> s.service.None?)
  {
    RunKeepsInv(Init(rules, name, spec, finalizers, platform), actions);
  }

  /** So a model whose name has a dot, as in qwen2.5-7b, is deployed but never gets a Service. */
  lemma DottedNamesGetNoService(amounts: Amounts, name: string, spec: ModelDeploymentSpec, finalizers: set<string>,
                                platform: Option<PlatformSpec>, actions: seq<Action>)
    requires '.' in name
    ensures Run(KubernetesRules(amounts), name, spec, finalizers, platform, actions).service.None?
    ensures LabelValue("qwen2.5-7b") && '.' in "qwen2.5-7b"
  {
    assert !ServiceName(name);
    assert "qwen2.5-7b"[5] == '.';
    NamesThatAreRefused(KubernetesRules(amounts), name, spec, finalizers, platform, actions);
  }

  // No edit changes the resolved engine.
  ghost predicate Steady(engine: string, actions: seq<Action>) {
    forall a :: a in actions && a.Edit? ==> Engine(a.spec) == engine
  }

  ghost predicate RunsOn(engine: string, s: State) {
    && Engine(s.md.spec) == engine && (!s.r.pc.Idle? ==> Engine(s.r.md.spec) == engine)
    && (s.deployment.Some? ==> s.deployed == engine) && (s.service.Some? ==> s.routed == engine)
  }

  lemma EnsureRunsOn(engine: string, s: State, a: Action)
    requires RunsOn(engine, s) && Ensures(a)
    ensures RunsOn(engine, Apply(s, a))
  {
  }

  lemma EditRunsOn(engine: string, s: State, spec: ModelDeploymentSpec)
    requires RunsOn(engine, s) && Engine(spec) == engine
    ensures RunsOn(engine, Apply(s, Edit(spec)))
  {
  }

  lemma ReadsRunOn(engine: string, s: State, a: Action)
    requires RunsOn(engine, s) && Inv(s) && (a.Fetch? || a.AddFinalizer? || a.ListPlatforms? || a.Crash?)
    ensures RunsOn(engine, Apply(s, a))
  {
  }

  lemma OthersRunOn(engine: string, s: State, a: Action)
    requires RunsOn(engine, s)
    requires a.Touch? || a.Delete? || a.Vanish? || a.SetPlatform? || a.Observe? || a.Remove?
    ensures RunsOn(engine, Apply(s, a))
  {
  }

  lemma StepRunsOn(engine: string, s: State, a: Action)
    requires RunsOn(engine, s) && Inv(s) && (a.Edit? ==> Engine(a.spec) == engine)
    ensures RunsOn(engine, Apply(s, a))
  {
    if Ensures(a) { EnsureRunsOn(engine, s, a); }
    else if a.Edit? { EditRunsOn(engine, s, a.spec); }
    else if a.Fetch? || a.AddFinalizer? || a.ListPlatforms? || a.Crash? { ReadsRunOn(engine, s, a); }
    else { OthersRunOn(engine, s, a); }
  }

  lemma {:induction false} SteadyRunsOn(engine: string, s: State, actions: seq<Action>)
    requires RunsOn(engine, s) && Inv(s) && Steady(engine, actions)
    ensures RunsOn(engine, Continue(s, actions))
  {
    if actions != [] {
      SteadyRunsOn(engine, s, actions[..|actions| - 1]);
      RunKeepsInv(s, actions[..|actions| - 1]);
      StepRunsOn(engine, Continue(s, actions[..|actions| - 1]), actions[|actions| - 1]);
    }
  }

  /** While the resolved engine is unchanged - whatever else is edited, fails or is deleted - the Service selects the
      Deployment's pods, and pods, Service and endpoint have one port; but an engine outside the table, which for specs
      the webhook admits means an auto-detected sglang, never gets a Deployment or a Service at all. */
  lemma SteadyEnginesAreRouted(rules: Rules, name: string, spec: ModelDeploymentSpec, finalizers: set<string>,
                               platform: Option<PlatformSpec>, actions: seq<Action>)
    requires Steady(Engine(spec), actions)
    ensures var s := Run(rules, name, spec, finalizers, platform, actions);
            && (s.deployment.Some? && s.service.Some? ==>
                  var d, svc := s.deployment.value.spec, s.service.value;
                  && Selects(svc.selector, d.podLabels)
                  && d.port == svc.targetPort == EndpointPort(Engine(s.md.spec)))
            && (!KnownEngine(Engine(spec)) ==> s.deployment.None? && s.service.None?)
            && (Validate(spec).None? ==> (KnownEngine(Engine(spec)) <==> Engine(spec) != "sglang"))
  {
    if Validate(spec).None? { ValidPortsAgree(spec); }
    Wired(rules, name, spec, finalizers, platform, actions);
    SteadyRunsOn(Engine(spec), Init(rules, name, spec, finalizers, platform), actions);
    RunKeepsInv(Init(rules, name, spec, finalizers, platform), actions);
    PortsAgree(Engine(spec));
  }

  function Mixtral(): ModelDeploymentSpec {
    ModelDeploymentSpec(EngineResolver.MIXTRAL, "auto", None, Resources(0, "", ""), map[], false, "", None, None)
  }

  /** Such a spec exists: the webhook admits it, its engine resolves to sglang, and no run without edits ever deploys
      it. */
  lemma MixtralIsNeverDeployed(rules: Rules, name: string, finalizers: set<string>, platform: Option<PlatformSpec>,
      actions: seq<Action>)
    requires forall a :: a in actions ==> !a.Edit?
    ensures var s := Run(rules, name, Mixtral(), finalizers, platform, actions);
            Validate(Mixtral()).None? && Engine(Mixtral()) == "sglang" && s.deployment.None? && s.service.None?
  {
    EngineResolver.MixtralIsSGLang();
    SteadyEnginesAreRouted(rules, name, Mixtral(), finalizers, platform, actions);
  }

  /* ---- Crash and retry ---- */

  // What the reconciler is responsible for: everything but the Deployment's status.
  datatype Outcome = Outcome(held: bool, claim: Option<Claim>, labels: Option<Labels>, spec: Option<DeploymentSpec>,
                             service: Option<Service>)

  function OutcomeOf(s: State): Outcome {
    Outcome(M.FINALIZER in s.md.finalizers, s.claim,
            if s.deployment.Some? then Some(s.deployment.value.labels) else None,
            if s.deployment.Some? then Some(s.deployment.value.spec) else None,
            s.service)
  }

  // Where a reconcile leads: the claim and the Service as they are or built and the Deployment of the stored spec, as
  // far as the API server takes them.
  ghost function Target(s: State): Outcome {
    var engine := Engine(s.md.spec);
    var held := OutcomeOf(s).(held := true);
    if s.claim.None? && !ClaimOk(s.rules, s.name, engine) then held
    else
      var claimed := held.(claim := Some(if s.claim.Some? then s.claim.value else BuildClaim(s.name, engine)));
      if !DeploymentOk(s.rules, s.name, s.md.spec, s.platform) then claimed
      else
        var built := Built(s.name, s.md.spec, engine, s.platform);
        var deployed := claimed.(labels := Some(built.labels), spec := Some(built.spec));
        if s.service.None? && !ServiceOk(s.rules, s.name, engine) then deployed
        else deployed.(service := Some(if s.service.Some? then s.service.value else BuildService(s.name, engine)))
  }

  predicate Live(s: State) { s.present && !s.md.deleting }

  // Where Whole() leads, step by step.
  lemma FirstHalf(s: State)
    requires s.r.pc.Idle? && Live(s)
    ensures var t := Continue(s, Whole()[..3]);
            && t.r.pc.EnsuringClaim? && t.r.md == t.md && t.r.platform == s.platform && Live(t)
            && M.FINALIZER in t.md.finalizers && t.md.spec == s.md.spec
            && t == s.(md := t.md, clock := t.clock, r := t.r)
  {
    var w := Whole()[..3];
    ContinueHead(s, w);
    var s1 := Apply(s, Fetch(true));
    ContinueHead(s1, w[1..]);
    ContinueHead(Apply(s1, AddFinalizer(true)), w[2..]);
  }

  lemma ClaimEnsured(s: State)
    requires s.r.pc.EnsuringClaim?
    ensures var t := Apply(s, EnsureClaim(true));
            if s.claim.None? && !ClaimOk(s.rules, s.name, Engine(s.r.md.spec)) then t == s.(r := s.r.(pc := Idle))
            else t == s.(r := s.r.(pc := EnsuringDeployment),
                         claim := Some(if s.claim.Some? then s.claim.value
                                       else BuildClaim(s.name, Engine(s.r.md.spec))))
  {
    BuiltClaimIsAdmitted(s.rules, s.name, Engine(s.r.md.spec));
  }

  lemma ServiceEnsured(s: State)
    requires s.r.pc.EnsuringService?
    ensures var t := Apply(s, EnsureService(true));
            && t == s.(r := s.r.(pc := Idle), service := t.service, routed := t.routed)
            && t.service == (if s.service.Some? then s.service
                             else if ServiceOk(s.rules, s.name, Engine(s.r.md.spec))
                             then Some(BuildService(s.name, Engine(s.r.md.spec)))
                             else None)
  {
    BuiltServiceIsAdmitted(s.rules, s.name, Engine(s.r.md.spec));
  }

  // The target from the Deployment on.
  ghost function Rest(s: State): Outcome
    requires s.claim.Some?
  {
    var engine := Engine(s.md.spec);
    if !DeploymentOk(s.rules, s.name, s.md.spec, s.platform) then OutcomeOf(s)
    else
      var built := Built(s.name, s.md.spec, engine, s.platform);
      var deployed := OutcomeOf(s).(labels := Some(built.labels), spec := Some(built.spec));
      if s.service.None? && !ServiceOk(s.rules, s.name, engine) then deployed
      else deployed.(service := Some(if s.service.Some? then s.service.value else BuildService(s.name, engine)))
  }

  ghost predicate Ended(s: State, t: State) {
    t.r.pc.Idle? && t.md == s.md && t.platform == s.platform && Same(s, t) && t.present == s.present
  }

  // What the last two steps make of the outcome, from what each does.
  lemma RestFromSteps(s: State, s2: State, t: State)
    requires s.claim.Some? && DeploymentOk(s.rules, s.name, s.md.spec, s.platform)
    requires var built := Built(s.name, s.md.spec, Engine(s.md.spec), s.platform);
             && s2.deployment.Some? && s2.deployment.value.labels == built.labels
             && s2.deployment.value.spec == built.spec
    requires OutcomeOf(s2).claim == s.claim && s2.service == s.service && s2.md == s.md
    requires OutcomeOf(t) == OutcomeOf(s2).(service := t.service)
    requires t.service == (if s.service.Some? then s.service
                           else if ServiceOk(s.rules, s.name, Engine(s.md.spec))
                           then Some(BuildService(s.name, Engine(s.md.spec)))
                           else None)
    ensures OutcomeOf(t) == Rest(s)
  {
  }

  lemma ServiceStep(s: State)
    requires s.r.pc.EnsuringService?
    ensures var t := Continue(s, [EnsureService(true)]);
            && Ended(s, t) && OutcomeOf(t) == OutcomeOf(s).(service := t.service)
            && t.service == (if s.service.Some? then s.service
                             else if ServiceOk(s.rules, s.name, Engine(s.r.md.spec))
                             then Some(BuildService(s.name, Engine(s.r.md.spec)))
                             else None)
  {
    ContinueHead(s, [EnsureService(true)]);
    ServiceEnsured(s);
  }

  lemma TwoSteps(s: State)
    ensures Continue(s, Whole()[4..]) == Continue(Apply(s, EnsureDeployment(true)), [EnsureService(true)])
  {
    var w := Whole()[4..];
    ContinueHead(s, w);
    assert w[1..] == [EnsureService(true)];
  }

  lemma LastStepsPass(s: State)
    requires s.r.pc.EnsuringDeployment? && s.r.md == s.md && s.r.platform == s.platform && s.claim.Some?
        && DeploymentInv(s)
    requires DeploymentOk(s.rules, s.name, s.md.spec, s.platform)
    ensures var t := Continue(s, Whole()[4..]); Ended(s, t) && OutcomeOf(t) == Rest(s)
  {
    TwoSteps(s);
    var s2 := Apply(s, EnsureDeployment(true));
    DeploymentEnsured(s);
    ServiceStep(s2);
    RestFromSteps(s, s2, Continue(s2, [EnsureService(true)]));
  }

  lemma LastStepsRefused(s: State)
    requires s.r.pc.EnsuringDeployment? && s.r.md == s.md && s.r.platform == s.platform && s.claim.Some?
        && DeploymentInv(s)
    requires !DeploymentOk(s.rules, s.name, s.md.spec, s.platform)
    ensures var t := Continue(s, Whole()[4..]); Ended(s, t) && OutcomeOf(t) == Rest(s)
  {
    TwoSteps(s);
    DeploymentEnsured(s);
    ContinueHead(Apply(s, EnsureDeployment(true)), [EnsureService(true)]);
  }

  lemma IdleStaysPut(s: State)
    requires s.r.pc.Idle?
    ensures Continue(s, Whole()[4..]) == s
  {
    var w := Whole()[4..];
    ContinueHead(s, w);
    ContinueHead(s, w[1..]);
  }

  lemma SecondHalf(s: State)
    requires s.r.pc.EnsuringClaim? && s.r.md == s.md && s.r.platform == s.platform && M.FINALIZER in s.md.finalizers
    requires DeploymentInv(s)
    ensures var t := Continue(s, Whole()[3..]); Ended(s, t) && OutcomeOf(t) == Target(s)
  {
    ContinueHead(s, Whole()[3..]);
    assert Whole()[3..][1..] == Whole()[4..];
    var s1 := Apply(s, EnsureClaim(true));
    ClaimEnsured(s);
    if s1.r.pc.EnsuringDeployment? {
      if DeploymentOk(s.rules, s.name, s.md.spec, s.platform) { LastStepsPass(s1); } else { LastStepsRefused(s1); }
      RestIsTheTarget(s, s1);
    } else {
      IdleStaysPut(s1);
    }
  }

  lemma RestIsTheTarget(s: State, s1: State)
    requires M.FINALIZER in s.md.finalizers && (s.claim.None? ==> ClaimOk(s.rules, s.name, Engine(s.md.spec)))
    requires s1 == s.(r := s1.r, claim := Some(if s.claim.Some? then s.claim.value
                                               else BuildClaim(s.name, Engine(s.md.spec))))
    ensures Rest(s1) == Target(s)
  {
  }

  /** From any state in which the reconciler is idle and the object is there, however the children got to be as they
      are, one uninterrupted reconcile leaves exactly the target; the Deployment is that of the stored spec and the
      stored platform exactly when they pass. */
  lemma WholeReachesTheTarget(s: State)
    requires s.r.pc.Idle? && Inv(s) && Live(s)
    ensures var t := Continue(s, Whole());
            && t.r.pc.Idle? && OutcomeOf(t) == Target(s) && Inv(t) && Live(t)
            && t.md.spec == s.md.spec && t.platform == s.platform && Same(s, t)
            && (OutcomeOf(t).spec == Some(Built(s.name, s.md.spec, Engine(s.md.spec), s.platform).spec)
                <==> DeploymentOk(s.rules, s.name, s.md.spec, s.platform))
  {
    assert Whole() == Whole()[..3] + Whole()[3..];
    ContinueAppend(s, Whole()[..3], Whole()[3..]);
    FirstHalf(s);
    SecondHalf(Continue(s, Whole()[..3]));
    RunKeepsInv(s, Whole());
    TargetIsBuiltExactly(s);
  }

  lemma TargetIsBuiltExactly(s: State)
    requires DeploymentInv(s)
    ensures Target(s).spec == Some(Built(s.name, s.md.spec, Engine(s.md.spec), s.platform).spec)
            <==> DeploymentOk(s.rules, s.name, s.md.spec, s.platform)
  {
    BuiltDeploymentIsAdmitted(s.rules, s.name, s.md.spec, s.platform);
  }

  /** The platform that the command line initialises has an enabled model store and no image for the loader. Next to it
      no Deployment is created or brought up to date, whatever the model. */
  lemma CommandLinePlatformBlocks(rules: Rules, name: string, spec: ModelDeploymentSpec, finalizers: set<string>,
                                  observability: bool, logging: bool, modules: Modules, host: string, past: seq<Action>)
    requires var s := Run(rules, name, spec, finalizers,
                          Some(PlatformUpdate.BuildLLMPlatform(true, observability, logging, modules, host)), past);
             s.r.pc.Idle? && Live(s)
    requires forall a :: a in past ==> !a.SetPlatform?
    ensures var platform := PlatformUpdate.BuildLLMPlatform(true, observability, logging, modules, host);
            var s := Run(rules, name, spec, finalizers, Some(platform), past);
            var t := Continue(s, Whole());
            && OutcomeOf(t).spec == OutcomeOf(s).spec && OutcomeOf(t).labels == OutcomeOf(s).labels
            && t.service == s.service
  {
    var platform := PlatformUpdate.BuildLLMPlatform(true, observability, logging, modules, host);
    var origin := Init(rules, name, spec, finalizers, Some(platform));
    RunKeepsInv(origin, past);
    PlatformStays(origin, past);
    WholeReachesTheTarget(Continue(origin, past));
  }

  lemma {:induction false} PlatformStays(s: State, actions: seq<Action>)
    requires forall a :: a in actions ==> !a.SetPlatform?
    ensures Continue(s, actions).platform == s.platform
  {
    if actions != [] {
      PlatformStays(s, actions[..|actions| - 1]);
      StepKeepsPlatform(Continue(s, actions[..|actions| - 1]), actions[|actions| - 1]);
    }
  }

  lemma StepKeepsPlatform(s: State, a: Action)
    requires !a.SetPlatform?
    ensures Apply(s, a).platform == s.platform
  {
  }

  predicate Retried(a: Action) { !a.Edit? && !a.SetPlatform? && !a.Remove? && !a.Delete? && !a.Vanish? }

  // A List that fails shows no platform. It does no harm unless it hides one that would have been refused.
  predicate Harmless(s: State, a: Action) { a == ListPlatforms(false) ==> Loads(s.platform) }

  predicate Building(pc: Pc) { pc.EnsuringClaim? || pc.EnsuringDeployment? || pc.EnsuringService? }

  ghost predicate UpToDate(s: State) {
    && Live(s) && (!s.r.pc.Idle? ==> s.r.md.spec == s.md.spec)
    && (Building(s.r.pc) ==> s.r.platform == s.platform || (s.r.platform.None? && Loads(s.platform)))
  }

  // What an attempt leaves alone.
  ghost predicate Settled(s: State, t: State) {
    UpToDate(t) && Target(t) == Target(s) && t.md.spec == s.md.spec && t.platform == s.platform && Same(s, t)
  }

  lemma ClaimKeepsTheTarget(s: State, ok: bool)
    requires UpToDate(s)
    ensures Settled(s, ApplyEnsureClaim(s, ok))
  {
    if s.r.pc.EnsuringClaim? { BuiltClaimIsAdmitted(s.rules, s.name, Engine(s.r.md.spec)); }
  }

  lemma DeploymentKeepsTheTarget(s: State, ok: bool)
    requires UpToDate(s)
    ensures Settled(s, ApplyEnsureDeployment(s, ok))
  {
    var t := ApplyEnsureDeployment(s, ok);
    assert t == s.(r := t.r, deployment := t.deployment, deployed := t.deployed, clock := t.clock);
    if s.r.pc.EnsuringDeployment? { BuiltDeploymentIsAdmitted(s.rules, s.name, s.r.md.spec, s.r.platform); }
    if DeploymentOk(s.rules, s.name, s.md.spec, s.platform) { OverwritingIsMoot(s, t); }
    else { assert t.deployment == s.deployment; SameTarget(s, t); }
  }

  // When the Deployment is going to be overwritten, what it is does not matter.
  lemma OverwritingIsMoot(s: State, t: State)
    requires Same(s, t) && t.md.spec == s.md.spec && t.platform == s.platform
    requires t.claim == s.claim && t.service == s.service
    requires DeploymentOk(s.rules, s.name, s.md.spec, s.platform)
    ensures Target(t) == Target(s)
  {
  }

  lemma ServiceKeepsTheTarget(s: State, ok: bool)
    requires UpToDate(s) && Inv(s)
    ensures Settled(s, ApplyEnsureService(s, ok))
  {
    if s.r.pc.EnsuringService? { BuiltServiceIsAdmitted(s.rules, s.name, Engine(s.r.md.spec)); }
  }

  lemma SameTarget(s: State, t: State)
    requires Same(s, t) && t.md.spec == s.md.spec && t.platform == s.platform
    requires OutcomeOf(t).(held := true) == OutcomeOf(s).(held := true)
    ensures Target(t) == Target(s)
  {
  }

  lemma ReadsKeepTheOutcome(s: State, a: Action)
    requires UpToDate(s) && Inv(s) && Harmless(s, a) && (a.Fetch? || a.AddFinalizer? || a.ListPlatforms?)
    ensures var t := Apply(s, a);
            && UpToDate(t) && Same(s, t) && t.md.spec == s.md.spec && t.platform == s.platform
            && OutcomeOf(t).(held := true) == OutcomeOf(s).(held := true)
  {
  }

  lemma ClientsKeepTheOutcome(s: State, a: Action)
    requires UpToDate(s) && Inv(s) && Retried(a) && (a.Touch? || a.Observe? || a.Crash?)
    ensures var t := Apply(s, a);
            && UpToDate(t) && Same(s, t) && t.md.spec == s.md.spec && t.platform == s.platform
            && OutcomeOf(t).(held := true) == OutcomeOf(s).(held := true)
  {
  }

  lemma OthersKeepTheTarget(s: State, a: Action)
    requires UpToDate(s) && Inv(s) && Retried(a) && Harmless(s, a) && !Ensures(a)
    ensures Settled(s, Apply(s, a))
  {
    if a.Touch? || a.Observe? || a.Crash? { ClientsKeepTheOutcome(s, a); } else { ReadsKeepTheOutcome(s, a); }
    SameTarget(s, Apply(s, a));
  }

  lemma StepKeepsTheTarget(s: State, a: Action)
    requires UpToDate(s) && Inv(s) && Retried(a) && Harmless(s, a)
    ensures Settled(s, Apply(s, a))
  {
    if a.EnsureClaim? { ClaimKeepsTheTarget(s, a.ok); }
    else if a.EnsureDeployment? { DeploymentKeepsTheTarget(s, a.ok); }
    else if a.EnsureService? { ServiceKeepsTheTarget(s, a.ok); }
    else { OthersKeepTheTarget(s, a); }
  }

  lemma {:induction false} AttemptsKeepTheTarget(s: State, attempts: seq<Action>)
    requires UpToDate(s) && Inv(s) && forall a :: a in attempts ==> Retried(a) && Harmless(s, a)
    ensures Settled(s, Continue(s, attempts)) && Inv(Continue(s, attempts))
  {
    if attempts != [] {
      AttemptsKeepTheTarget(s, attempts[..|attempts| - 1]);
      StepKeepsInv(Continue(s, attempts[..|attempts| - 1]), attempts[|attempts| - 1]);
      StepKeepsTheTarget(Continue(s, attempts[..|attempts| - 1]), attempts[|attempts| - 1]);
    }
  }

  lemma Again(s: State)
    requires s.r.pc.Idle? && Inv(s) && Live(s)
    ensures var t := Continue(s, Whole()); OutcomeOf(t) == Target(s) && OutcomeOf(Continue(t, Whole())) == OutcomeOf(t)
  {
    WholeReachesTheTarget(s);
    var t := Continue(s, Whole());
    WholeReachesTheTarget(t);
  }

  /** Crash and retry: with spec and platform unchanged, after any number of reconciles that were stopped at any call -
      failed, refused, panicked, crashed, gone on without a platform because the List failed - one fault-free reconcile
      leaves the same finalizer, claim, Deployment spec and labels, and Service as one uninterrupted reconcile from the
      start would have, and a further reconcile changes none of them; provided no List failed, or the platform it hides
      is not one that would be refused. */
  lemma CrashAndRetry(rules: Rules, name: string, spec: ModelDeploymentSpec, finalizers: set<string>,
                      platform: Option<PlatformSpec>, past: seq<Action>, attempts: seq<Action>)
    requires var s := Run(rules, name, spec, finalizers, platform, past);
             && s.r.pc.Idle? && Live(s)
             && (Loads(s.platform) || ListPlatforms(false) !in attempts)
    requires forall a :: a in attempts ==> Retried(a)
    ensures var s := Run(rules, name, spec, finalizers, platform, past);
            var direct := Continue(s, Whole());
            var retried := Continue(Apply(Continue(s, attempts), Crash), Whole());
            && OutcomeOf(retried) == OutcomeOf(direct) == Target(s)
            && OutcomeOf(Continue(retried, Whole())) == OutcomeOf(retried)
  {
    var s := Run(rules, name, spec, finalizers, platform, past);
    RunKeepsInv(Init(rules, name, spec, finalizers, platform), past);
    WholeReachesTheTarget(s);
    AttemptsKeepTheTarget(s, attempts);
    var t := Continue(s, attempts);
    StepKeepsInv(t, Crash);
    StepKeepsTheTarget(t, Crash);
    Again(Apply(t, Crash));
  }

  // A reconcile whose List fails and whose other calls succeed.
  function Unlisted(): seq<Action> {
    [Fetch(true), AddFinalizer(true), ListPlatforms(false), EnsureClaim(true), EnsureDeployment(true),
        EnsureService(true)]
  }

  lemma UnlistedStart(s: State)
    requires s.r.pc.Idle? && Live(s)
    ensures var t := Continue(s, Unlisted()[..3]);
            && t.r.pc.EnsuringClaim? && t.r.md == t.md && t.r.platform.None? && Live(t) && t.md.spec == s.md.spec
            && t == s.(md := t.md, clock := t.clock, r := t.r)
  {
    var w := Unlisted()[..3];
    ContinueHead(s, w);
    var s1 := Apply(s, Fetch(true));
    ContinueHead(s1, w[1..]);
    ContinueHead(Apply(s1, AddFinalizer(true)), w[2..]);
  }

  lemma UnlistedEnd(s: State)
    requires s.r.pc.EnsuringClaim? && s.r.md == s.md && s.r.platform.None? && Live(s) && DeploymentInv(s)
    requires SpecOk(s.rules, s.name, s.md.spec)
    ensures var t := Continue(s, Unlisted()[3..]);
            && t.r.pc.Idle? && t.deployment.Some?
            && t.deployment.value.spec == Built(s.name, s.md.spec, Engine(s.md.spec), None).spec
            && t.md == s.md && t.platform == s.platform && Same(s, t) && t.present == s.present
  {
    var w := Unlisted()[3..];
    ContinueHead(s, w);
    var s1 := Apply(s, EnsureClaim(true));
    ClaimEnsured(s);
    ContinueHead(s1, w[1..]);
    var s2 := Apply(s1, EnsureDeployment(true));
    DeploymentEnsured(s1);
    ContinueHead(s2, w[2..]);
    ServiceEnsured(s2);
  }

  /** The proviso is needed, and exact for a model not deployed yet: behind a platform that would be refused, one
      failed List deploys the model without a loader if and only if name and spec pass by themselves, and a fault-free
      reconcile leaves it so, while without the failure there would be no Deployment. */
  lemma FailedListDeploysBare(s: State)
    requires s.r.pc.Idle? && Inv(s) && Live(s) && s.deployment.None? && !Loads(s.platform)
    ensures Continue(s, Whole()).deployment.None?
    ensures var t := Continue(Continue(s, Unlisted()), Whole());
            && (t.deployment.Some? <==> SpecOk(s.rules, s.name, s.md.spec))
            && (t.deployment.Some? ==>
                  t.deployment.value.spec == Built(s.name, s.md.spec, Engine(s.md.spec), None).spec)
  {
    WholeReachesTheTarget(s);
    UnlistedLeads(s);
    WholeReachesTheTarget(Continue(s, Unlisted()));
  }

  lemma UnlistedLeads(s: State)
    requires s.r.pc.Idle? && Inv(s) && Live(s) && s.deployment.None?
    ensures var t := Continue(s, Unlisted());
            && t.r.pc.Idle? && Inv(t) && Live(t) && t.md.spec == s.md.spec && t.platform == s.platform && Same(s, t)
            && (t.deployment.Some? <==> SpecOk(s.rules, s.name, s.md.spec))
            && (t.deployment.Some? ==>
                  t.deployment.value.spec == Built(s.name, s.md.spec, Engine(s.md.spec), None).spec)
  {
    RunKeepsInv(s, Unlisted());
    assert Unlisted() == Unlisted()[..3] + Unlisted()[3..];
    ContinueAppend(s, Unlisted()[..3], Unlisted()[3..]);
    UnlistedStart(s);
    var u := Continue(s, Unlisted()[..3]);
    if SpecOk(s.rules, s.name, s.md.spec) { UnlistedEnd(u); } else { UnlistedRefused(u); }
  }

  lemma UnlistedRefused(s: State)
    requires s.r.pc.EnsuringClaim? && s.r.md == s.md && s.r.platform.None? && Live(s) && DeploymentInv(s)
    requires !SpecOk(s.rules, s.name, s.md.spec)
    ensures var t := Continue(s, Unlisted()[3..]);
            && t.r.pc.Idle? && t.deployment == s.deployment
            && t.md == s.md && t.platform == s.platform && Same(s, t) && t.present == s.present
  {
    var w := Unlisted()[3..];
    ContinueHead(s, w);
    var s1 := Apply(s, EnsureClaim(true));
    ClaimEnsured(s);
    ContinueHead(s1, w[1..]);
    var s2 := Apply(s1, EnsureDeployment(true));
    ContinueHead(s2, w[2..]);
    if s1.r.pc.EnsuringDeployment? { DeploymentEnsured(s1); }
  }

  /** A Service is never repaired: reconciling leaves it as it is, so that for a spec that passes it selects the new
      pods exactly when it was created for the engine the stored spec now resolves to, or there was none and the name
      is a Service name. */
  lemma ServiceKeepsItsEngine(rules: Rules, name: string, spec: ModelDeploymentSpec, finalizers: set<string>,
                              platform: Option<PlatformSpec>, past: seq<Action>)
    requires var s := Run(rules, name, spec, finalizers, platform, past); s.r.pc.Idle? && Live(s)
    ensures var s := Run(rules, name, spec, finalizers, platform, past);
            var t := Continue(s, Whole());
            var ok := DeploymentOk(rules, name, s.md.spec, s.platform);
            && (s.service.Some? || !ok ==> t.service == s.service)
            && (ok ==>
                  && t.deployment.Some?
                  && (t.service.Some? && Selects(t.service.value.selector, t.deployment.value.spec.podLabels)
                      <==> if s.service.Some? then s.routed == Engine(s.md.spec) else rules.serviceName(name)))
  {
    var s := Run(rules, name, spec, finalizers, platform, past);
    RunKeepsInv(Init(rules, name, spec, finalizers, platform), past);
    WholeReachesTheTarget(s);
    ServiceSelects(name, s.md.spec, Engine(s.md.spec), s.platform,
                   if s.service.None? then Engine(s.md.spec) else s.routed);
  }
}
