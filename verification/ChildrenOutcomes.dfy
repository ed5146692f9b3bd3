/** What the children are after a reconcile in terms of the spec, field by field, and what scaling a model does. */
module ChildrenOutcomes {
  import opened Admission
  import opened Api
  import opened Kubernetes
  import opened HelmValues
  import opened Builders
  import opened ChildrenProtocol
  import opened ChildrenResults
  import M = ModelDeploymentProtocol

  function LabelsOf(name: string, engine: string): Labels {
    map[NameLabel := engine, InstanceLabel := name, PartOfLabel := "kube-llmops", ModelLabel := name,
        EngineLabel := engine]
  }

  /** A Deployment that asks for what the spec says. */
  ghost predicate Asks(d: DeploymentSpec, name: string, spec: ModelDeploymentSpec, platform: Option<PlatformSpec>) {
    && d.replicas == spec.replicas && d.memory == spec.resources.memory && d.cpu == spec.resources.cpu
    && d.claim == name + "-cache" && d.selector == map[InstanceLabel := name]
    && d.podLabels == LabelsOf(name, Engine(spec))[ComponentLabel := "model-serving"]
    && d.args == ArgsFor(name, spec, Engine(spec)) && d.loader == BuildLoader(spec, platform)
    && (Engine(spec) == "vllm" ==> d.port == 8000 && d.image == "vllm/vllm-openai:v0.19.0")
    && (Engine(spec) == "tei" ==>
          d.port == 8080 && d.image == "ghcr.io/huggingface/text-embeddings-inference:cpu-1.9.3")
    && (Engine(spec) == "llamacpp" ==> d.port == 8080 && d.image == "ghcr.io/ggml-org/llama.cpp:server-b8672")
  }

  lemma BuiltAsks(name: string, spec: ModelDeploymentSpec, platform: Option<PlatformSpec>)
    ensures var d := Built(name, spec, Engine(spec), platform);
            Asks(d.spec, name, spec, platform) && d.labels == d.spec.podLabels
  {
  }

  /** From any idle state with the object there: if name, spec and platform pass, one uninterrupted reconcile leaves a
      Deployment that asks for the replicas, memory and cpu of the stored spec, in the image and on the port of its
      engine, with its labels. */
  lemma WholeDeploysTheSpec(s: State)
    requires s.r.pc.Idle? && Inv(s) && Live(s) && DeploymentOk(s.rules, s.name, s.md.spec, s.platform)
    ensures var t := Continue(s, Whole());
            && t.deployment.Some? && Asks(t.deployment.value.spec, s.name, s.md.spec, s.platform)
            && t.deployment.value.labels == t.deployment.value.spec.podLabels
  {
    WholeReachesTheTarget(s);
    BuiltAsks(s.name, s.md.spec, s.platform);
  }

  lemma PassesScaled(rules: Rules, name: string, spec: ModelDeploymentSpec, platform: Option<PlatformSpec>, n: int)
    requires DeploymentOk(rules, name, spec, platform) && n >= 0
    ensures DeploymentOk(rules, name, spec.(replicas := Some(n)), platform)
  {
  }

  /** Scaling has its effect, and no other: once the edit that a scale command commits is stored, a reconcile leaves the
      Deployment it would have left anyway, asking for n replicas. */
  lemma ScaleReaches(s: State, n: int)
    requires s.r.pc.Idle? && Inv(s) && Live(s) && DeploymentOk(s.rules, s.name, s.md.spec, s.platform) && n >= 0
    ensures var scaled := Apply(s, ChildrenProtocol.Edit(s.md.spec.(replicas := Some(n))));
            var t, plain := Continue(scaled, Whole()), Continue(s, Whole());
            && t.deployment.Some? && t.deployment.value.spec.replicas == Some(n)
            && plain.deployment.Some?
            && t.deployment.value.spec == plain.deployment.value.spec.(replicas := Some(n))
            && t.deployment.value.labels == plain.deployment.value.labels
  {
    var spec := s.md.spec.(replicas := Some(n));
    var scaled := Apply(s, ChildrenProtocol.Edit(spec));
    StepKeepsInv(s, ChildrenProtocol.Edit(spec));
    EditIs(s, spec);
    PassesScaled(s.rules, s.name, s.md.spec, s.platform, n);
    WholeReachesTheTarget(s);
    WholeReachesTheTarget(scaled);
    ScaledBuild(s.name, s.md.spec, s.platform, n);
  }

  lemma EditIs(s: State, spec: ModelDeploymentSpec)
    requires s.r.pc.Idle? && Live(s)
    ensures var t := Apply(s, ChildrenProtocol.Edit(spec));
            && t.r.pc.Idle? && Live(t) && t.md.spec == spec && t.platform == s.platform && Same(s, t)
  {
  }

  lemma ScaledBuild(name: string, spec: ModelDeploymentSpec, platform: Option<PlatformSpec>, n: int)
    ensures var d := Built(name, spec, Engine(spec), platform);
            var scaled := spec.(replicas := Some(n));
            Built(name, scaled, Engine(scaled), platform) == d.(spec := d.spec.(replicas := Some(n)))
  {
  }

  /** The claim that a reconcile makes where there is none: storage by engine. */
  lemma WholeMakesTheClaim(s: State)
    requires s.r.pc.Idle? && Inv(s) && Live(s)
    ensures var t, engine := Continue(s, Whole()), Engine(s.md.spec);
            && (t.claim.Some? <==> s.claim.Some? || (s.rules.labelValue(s.name) && s.rules.labelValue(engine)))
            && (s.claim.Some? ==> t.claim == s.claim)
            && (s.claim.None? && t.claim.Some? ==>
                  && t.claim.value.name == s.name + "-cache" && t.claim.value.labels == LabelsOf(s.name, engine)
                  && t.claim.value.storage ==
                     if engine == "tei" then "10Gi" else if engine == "llamacpp" then "30Gi" else "50Gi")
  {
    WholeReachesTheTarget(s);
    TargetClaim(s);
  }

  lemma TargetClaim(s: State)
    ensures Target(s).claim ==
            if s.claim.Some? then s.claim
            else if ClaimOk(s.rules, s.name, Engine(s.md.spec)) then Some(BuildClaim(s.name, Engine(s.md.spec)))
            else None
  {
  }

  /** And the Service: on the engine's port, selecting the model's pods of that engine. */
  lemma WholeMakesTheService(s: State)
    requires s.r.pc.Idle? && Inv(s) && Live(s) && DeploymentOk(s.rules, s.name, s.md.spec, s.platform)
    ensures var t, engine := Continue(s, Whole()), Engine(s.md.spec);
            && (t.service.Some? <==> s.service.Some? || s.rules.serviceName(s.name))
            && (s.service.Some? ==> t.service == s.service)
            && (s.service.None? && t.service.Some? ==>
                  var svc := t.service.value;
                  && svc.labels == LabelsOf(s.name, engine)
                  && svc.selector == map[NameLabel := engine, ModelLabel := s.name]
                  && svc.port == svc.targetPort == if engine == "vllm" then 8000 else 8080)
  {
    WholeReachesTheTarget(s);
    TargetService(s);
  }

  lemma TargetService(s: State)
    requires DeploymentOk(s.rules, s.name, s.md.spec, s.platform)
    ensures Target(s).service ==
            if s.service.Some? then s.service
            else if s.rules.serviceName(s.name) then Some(BuildService(s.name, Engine(s.md.spec)))
            else None
  {
  }

  /* ---- What is left alone ---- */

  lemma StepKeepsReplicaCounts(s: State, a: Action)
    requires s.deployment.Some? && !a.Observe? && !a.Remove?
    ensures var t := Apply(s, a);
            && t.deployment.Some? && t.deployment.value.ready == s.deployment.value.ready
            && t.deployment.value.total == s.deployment.value.total
  {
  }

  /** Overwriting a Deployment keeps the status its own controller wrote, over any run in which that controller is
      silent and nobody removes it. */
  lemma {:induction false} ReplicaCountsStay(s: State, actions: seq<Action>)
    requires s.deployment.Some? && forall a :: a in actions ==> !a.Observe? && !a.Remove?
    ensures var t := Continue(s, actions);
            && t.deployment.Some? && t.deployment.value.ready == s.deployment.value.ready
            && t.deployment.value.total == s.deployment.value.total
  {
    if actions != [] {
      ReplicaCountsStay(s, actions[..|actions| - 1]);
      StepKeepsReplicaCounts(Continue(s, actions[..|actions| - 1]), actions[|actions| - 1]);
    }
  }

  lemma StepFinalizers(s: State, a: Action)
    requires Inv(s)
    ensures var t := Apply(s, a);
            t.md.finalizers ==
            if a.AddFinalizer? && t.md != s.md then s.md.finalizers + {M.FINALIZER} else s.md.finalizers
  {
  }

  /** Whatever happens, the reconciler adds its own finalizer and takes none away. */
  lemma {:induction false} FinalizersOnlyGrow(s: State, actions: seq<Action>)
    requires Inv(s)
    ensures var t := Continue(s, actions);
            s.md.finalizers <= t.md.finalizers <= s.md.finalizers + {M.FINALIZER}
  {
    if actions != [] {
      var past, a := actions[..|actions| - 1], actions[|actions| - 1];
      FinalizersOnlyGrow(s, past);
      RunKeepsInv(s, past);
      StepFinalizers(Continue(s, past), a);
    }
  }

  // The Deployment is as the reconcile at work would build it.
  ghost predicate AsBuilt(s: State) {
    s.deployment.Some? &&
    var built := Built(s.name, s.r.md.spec, Engine(s.r.md.spec), s.r.platform);
    s.deployment.value.labels == built.labels && s.deployment.value.spec == built.spec
  }

  lemma OverwritingTheSame(s: State)
    requires s.r.pc.EnsuringDeployment? && AsBuilt(s)
    ensures Apply(s, EnsureDeployment(true)).deployment == s.deployment
  {
  }

  lemma LastStepsKeep(s: State)
    requires s.r.pc.EnsuringClaim? && AsBuilt(s)
    ensures Continue(s, Whole()[3..]).deployment == s.deployment
  {
    var w := Whole()[3..];
    ContinueHead(s, w);
    var s1 := Apply(s, EnsureClaim(true));
    ClaimEnsured(s);
    ContinueHead(s1, w[1..]);
    var s2 := Apply(s1, EnsureDeployment(true));
    if s1.r.pc.EnsuringDeployment? { OverwritingTheSame(s1); }
    ContinueHead(s2, w[2..]);
    KeepsDeployment(s2);
  }

  lemma KeepsDeployment(s: State)
    ensures Apply(s, EnsureService(true)).deployment == s.deployment
  {
  }

  /** A reconcile that has nothing to change writes no Deployment: one more leaves it as it is, resource version
      included, and so does not wake its controller. */
  lemma SteadyIsNotWritten(s: State)
    requires s.r.pc.Idle? && Inv(s) && Live(s) && DeploymentOk(s.rules, s.name, s.md.spec, s.platform)
    ensures var t := Continue(s, Whole()); t.deployment.Some? && Continue(t, Whole()).deployment == t.deployment
  {
    WholeReachesTheTarget(s);
    var t := Continue(s, Whole());
    assert Whole() == Whole()[..3] + Whole()[3..];
    ContinueAppend(t, Whole()[..3], Whole()[3..]);
    FirstHalf(t);
    LastStepsKeep(Continue(t, Whole()[..3]));
  }
}
