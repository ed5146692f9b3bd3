/** What the API server asks of the children, and when what the builders make passes. */
module Admission {
  import opened Api
  import opened Kubernetes
  import opened HelmValues
  import opened Builders

  // The rules that depend on texts: amounts, label values and Service names. The results hold for any such rules.
  datatype Rules = Rules(amounts: Amounts, labelValue: string -> bool, serviceName: string -> bool)

  // The labels that are not constants are the name and the engine, or equal to one of them.
  predicate Labelled(rules: Rules, labels: Labels) {
    && InstanceLabel in labels && rules.labelValue(labels[InstanceLabel])
    && EngineLabel in labels && rules.labelValue(labels[EngineLabel])
  }

  predicate AdmitsAmount(rules: Rules, text: string) {
    text == "" || (rules.amounts(text).Some? && rules.amounts(text).value >= 0.0)
  }

  predicate AdmitsClaim(rules: Rules, c: Claim) { Labelled(rules, c.labels) }

  // Containers and init containers have an image, ports are ports, quantities are amounts, counts are not negative.
  predicate AdmitsDeployment(rules: Rules, d: DeploymentSpec) {
    && d.image != "" && 1 <= d.port <= 65535
    && (d.loader.Some? ==> d.loader.value.image != "")
    && AdmitsAmount(rules, d.memory) && AdmitsAmount(rules, d.cpu)
    && (d.replicas.Some? ==> d.replicas.value >= 0)
    && Labelled(rules, d.podLabels)
  }

  predicate AdmitsService(rules: Rules, name: string, svc: Service) {
    rules.serviceName(name) && Labelled(rules, svc.labels) && 1 <= svc.port <= 65535 && 1 <= svc.targetPort <= 65535
  }

  /* ---- What a caller can check beforehand ---- */

  predicate ClaimOk(rules: Rules, name: string, engine: string) { rules.labelValue(name) && rules.labelValue(engine) }

  // The platform has no model store, or one that says which image loads models.
  predicate Loads(platform: Option<PlatformSpec>) {
    platform.Some? && platform.value.modelStore.enabled ==> platform.value.modelStore.image != ""
  }

  predicate Sized(rules: Rules, spec: ModelDeploymentSpec) {
    && AdmitsAmount(rules, spec.resources.memory) && AdmitsAmount(rules, spec.resources.cpu)
    && (spec.replicas.Some? ==> spec.replicas.value >= 0)
  }

  // Whatever the platform.
  predicate SpecOk(rules: Rules, name: string, spec: ModelDeploymentSpec) {
    KnownEngine(Engine(spec)) && Sized(rules, spec) && ClaimOk(rules, name, Engine(spec))
  }

  predicate DeploymentOk(rules: Rules, name: string, spec: ModelDeploymentSpec, platform: Option<PlatformSpec>) {
    SpecOk(rules, name, spec) && Loads(platform)
  }

  predicate ServiceOk(rules: Rules, name: string, engine: string) {
    rules.serviceName(name) && ClaimOk(rules, name, engine)
  }

  lemma BuiltClaimIsAdmitted(rules: Rules, name: string, engine: string)
    ensures AdmitsClaim(rules, BuildClaim(name, engine)) <==> ClaimOk(rules, name, engine)
  {
  }

  lemma BuiltServiceIsAdmitted(rules: Rules, name: string, engine: string)
    ensures AdmitsService(rules, name, BuildService(name, engine)) <==> ServiceOk(rules, name, engine)
  {
  }

  lemma MainContainer(engine: string)
    ensures Image(engine) != "" && 1 <= ContainerPort(engine) <= 65535 <==> KnownEngine(engine)
  {
  }

  /** The API server takes the Deployment that is built exactly when the engine is in the table, an enabled model store
      says which image loads models, the quantities are amounts, the replicas are not negative and the name is a label
      value; in that case building it does not panic. */
  lemma BuiltDeploymentIsAdmitted(rules: Rules, name: string, spec: ModelDeploymentSpec, platform: Option<PlatformSpec>)
    ensures AdmitsDeployment(rules, Built(name, spec, Engine(spec), platform).spec)
            <==> DeploymentOk(rules, name, spec, platform)
    ensures DeploymentOk(rules, name, spec, platform) ==> !Panics(rules.amounts, spec.resources)
  {
    MainContainer(Engine(spec));
    LoaderReadsTheStore(spec, platform);
    PodLabelsAre(name, spec, platform);
  }

  lemma PodLabelsAre(name: string, spec: ModelDeploymentSpec, platform: Option<PlatformSpec>)
    ensures var l := Built(name, spec, Engine(spec), platform).spec.podLabels;
            InstanceLabel in l && l[InstanceLabel] == name && EngineLabel in l && l[EngineLabel] == Engine(spec)
  {
  }

  /* ---- The rules Kubernetes has for names and labels ---- */

  predicate LowerAlnum(c: char) { 'a' <= c <= 'z' || '0' <= c <= '9' }
  predicate Alnum(c: char) { LowerAlnum(c) || 'A' <= c <= 'Z' }

  // At most 63 characters, alphanumeric at both ends, with dashes, underscores and dots in between; or empty.
  predicate LabelValue(s: string) {
    s == "" || (&& |s| <= 63 && Alnum(s[0]) && Alnum(s[|s| - 1])
                && forall i :: 0 <= i < |s| ==> Alnum(s[i]) || s[i] == '-' || s[i] == '_' || s[i] == '.')
  }

  // An RFC 1035 label: at most 63 characters, lower case, a letter first, no dots.
  predicate ServiceName(s: string) {
    && 1 <= |s| <= 63 && 'a' <= s[0] <= 'z' && LowerAlnum(s[|s| - 1])
    && forall i :: 0 <= i < |s| ==> LowerAlnum(s[i]) || s[i] == '-'
  }

  function KubernetesRules(amounts: Amounts): Rules { Rules(amounts, LabelValue, ServiceName) }

  lemma EnginesAreLabels(engine: string)
    requires KnownEngine(engine)
    ensures LabelValue(engine)
  {
  }

  /** Under these rules the labels ask nothing of the engine beyond the table. */
  lemma AdmittedUnderKubernetes(amounts: Amounts, name: string, spec: ModelDeploymentSpec,
                                platform: Option<PlatformSpec>)
    ensures AdmitsDeployment(KubernetesRules(amounts), Built(name, spec, Engine(spec), platform).spec)
            <==> KnownEngine(Engine(spec)) && LabelValue(name) && Loads(platform)
                 && Sized(KubernetesRules(amounts), spec)
  {
    var rules := KubernetesRules(amounts);
    BuiltDeploymentIsAdmitted(rules, name, spec, platform);
    assert rules.labelValue(name) == LabelValue(name) && rules.labelValue(Engine(spec)) == LabelValue(Engine(spec));
    if KnownEngine(Engine(spec)) { EnginesAreLabels(Engine(spec)); }
  }
}
