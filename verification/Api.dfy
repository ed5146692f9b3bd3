/** The ModelDeployment resource as operator/api/v1alpha1 declares it, as far as the model uses it, and its webhook. */
module Api {
  import opened Kubernetes

  datatype Resources = Resources(gpu: int, memory: string, cpu: string)
  datatype Canary = Canary(source: string, weight: int, resources: Resources)
  datatype StoreOverride = StoreOverride(endpoint: string, bucket: string)
  datatype ModelDeploymentSpec = ModelDeploymentSpec(
    source: string, engine: string, replicas: Option<int>, resources: Resources, engineArgs: map<string, string>,
    prefixCaching: bool, accelerator: string, modelStore: Option<StoreOverride>, canary: Option<Canary>)

  datatype Rejection = SourceRequired | BadEngine | NegativeReplicas | NegativeGpu | BadAccelerator
                     | CanarySourceRequired | BadCanaryWeight

  predicate KnownEngine(engine: string) { engine == "vllm" || engine == "tei" || engine == "llamacpp" }

  // ValidateModelDeploymentSpec: the first check that fails.
  function Validate(spec: ModelDeploymentSpec): Option<Rejection> {
    if spec.source == "" then Some(SourceRequired)
    else if !(spec.engine == "auto" || KnownEngine(spec.engine) || spec.engine == "") then Some(BadEngine)
    else if spec.replicas.Some? && spec.replicas.value < 0 then Some(NegativeReplicas)
    else if spec.resources.gpu < 0 then Some(NegativeGpu)
    else if !(spec.accelerator == "nvidia" || spec.accelerator == "amd" || spec.accelerator == "gaudi"
        || spec.accelerator == "")
      then Some(BadAccelerator)
    else if spec.canary.Some? && spec.canary.value.source == "" then Some(CanarySourceRequired)
    else if spec.canary.Some? && !(0 <= spec.canary.value.weight <= 100) then Some(BadCanaryWeight)
    else None
  }

  ghost predicate Valid(spec: ModelDeploymentSpec) {
    && spec.source != "" && spec.engine in {"", "auto", "vllm", "tei", "llamacpp"}
    && (spec.replicas.Some? ==> spec.replicas.value >= 0)
    && spec.resources.gpu >= 0
    && spec.accelerator in {"", "nvidia", "amd", "gaudi"}
    && (spec.canary.Some? ==> spec.canary.value.source != "" && 0 <= spec.canary.value.weight <= 100)
  }

  /** The checks in order admit exactly the valid specs. */
  lemma ValidateAdmitsTheValid(spec: ModelDeploymentSpec)
    ensures Validate(spec).None? <==> Valid(spec)
  {
  }
}
