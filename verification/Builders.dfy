/** The builders of a ModelDeployment's children - claim, Deployment, Service - and how they are wired to each other. */
module Builders {
  import opened Api
  import opened Kubernetes
  import opened HelmValues
  import EngineArgs
  import EngineResolver
  import ModelSlug

  datatype Label = NameLabel | InstanceLabel | PartOfLabel | ComponentLabel | ModelLabel | EngineLabel
  type Labels = map<Label, string>

  // How a label selector and a Service selector choose pods.
  ghost predicate Selects(selector: Labels, labels: Labels) {
    forall k :: k in selector ==> k in labels && labels[k] == selector[k]
  }

  datatype Claim = Claim(name: string, labels: Labels, storage: string)
  // The environment of the model-loader init container.
  datatype Loader = Loader(source: string, slug: string, endpoint: string, bucket: string, accessKey: string,
                           secretKey: string, concurrency: int, hfToken: string, image: string)
  datatype DeploymentSpec = DeploymentSpec(replicas: Option<int>, selector: Labels, podLabels: Labels, image: string,
                                           args: seq<string>, port: int, memory: string, cpu: string, claim: string,
                                           loader: Option<Loader>)
  datatype Deployment = Deployment(labels: Labels, spec: DeploymentSpec, ready: int, total: int, version: nat)
  datatype Service = Service(labels: Labels, selector: Labels, port: int, targetPort: int)

  /* ---- Ports ---- */

  // engines[engine].Port: the zero value for an engine the table does not have.
  function ContainerPort(engine: string): int {
    if engine == "vllm" then 8000 else if engine == "tei" || engine == "llamacpp" then 8080 else 0
  }

  // engines[engine].Image
  function Image(engine: string): string {
    if engine == "vllm" then "vllm/vllm-openai:v0.19.0"
    else if engine == "tei" then "ghcr.io/huggingface/text-embeddings-inference:cpu-1.9.3"
    else if engine == "llamacpp" then "ghcr.io/ggml-org/llama.cpp:server-b8672"
    else ""
  }

  // EnginePort, the port of the endpoint in the status.
  function EndpointPort(engine: string): int { if KnownEngine(engine) then ContainerPort(engine) else 8000 }

  // getEnginePort, the port of the Service.
  function ServicePort(engine: string): int { if engine == "tei" || engine == "llamacpp" then 8080 else 8000 }

  function Decimal(n: nat): string {
    var digit := [(n % 10) as char + '0'];
    if n < 10 then digit else Decimal(n / 10) + digit
  }

  // The number a decimal text says.
  function Reads(text: string): int {
    if text == "" then 0 else 10 * Reads(text[..|text| - 1]) + (text[|text| - 1] as int - '0' as int)
  }

  lemma {:induction false} DecimalReads(n: nat)
    ensures Reads(Decimal(n)) == n
  {
    var digit := [(n % 10) as char + '0'];
    assert digit[..0] == "" && Reads(digit) == n % 10;
    if n >= 10 {
      DecimalReads(n / 10);
      assert Decimal(n) == Decimal(n / 10) + digit;
      assert Decimal(n)[..|Decimal(n)| - 1] == Decimal(n / 10);
    }
  }

  /* ---- Builders ---- */

  function CommonLabels(name: string, engine: string): Labels {
    map[NameLabel := engine, InstanceLabel := name, PartOfLabel := "kube-llmops", ModelLabel := name,
        EngineLabel := engine]
  }

  function DeploymentLabels(name: string, engine: string): Labels {
    map[NameLabel := engine, InstanceLabel := name, PartOfLabel := "kube-llmops", ComponentLabel := "model-serving",
        ModelLabel := name, EngineLabel := engine]
  }

  function ClaimName(name: string): string { name + "-cache" }

  function BuildClaim(name: string, engine: string): Claim {
    Claim(ClaimName(name), CommonLabels(name, engine),
          if engine == "tei" then "10Gi" else if engine == "llamacpp" then "30Gi" else "50Gi")
  }

  function BuildService(name: string, engine: string): Service {
    var port := ServicePort(engine);
    Service(CommonLabels(name, engine), map[NameLabel := engine, ModelLabel := name], port, port)
  }

  function Overridden(default: string, text: string): string { if text != "" then text else default }

  function BuildLoader(spec: ModelDeploymentSpec, platform: Option<PlatformSpec>): Option<Loader> {
    if platform.None? || !platform.value.modelStore.enabled then None
    else
      var ms := platform.value.modelStore;
      var own := if spec.modelStore.Some? then spec.modelStore.value else StoreOverride("", "");
      Some(Loader(spec.source, ModelSlug.Slug(spec.source),
                  Overridden(ms.endpoint, own.endpoint), Overridden(ms.bucket, own.bucket),
                  ms.accessKey, ms.secretKey, if ms.hfTransferConcurrency == 0 then 4 else ms.hfTransferConcurrency,
                  platform.value.hfToken, ms.image))
  }

  // The pairs of the user's engine arguments, by increasing key.
  ghost function UserArgs(spec: ModelDeploymentSpec): seq<string> {
    EngineArgs.SortedKeysOfMeans(spec.engineArgs);
    EngineArgs.Pairs(EngineArgs.SortedKeysOf(spec.engineArgs), spec.engineArgs)
  }

  ghost function ArgsFor(name: string, spec: ModelDeploymentSpec, engine: string): seq<string> {
    EngineArgs.Rendered(engine, name, ModelSlug.Slug(spec.source), Decimal(ContainerPort(engine)), spec.prefixCaching,
                        spec.engineArgs)
  }

  // The Deployment as it is created, with an empty status.
  ghost function Built(name: string, spec: ModelDeploymentSpec, engine: string, platform: Option<PlatformSpec>)
    : Deployment
  {
    var labels := DeploymentLabels(name, engine);
    Deployment(labels,
               DeploymentSpec(spec.replicas, map[InstanceLabel := name], labels, Image(engine),
                              ArgsFor(name, spec, engine), ContainerPort(engine), spec.resources.memory,
                              spec.resources.cpu, ClaimName(name), BuildLoader(spec, platform)), 0, 0, 0)
  }

  // What resource.MustParse makes of a text: an amount, or a panic.
  type Amounts = string -> Option<real>

  predicate Panics(amounts: Amounts, r: Resources) {
    (r.memory != "" && amounts(r.memory).None?) || (r.cpu != "" && amounts(r.cpu).None?)
  }

  // buildContainerResources: empty quantities are left out, the others must parse.
  method BuildContainerResources(amounts: Amounts, r: Resources) returns (ok: bool)
    ensures ok <==> (r.memory == "" || amounts(r.memory).Some?) && (r.cpu == "" || amounts(r.cpu).Some?)
  {
    if r.memory != "" {
      if amounts(r.memory).None? { return false; }
    }
    if r.cpu != "" {
      if amounts(r.cpu).None? { return false; }
    }
    ok := true;
  }

  /** BuildDeployment: nothing when a quantity makes it panic. */
  method BuildDeployment(amounts: Amounts, name: string, spec: ModelDeploymentSpec, engine: string,
                         platform: Option<PlatformSpec>) returns (d: Option<Deployment>)
    ensures d.None? <==> (spec.resources.memory != "" && amounts(spec.resources.memory).None?)
                         || (spec.resources.cpu != "" && amounts(spec.resources.cpu).None?)
    ensures d.Some? ==> d.value == Built(name, spec, engine, platform)
  {
    var slug, port := ModelSlug.Slug(spec.source), ContainerPort(engine);
    var labels := DeploymentLabels(name, engine);
    var args := EngineArgs.BuildEngineArgs(engine, name, slug, Decimal(port), spec.prefixCaching, spec.engineArgs);
    var sized := BuildContainerResources(amounts, spec.resources);
    if !sized { return None; }
    d := Some(Deployment(labels,
                         DeploymentSpec(spec.replicas, map[InstanceLabel := name], labels, Image(engine), args, port,
                                        spec.resources.memory, spec.resources.cpu, ClaimName(name),
                                        BuildLoader(spec, platform)), 0, 0, 0));
  }

  /* ---- Wiring ---- */

  function Engine(spec: ModelDeploymentSpec): string { EngineResolver.ResolveEngine(spec.source, spec.engine) }

  /** The three ports agree exactly for the engines of the table. */
  lemma PortsAgree(engine: string)
    ensures ContainerPort(engine) == ServicePort(engine) == EndpointPort(engine) <==> KnownEngine(engine)
  {
  }

  /** Of the specs the webhook admits, only an auto-detected sglang gets a Deployment whose port nobody else uses. */
  lemma ValidPortsAgree(spec: ModelDeploymentSpec)
    requires Validate(spec).None?
    ensures var e := Engine(spec);
            && (ContainerPort(e) == ServicePort(e) == EndpointPort(e) <==> e != "sglang")
            && (e == "sglang" ==> EngineResolver.Auto(spec.engine))
  {
    EngineResolver.ResolvesToKnown(spec.source, spec.engine);
  }

  /** What an engine of the table is told before anything the user says: the path of the model's slug, the address and
      its port, vllm also the name it serves and prefix caching when asked for; any other engine is told nothing but
      what the user says. */
  lemma ArgsSay(name: string, spec: ModelDeploymentSpec, engine: string)
    ensures var path := "/models/" + ModelSlug.Slug(spec.source);
            var port := Decimal(if engine == "vllm" then 8000 else 8080);
            ArgsFor(name, spec, engine) ==
            (if engine == "vllm" then
               ["--model", path, "--served-model-name", name, "--host", "0.0.0.0", "--port", port]
               + if spec.prefixCaching then ["--enable-prefix-caching"] else []
             else if engine == "tei" then ["--model-id", path, "--hostname", "0.0.0.0", "--port", port]
             else if engine == "llamacpp" then ["--model", path, "--host", "0.0.0.0", "--port", port]
             else []) + UserArgs(spec)
    ensures Reads(Decimal(8000)) == 8000 && Reads(Decimal(8080)) == 8080
  {
    DecimalReads(8000);
    DecimalReads(8080);
  }

  /** A loader is built exactly when the platform's model store is enabled; what the model overrides replaces the
      platform's setting, and the slug names the source exactly when it can be undone. */
  lemma LoaderReadsTheStore(spec: ModelDeploymentSpec, platform: Option<PlatformSpec>)
    ensures var loader := BuildLoader(spec, platform);
            && (loader.Some? <==> platform.Some? && platform.value.modelStore.enabled)
            && (loader.Some? ==>
                  var l, ms, own := loader.value, platform.value.modelStore, spec.modelStore;
                  && l.source == spec.source && (ModelSlug.Unslug(l.slug) == l.source <==> ModelSlug.Clean(spec.source))
                  && l.endpoint == (if own.Some? && own.value.endpoint != "" then own.value.endpoint else ms.endpoint)
                  && l.bucket == (if own.Some? && own.value.bucket != "" then own.value.bucket else ms.bucket)
                  && l.concurrency == (if ms.hfTransferConcurrency == 0 then 4 else ms.hfTransferConcurrency)
                  && l.accessKey == ms.accessKey && l.secretKey == ms.secretKey && l.image == ms.image
                  && l.hfToken == platform.value.hfToken)
  {
    ModelSlug.SlugRoundTrip(spec.source);
  }

  /** A Service built for one engine selects the pods of a Deployment built for another exactly when the engines are the
      same; the Deployment always selects its own pods. */
  lemma ServiceSelects(name: string, spec: ModelDeploymentSpec, engine: string, platform: Option<PlatformSpec>,
                       other: string)
    ensures var d := Built(name, spec, engine, platform).spec;
            && Selects(d.selector, d.podLabels)
            && (Selects(BuildService(name, other).selector, d.podLabels) <==> other == engine)
            && d.claim == BuildClaim(name, other).name
  {
    var s := BuildService(name, other).selector;
    assert NameLabel in s && s[NameLabel] == other;
  }
}
