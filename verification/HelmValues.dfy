/** TranslateValues: the Helm values tree the operator installs for a platform spec. */
module HelmValues {
  import opened Api

  // The keys the code names; Other is every key it does not.
  datatype Key =
    | Name | Source | EngineKey | Replicas | ResourcesKey | EngineArgs | Gpu | Cpu | Memory
    | GlobalKey | ModulesKey | Rag | Finetune | Security | ModelStoreKey | Endpoint | Bucket | AccessKey | SecretKey
    | HFTransferConcurrency | ImageKey | HFToken | Models | NodePortKey | EnabledKey | Host | ClassName
    | LiteLLMKey | RoutingStrategy | MasterKey | Tag | LangfuseEnabled | LangfusePublicKey | LangfuseSecretKey
    | ObservabilityKey | LangfuseKey | LoggingKey | Keycloak | PostgreSQL | Keda | Fluid | IngressKey | Headlamp
    | ApiVersion | Kind | Metadata | Spec | GatewayKey
    | Other(text: string)

  // map[string]interface{} as JSON sees it.
  datatype Value = Null | Bool(flag: bool) | Int(number: int) | Str(text: string)
                 | List(items: seq<Value>) | Dict(entries: map<Key, Value>)
  type Tree = map<Key, Value>

  datatype ModelSpec = ModelSpec(name: string, source: string, engine: string, replicas: int,
                                 resources: Resources, engineArgs: map<string, string>)
  datatype Gateway = Gateway(enabled: bool, masterKey: string, routing: string, imageTag: string,
                             langfuse: bool, langfusePublicKey: string, langfuseSecretKey: string)
  datatype Modules = Modules(rag: bool, finetune: bool, security: bool)
  datatype ModelStore = ModelStore(enabled: bool, endpoint: string, bucket: string, accessKey: string,
                                   secretKey: string, hfTransferConcurrency: int, image: string)
  datatype NodePort = NodePort(enabled: bool, host: string)
  datatype Ingress = Ingress(enabled: bool, className: string, host: string)
  datatype PlatformSpec = PlatformSpec(
    gateway: Gateway, observability: bool, langfuse: bool, logging: bool, modules: Modules,
    modelStore: ModelStore, hfToken: string, models: seq<ModelSpec>, keycloak: bool, postgresql: bool,
    keda: bool, nodePort: NodePort, ingress: Ingress, headlamp: bool)

  function Enabled(flag: bool): Value { Dict(map[EnabledKey := Bool(flag)]) }

  // if present { m[key] = value }
  function With(m: Tree, present: bool, key: Key, value: Value): Tree { if present then m[key := value] else m }
  function WithText(m: Tree, key: Key, text: string): Tree { With(m, text != "", key, Str(text)) }

  function Strings(m: map<string, string>): Value { Dict(map k | k in m :: Other(k) := Str(m[k])) }

  function ResourceValues(r: Resources): Tree {
    WithText(WithText(map[Gpu := Int(r.gpu)], Cpu, r.cpu), Memory, r.memory)
  }

  function ModelValues(m: ModelSpec): Tree {
    var base := WithText(map[Name := Str(m.name), Source := Str(m.source)], EngineKey, m.engine);
    var sized := With(base, m.replicas > 0, Replicas, Int(m.replicas))
        [ResourcesKey := Dict(ResourceValues(m.resources))];
    With(sized, m.engineArgs != map[], EngineArgs, Strings(m.engineArgs))
  }

  function ModelList(models: seq<ModelSpec>): seq<Value> {
    seq(|models|, i requires 0 <= i < |models| => Dict(ModelValues(models[i])))
  }

  function ModuleValues(m: Modules): Value {
    Dict(map[Rag := Enabled(m.rag), Finetune := Enabled(m.finetune), Security := Enabled(m.security)])
  }

  function StoreValues(s: ModelStore): Value {
    Dict(map[Endpoint := Str(s.endpoint), Bucket := Str(s.bucket), AccessKey := Str(s.accessKey),
             SecretKey := Str(s.secretKey), HFTransferConcurrency := Int(s.hfTransferConcurrency),
             ImageKey := Str(s.image)])
  }

  function NodePortValues(n: NodePort): Value { Dict(map[EnabledKey := Bool(n.enabled), Host := Str(n.host)]) }

  function Global(spec: PlatformSpec): Tree {
    var base := map[ModulesKey := ModuleValues(spec.modules), ModelStoreKey := StoreValues(spec.modelStore)];
    With(WithText(base, HFToken, spec.hfToken), spec.models != [], Models, List(ModelList(spec.models)))
      [NodePortKey := NodePortValues(spec.nodePort)]
  }

  function LiteLLM(g: Gateway): Tree {
    var base := WithText(WithText(map[EnabledKey := Bool(g.enabled)], RoutingStrategy, g.routing), MasterKey,
        g.masterKey);
    var tagged := With(base, g.imageTag != "", ImageKey, Dict(map[Tag := Str(g.imageTag)]));
    if g.langfuse then tagged[LangfuseEnabled := Bool(true)][LangfusePublicKey := Str(g.langfusePublicKey)]
                             [LangfuseSecretKey := Str(g.langfuseSecretKey)]
    else tagged
  }

  // One section per subchart; fluid is MinIO.
  function Sections(m: Tree, observability: Value, langfuse: Value, logging: Value, keycloak: Value, postgresql: Value,
                    keda: Value, fluid: Value): Tree {
    m[ObservabilityKey := observability][LangfuseKey := langfuse][LoggingKey := logging]
     [Keycloak := keycloak][PostgreSQL := postgresql][Keda := keda][Fluid := fluid]
  }

  function Subcharts(m: Tree, spec: PlatformSpec): Tree {
    Sections(m, Enabled(spec.observability), Enabled(spec.langfuse), Enabled(spec.logging), Enabled(spec.keycloak),
             Enabled(spec.postgresql), Enabled(spec.keda), Enabled(spec.modelStore.enabled))
  }

  function IngressValues(i: Ingress): Value {
    Dict(map[EnabledKey := Bool(true), ClassName := Str(i.className), Host := Str(i.host)])
  }

  // The last sections: ingress only when it is enabled, then headlamp.
  function Edge(m: Tree, ingress: Ingress, headlamp: Value): Tree {
    With(m, ingress.enabled, IngressKey, IngressValues(ingress))[Headlamp := headlamp]
  }

  function TranslateTree(spec: PlatformSpec): Tree {
    Edge(Subcharts(map[GlobalKey := Dict(Global(spec)), LiteLLMKey := Dict(LiteLLM(spec.gateway))], spec),
         spec.ingress, Enabled(spec.headlamp))
  }

  function Translate(spec: PlatformSpec): Value { Dict(TranslateTree(spec)) }

  /* ---- Reading a values tree ---- */

  // Reading a key of a map[string]interface{}: nil when missing.
  function At(m: Tree, key: Key): Value { if key in m then m[key] else Null }

  // A type assertion to map[string]interface{}, and the keys under it if it succeeds.
  function Under(m: Tree, key: Key): Tree { if At(m, key).Dict? then At(m, key).entries else map[] }

  function Text(m: Tree, key: Key): string { if At(m, key).Str? then m[key].text else "" }
  function Number(m: Tree, key: Key): int { if At(m, key).Int? then m[key].number else 0 }
  function Flag(m: Tree, key: Key): bool { At(m, key).Bool? && m[key].flag }
  function Toggle(m: Tree, key: Key): bool { Flag(Under(m, key), EnabledKey) }

  function Texts(m: Tree): set<string> { set key | key in m && key.Other? && m[key].Str? :: key.text }

  function DecodeStrings(m: Tree): map<string, string> { map k | k in Texts(m) :: m[Other(k)].text }

  function DecodeResources(m: Tree): Resources { Resources(Number(m, Gpu), Text(m, Memory), Text(m, Cpu)) }

  function DecodeModules(m: Tree): Modules { Modules(Toggle(m, Rag), Toggle(m, Finetune), Toggle(m, Security)) }

  function DecodeModelStore(m: Tree): ModelStore {
    ModelStore(Flag(m, EnabledKey), Text(m, Endpoint), Text(m, Bucket), Text(m, AccessKey), Text(m, SecretKey),
               Number(m, HFTransferConcurrency), Text(m, ImageKey))
  }

  function DecodeNodePort(m: Tree): NodePort { NodePort(Flag(m, EnabledKey), Text(m, Host)) }
}
