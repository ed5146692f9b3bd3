/** TranslateValues of helmbridge as it runs: nested maps filled key by key. */
module Translation {
  import opened HelmMeaning
  import opened HelmValues

  /** TranslateValues as it runs: nested maps filled key by key, models in an index loop. */
  method TranslateValues(spec: PlatformSpec) returns (vals: Tree)
    ensures vals == TranslateTree(spec)
    ensures Decode(vals) == Canonical(spec)
  {
    var global := TranslateGlobal(spec);
    var litellm := TranslateGateway(spec.gateway);
    vals := FillSections(spec, global, litellm);
    TranslationReadsBack(spec);
  }

  // The sections in order, onto an empty map.
  method FillSections(spec: PlatformSpec, global: Tree, litellm: Tree) returns (vals: Tree)
    ensures vals == Edge(Subcharts(map[GlobalKey := Dict(global), LiteLLMKey := Dict(litellm)], spec), spec.ingress,
                         Enabled(spec.headlamp))
  {
    vals := map[];
    vals := vals[GlobalKey := Dict(global)];
    vals := vals[LiteLLMKey := Dict(litellm)];
    ghost var base := vals;
    vals := vals[ObservabilityKey := Enabled(spec.observability)];
    vals := vals[LangfuseKey := Enabled(spec.langfuse)];
    vals := vals[LoggingKey := Enabled(spec.logging)];
    vals := vals[Keycloak := Enabled(spec.keycloak)];
    vals := vals[PostgreSQL := Enabled(spec.postgresql)];
    vals := vals[Keda := Enabled(spec.keda)];
    vals := vals[Fluid := Enabled(spec.modelStore.enabled)];
    assert vals == Subcharts(base, spec);
    if spec.ingress.enabled { vals := vals[IngressKey := IngressValues(spec.ingress)]; }
    vals := vals[Headlamp := Enabled(spec.headlamp)];
  }

  method TranslateGlobal(spec: PlatformSpec) returns (global: Tree)
    ensures global == Global(spec)
  {
    global := map[ModulesKey := ModuleValues(spec.modules), ModelStoreKey := StoreValues(spec.modelStore)];
    if spec.hfToken != "" { global := global[HFToken := Str(spec.hfToken)]; }
    if |spec.models| > 0 {
      var models := [];
      for i := 0 to |spec.models|
        invariant models == ModelList(spec.models)[..i]
      {
        var model := TranslateModel(spec.models[i]);
        models := models + [Dict(model)];
      }
      assert models == ModelList(spec.models);
      global := global[Models := List(models)];
    }
    global := global[NodePortKey := NodePortValues(spec.nodePort)];
  }

  method TranslateModel(m: ModelSpec) returns (model: Tree)
    ensures model == ModelValues(m)
  {
    model := map[Name := Str(m.name), Source := Str(m.source)];
    if m.engine != "" { model := model[EngineKey := Str(m.engine)]; }
    if m.replicas > 0 { model := model[Replicas := Int(m.replicas)]; }
    var res: Tree := map[Gpu := Int(m.resources.gpu)];
    if m.resources.cpu != "" { res := res[Cpu := Str(m.resources.cpu)]; }
    if m.resources.memory != "" { res := res[Memory := Str(m.resources.memory)]; }
    model := model[ResourcesKey := Dict(res)];
    if |m.engineArgs| > 0 { model := model[EngineArgs := Strings(m.engineArgs)]; }
  }

  method TranslateGateway(gw: Gateway) returns (litellm: Tree)
    ensures litellm == LiteLLM(gw)
    ensures DecodeGateway(litellm) == CanonicalGateway(gw)
  {
    GatewayReadsBack(gw);
    litellm := map[EnabledKey := Bool(gw.enabled)];
    if gw.routing != "" { litellm := litellm[RoutingStrategy := Str(gw.routing)]; }
    if gw.masterKey != "" { litellm := litellm[MasterKey := Str(gw.masterKey)]; }
    if gw.imageTag != "" { litellm := litellm[ImageKey := Dict(map[Tag := Str(gw.imageTag)])]; }
    if gw.langfuse {
      litellm := litellm[LangfuseEnabled := Bool(true)];
      litellm := litellm[LangfusePublicKey := Str(gw.langfusePublicKey)];
      litellm := litellm[LangfuseSecretKey := Str(gw.langfuseSecretKey)];
    }
  }
}
