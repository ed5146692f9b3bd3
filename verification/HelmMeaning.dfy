/** What the values tree of a platform spec says: reading it back, and when two specs give the same tree. */
module HelmMeaning {
  import opened Api
  import opened HelmValues

  /* ---- One model ---- */

  lemma StringsRoundTrip(m: map<string, string>)
    ensures DecodeStrings(Strings(m).entries) == m
  {
    var tree := Strings(m).entries;
    forall k | k in m ensures k in Texts(tree) { assert Other(k) in tree && tree[Other(k)] == Str(m[k]); }
    forall k | k in Texts(tree) ensures k in m { assert Other(k) in tree; }
  }

  // What ModelValues(m) says, key by key.
  ghost predicate SaysModel(v: Tree, m: ModelSpec) {
    && At(v, Name) == Str(m.name) && At(v, Source) == Str(m.source) && Text(v, EngineKey) == m.engine
    && At(v, Replicas) == (if m.replicas > 0 then Int(m.replicas) else Null)
    && At(v, ResourcesKey) == Dict(ResourceValues(m.resources))
    && Under(v, EngineArgs) == if m.engineArgs == map[] then map[] else Strings(m.engineArgs).entries
  }

  lemma ReadModel(m: ModelSpec)
    ensures SaysModel(ModelValues(m), m)
  {
    var base := WithText(map[Name := Str(m.name), Source := Str(m.source)], EngineKey, m.engine);
    assert base.Keys <= {Name, Source, EngineKey} && At(base, Name) == Str(m.name) && At(base, Source) == Str(m.source)
           && Text(base, EngineKey) == m.engine;
    var sized := With(base, m.replicas > 0, Replicas, Int(m.replicas))
        [ResourcesKey := Dict(ResourceValues(m.resources))];
    ReadSized(base, sized, m);
    assert ModelValues(m) == With(sized, m.engineArgs != map[], EngineArgs, Strings(m.engineArgs));
  }

  lemma ReadSized(base: Tree, sized: Tree, m: ModelSpec)
    requires base.Keys <= {Name, Source, EngineKey}
    requires sized == With(base, m.replicas > 0, Replicas, Int(m.replicas))
        [ResourcesKey := Dict(ResourceValues(m.resources))]
    ensures At(sized, Name) == At(base, Name) && At(sized, Source) == At(base, Source)
    ensures At(sized, EngineKey) == At(base, EngineKey) && EngineArgs !in sized
    ensures At(sized, Replicas) == (if m.replicas > 0 then Int(m.replicas) else Null)
    ensures At(sized, ResourcesKey) == Dict(ResourceValues(m.resources))
  {
  }

  lemma ReadResources(r: Resources)
    ensures DecodeResources(ResourceValues(r)) == r
  {
  }

  function DecodeModelSpec(v: Tree): ModelSpec {
    ModelSpec(Text(v, Name), Text(v, Source), Text(v, EngineKey), Number(v, Replicas),
        DecodeResources(Under(v, ResourcesKey)),
              DecodeStrings(Under(v, EngineArgs)))
  }

  // Replicas that are not positive are not written.
  function CanonicalModel(m: ModelSpec): ModelSpec { m.(replicas := if m.replicas > 0 then m.replicas else 0) }

  lemma ModelReadsBack(m: ModelSpec)
    ensures DecodeModelSpec(ModelValues(m)) == CanonicalModel(m)
  {
    ReadModel(m);
    StringsRoundTrip(m.engineArgs);
    ReadResources(m.resources);
    assert Texts(map[]) == {};
  }

  /* ---- The gateway ---- */

  function DecodeGateway(m: Tree): Gateway {
    Gateway(Flag(m, EnabledKey), Text(m, MasterKey), Text(m, RoutingStrategy), Text(Under(m, ImageKey), Tag),
            Flag(m, LangfuseEnabled), Text(m, LangfusePublicKey), Text(m, LangfuseSecretKey))
  }

  // The Langfuse keys are only written when Langfuse is enabled.
  function CanonicalGateway(g: Gateway): Gateway {
    if g.langfuse then g else g.(langfusePublicKey := "", langfuseSecretKey := "")
  }

  /** Reading the gateway's map back recovers the gateway, but for the keys of a disabled Langfuse. */
  lemma GatewayReadsBack(g: Gateway)
    ensures DecodeGateway(LiteLLM(g)) == CanonicalGateway(g)
  {
    var base := WithText(WithText(map[EnabledKey := Bool(g.enabled)], RoutingStrategy, g.routing), MasterKey,
        g.masterKey);
    assert base.Keys <= {EnabledKey, RoutingStrategy, MasterKey};
    assert Flag(base, EnabledKey) == g.enabled && Text(base, RoutingStrategy) == g.routing
        && Text(base, MasterKey) == g.masterKey;
    TagReadsBack(base, g.imageTag);
    var tagged := With(base, g.imageTag != "", ImageKey, Dict(map[Tag := Str(g.imageTag)]));
    LangfuseReadsBack(tagged, g);
  }

  lemma TagReadsBack(base: Tree, tag: string)
    requires base.Keys <= {EnabledKey, RoutingStrategy, MasterKey}
    ensures var t := With(base, tag != "", ImageKey, Dict(map[Tag := Str(tag)]));
            && Flag(t, EnabledKey) == Flag(base, EnabledKey) && Text(t, RoutingStrategy) == Text(base, RoutingStrategy)
            && Text(t, MasterKey) == Text(base, MasterKey) && Text(Under(t, ImageKey), Tag) == tag
            && t.Keys <= {EnabledKey, RoutingStrategy, MasterKey, ImageKey}
  {
  }

  lemma LangfuseReadsBack(tagged: Tree, g: Gateway)
    requires tagged.Keys <= {EnabledKey, RoutingStrategy, MasterKey, ImageKey}
    requires tagged == With(WithText(WithText(map[EnabledKey := Bool(g.enabled)], RoutingStrategy, g.routing),
        MasterKey, g.masterKey),
                            g.imageTag != "", ImageKey, Dict(map[Tag := Str(g.imageTag)]))
    ensures var m := LiteLLM(g);
            && Flag(m, EnabledKey) == Flag(tagged, EnabledKey)
                && Text(m, RoutingStrategy) == Text(tagged, RoutingStrategy)
            && Text(m, MasterKey) == Text(tagged, MasterKey) && At(m, ImageKey) == At(tagged, ImageKey)
            && Flag(m, LangfuseEnabled) == g.langfuse
            && Text(m, LangfusePublicKey) == (if g.langfuse then g.langfusePublicKey else "")
            && Text(m, LangfuseSecretKey) == (if g.langfuse then g.langfuseSecretKey else "")
  {
  }

  /* ---- The whole tree ---- */

  lemma ReadModules(m: Modules)
    ensures DecodeModules(ModuleValues(m).entries) == m
  {
  }

  lemma ReadModelStore(store: ModelStore)
    ensures DecodeModelStore(StoreValues(store).entries) == store.(enabled := false)
  {
  }

  lemma ReadNodePort(n: NodePort)
    ensures DecodeNodePort(NodePortValues(n).entries) == n
  {
  }

  lemma ReadGlobal(spec: PlatformSpec)
    ensures var g := Global(spec);
            && At(g, ModulesKey) == ModuleValues(spec.modules) && At(g, ModelStoreKey) == StoreValues(spec.modelStore)
            && At(g, NodePortKey) == NodePortValues(spec.nodePort) && Text(g, HFToken) == spec.hfToken
            && At(g, Models) == if spec.models != [] then List(ModelList(spec.models)) else Null
  {
  }

  lemma ReadSections(m: Tree, o: Value, l: Value, g: Value, k: Value, p: Value, d: Value, f: Value)
    ensures var v := Sections(m, o, l, g, k, p, d, f);
            && At(v, GlobalKey) == At(m, GlobalKey) && At(v, LiteLLMKey) == At(m, LiteLLMKey)
            && (IngressKey in v <==> IngressKey in m)
            && At(v, ObservabilityKey) == o && At(v, LangfuseKey) == l && At(v, LoggingKey) == g && At(v, Keycloak) == k
            && At(v, PostgreSQL) == p && At(v, Keda) == d && At(v, Fluid) == f
  {
  }

  lemma ReadEdge(v: Tree, ingress: Ingress, headlamp: Value)
    requires IngressKey !in v
    ensures var t := Edge(v, ingress, headlamp);
            && (forall k :: k != IngressKey && k != Headlamp ==> At(t, k) == At(v, k))
            && At(t, Headlamp) == headlamp
            && At(t, IngressKey) == if ingress.enabled then IngressValues(ingress) else Null
  {
  }

  // What TranslateTree(spec) says, section by section: the inner sections, then the edge.
  ghost predicate SaysInside(v: Tree, spec: PlatformSpec) {
    && At(v, GlobalKey) == Dict(Global(spec)) && At(v, LiteLLMKey) == Dict(LiteLLM(spec.gateway))
    && At(v, ObservabilityKey) == Enabled(spec.observability) && At(v, LangfuseKey) == Enabled(spec.langfuse)
    && At(v, LoggingKey) == Enabled(spec.logging) && At(v, Keycloak) == Enabled(spec.keycloak)
    && At(v, PostgreSQL) == Enabled(spec.postgresql) && At(v, Keda) == Enabled(spec.keda)
    && At(v, Fluid) == Enabled(spec.modelStore.enabled)
  }

  ghost predicate Says(v: Tree, spec: PlatformSpec) {
    && SaysInside(v, spec) && At(v, Headlamp) == Enabled(spec.headlamp)
    && At(v, IngressKey) == if spec.ingress.enabled then IngressValues(spec.ingress) else Null
  }

  lemma SubchartsSay(base: Tree, spec: PlatformSpec)
    requires IngressKey !in base
    requires At(base, GlobalKey) == Dict(Global(spec)) && At(base, LiteLLMKey) == Dict(LiteLLM(spec.gateway))
    ensures SaysInside(Subcharts(base, spec), spec) && IngressKey !in Subcharts(base, spec)
  {
    ReadSections(base, Enabled(spec.observability), Enabled(spec.langfuse), Enabled(spec.logging),
                 Enabled(spec.keycloak), Enabled(spec.postgresql), Enabled(spec.keda),
                 Enabled(spec.modelStore.enabled));
  }

  lemma EdgeSays(v: Tree, spec: PlatformSpec)
    requires IngressKey !in v && SaysInside(v, spec)
    ensures Says(Edge(v, spec.ingress, Enabled(spec.headlamp)), spec)
  {
    ReadEdge(v, spec.ingress, Enabled(spec.headlamp));
  }

  lemma ReadPlatform(spec: PlatformSpec)
    ensures Says(TranslateTree(spec), spec)
  {
    var base := map[GlobalKey := Dict(Global(spec)), LiteLLMKey := Dict(LiteLLM(spec.gateway))];
    SubchartsSay(base, spec);
    EdgeSays(Subcharts(base, spec), spec);
  }

  function DecodeModels(models: Value): seq<ModelSpec> {
    if !models.List? then []
    else seq(|models.items|, i requires 0 <= i < |models.items| =>
           if models.items[i].Dict? then DecodeModelSpec(models.items[i].entries) else DecodeModelSpec(map[]))
  }

  function DecodeIngress(m: Tree): Ingress { Ingress(Flag(m, EnabledKey), Text(m, ClassName), Text(m, Host)) }

  // The platform spec a values tree speaks of.
  function Decode(values: Tree): PlatformSpec {
    var global := Under(values, GlobalKey);
    PlatformSpec(
      DecodeGateway(Under(values, LiteLLMKey)), Toggle(values, ObservabilityKey), Toggle(values, LangfuseKey),
      Toggle(values, LoggingKey), DecodeModules(Under(global, ModulesKey)),
      DecodeModelStore(Under(global, ModelStoreKey)).(enabled := Toggle(values, Fluid)), Text(global, HFToken),
      DecodeModels(At(global, Models)), Toggle(values, Keycloak), Toggle(values, PostgreSQL), Toggle(values, Keda),
      DecodeNodePort(Under(global, NodePortKey)), DecodeIngress(Under(values, IngressKey)), Toggle(values, Headlamp))
  }

  function CanonicalModels(models: seq<ModelSpec>): seq<ModelSpec> {
    seq(|models|, i requires 0 <= i < |models| => CanonicalModel(models[i]))
  }

  function CanonicalIngress(i: Ingress): Ingress { if i.enabled then i else Ingress(false, "", "") }

  // All of a spec that Helm sees.
  function Canonical(spec: PlatformSpec): PlatformSpec {
    spec.(gateway := CanonicalGateway(spec.gateway), models := CanonicalModels(spec.models),
          ingress := CanonicalIngress(spec.ingress))
  }

  lemma ModelsReadBack(models: seq<ModelSpec>)
    ensures DecodeModels(if models != [] then List(ModelList(models)) else Null) == CanonicalModels(models)
  {
    forall i | 0 <= i < |models| ensures DecodeModelSpec(ModelValues(models[i])) == CanonicalModel(models[i]) {
      ModelReadsBack(models[i]);
    }
  }

  lemma GlobalReadsBack(spec: PlatformSpec)
    ensures var g := Global(spec);
            && DecodeModules(Under(g, ModulesKey)) == spec.modules
            && DecodeModelStore(Under(g, ModelStoreKey)) == spec.modelStore.(enabled := false)
            && DecodeNodePort(Under(g, NodePortKey)) == spec.nodePort
            && Text(g, HFToken) == spec.hfToken && DecodeModels(At(g, Models)) == CanonicalModels(spec.models)
  {
    ReadGlobal(spec);
    ReadModules(spec.modules);
    ReadModelStore(spec.modelStore);
    ReadNodePort(spec.nodePort);
    ModelsReadBack(spec.models);
  }

  lemma ToggleReadsBack(v: Tree, key: Key, flag: bool)
    requires At(v, key) == Enabled(flag)
    ensures Toggle(v, key) == flag
  {
  }

  lemma TogglesReadBack(v: Tree, spec: PlatformSpec)
    requires Says(v, spec)
    ensures Toggle(v, ObservabilityKey) == spec.observability && Toggle(v, LangfuseKey) == spec.langfuse
    ensures Toggle(v, LoggingKey) == spec.logging && Toggle(v, Keycloak) == spec.keycloak
    ensures Toggle(v, PostgreSQL) == spec.postgresql && Toggle(v, Keda) == spec.keda
    ensures Toggle(v, Fluid) == spec.modelStore.enabled && Toggle(v, Headlamp) == spec.headlamp
  {
    ToggleReadsBack(v, ObservabilityKey, spec.observability);
    ToggleReadsBack(v, LangfuseKey, spec.langfuse);
    ToggleReadsBack(v, LoggingKey, spec.logging);
    ToggleReadsBack(v, Keycloak, spec.keycloak);
    ToggleReadsBack(v, PostgreSQL, spec.postgresql);
    ToggleReadsBack(v, Keda, spec.keda);
    ToggleReadsBack(v, Fluid, spec.modelStore.enabled);
    ToggleReadsBack(v, Headlamp, spec.headlamp);
  }

  lemma IngressReadsBack(v: Tree, i: Ingress)
    requires At(v, IngressKey) == if i.enabled then IngressValues(i) else Null
    ensures DecodeIngress(Under(v, IngressKey)) == CanonicalIngress(i)
  {
  }

  /** Reading the translated values back recovers the whole spec, but for what is never written: the Langfuse keys of a
      gateway without Langfuse, the class and host of a disabled ingress, and replicas that are not positive. */
  lemma TranslationReadsBack(spec: PlatformSpec)
    ensures Decode(TranslateTree(spec)) == Canonical(spec)
  {
    var v := TranslateTree(spec);
    ReadPlatform(spec);
    TogglesReadBack(v, spec);
    IngressReadsBack(v, spec.ingress);
    GlobalReadsBack(spec);
    GatewayReadsBack(spec.gateway);
    assert Under(v, GlobalKey) == Global(spec) && Under(v, LiteLLMKey) == LiteLLM(spec.gateway);
  }

  lemma CanonicalGlobal(spec: PlatformSpec)
    ensures Global(Canonical(spec)) == Global(spec)
  {
    var c := Canonical(spec);
    assert ModelList(c.models) == ModelList(spec.models) by {
      forall i | 0 <= i < |spec.models| ensures ModelValues(c.models[i]) == ModelValues(spec.models[i]) {}
    }
  }

  lemma CanonicalEdge(v: Tree, i: Ingress, headlamp: Value)
    ensures Edge(v, CanonicalIngress(i), headlamp) == Edge(v, i, headlamp)
  {
  }

  lemma CanonicalGatewayAlike(g: Gateway)
    ensures LiteLLM(CanonicalGateway(g)) == LiteLLM(g)
  {
  }

  lemma CanonicalTranslatesAlike(spec: PlatformSpec)
    ensures TranslateTree(Canonical(spec)) == TranslateTree(spec)
  {
    var c := Canonical(spec);
    CanonicalGlobal(spec);
    CanonicalGatewayAlike(spec.gateway);
    CanonicalEdge(Subcharts(map[GlobalKey := Dict(Global(spec)), LiteLLMKey := Dict(LiteLLM(spec.gateway))], spec),
                  spec.ingress, Enabled(spec.headlamp));
  }

  /** Two platform specs give Helm the same values exactly when they agree on everything that is written. */
  lemma TranslationIsExact(a: PlatformSpec, b: PlatformSpec)
    ensures Translate(a) == Translate(b) <==> Canonical(a) == Canonical(b)
  {
    TranslationReadsBack(a);
    TranslationReadsBack(b);
    CanonicalTranslatesAlike(a);
    CanonicalTranslatesAlike(b);
  }

  // Two specs Helm cannot tell apart.
  ghost predicate AlikeForHelm(a: PlatformSpec, b: PlatformSpec) {
    && a.(gateway := b.gateway, models := b.models, ingress := b.ingress) == b
    && a.gateway.langfuse == b.gateway.langfuse
    && (if a.gateway.langfuse then a.gateway == b.gateway
        else a.gateway.(langfusePublicKey := "", langfuseSecretKey := "")
             == b.gateway.(langfusePublicKey := "", langfuseSecretKey := ""))
    && a.ingress.enabled == b.ingress.enabled && (a.ingress.enabled ==> a.ingress == b.ingress)
    && |a.models| == |b.models|
    && forall i :: 0 <= i < |a.models| ==> SameModel(a.models[i], b.models[i])
  }

  // The same model, and the same replicas unless neither asks for a positive number.
  predicate SameModel(m: ModelSpec, n: ModelSpec) {
    m.(replicas := n.replicas) == n && (m.replicas == n.replicas || (m.replicas <= 0 && n.replicas <= 0))
  }

  lemma ModelsAlike(a: seq<ModelSpec>, b: seq<ModelSpec>)
    ensures CanonicalModels(a) == CanonicalModels(b) <==>
            |a| == |b| && forall i :: 0 <= i < |a| ==> SameModel(a[i], b[i])
  {
    if CanonicalModels(a) == CanonicalModels(b) {
      assert |CanonicalModels(a)| == |a| && |CanonicalModels(b)| == |b|;
      forall i | 0 <= i < |a| ensures SameModel(a[i], b[i]) {
        assert CanonicalModels(a)[i] == CanonicalModels(b)[i];
      }
    }
  }

  lemma RestAlike(a: PlatformSpec, b: PlatformSpec)
    ensures Canonical(a) == Canonical(b) <==>
            && a.(gateway := b.gateway, models := b.models, ingress := b.ingress) == b
            && CanonicalGateway(a.gateway) == CanonicalGateway(b.gateway)
            && CanonicalModels(a.models) == CanonicalModels(b.models)
            && CanonicalIngress(a.ingress) == CanonicalIngress(b.ingress)
  {
  }

  /** Which specs give Helm the same values, field by field: those that differ at most in the Langfuse keys of gateways
      without Langfuse, in the class and host of disabled ingresses, and in replicas that are not positive. */
  lemma TranslationSeparates(a: PlatformSpec, b: PlatformSpec)
    ensures Translate(a) == Translate(b) <==> AlikeForHelm(a, b)
  {
    TranslationIsExact(a, b);
    RestAlike(a, b);
    ModelsAlike(a.models, b.models);
  }
}
