/** The two migrators from Helm values back to custom resources, and the round trip with TranslateValues. */
module Migrate {
  import opened Api
  import opened Kubernetes
  import opened HelmMeaning
  import opened HelmValues

  function WithEnabled(spec: Tree, values: Tree, section: Key, name: Key): Tree {
    With(spec, At(values, section).Dict?, name, Dict(map[EnabledKey := At(Under(values, section), EnabledKey)]))
  }

  function WithSection(spec: Tree, global: Tree, key: Key): Tree {
    With(spec, At(global, key).Dict?, key, At(global, key))
  }

  // The spec both migrators generate for the platform.
  function PlatformSection(values: Tree): Tree {
    var global := Under(values, GlobalKey);
    var spec := WithEnabled(WithEnabled(map[], values, LiteLLMKey, GatewayKey), values, ObservabilityKey,
        ObservabilityKey);
    WithSection(WithSection(WithSection(spec, global, ModulesKey), global, ModelStoreKey), global, NodePortKey)
  }

  function Resource(kind: string, name: Value, spec: Tree): Tree {
    map[ApiVersion := Str("llmops.kubellmops.io/v1alpha1"), Kind := Str(kind),
        Metadata := Dict(map[Name := name]), Spec := Dict(spec)]
  }

  function WithKey(spec: Tree, model: Tree, key: Key): Tree { With(spec, key in model, key, At(model, key)) }

  function ModelSection(model: Tree): Tree {
    var spec := map[Source := At(model, Source)];
    WithKey(WithKey(WithKey(WithKey(spec, model, Replicas), model, ResourcesKey), model, EngineArgs), model, EngineKey)
  }

  function MigratedModel(model: Tree): Tree {
    Resource("ModelDeployment", At(model, Name), ModelSection(model))
  }

  // One resource for an entry that is a map, none otherwise.
  function Migrated(entry: Value): seq<Tree> { if entry.Dict? then [MigratedModel(entry.entries)] else [] }

  function MigratedModels(models: seq<Value>): seq<Tree> {
    if models == [] then [] else MigratedModels(models[..|models| - 1]) + Migrated(models[|models| - 1])
  }

  function ModelsOf(values: Tree): seq<Value> {
    var models := At(Under(values, GlobalKey), Models);
    if models.List? then models.items else []
  }

  /* ---- The two implementations ---- */

  // operator/internal/cli/cmd/migrate.go
  method MigratePlatform(values: Tree, name: string) returns (platform: Tree)
    ensures platform == Resource("LLMPlatform", Str(name), PlatformSection(values))
  {
    var spec: Tree := map[];
    if At(values, LiteLLMKey).Dict? {
      spec := spec[GatewayKey := Dict(map[EnabledKey := At(values[LiteLLMKey].entries, EnabledKey)])];
    }
    if At(values, ObservabilityKey).Dict? {
      spec := spec[ObservabilityKey := Dict(map[EnabledKey := At(values[ObservabilityKey].entries, EnabledKey)])];
    }
    if At(values, GlobalKey).Dict? {
      var global := values[GlobalKey].entries;
      if At(global, ModulesKey).Dict? { spec := spec[ModulesKey := global[ModulesKey]]; }
      if At(global, ModelStoreKey).Dict? { spec := spec[ModelStoreKey := global[ModelStoreKey]]; }
      if At(global, NodePortKey).Dict? { spec := spec[NodePortKey := global[NodePortKey]]; }
    }
    platform := Resource("LLMPlatform", Str(name), spec);
  }

  // operator/cmd/migrate/main.go: the same sections for the platform
  method GeneratePlatform(values: Tree, name: string) returns (platform: Tree)
    ensures platform == Resource("LLMPlatform", Str(name), PlatformSection(values))
  {
    var spec: Tree := map[];
    var litellm := At(values, LiteLLMKey);
    if litellm.Dict? {
      spec := spec[GatewayKey := Dict(map[EnabledKey := At(litellm.entries, EnabledKey)])];
    }
    var obs := At(values, ObservabilityKey);
    if obs.Dict? {
      spec := spec[ObservabilityKey := Dict(map[EnabledKey := At(obs.entries, EnabledKey)])];
    }
    var global := At(values, GlobalKey);
    if global.Dict? {
      var modules, ms, np := At(global.entries, ModulesKey), At(global.entries, ModelStoreKey),
          At(global.entries, NodePortKey);
      if modules.Dict? { spec := spec[ModulesKey := modules]; }
      if ms.Dict? { spec := spec[ModelStoreKey := ms]; }
      if np.Dict? { spec := spec[NodePortKey := np]; }
    }
    platform := Resource("LLMPlatform", Str(name), spec);
  }

  function WithKeys(spec: Tree, model: Tree, keys: seq<Key>): Tree
    decreases keys
  {
    if keys == [] then spec else WithKeys(WithKey(spec, model, keys[0]), model, keys[1..])
  }

  // operator/internal/cli/cmd/migrate.go: a loop over the optional keys
  method MigrateModelDeployment(model: Tree) returns (md: Tree)
    ensures md == MigratedModel(model)
  {
    var keys := [Replicas, ResourcesKey, EngineArgs, EngineKey];
    var spec := map[Source := At(model, Source)];
    for i := 0 to |keys|
      invariant WithKeys(spec, model, keys[i..]) == WithKeys(map[Source := At(model, Source)], model, keys)
    {
      if keys[i] in model { spec := spec[keys[i] := model[keys[i]]]; }
    }
    FourKeys(map[Source := At(model, Source)], model, keys);
    md := Resource("ModelDeployment", At(model, Name), spec);
  }

  lemma FourKeys(spec: Tree, model: Tree, k: seq<Key>)
    requires |k| == 4
    ensures WithKeys(spec, model, k) == WithKey(WithKey(WithKey(WithKey(spec, model, k[0]), model, k[1]), model,
        k[2]), model, k[3])
  {
    var one := WithKey(spec, model, k[0]);
    var two := WithKey(one, model, k[1]);
    var three := WithKey(two, model, k[2]);
    assert k[1..][1..] == k[2..] && k[2..][1..] == k[3..] && k[3..][1..] == [];
    assert WithKeys(three, model, k[3..]) == WithKey(three, model, k[3]);
    assert WithKeys(two, model, k[2..]) == WithKeys(three, model, k[3..]);
    assert WithKeys(one, model, k[1..]) == WithKeys(two, model, k[2..]);
  }

  // operator/cmd/migrate/main.go: the same keys, unrolled
  method GenerateModelDeployment(model: Tree) returns (md: Tree)
    ensures md == MigratedModel(model)
  {
    var spec := map[Source := At(model, Source)];
    if Replicas in model { spec := spec[Replicas := model[Replicas]]; }
    if ResourcesKey in model { spec := spec[ResourcesKey := model[ResourcesKey]]; }
    if EngineArgs in model { spec := spec[EngineArgs := model[EngineArgs]]; }
    if EngineKey in model { spec := spec[EngineKey := model[EngineKey]]; }
    md := Resource("ModelDeployment", At(model, Name), spec);
  }

  // The loop both programs run over global.models: entries that are not maps are skipped.
  method MigrateModels(values: Tree) returns (mds: seq<Tree>)
    ensures mds == MigratedModels(ModelsOf(values))
  {
    mds := [];
    var models := ModelsOf(values);
    for i := 0 to |models|
      invariant mds == MigratedModels(models[..i])
    {
      assert models[..i + 1][..i] == models[..i];
      var more := MigrateEntry(models[i]);
      mds := mds + more;
    }
    assert models[..|models|] == models;
  }

  method MigrateEntry(entry: Value) returns (mds: seq<Tree>)
    ensures mds == Migrated(entry)
  {
    if !entry.Dict? { return []; }
    var md := MigrateModelDeployment(entry.entries);
    mds := [md];
  }

  /* ---- Reading the generated resources back ---- */

  datatype ModelRequest = ModelRequest(name: string, source: string, engine: string, replicas: Option<int>,
                                       resources: Resources, engineArgs: map<string, string>)

  function DecodeModel(md: Tree): ModelRequest {
    var spec := Under(md, Spec);
    ModelRequest(Text(Under(md, Metadata), Name), Text(spec, Source), Text(spec, EngineKey),
                 if At(spec, Replicas).Int? then Some(spec[Replicas].number) else None,
                 DecodeResources(Under(spec, ResourcesKey)),
                 DecodeStrings(Under(spec, EngineArgs)))
  }

  // Of a generated platform only these five sections can be present; the others read as unset.
  function DecodePlatform(platform: Tree): PlatformSpec {
    var spec := Under(platform, Spec);
    PlatformSpec(
      Gateway(Toggle(spec, GatewayKey), "", "", "", false, "", ""), Toggle(spec, ObservabilityKey), false, false,
      DecodeModules(Under(spec, ModulesKey)),
      DecodeModelStore(Under(spec, ModelStoreKey)), "", [], false, false, false,
      DecodeNodePort(Under(spec, NodePortKey)), Ingress(false, "", ""), false)
  }

  /* ---- What is generated, for any tree ---- */

  /** For any values tree, malformed ones included: the gateway and observability sections carry the enabled flag of
      theirs, modules, model store and node port are the global ones as they are, each exactly when its section is a
      map; there is nothing else, and the resource says what it is. */
  lemma PlatformIsSelected(values: Tree, name: string)
    ensures var platform, spec := Resource("LLMPlatform", Str(name), PlatformSection(values)), PlatformSection(values);
            var global := Under(values, GlobalKey);
            && spec.Keys <= {GatewayKey, ObservabilityKey, ModulesKey, ModelStoreKey, NodePortKey}
            && (GatewayKey in spec <==> At(values, LiteLLMKey).Dict?)
            && (GatewayKey in spec ==>
                  spec[GatewayKey] == Dict(map[EnabledKey := At(values[LiteLLMKey].entries, EnabledKey)]))
            && (ObservabilityKey in spec <==> At(values, ObservabilityKey).Dict?)
            && (ObservabilityKey in spec ==>
                  spec[ObservabilityKey] == Dict(map[EnabledKey := At(values[ObservabilityKey].entries, EnabledKey)]))
            && (forall k :: k in {ModulesKey, ModelStoreKey, NodePortKey} ==>
                  && (k in spec <==> At(global, k).Dict?) && (k in spec ==> spec[k] == At(global, k)))
            && platform == map[ApiVersion := Str("llmops.kubellmops.io/v1alpha1"), Kind := Str("LLMPlatform"),
                               Metadata := Dict(map[Name := Str(name)]), Spec := Dict(spec)]
  {
  }

  /** Likewise for a model: name and source are taken whatever they are, the four optional keys exactly when present. */
  lemma ModelIsSelected(model: Tree)
    ensures var md, spec := MigratedModel(model), ModelSection(model);
            && md == map[ApiVersion := Str("llmops.kubellmops.io/v1alpha1"), Kind := Str("ModelDeployment"),
                         Metadata := Dict(map[Name := At(model, Name)]), Spec := Dict(spec)]
            && spec.Keys == {Source} + (model.Keys * {Replicas, ResourcesKey, EngineArgs, EngineKey})
            && At(spec, Source) == At(model, Source) && At(spec, EngineKey) == At(model, EngineKey)
            && At(spec, Replicas) == At(model, Replicas) && At(spec, ResourcesKey) == At(model, ResourcesKey)
            && At(spec, EngineArgs) == At(model, EngineArgs)
  {
    ReadSection(model);
    SectionKeys(model);
  }

  lemma SectionKeys(model: Tree)
    ensures ModelSection(model).Keys == {Source} + (model.Keys * {Replicas, ResourcesKey, EngineArgs, EngineKey})
  {
    var one := WithKey(map[Source := At(model, Source)], model, Replicas);
    var two := WithKey(one, model, ResourcesKey);
    KeyIsAdded(map[Source := At(model, Source)], model, Replicas);
    KeyIsAdded(one, model, ResourcesKey);
    KeyIsAdded(two, model, EngineArgs);
    KeyIsAdded(WithKey(two, model, EngineArgs), model, EngineKey);
  }

  lemma KeyIsAdded(spec: Tree, model: Tree, key: Key)
    ensures WithKey(spec, model, key).Keys == spec.Keys + (model.Keys * {key})
  {
  }

  lemma {:induction false} MigratedAppend(a: seq<Value>, b: seq<Value>)
    ensures MigratedModels(a + b) == MigratedModels(a) + MigratedModels(b)
  {
    if b == [] {
      assert a + b == a;
    } else {
      var n := |b| - 1;
      assert (a + b)[..|a + b| - 1] == a + b[..n] && (a + b)[|a + b| - 1] == b[n];
      MigratedAppend(a, b[..n]);
    }
  }

  /** Entries that are not maps leave no trace. */
  lemma OthersAreSkipped(a: seq<Value>, entry: Value, b: seq<Value>)
    ensures MigratedModels(a + [entry] + b) ==
            MigratedModels(a) + (if entry.Dict? then [MigratedModel(entry.entries)] else []) + MigratedModels(b)
  {
    MigratedAppend(a + [entry], b);
    MigratedAppend(a, [entry]);
    assert [entry][..0] == [];
  }

  /* ---- Round trip ---- */

  // What a model of the platform asks for; replicas that are not positive are unset.
  function Requested(m: ModelSpec): ModelRequest {
    ModelRequest(m.name, m.source, m.engine, if m.replicas > 0 then Some(m.replicas) else None, m.resources,
        m.engineArgs)
  }

  lemma ReadSection(model: Tree)
    ensures var s := ModelSection(model);
            && At(s, Source) == At(model, Source) && At(s, EngineKey) == At(model, EngineKey)
            && At(s, Replicas) == At(model, Replicas) && At(s, ResourcesKey) == At(model, ResourcesKey)
            && At(s, EngineArgs) == At(model, EngineArgs)
  {
  }

  lemma ModelRoundTrip(m: ModelSpec, v: Tree)
    requires SaysModel(v, m)
    ensures DecodeModel(MigratedModel(v)) == Requested(m)
  {
    StringsRoundTrip(m.engineArgs);
    ReadResources(m.resources);
    assert Texts(map[]) == {};
    DecodeMigrated(v);
  }

  // What migrating and decoding reads off a model, whatever the model is.
  lemma DecodeMigrated(model: Tree)
    ensures DecodeModel(MigratedModel(model))
            == ModelRequest(if At(model, Name).Str? then model[Name].text else "", Text(model, Source),
                            Text(model, EngineKey), if At(model, Replicas).Int? then Some(model[Replicas].number)
                                else None,
                            DecodeResources(Under(model, ResourcesKey)), DecodeStrings(Under(model, EngineArgs)))
  {
    ReadSection(model);
    var md := MigratedModel(model);
    assert Under(md, Spec) == ModelSection(model) && Text(Under(md, Metadata), Name) == Text(model, Name);
  }

  lemma {:induction false} MigratedInOrder(entries: seq<Value>)
    requires forall i :: 0 <= i < |entries| ==> entries[i].Dict?
    ensures |MigratedModels(entries)| == |entries|
    ensures forall i :: 0 <= i < |entries| ==> MigratedModels(entries)[i] == MigratedModel(entries[i].entries)
  {
    if entries != [] {
      MigratedInOrder(entries[..|entries| - 1]);
      assert Migrated(entries[|entries| - 1]) == [MigratedModel(entries[|entries| - 1].entries)];
    }
  }

  lemma OneModel(m: ModelSpec)
    ensures DecodeModel(MigratedModel(ModelValues(m))) == Requested(m)
  {
    ReadModel(m);
    ModelRoundTrip(m, ModelValues(m));
  }

  lemma TranslatedModels(spec: PlatformSpec)
    ensures ModelsOf(TranslateTree(spec)) == ModelList(spec.models)
  {
    ReadPlatform(spec);
    ReadGlobal(spec);
  }

  /** Translate then migrate yields one ModelDeployment per model, in order, with everything the model said; replicas
      that are not positive read back as unset. */
  lemma ModelsSurviveTheRoundTrip(spec: PlatformSpec)
    ensures var mds := MigratedModels(ModelsOf(TranslateTree(spec)));
            && |mds| == |spec.models|
            && forall i :: 0 <= i < |mds| ==>
                 DecodeModel(mds[i]) == Requested(spec.models[i])
  {
    var list := ModelList(spec.models);
    TranslatedModels(spec);
    MigratedInOrder(list);
    forall i | 0 <= i < |spec.models|
      ensures DecodeModel(MigratedModels(list)[i]) == Requested(spec.models[i])
    {
      assert list[i] == Dict(ModelValues(spec.models[i]));
      OneModel(spec.models[i]);
    }
  }

  lemma ReadPlatformSection(values: Tree, global: Tree, litellm: Tree, observability: Tree)
    requires At(values, GlobalKey) == Dict(global) && At(values, LiteLLMKey) == Dict(litellm)
    requires At(values, ObservabilityKey) == Dict(observability)
    requires At(global, ModulesKey).Dict? && At(global, ModelStoreKey).Dict? && At(global, NodePortKey).Dict?
    ensures var s := PlatformSection(values);
            && Toggle(s, GatewayKey) == Flag(litellm, EnabledKey)
            && Toggle(s, ObservabilityKey) == Flag(observability, EnabledKey)
            && Under(s, ModulesKey) == Under(global, ModulesKey)
            && Under(s, ModelStoreKey) == Under(global, ModelStoreKey)
            && Under(s, NodePortKey) == Under(global, NodePortKey)
  {
  }

  // The part of a platform spec that survives.
  function Surviving(spec: PlatformSpec): PlatformSpec {
    PlatformSpec(Gateway(spec.gateway.enabled, "", "", "", false, "", ""), spec.observability, false, false,
                 spec.modules, spec.modelStore.(enabled := false), "", [], false, false, false, spec.nodePort,
                 Ingress(false, "", ""), false)
  }

  // A section that says what Surviving(spec) says decodes to it.
  lemma DecodeSection(section: Tree, name: string, spec: PlatformSpec)
    requires Toggle(section, GatewayKey) == spec.gateway.enabled
        && Toggle(section, ObservabilityKey) == spec.observability
    requires Under(section, ModulesKey) == ModuleValues(spec.modules).entries
    requires Under(section, ModelStoreKey) == StoreValues(spec.modelStore).entries
    requires Under(section, NodePortKey) == NodePortValues(spec.nodePort).entries
    ensures DecodePlatform(Resource("LLMPlatform", Str(name), section)) == Surviving(spec)
  {
    ReadModelStore(spec.modelStore);
    ReadModules(spec.modules);
    assert Under(Resource("LLMPlatform", Str(name), section), Spec) == section;
  }

  /** What survives of the platform, exactly: gateway and observability enablement, the modules, the node port and the
      model store but for its enabled flag. Everything else is lost. */
  lemma PlatformSurvivesTheRoundTrip(spec: PlatformSpec, name: string)
    ensures DecodePlatform(Resource("LLMPlatform", Str(name), PlatformSection(TranslateTree(spec)))) == Surviving(spec)
  {
    ReadPlatform(spec);
    GatewayReadsBack(spec.gateway);
    ReadGlobal(spec);
    var values := TranslateTree(spec);
    ReadPlatformSection(values, Global(spec), LiteLLM(spec.gateway), Enabled(spec.observability).entries);
    DecodeSection(PlatformSection(values), name, spec);
  }

  /** So translating again agrees with the first values tree on all of those sections. */
  lemma RetranslationAgrees(spec: PlatformSpec, name: string)
    ensures var first := TranslateTree(spec);
            var again := TranslateTree(DecodePlatform(Resource("LLMPlatform", Str(name), PlatformSection(first))));
            && Toggle(again, LiteLLMKey) == Toggle(first, LiteLLMKey)
            && At(again, ObservabilityKey) == At(first, ObservabilityKey)
            && At(Under(again, GlobalKey), ModulesKey) == At(Under(first, GlobalKey), ModulesKey)
            && At(Under(again, GlobalKey), ModelStoreKey) == At(Under(first, GlobalKey), ModelStoreKey)
            && At(Under(again, GlobalKey), NodePortKey) == At(Under(first, GlobalKey), NodePortKey)
  {
    PlatformSurvivesTheRoundTrip(spec, name);
    ReadPlatform(spec);
    ReadGlobal(spec);
    ReadPlatform(Surviving(spec));
    GatewayReadsBack(spec.gateway);
    GatewayReadsBack(Surviving(spec).gateway);
    ReadGlobal(Surviving(spec));
    assert StoreValues(spec.modelStore) == StoreValues(Surviving(spec).modelStore);
  }
}
