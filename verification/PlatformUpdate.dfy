/** The platform update command: enabling and disabling modules of the spec it fetched. */
module PlatformUpdate {
  import opened HelmValues
  import opened Kubernetes

  datatype Module = RagModule | FinetuneModule | SecurityModule | LoggingModule

  function NameOf(m: Module): string {
    match m
    case RagModule => "rag"
    case FinetuneModule => "finetune"
    case SecurityModule => "security"
    case LoggingModule => "logging"
  }

  function Named(name: string): Option<Module> {
    if name == "rag" then Some(RagModule)
    else if name == "finetune" then Some(FinetuneModule)
    else if name == "security" then Some(SecurityModule)
    else if name == "logging" then Some(LoggingModule)
    else None
  }

  lemma NamedInvertsNameOf(name: string, m: Module)
    ensures Named(name) == Some(m) <==> name == NameOf(m)
  {
    var rag, finetune, security, logging := "rag", "finetune", "security", "logging";
    assert rag[0] == 'r' && finetune[0] == 'f' && security[0] == 's' && logging[0] == 'l';
  }

  predicate On(spec: PlatformSpec, m: Module) {
    match m
    case RagModule => spec.modules.rag
    case FinetuneModule => spec.modules.finetune
    case SecurityModule => spec.modules.security
    case LoggingModule => spec.logging
  }

  function With(spec: PlatformSpec, m: Module, enabled: bool): PlatformSpec {
    match m
    case RagModule => spec.(modules := spec.modules.(rag := enabled))
    case FinetuneModule => spec.(modules := spec.modules.(finetune := enabled))
    case SecurityModule => spec.(modules := spec.modules.(security := enabled))
    case LoggingModule => spec.(logging := enabled)
  }

  // setModule; names it does not know are ignored.
  function WithModule(spec: PlatformSpec, name: string, enabled: bool): PlatformSpec {
    if Named(name).Some? then With(spec, Named(name).value, enabled) else spec
  }

  function WithModules(spec: PlatformSpec, names: seq<string>, enabled: bool): PlatformSpec {
    if names == [] then spec
    else WithModule(WithModules(spec, names[..|names| - 1], enabled), names[|names| - 1], enabled)
  }

  class Draft {
    var spec: PlatformSpec

    constructor (spec: PlatformSpec)
      ensures this.spec == spec
    {
      this.spec := spec;
    }

    method SetModule(name: string, enabled: bool)
      modifies this
      ensures spec == WithModule(old(spec), name, enabled)
    {
      match name {
        case "rag" => spec := spec.(modules := spec.modules.(rag := enabled));
        case "finetune" => spec := spec.(modules := spec.modules.(finetune := enabled));
        case "security" => spec := spec.(modules := spec.modules.(security := enabled));
        case "logging" => spec := spec.(logging := enabled);
        case _ =>
      }
    }

    method SetModules(names: seq<string>, enabled: bool)
      modifies this
      ensures spec == WithModules(old(spec), names, enabled)
    {
      for i := 0 to |names|
        invariant spec == WithModules(old(spec), names[..i], enabled)
      {
        SetModule(names[i], enabled);
        assert names[..i + 1][..i] == names[..i];
      }
      assert names[..|names|] == names;
    }

    // Everything to enable, then everything to disable.
    method Update(enable: seq<string>, disable: seq<string>)
      modifies this
      ensures spec == WithModules(WithModules(old(spec), enable, true), disable, false)
    {
      SetModules(enable, true);
      SetModules(disable, false);
    }
  }

  lemma WithMeans(spec: PlatformSpec, changed: Module, enabled: bool, m: Module)
    ensures On(With(spec, changed, enabled), m) == if m == changed then enabled else On(spec, m)
  {
  }

  lemma WithModuleMeans(spec: PlatformSpec, name: string, enabled: bool, m: Module)
    ensures On(WithModule(spec, name, enabled), m) == if name == NameOf(m) then enabled else On(spec, m)
  {
    NamedInvertsNameOf(name, m);
    if Named(name).Some? { WithMeans(spec, Named(name).value, enabled, m); }
  }

  // Nothing but the modules and logging differs.
  predicate SameRest(a: PlatformSpec, b: PlatformSpec) { a.(modules := b.modules, logging := b.logging) == b }

  lemma ModulesAreRest(spec: PlatformSpec, modules: Modules, logging: bool)
    ensures SameRest(spec.(modules := modules, logging := logging), spec)
  {
  }

  lemma WithKeepsRest(spec: PlatformSpec, changed: Module, enabled: bool)
    ensures SameRest(With(spec, changed, enabled), spec)
  {
    match changed
    case RagModule => ModulesAreRest(spec, spec.modules.(rag := enabled), spec.logging);
    case FinetuneModule => ModulesAreRest(spec, spec.modules.(finetune := enabled), spec.logging);
    case SecurityModule => ModulesAreRest(spec, spec.modules.(security := enabled), spec.logging);
    case LoggingModule => ModulesAreRest(spec, spec.modules, enabled);
  }

  lemma WithModuleKeepsRest(spec: PlatformSpec, name: string, enabled: bool)
    ensures SameRest(WithModule(spec, name, enabled), spec)
  {
    if Named(name).Some? { WithKeepsRest(spec, Named(name).value, enabled); }
  }

  lemma {:induction false} WithModulesKeepRest(spec: PlatformSpec, names: seq<string>, enabled: bool)
    ensures SameRest(WithModules(spec, names, enabled), spec)
  {
    if names != [] {
      WithModulesKeepRest(spec, names[..|names| - 1], enabled);
      WithModuleKeepsRest(WithModules(spec, names[..|names| - 1], enabled), names[|names| - 1], enabled);
    }
  }

  lemma {:induction false} WithModulesMeans(spec: PlatformSpec, names: seq<string>, enabled: bool, m: Module)
    ensures On(WithModules(spec, names, enabled), m) == if NameOf(m) in names then enabled else On(spec, m)
  {
    if names != [] {
      var init, last := names[..|names| - 1], names[|names| - 1];
      assert names == init + [last];
      WithModulesMeans(spec, init, enabled, m);
      WithModuleMeans(WithModules(spec, init, enabled), last, enabled, m);
    }
  }

  /** What an update means, whatever the order and repetition of its arguments: a module is on afterwards exactly when
      it is not disabled and was on or is enabled - disabling wins - and nothing else of the spec changes. */
  lemma UpdateMeans(spec: PlatformSpec, enable: seq<string>, disable: seq<string>)
    ensures var after := WithModules(WithModules(spec, enable, true), disable, false);
            && (forall m: Module :: On(after, m) <==> NameOf(m) !in disable && (NameOf(m) in enable || On(spec, m)))
            && SameRest(after, spec)
  {
    var enabled := WithModules(spec, enable, true);
    forall m: Module
      ensures On(WithModules(enabled, disable, false), m) <==>
              NameOf(m) !in disable && (NameOf(m) in enable || On(spec, m))
    {
      WithModulesMeans(spec, enable, true, m);
      WithModulesMeans(enabled, disable, false, m);
    }
    WithModulesKeepRest(spec, enable, true);
    WithModulesKeepRest(enabled, disable, false);
  }

  /** Module by module, under the names the command line has. */
  lemma UpdateSays(spec: PlatformSpec, enable: seq<string>, disable: seq<string>)
    ensures var after := WithModules(WithModules(spec, enable, true), disable, false);
            && (after.modules.rag <==> "rag" !in disable && ("rag" in enable || spec.modules.rag))
            && (after.modules.finetune <==> "finetune" !in disable && ("finetune" in enable || spec.modules.finetune))
            && (after.modules.security <==> "security" !in disable && ("security" in enable || spec.modules.security))
            && (after.logging <==> "logging" !in disable && ("logging" in enable || spec.logging))
            && after.(modules := spec.modules, logging := spec.logging) == spec
  {
    UpdateMeans(spec, enable, disable);
    var after := WithModules(WithModules(spec, enable, true), disable, false);
    assert On(after, RagModule) == after.modules.rag && On(after, FinetuneModule) == after.modules.finetune;
    assert On(after, SecurityModule) == after.modules.security && On(after, LoggingModule) == after.logging;
  }

  // What platform init creates: the model store is enabled, and nothing says which image loads models.
  function BuildLLMPlatform(gateway: bool, observability: bool, logging: bool, modules: Modules, nodePortHost: string)
    : PlatformSpec
  {
    PlatformSpec(Gateway(gateway, "", "", "", false, "", ""), observability, false, logging, modules,
                 ModelStore(true, "kube-llmops-minio:9000", "models", "minioadmin", "minioadmin", 0, ""), "", [], false,
                 true, false, NodePort(nodePortHost != "", nodePortHost), Ingress(false, "", ""), false)
  }

  /** Initialising with modules is initialising without and updating; what the flags do not say is fixed. */
  lemma InitIsUpdated(gateway: bool, observability: bool, names: seq<string>, host: string)
    ensures var none := Modules(false, false, false);
            var flagged := BuildLLMPlatform(gateway, observability, "logging" in names,
                             Modules("rag" in names, "finetune" in names, "security" in names), host);
            && flagged == WithModules(BuildLLMPlatform(gateway, observability, false, none, host), names, true)
            && flagged.gateway == Gateway(gateway, "", "", "", false, "", "") && flagged.observability == observability
            && flagged.modelStore
               == ModelStore(true, "kube-llmops-minio:9000", "models", "minioadmin", "minioadmin", 0, "")
            && flagged.nodePort == (if host == "" then NodePort(false, "") else NodePort(true, host))
            && flagged.postgresql
            && flagged.models == [] && !flagged.ingress.enabled
  {
    var plain := BuildLLMPlatform(gateway, observability, false, Modules(false, false, false), host);
    UpdateSays(plain, names, []);
    assert WithModules(WithModules(plain, names, true), [], false) == WithModules(plain, names, true);
  }
}
