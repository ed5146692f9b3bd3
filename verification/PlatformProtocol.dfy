/** LLMPlatformReconciler.Reconcile and FixStuckRelease as atomic steps, one per API or Helm call,
    interleaved with spec edits, other writers, failed calls and crashes. A run is any sequence of
    actions; an action that is not enabled changes nothing. */
module PlatformProtocol {
  import opened Kubernetes
  import opened Conditions
  import opened HelmValues

  datatype Phase = Unset | Installing | Upgrading | Ready | Failed
  datatype Status = Status(phase: Phase, observedGeneration: nat, helmRevision: nat, conditions: seq<Condition>)
  type Platform = Object<PlatformSpec, Status>

  const HELM_RELEASE := "HelmRelease"

  function EmptyStatus(): Status { Status(Unset, 0, 0, []) }

  /* ---- Helm ---- */

  datatype ReleaseStatus = Deployed | FailedRelease | PendingInstall | PendingUpgrade | PendingRollback
  // revisions[i] holds the values of revision i + 1; the last one is current.
  datatype Helm = Absent | Release(status: ReleaseStatus, revisions: seq<Value>)

  predicate Pending(helm: Helm) {
    helm.Release? && (helm.status.PendingInstall? || helm.status.PendingUpgrade? || helm.status.PendingRollback?)
  }

  ghost predicate Deploys(helm: Helm, values: Value) {
    helm.Release? && helm.status == Deployed && |helm.revisions| > 0 && helm.revisions[|helm.revisions| - 1] == values
  }

  datatype Verb = Install | Upgrade

  // Helm refuses to install over an existing name, to upgrade a missing one, and to work beside a pending operation.
  predicate Accepts(helm: Helm, verb: Verb) {
    match verb
    case Install => helm.Absent?
    case Upgrade => helm.Release? && !Pending(helm)
  }

  function Started(helm: Helm, verb: Verb, values: Value): Helm {
    match verb
    case Install => Release(PendingInstall, [values])
    case Upgrade => Release(PendingUpgrade, (if helm.Release? then helm.revisions else []) + [values])
  }

  function Finished(helm: Helm, ok: bool): Helm {
    if helm.Absent? then helm else helm.(status := if ok then Deployed else FailedRelease)
  }

  // Rollback to version 0: a new revision carrying the values of the one before the current one.
  predicate CanRollBack(helm: Helm) { helm.Release? && |helm.revisions| >= 2 }

  function RollbackStarted(helm: Helm): Helm
    requires CanRollBack(helm)
  {
    Release(PendingRollback, helm.revisions + [helm.revisions[|helm.revisions| - 2]])
  }

  /* ---- The reconcile in progress ---- */

  datatype Pc = Idle
    | FixCheck | FixRollback | RollingBack | FixUninstall   // inside FixStuckRelease
    | Lookup                                                // GetRelease
    | Refetch1 | Write1                                     // refetchAndUpdateStatus before Helm
    | Call | Calling                                        // Install or Upgrade
    | Refetch2 | Write2                                     // refetchAndUpdateStatus after Helm

  datatype Result = Never | Done | Requeue | Error | Crashed

  // platform is the in-memory object. The rest is bookkeeping: the spec and the generation of the first Get; whether
  // the spec changed between that Get and the first refetch; whether a query failed and thereby missed a pending
  // release, or at the lookup a release; whether the object was re-created since the first Get.
  datatype Local = Local(pc: Pc, platform: Platform, values: Value, verb: Verb, wanted: PlatformSpec, fetched: nat,
                         edited: bool, blind: bool, stale: bool)

  // Bookkeeping over the whole run. Of the object now stored: its specs by generation; the Helm calls and the failed
  // Helm calls made for it; wanted, fetched, edited and stale of the reconcile that last wrote Ready; whether a status
  // was ever written by a reconcile that had fetched an earlier object of the name. Of Helm: the repairs, those among
  // them that left the release pending, and the interrupted calls.
  datatype History = History(specs: seq<PlatformSpec>, calls: nat, failures: nat, served: PlatformSpec, basis: nat,
                             basisEdited: bool, basisStale: bool, tainted: bool, fixes: nat, stuckFixes: nat,
                             interrupted: nat)

  // translate is how the controller computes Helm values; the protocol works for any such function.
  datatype State = State(translate: PlatformSpec -> Value, store: Option<Platform>, clock: nat, helm: Helm,
                         r: Local, result: Result, h: History)

  datatype Action =
    | EditSpec(spec: PlatformSpec) | Touch | Delete | Recreate(spec: PlatformSpec)   // other clients of the API server
    | Crash
    | Fetch(ok: bool) | Inspect(ok: bool) | BeginRollback(ok: bool) | EndRollback(ok: bool) | Uninstall(ok: bool)
    | GetRelease(ok: bool) | Refetch(ok: bool) | WriteStatus(ok: bool) | BeginHelm(ok: bool) | EndHelm(ok: bool)

  function Init(translate: PlatformSpec -> Value, spec: PlatformSpec): State {
    var platform := Created(spec, EmptyStatus(), {}, 0);
    State(translate, Some(platform), 1, Absent, Local(Idle, platform, Null, Install, spec, 0, false, false, false),
          Never, History([spec], 0, 0, spec, 0, false, false, false, 0, 0, 0))
  }

  // The generation guard at the top of Reconcile.
  predicate Skips(p: Platform) {
    p.status.observedGeneration == p.generation
    && (p.status.phase == Ready || p.status.phase == Upgrading || p.status.phase == Installing)
  }

  function Running(verb: Verb): Phase { if verb == Install then Installing else Upgrading }
  function RunningReason(verb: Verb): string { if verb == Install then "Installing" else "Upgrading" }
  function FailedReason(verb: Verb): string { if verb == Install then "InstallFailed" else "UpgradeFailed" }
  function SucceededReason(verb: Verb): string { if verb == Install then "InstallSucceeded" else "UpgradeSucceeded" }

  function BeforeHelm(p: Platform, verb: Verb): Status {
    p.status.(phase := Running(verb), observedGeneration := p.generation,
      conditions := Set(p.status.conditions, Condition(HELM_RELEASE, false, RunningReason(verb), p.generation)))
  }

  function AfterFailure(p: Platform, verb: Verb): Status {
    p.status.(phase := Failed,
      conditions := Set(p.status.conditions, Condition(HELM_RELEASE, false, FailedReason(verb), p.generation)))
  }

  function AfterSuccess(p: Platform, verb: Verb, revision: nat): Status {
    p.status.(phase := Ready, observedGeneration := p.generation, helmRevision := revision,
      conditions := Set(p.status.conditions, Condition(HELM_RELEASE, true, SucceededReason(verb), p.generation)))
  }

  /* ---- Steps ---- */

  function Goto(s: State, pc: Pc): State { s.(r := s.r.(pc := pc)) }
  function Return(s: State, result: Result): State { s.(r := s.r.(pc := Idle), result := result) }

  predicate InWindow(pc: Pc) {
    pc.FixCheck? || pc.FixRollback? || pc.RollingBack? || pc.FixUninstall? || pc.Lookup? || pc.Refetch1?
  }

  function ApplyEdit(s: State, spec: PlatformSpec): State {
    if s.store.None? || s.store.value.spec == spec then s
    else s.(store := Some(Updated(s.store.value, spec, s.store.value.finalizers, s.clock)), clock := s.clock + 1,
            r := s.r.(edited := s.r.edited || InWindow(s.r.pc)), h := s.h.(specs := s.h.specs + [spec]))
  }

  // Somebody applies the manifest again after a delete.
  function ApplyRecreate(s: State, spec: PlatformSpec): State {
    if s.store.Some? then s
    else s.(store := Some(Created(spec, EmptyStatus(), {}, s.clock)), clock := s.clock + 1,
            r := s.r.(stale := s.r.stale || !s.r.pc.Idle?),
            h := s.h.(specs := [spec], calls := 0, failures := 0, basis := 0, basisEdited := false, basisStale := false,
                      tainted := false))
  }

  function ApplyCrash(s: State): State {
    Return(s.(h := s.h.(interrupted := s.h.interrupted + if s.r.pc == Calling then 1 else 0)), Crashed)
  }

  function ApplyFetch(s: State, ok: bool): State {
    if !s.r.pc.Idle? then s
    else if !ok then Return(s, Error)
    else if s.store.None? then Return(s, Done)
    else
      var p := s.store.value;
      if Skips(p) then Return(s.(r := s.r.(platform := p)), Done)
      else s.(r := Local(FixCheck, p, s.translate(p.spec), s.r.verb, p.spec, p.generation, false, false, false))
  }

  function ApplyInspect(s: State, ok: bool): State {
    if !s.r.pc.FixCheck? then s
    else if !ok then s.(r := s.r.(pc := Lookup, blind := Pending(s.helm)))
    else if s.helm.Absent? then Goto(s, Lookup)
    else match s.helm.status
      case PendingInstall => Goto(s, FixUninstall)
      case PendingUpgrade => Goto(s, FixRollback)
      case PendingRollback => Goto(s, FixRollback)
      case _ => Goto(s, Lookup)
  }

  function ApplyBeginRollback(s: State, ok: bool): State {
    if !s.r.pc.FixRollback? then s
    else if ok && CanRollBack(s.helm) then Goto(s.(helm := RollbackStarted(s.helm)), RollingBack)
    else Goto(s, FixUninstall)
  }

  function Fixed(s: State): State { Return(s.(h := s.h.(fixes := s.h.fixes + 1)), Requeue) }

  function ApplyEndRollback(s: State, ok: bool): State {
    if !s.r.pc.RollingBack? then s
    else if ok then Fixed(s.(helm := Finished(s.helm, true)))
    else Goto(s.(helm := Finished(s.helm, false)), FixUninstall)
  }

  function ApplyUninstall(s: State, ok: bool): State {
    if !s.r.pc.FixUninstall? then s
    else if ok then Fixed(s.(helm := Absent))
    else Fixed(s.(h := s.h.(stuckFixes := s.h.stuckFixes + if Pending(s.helm) then 1 else 0)))
  }

  function ApplyGetRelease(s: State, ok: bool): State {
    if !s.r.pc.Lookup? then s
    else
      var verb := if !ok || s.helm.Absent? then Install else Upgrade;
      var p := s.r.platform;
      s.(r := s.r.(pc := Refetch1, verb := verb, platform := p.(status := BeforeHelm(p, verb)),
                   blind := s.r.blind || (!ok && s.helm.Release?)))
  }

  // Get replaces the whole in-memory object; the computed status is put back.
  function ApplyRefetch(s: State, ok: bool): State {
    if !s.r.pc.Refetch1? && !s.r.pc.Refetch2? then s
    else if !ok || s.store.None? then Return(s, Error)
    else s.(r := s.r.(platform := s.store.value.(status := s.r.platform.status),
                      pc := if s.r.pc.Refetch1? then Write1 else Write2))
  }

  function ApplyWriteStatus(s: State, ok: bool): State {
    if !s.r.pc.Write1? && !s.r.pc.Write2? then s
    else if !ok || s.store.None? || s.store.value.resourceVersion != s.r.platform.resourceVersion then Return(s, Error)
    else
      var p := StatusUpdated(s.store.value, s.r.platform.status, s.clock);
      var s' := s.(store := Some(p), clock := s.clock + 1, r := s.r.(platform := p),
                   h := s.h.(tainted := s.h.tainted || s.r.stale));
      if s.r.pc.Write1? then Goto(s', Call)
      else if p.status.phase == Ready then
        Return(s'.(h := s'.h.(served := s.r.wanted, basis := s.r.fetched, basisEdited := s.r.edited,
                              basisStale := s.r.stale)), Done)
      else Return(s', Error)
  }

  function HelmFailed(s: State): State {
    s.(r := s.r.(pc := Refetch2, platform := s.r.platform.(status := AfterFailure(s.r.platform, s.r.verb))),
       h := s.h.(failures := s.h.failures + if s.r.stale then 0 else 1))
  }

  function ApplyBeginHelm(s: State, ok: bool): State {
    if !s.r.pc.Call? then s
    else
      var s' := s.(h := s.h.(calls := s.h.calls + if s.r.stale then 0 else 1));
      if ok && Accepts(s.helm, s.r.verb)
      then Goto(s'.(helm := Started(s.helm, s.r.verb, s.r.values)), Calling)
      else HelmFailed(s')
  }

  function ApplyEndHelm(s: State, ok: bool): State {
    if !s.r.pc.Calling? then s
    else
      var s' := s.(helm := Finished(s.helm, ok));
      if ok && s'.helm.Release? then
        s'.(r := s.r.(pc := Refetch2, platform := s.r.platform.(
              status := AfterSuccess(s.r.platform, s.r.verb, |s'.helm.revisions|))))
      else HelmFailed(s')
  }

  function Apply(s: State, a: Action): State {
    match a
    case EditSpec(spec) => ApplyEdit(s, spec)
    case Touch => if s.store.None? then s
                  else s.(store := Some(Touched(s.store.value, s.clock)), clock := s.clock + 1)
    case Delete => s.(store := None)
    case Recreate(spec) => ApplyRecreate(s, spec)
    case Crash => ApplyCrash(s)
    case Fetch(ok) => ApplyFetch(s, ok)
    case Inspect(ok) => ApplyInspect(s, ok)
    case BeginRollback(ok) => ApplyBeginRollback(s, ok)
    case EndRollback(ok) => ApplyEndRollback(s, ok)
    case Uninstall(ok) => ApplyUninstall(s, ok)
    case GetRelease(ok) => ApplyGetRelease(s, ok)
    case Refetch(ok) => ApplyRefetch(s, ok)
    case WriteStatus(ok) => ApplyWriteStatus(s, ok)
    case BeginHelm(ok) => ApplyBeginHelm(s, ok)
    case EndHelm(ok) => ApplyEndHelm(s, ok)
  }

  function Continue(s: State, actions: seq<Action>): State {
    if actions == [] then s else Apply(Continue(s, actions[..|actions| - 1]), actions[|actions| - 1])
  }

  function Run(translate: PlatformSpec -> Value, spec: PlatformSpec, actions: seq<Action>): State {
    Continue(Init(translate, spec), actions)
  }

  lemma {:induction false} ContinueAppend(s: State, actions: seq<Action>, later: seq<Action>)
    ensures Continue(s, actions + later) == Continue(Continue(s, actions), later)
  {
    if later == [] {
      assert actions + later == actions;
    } else {
      var n := |later| - 1;
      assert (actions + later)[..|actions + later| - 1] == actions + later[..n];
      ContinueAppend(s, actions, later[..n]);
    }
  }

  lemma ContinueHead(s: State, actions: seq<Action>)
    requires actions != []
    ensures Continue(s, actions) == Continue(Apply(s, actions[0]), actions[1..])
  {
    ContinueAppend(s, actions[..1], actions[1..]);
    assert actions[..1] + actions[1..] == actions && actions[..1][..0] == [];
    assert Continue(s, actions[..1]) == Apply(s, actions[0]);
  }
}
