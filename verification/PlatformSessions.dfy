/** Any number of platform update commands, each a get, a modification and an update, interleaved with the reconcile and
    everybody else of PlatformProtocol. */
module PlatformSessions {
  import opened HelmValues
  import opened Kubernetes
  import opened PlatformUpdate
  import P = PlatformProtocol
  import PlatformSafety

  // One command between its Get and its Update.
  datatype Session = Session(fetched: P.Platform, enable: seq<string>, disable: seq<string>)

  // What was done to the spec: another client's whole edit, or an update.
  datatype Change = Edit(spec: PlatformSpec) | Update(enable: seq<string>, disable: seq<string>)

  // Bookkeeping for the stored object: the spec it was created with and the changes that landed.
  datatype World = World(base: P.State, sessions: map<nat, Session>, origin: PlatformSpec, changes: seq<Change>)

  datatype Action = Step(a: P.Action) | Open(id: nat, enable: seq<string>, disable: seq<string>)
                  | Commit(id: nat, ok: bool)

  function Updated(spec: PlatformSpec, enable: seq<string>, disable: seq<string>): PlatformSpec {
    WithModules(WithModules(spec, enable, true), disable, false)
  }

  function Changed(spec: PlatformSpec, c: Change): PlatformSpec {
    match c
    case Edit(other) => other
    case Update(enable, disable) => Updated(spec, enable, disable)
  }

  function Fold(origin: PlatformSpec, changes: seq<Change>): PlatformSpec {
    if changes == [] then origin else Changed(Fold(origin, changes[..|changes| - 1]), changes[|changes| - 1])
  }

  lemma FoldAppend(origin: PlatformSpec, changes: seq<Change>, c: Change)
    ensures Fold(origin, changes + [c]) == Changed(Fold(origin, changes), c)
  {
    assert (changes + [c])[..|changes|] == changes;
  }

  function Init(translate: PlatformSpec -> Value, spec: PlatformSpec): World {
    World(P.Init(translate, spec), map[], spec, [])
  }

  // Compare-and-swap on the resource version.
  predicate Lands(w: World, id: nat) {
    id in w.sessions && w.base.store.Some?
    && w.base.store.value.resourceVersion == w.sessions[id].fetched.resourceVersion
  }

  function Sent(x: Session): PlatformSpec { Updated(x.fetched.spec, x.enable, x.disable) }

  function ApplyStep(w: World, a: P.Action): World {
    var w' := w.(base := P.Apply(w.base, a));
    if a.EditSpec? && w.base.store.Some? then w'.(changes := w.changes + [Edit(a.spec)])
    else if a.Recreate? && w.base.store.None? then w'.(origin := a.spec, changes := [])
    else w'
  }

  function ApplyOpen(w: World, id: nat, enable: seq<string>, disable: seq<string>): World {
    if id in w.sessions || w.base.store.None? then w
    else w.(sessions := w.sessions[id := Session(w.base.store.value, enable, disable)])
  }

  // The whole fetched object is sent back with the modules set.
  function ApplyCommit(w: World, id: nat, ok: bool): World {
    if id !in w.sessions then w
    else
      var x := w.sessions[id];
      var closed := w.(sessions := w.sessions - {id});
      if !ok || !Lands(w, id) then closed
      else closed.(base := P.Apply(w.base, P.EditSpec(Sent(x))), changes := w.changes + [Update(x.enable, x.disable)])
  }

  function Apply(w: World, a: Action): World {
    match a
    case Step(b) => ApplyStep(w, b)
    case Open(id, enable, disable) => ApplyOpen(w, id, enable, disable)
    case Commit(id, ok) => ApplyCommit(w, id, ok)
  }

  function Continue(w: World, actions: seq<Action>): World {
    if actions == [] then w else Apply(Continue(w, actions[..|actions| - 1]), actions[|actions| - 1])
  }

  function Run(translate: PlatformSpec -> Value, spec: PlatformSpec, actions: seq<Action>): World {
    Continue(Init(translate, spec), actions)
  }

  /* ---- Runs with sessions are runs ---- */

  // The steps of the protocol that one action makes.
  function StepsOf(w: World, a: Action): seq<P.Action> {
    match a
    case Step(b) => [b]
    case Open(_, _, _) => []
    case Commit(id, ok) => if ok && Lands(w, id) then [P.EditSpec(Sent(w.sessions[id]))] else []
  }

  function Steps(w: World, actions: seq<Action>): seq<P.Action> {
    if actions == [] then []
    else
      var past := actions[..|actions| - 1];
      Steps(w, past) + StepsOf(Continue(w, past), actions[|actions| - 1])
  }

  lemma OneStep(s: P.State, a: P.Action)
    ensures P.Continue(s, [a]) == P.Apply(s, a)
  {
    assert [a][..0] == [];
  }

  lemma ActionIsSteps(w: World, a: Action)
    ensures Apply(w, a).base == P.Continue(w.base, StepsOf(w, a))
  {
    if a.Step? { OneStep(w.base, a.a); }
    else if a.Commit? && a.ok && Lands(w, a.id) { OneStep(w.base, P.EditSpec(Sent(w.sessions[a.id]))); }
  }

  /** Seen without its sessions, a run is a run of the protocol, in which a landed update is an edit of the spec; so
      everything that holds of those runs holds here. */
  lemma {:induction false} RunsAreRuns(translate: PlatformSpec -> Value, spec: PlatformSpec, actions: seq<Action>)
    ensures Run(translate, spec, actions).base == P.Run(translate, spec, Steps(Init(translate, spec), actions))
    ensures PlatformSafety.Inv(Run(translate, spec, actions).base)
  {
    var w := Init(translate, spec);
    if actions != [] {
      var past, a := actions[..|actions| - 1], actions[|actions| - 1];
      RunsAreRuns(translate, spec, past);
      ActionIsSteps(Continue(w, past), a);
      P.ContinueAppend(w.base, Steps(w, past), StepsOf(Continue(w, past), a));
    }
    PlatformSafety.RunsKeepInv(translate, spec, Steps(w, actions));
  }

  /* ---- No landed update is lost ---- */

  ghost predicate VersionInv(w: World) {
    forall id :: id in w.sessions ==>
      var p := w.sessions[id].fetched;
      && p.resourceVersion < w.base.clock
      && (w.base.store.Some? && w.base.store.value.resourceVersion == p.resourceVersion
          ==> w.base.store.value.spec == p.spec)
  }

  ghost predicate FoldInv(w: World) {
    w.base.store.Some? ==> w.base.store.value.spec == Fold(w.origin, w.changes)
  }

  // A step that writes the object gives it a version nobody has seen.
  lemma WritesAreFresh(s: P.State, a: P.Action)
    ensures var t := P.Apply(s, a);
            && s.clock <= t.clock
            && (t.store == s.store || t.store.None? || (t.store.value.resourceVersion == s.clock && s.clock < t.clock))
  {
  }

  lemma StepSpec(s: P.State, a: P.Action)
    ensures var t := P.Apply(s, a);
            t.store.Some? ==>
              if a.Recreate? && s.store.None? then t.store.value.spec == a.spec
              else s.store.Some? && t.store.value.spec == if a.EditSpec? then a.spec else s.store.value.spec
  {
  }

  lemma StepKeepsFold(w: World, a: P.Action)
    requires FoldInv(w)
    ensures FoldInv(ApplyStep(w, a))
  {
    StepSpec(w.base, a);
    if a.EditSpec? { FoldAppend(w.origin, w.changes, Edit(a.spec)); }
  }

  lemma CommitKeepsFold(w: World, id: nat, ok: bool)
    requires FoldInv(w) && VersionInv(w)
    ensures FoldInv(ApplyCommit(w, id, ok))
  {
    if ok && Lands(w, id) {
      var x := w.sessions[id];
      StepSpec(w.base, P.EditSpec(Sent(x)));
      FoldAppend(w.origin, w.changes, Update(x.enable, x.disable));
    }
  }

  lemma ActionKeepsVersions(w: World, a: Action)
    requires VersionInv(w) && PlatformSafety.HistoryInv(w.base)
    ensures VersionInv(Apply(w, a))
  {
    if a.Step? { WritesAreFresh(w.base, a.a); }
    else if a.Commit? && Lands(w, a.id) { WritesAreFresh(w.base, P.EditSpec(Sent(w.sessions[a.id]))); }
  }

  lemma {:induction false} RunsKeepTheFold(translate: PlatformSpec -> Value, spec: PlatformSpec, actions: seq<Action>)
    ensures var w := Run(translate, spec, actions); VersionInv(w) && FoldInv(w)
  {
    if actions != [] {
      var past, a := actions[..|actions| - 1], actions[|actions| - 1];
      RunsKeepTheFold(translate, spec, past);
      RunsAreRuns(translate, spec, past);
      var w := Run(translate, spec, past);
      ActionKeepsVersions(w, a);
      if a.Step? { StepKeepsFold(w, a.a); } else if a.Commit? { CommitKeepsFold(w, a.id, a.ok); }
    }
  }

  /** Whatever races - any number of updates, other clients' edits, the reconciler's status writes, crashes, deletes and
      re-creations - the stored spec is the created one with the edits and the landed updates applied in the order in
      which they landed. */
  lemma UpdatesAreNeverLost(translate: PlatformSpec -> Value, spec: PlatformSpec, actions: seq<Action>)
    ensures var w := Run(translate, spec, actions);
            w.base.store.Some? ==> w.base.store.value.spec == Fold(w.origin, w.changes)
  {
    RunsKeepTheFold(translate, spec, actions);
  }

  /** An update that lands acts on the spec that is stored at that moment: a module is on afterwards exactly when it is
      not disabled and was on or is enabled, nothing else of the spec changes, and neither do status and Helm; one that
      does not land changes nothing. */
  lemma CommitActsOnTheStoredSpec(translate: PlatformSpec -> Value, spec: PlatformSpec, actions: seq<Action>, id: nat)
    ensures var w := Run(translate, spec, actions);
            var t := Apply(w, Commit(id, true));
            if !Lands(w, id) then t.base == w.base && t.changes == w.changes
            else
              var x, before := w.sessions[id], w.base.store.value;
              && t.base.store.Some? && t.base.helm == w.base.helm
              && (forall m: Module :: On(t.base.store.value.spec, m)
                    <==> NameOf(m) !in x.disable && (NameOf(m) in x.enable || On(before.spec, m)))
              && SameRest(t.base.store.value.spec, before.spec) && t.base.store.value.status == before.status
              && t.changes == w.changes + [Update(x.enable, x.disable)]
  {
    RunsKeepTheFold(translate, spec, actions);
    var w := Run(translate, spec, actions);
    if Lands(w, id) {
      var x := w.sessions[id];
      UpdateMeans(x.fetched.spec, x.enable, x.disable);
      EditStep(w.base, Sent(x));
    }
  }

  lemma EditStep(s: P.State, spec: PlatformSpec)
    requires s.store.Some?
    ensures var t := P.Apply(s, P.EditSpec(spec));
            t.store.Some? && t.store.value.spec == spec && t.store.value.status == s.store.value.status
                && t.helm == s.helm
  {
  }

  /* ---- Conflicts ---- */

  // Somebody wrote the object since the session fetched it, or it is gone.
  ghost predicate Outdated(w: World, id: nat) {
    id in w.sessions && w.sessions[id].fetched.resourceVersion < w.base.clock && !Lands(w, id)
  }

  lemma ActionKeepsOutdated(w: World, id: nat, a: Action)
    requires Outdated(w, id) && !(a.Commit? && a.id == id)
    ensures Outdated(Apply(w, a), id)
  {
    if a.Step? { WritesAreFresh(w.base, a.a); }
    else if a.Commit? && Lands(w, a.id) { WritesAreFresh(w.base, P.EditSpec(Sent(w.sessions[a.id]))); }
  }

  lemma {:induction false} StaysOutdated(w: World, id: nat, later: seq<Action>)
    requires Outdated(w, id) && forall a :: a in later ==> !(a.Commit? && a.id == id)
    ensures Outdated(Continue(w, later), id)
  {
    if later != [] {
      StaysOutdated(w, id, later[..|later| - 1]);
      ActionKeepsOutdated(Continue(w, later[..|later| - 1]), id, later[|later| - 1]);
    }
  }

  /** Once the object has been written since the session fetched it - by another update, an edit, an annotation, or no
      more than the reconciler's own status - or deleted, the update is refused, however late it comes. */
  lemma WritesInBetweenRefuse(translate: PlatformSpec -> Value, spec: PlatformSpec, past: seq<Action>, id: nat,
                              a: Action, later: seq<Action>)
    requires var w := Run(translate, spec, past);
             id in w.sessions && id in Apply(w, a).sessions && Apply(w, a).base.store != w.base.store
    requires forall x :: x in later ==> !(x.Commit? && x.id == id)
    ensures var t := Continue(Apply(Run(translate, spec, past), a), later);
            Apply(t, Commit(id, true)).base == t.base
  {
    var w := Run(translate, spec, past);
    RunsKeepTheFold(translate, spec, past);
    RunsAreRuns(translate, spec, past);
    if a.Step? { WritesAreFresh(w.base, a.a); }
    else if a.Commit? && Lands(w, a.id) { WritesAreFresh(w.base, P.EditSpec(Sent(w.sessions[a.id]))); }
    StaysOutdated(Apply(w, a), id, later);
  }
}
