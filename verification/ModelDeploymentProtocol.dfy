/** ModelDeploymentReconciler, any number of command-line sessions and other users on one API server and one
    gateway, as atomic steps. Creating the children is one step here: it does not touch the custom resources;
    ChildrenProtocol has its calls. */
module ModelDeploymentProtocol {
  import opened Api
  import opened Kubernetes
  import opened Conditions

  type Spec = ModelDeploymentSpec
  datatype Phase = Unset | Deploying | Degraded | Ready
  datatype Status = Status(phase: Phase, readyReplicas: int, totalReplicas: int, conditions: seq<Condition>)
  type ModelDeployment = Object<Spec, Status>

  const FINALIZER := "llmops.kubellmops.io/finalizer"
  const READY := "Ready"

  function EmptyStatus(): Status { Status(Unset, 0, 0, []) }

  /* ---- What a command does to the spec it fetched ---- */

  // canary, promote, rollback, scale, and a user who edits the whole spec by the same get-modify-update.
  datatype Command = SetCanary(target: string, weight: int) | Promote | Rollback | Scale(replicas: int)
      | Edit(spec: Spec)

  predicate Allowed(c: Command, spec: Spec) { c.Promote? || c.Rollback? ==> spec.canary.Some? }

  function Execute(c: Command, spec: Spec): Spec {
    match c
    case SetCanary(target, weight) => spec.(canary := Some(Canary(target, weight, Resources(0, "", ""))))
    case Promote => if spec.canary.Some? then spec.(source := spec.canary.value.source, canary := None) else spec
    case Rollback => spec.(canary := None)
    case Scale(n) => spec.(replicas := Some(n))
    case Edit(other) => other
  }

  function Fold(origin: Spec, commands: seq<Command>): Spec {
    if commands == [] then origin else Execute(commands[|commands| - 1], Fold(origin, commands[..|commands| - 1]))
  }

  // Every promote and rollback of the history had a canary to act on.
  ghost predicate Legal(origin: Spec, commands: seq<Command>) {
    forall i :: 0 <= i < |commands| ==> Allowed(commands[i], Fold(origin, commands[..i]))
  }

  /* ---- State ---- */

  // One command between its Get and its Update.
  datatype Session = Session(name: string, command: Command, md: ModelDeployment)

  datatype Pc = Idle | Deregistering | RemovingFinalizer | AddingFinalizer | Children | Refetching | Writing
      | Registering

  datatype Local = Local(pc: Pc, name: string, md: ModelDeployment)

  // Bookkeeping for the current incarnation of a name: the spec it was created with and the committed commands.
  datatype Ledger = Ledger(origin: Spec, commits: seq<Command>)

  // leaked: the names that were registered when their last deregistration failed. held and reported count the commits
  // in the spec that the reconcile in progress holds, and in the one each stored status was computed for.
  datatype State = State(store: map<string, ModelDeployment>, clock: nat, gateway: set<string>,
                         sessions: map<nat, Session>, r: Local, ledgers: map<string, Ledger>, leaked: set<string>,
                         held: nat, reported: map<string, nat>)

  datatype Action =
    | Create(name: string, spec: Spec, finalizers: set<string>) | Delete(name: string)
    | Open(id: nat, name: string, command: Command) | Commit(id: nat, ok: bool)
    | Crash
    | Fetch(name: string, ok: bool) | Deregister(ok: bool) | RemoveFinalizer(ok: bool) | AddFinalizer(ok: bool)
    | EnsureChildren(ok: bool, ready: int, total: int) | Refetch(ok: bool) | WriteStatus(ok: bool) | Register(ok: bool)

  function Blank(): ModelDeployment {
    Created(ModelDeploymentSpec("", "", None, Resources(0, "", ""), map[], false, "", None, None), EmptyStatus(), {}, 0)
  }

  function Init(): State { State(map[], 1, {}, map[], Local(Idle, "", Blank()), map[], {}, 0, map[]) }

  /* ---- Steps ---- */

  function Goto(s: State, pc: Pc): State { s.(r := s.r.(pc := pc)) }

  // Compare-and-swap on the resource version.
  predicate Current(s: State, name: string, md: ModelDeployment) {
    name in s.store && s.store[name].resourceVersion == md.resourceVersion
  }

  // An accepted write; an object being deleted disappears with its last finalizer.
  function Put(s: State, name: string, md: ModelDeployment): State {
    s.(store := if md.deleting && md.finalizers == {} then s.store - {name} else s.store[name := md],
        clock := s.clock + 1)
  }

  function ApplyCreate(s: State, name: string, spec: Spec, finalizers: set<string>): State {
    if name in s.store then s
    else Put(s, name, Created(spec, EmptyStatus(), finalizers, s.clock))
        .(ledgers := s.ledgers[name := Ledger(spec, [])])
  }

  function ApplyDelete(s: State, name: string): State {
    if name !in s.store || s.store[name].deleting then s
    else Put(s, name, s.store[name].(deleting := true, generation := s.store[name].generation + 1,
                                     resourceVersion := s.clock))
  }

  function ApplyOpen(s: State, id: nat, name: string, command: Command): State {
    if id in s.sessions || name !in s.store || !Allowed(command, s.store[name].spec) then s
    else s.(sessions := s.sessions[id := Session(name, command, s.store[name])])
  }

  // The whole fetched object is sent back with the command applied to its spec.
  function ApplyCommit(s: State, id: nat, ok: bool): State {
    if id !in s.sessions then s
    else
      var x := s.sessions[id];
      var closed := s.(sessions := s.sessions - {id});
      if !ok || !Current(s, x.name, x.md) then closed
      else
        var md := Updated(s.store[x.name], Execute(x.command, x.md.spec), x.md.finalizers, s.clock);
        Put(closed, x.name, md).(ledgers := Recorded(s.ledgers, x.name, x.command))
  }

  function Recorded(ledgers: map<string, Ledger>, name: string, command: Command): map<string, Ledger> {
    if name in ledgers then ledgers[name := ledgers[name].(commits := ledgers[name].commits + [command])] else ledgers
  }

  function Commits(s: State, name: string): nat { if name in s.ledgers then |s.ledgers[name].commits| else 0 }

  function ApplyFetch(s: State, name: string, ok: bool): State {
    if !s.r.pc.Idle? || !ok || name !in s.store then s
    else
      var md := s.store[name];
      var held := FINALIZER in md.finalizers;
      var pc := if md.deleting then (if held then Deregistering else Idle) else if held then Children
          else AddingFinalizer;
      s.(r := Local(pc, name, md), held := Commits(s, name))
  }

  // Errors are logged and dropped: the finalizer is removed all the same.
  function ApplyDeregister(s: State, ok: bool): State {
    if !s.r.pc.Deregistering? then s
    else
      var name := s.r.name;
      Goto(s.(gateway := if ok then s.gateway - {name} else s.gateway,
              leaked := if !ok && name in s.gateway then s.leaked + {name} else s.leaked - {name}), RemovingFinalizer)
  }

  function ApplyFinalizers(s: State, ok: bool, finalizers: set<string>, next: Pc): State {
    var name, md := s.r.name, s.r.md;
    if !ok || !Current(s, name, md) then Goto(s, Idle)
    else
      var written := Updated(s.store[name], md.spec, finalizers, s.clock);
      Put(s, name, written).(r := Local(next, name, written), held := Commits(s, name))
  }

  function PhaseOf(spec: Spec, ready: int): Phase {
    var desired := if spec.replicas.Some? then spec.replicas.value else 1;
    if ready >= desired && desired > 0 then Ready else if ready > 0 then Degraded else Deploying
  }

  function StatusOf(md: ModelDeployment, ready: int, total: int): Status {
    var phase := PhaseOf(md.spec, ready);
    var reason := if phase == Ready then "AllReplicasReady" else "ReplicasNotReady";
    Status(phase, ready, total, Set(md.status.conditions, Condition(READY, phase == Ready, reason, md.generation)))
  }

  function ApplyEnsureChildren(s: State, ok: bool, ready: int, total: int): State {
    if !s.r.pc.Children? then s
    else if !ok then Goto(s, Idle)
    else s.(r := s.r.(pc := Refetching, md := s.r.md.(status := StatusOf(s.r.md, ready, total))))
  }

  function ApplyRefetch(s: State, ok: bool): State {
    if !s.r.pc.Refetching? then s
    else if !ok || s.r.name !in s.store then Goto(s, Idle)
    else s.(r := s.r.(pc := Writing, md := s.store[s.r.name].(status := s.r.md.status)))
  }

  function ApplyWriteStatus(s: State, ok: bool): State {
    if !s.r.pc.Writing? then s
    else if !ok || !Current(s, s.r.name, s.r.md) then Goto(s, Idle)
    else
      var written := StatusUpdated(s.store[s.r.name], s.r.md.status, s.clock);
      Put(s, s.r.name, written).(r := Local(if written.status.phase == Ready then Registering else Idle, s.r.name,
                                            written),
                                 reported := s.reported[s.r.name := s.held])
  }

  function ApplyRegister(s: State, ok: bool): State {
    if !s.r.pc.Registering? then s
    else Goto(s.(gateway := if ok then s.gateway + {s.r.name} else s.gateway), Idle)
  }

  function Apply(s: State, a: Action): State {
    match a
    case Create(name, spec, finalizers) => ApplyCreate(s, name, spec, finalizers)
    case Delete(name) => ApplyDelete(s, name)
    case Open(id, name, command) => ApplyOpen(s, id, name, command)
    case Commit(id, ok) => ApplyCommit(s, id, ok)
    case Crash => Goto(s, Idle)
    case Fetch(name, ok) => ApplyFetch(s, name, ok)
    case Deregister(ok) => ApplyDeregister(s, ok)
    case RemoveFinalizer(ok) =>
      if s.r.pc.RemovingFinalizer? then ApplyFinalizers(s, ok, s.r.md.finalizers - {FINALIZER}, Idle) else s
    case AddFinalizer(ok) =>
      if s.r.pc.AddingFinalizer? then ApplyFinalizers(s, ok, s.r.md.finalizers + {FINALIZER}, Children) else s
    case EnsureChildren(ok, ready, total) => ApplyEnsureChildren(s, ok, ready, total)
    case Refetch(ok) => ApplyRefetch(s, ok)
    case WriteStatus(ok) => ApplyWriteStatus(s, ok)
    case Register(ok) => ApplyRegister(s, ok)
  }

  function Continue(s: State, actions: seq<Action>): State {
    if actions == [] then s else Apply(Continue(s, actions[..|actions| - 1]), actions[|actions| - 1])
  }

  function Run(actions: seq<Action>): State { Continue(Init(), actions) }

  lemma {:induction false} ContinueAppend(s: State, actions: seq<Action>, later: seq<Action>)
    ensures Continue(s, actions + later) == Continue(Continue(s, actions), later)
  {
    if later == [] {
      assert actions + later == actions;
    } else {
      var n := |later| - 1;
      assert (actions + later)[..|actions + later| - 1] == actions + later[..n];
      ContinueAppend(s, actions, later[..n]);
    }
  }

  lemma ContinueHead(s: State, actions: seq<Action>)
    requires actions != []
    ensures Continue(s, actions) == Continue(Apply(s, actions[0]), actions[1..])
  {
    ContinueAppend(s, actions[..1], actions[1..]);
    assert actions[..1] + actions[1..] == actions && actions[..1][..0] == [];
    assert Continue(s, actions[..1]) == Apply(s, actions[0]);
  }
}
