/** What every run of ModelDeploymentProtocol keeps. */
module ModelDeploymentSafety {
  import opened Api
  import opened Kubernetes
  import opened Conditions
  import opened ModelDeploymentProtocol

  ghost predicate Coherent(status: Status) {
    && Unique(status.conditions)
    && (Holds(status.conditions, READY) <==> status.phase == Ready)
    && (status.readyReplicas > 0 <==> status.phase == Ready || status.phase == Degraded)
  }

  // A copy whose version is still current is the stored object.
  ghost predicate Snapshot(s: State, name: string, md: ModelDeployment) {
    md.resourceVersion < s.clock
    && (Current(s, name, md) ==> s.store[name].spec == md.spec && s.store[name].finalizers == md.finalizers
                                 && s.store[name].deleting == md.deleting)
  }

  ghost predicate VersionInv(s: State) {
    && (forall n :: n in s.store ==> s.store[n].resourceVersion < s.clock)
    && (forall id :: id in s.sessions ==>
          Snapshot(s, s.sessions[id].name, s.sessions[id].md)
              && Allowed(s.sessions[id].command, s.sessions[id].md.spec))
    && (s.r.pc.Idle? || s.r.pc.Registering? || s.r.pc.Refetching? || Snapshot(s, s.r.name, s.r.md))
  }

  ghost predicate LedgerInv(s: State) {
    forall n :: n in s.store ==>
      && n in s.ledgers
      && s.store[n].spec == Fold(s.ledgers[n].origin, s.ledgers[n].commits)
      && Legal(s.ledgers[n].origin, s.ledgers[n].commits)
  }

  predicate Held(s: State, name: string) { name in s.store && FINALIZER in s.store[name].finalizers }

  predicate Working(pc: Pc) { pc.Children? || pc.Refetching? || pc.Writing? || pc.Registering? }

  ghost predicate GatewayInv(s: State) {
    && (Working(s.r.pc) ==> Held(s, s.r.name))
    && (s.r.pc.RemovingFinalizer? && s.r.name in s.gateway ==> s.r.name in s.leaked)
    && (s.r.pc.AddingFinalizer? ==> !s.r.md.deleting)
    && s.leaked <= s.gateway
    && (forall n :: n in s.gateway ==> Held(s, n) || n in s.leaked)
  }

  ghost predicate StatusInv(s: State) {
    && (forall n :: n in s.store ==> Coherent(s.store[n].status))
    && Coherent(s.r.md.status)
    && (s.r.pc.Registering? && s.r.name in s.store ==> s.store[s.r.name].status.phase == Ready)
  }

  function Desired(spec: Spec): int { if spec.replicas.Some? then spec.replicas.value else 1 }

  // What a computed status says of the replicas that were wanted.
  ghost predicate Measures(status: Status, desired: int) {
    && (status.phase == Ready <==> status.readyReplicas >= desired && desired > 0)
    && (status.phase == Degraded <==> status.readyReplicas > 0 && !(status.readyReplicas >= desired && desired > 0))
    && (status.phase == Deploying <==> status.readyReplicas <= 0)
  }

  // The spec of an object after so many commits.
  function SpecAt(ledger: Ledger, commits: nat): Spec
    requires commits <= |ledger.commits|
  {
    Fold(ledger.origin, ledger.commits[..commits])
  }

  // The spec a reconcile holds, and the one a status was computed for, was the stored one at some time.
  ghost predicate Reports(s: State, name: string, commits: nat, status: Status) {
    && name in s.ledgers && commits <= |s.ledgers[name].commits|
    && Measures(status, Desired(SpecAt(s.ledgers[name], commits)))
  }

  ghost predicate HeldSpec(s: State) {
    && s.r.name in s.ledgers && s.held <= |s.ledgers[s.r.name].commits|
    && s.r.md.spec == SpecAt(s.ledgers[s.r.name], s.held)
  }

  ghost predicate ReportInv(s: State) {
    && (s.r.pc.Children? ==> HeldSpec(s))
    && (s.r.pc.Refetching? || s.r.pc.Writing? ==> Reports(s, s.r.name, s.held, s.r.md.status))
    && (forall n :: n in s.store && s.store[n].status.phase != Unset ==>
          n in s.reported && Reports(s, n, s.reported[n], s.store[n].status))
  }

  ghost predicate Inv(s: State) {
    VersionInv(s) && LedgerInv(s) && GatewayInv(s) && StatusInv(s) && ReportInv(s)
  }

  // A write either changes nothing or takes a version no copy can have.
  lemma PutKeepsVersionInv(s: State, name: string, md: ModelDeployment)
    requires VersionInv(s) && (md.resourceVersion == s.clock || (name in s.store && md == s.store[name]))
    ensures VersionInv(Put(s, name, md))
  {
  }

  lemma CreateKeepsVersionInv(s: State, name: string, spec: Spec, finalizers: set<string>)
    requires VersionInv(s)
    ensures VersionInv(ApplyCreate(s, name, spec, finalizers))
  {
    PutKeepsVersionInv(s, name, Created(spec, EmptyStatus(), finalizers, s.clock));
  }

  lemma DeleteKeepsVersionInv(s: State, name: string)
    requires VersionInv(s)
    ensures VersionInv(ApplyDelete(s, name))
  {
    if name in s.store {
      PutKeepsVersionInv(s, name, s.store[name].(deleting := true, generation := s.store[name].generation + 1,
                                                 resourceVersion := s.clock));
    }
  }

  lemma OpenKeepsVersionInv(s: State, id: nat, name: string, command: Command)
    requires VersionInv(s)
    ensures VersionInv(ApplyOpen(s, id, name, command))
  {
  }

  lemma CommitKeepsVersionInv(s: State, id: nat, ok: bool)
    requires VersionInv(s)
    ensures VersionInv(ApplyCommit(s, id, ok))
  {
    if id in s.sessions {
      var x := s.sessions[id];
      var closed := s.(sessions := s.sessions - {id});
      assert VersionInv(closed);
      if Current(s, x.name, x.md) {
        PutKeepsVersionInv(closed, x.name,
                           Updated(s.store[x.name], Execute(x.command, x.md.spec), x.md.finalizers, s.clock));
      }
    }
  }

  lemma FinalizersKeepVersionInv(s: State, ok: bool, finalizers: set<string>, next: Pc)
    requires VersionInv(s)
    ensures VersionInv(ApplyFinalizers(s, ok, finalizers, next))
  {
    var name, md := s.r.name, s.r.md;
    if Current(s, name, md) {
      PutKeepsVersionInv(Goto(s, Idle), name, Updated(s.store[name], md.spec, finalizers, s.clock));
    }
  }

  lemma StatusWriteKeepsVersionInv(s: State, ok: bool)
    requires VersionInv(s)
    ensures VersionInv(ApplyWriteStatus(s, ok))
  {
    var name, md := s.r.name, s.r.md;
    if Current(s, name, md) {
      PutKeepsVersionInv(Goto(s, Idle), name, StatusUpdated(s.store[name], md.status, s.clock));
    }
  }

  predicate Writes(a: Action) {
    a.Create? || a.Delete? || a.Open? || a.Commit? || a.AddFinalizer? || a.RemoveFinalizer? || a.WriteStatus?
  }

  lemma FetchKeepsVersionInv(s: State, name: string, ok: bool)
    requires VersionInv(s)
    ensures VersionInv(ApplyFetch(s, name, ok))
  {
  }

  lemma RefetchKeepsVersionInv(s: State, ok: bool)
    requires VersionInv(s)
    ensures VersionInv(ApplyRefetch(s, ok))
  {
  }

  lemma ReadsKeepVersionInv(s: State, a: Action)
    requires VersionInv(s) && !Writes(a) && !a.Fetch? && !a.Refetch?
    ensures VersionInv(Apply(s, a))
  {
  }

  lemma StepKeepsVersionInv(s: State, a: Action)
    requires VersionInv(s)
    ensures VersionInv(Apply(s, a))
  {
    match a
    case Create(name, spec, finalizers) => CreateKeepsVersionInv(s, name, spec, finalizers);
    case Delete(name) => DeleteKeepsVersionInv(s, name);
    case Open(id, name, command) => OpenKeepsVersionInv(s, id, name, command);
    case Commit(id, ok) => CommitKeepsVersionInv(s, id, ok);
    case AddFinalizer(ok) => FinalizersKeepVersionInv(s, ok, s.r.md.finalizers + {FINALIZER}, Children);
    case RemoveFinalizer(ok) => FinalizersKeepVersionInv(s, ok, s.r.md.finalizers - {FINALIZER}, Idle);
    case WriteStatus(ok) => StatusWriteKeepsVersionInv(s, ok);
    case Fetch(name, ok) => FetchKeepsVersionInv(s, name, ok);
    case Refetch(ok) => RefetchKeepsVersionInv(s, ok);
    case _ => ReadsKeepVersionInv(s, a);
  }

  lemma FoldAppend(origin: Spec, commits: seq<Command>, c: Command)
    requires Legal(origin, commits) && Allowed(c, Fold(origin, commits))
    ensures Fold(origin, commits + [c]) == Execute(c, Fold(origin, commits))
    ensures Legal(origin, commits + [c])
  {
    var all := commits + [c];
    assert all[..|commits|] == commits;
    forall i | 0 <= i < |all| ensures Allowed(all[i], Fold(origin, all[..i])) {
      if i < |commits| { assert all[..i] == commits[..i]; }
    }
  }

  lemma CommitKeepsLedgerInv(s: State, id: nat, ok: bool)
    requires VersionInv(s) && LedgerInv(s)
    ensures LedgerInv(ApplyCommit(s, id, ok))
  {
    if id in s.sessions && Current(s, s.sessions[id].name, s.sessions[id].md) {
      var x := s.sessions[id];
      FoldAppend(s.ledgers[x.name].origin, s.ledgers[x.name].commits, x.command);
    }
  }

  lemma PutKeepsLedgerInv(s: State, name: string, md: ModelDeployment)
    requires LedgerInv(s) && name in s.store && md.spec == s.store[name].spec
    ensures LedgerInv(Put(s, name, md))
  {
  }

  lemma FinalizersKeepLedgerInv(s: State, ok: bool, finalizers: set<string>, next: Pc)
    requires LedgerInv(s) && (Current(s, s.r.name, s.r.md) ==> s.r.md.spec == s.store[s.r.name].spec)
    ensures LedgerInv(ApplyFinalizers(s, ok, finalizers, next))
  {
    var name, md := s.r.name, s.r.md;
    if Current(s, name, md) { PutKeepsLedgerInv(s, name, Updated(s.store[name], md.spec, finalizers, s.clock)); }
  }

  lemma StatusWriteKeepsLedgerInv(s: State, ok: bool)
    requires LedgerInv(s)
    ensures LedgerInv(ApplyWriteStatus(s, ok))
  {
    var name, md := s.r.name, s.r.md;
    if Current(s, name, md) { PutKeepsLedgerInv(s, name, StatusUpdated(s.store[name], md.status, s.clock)); }
  }

  lemma OthersKeepLedgerInv(s: State, a: Action)
    requires LedgerInv(s) && !a.Commit? && !a.AddFinalizer? && !a.RemoveFinalizer? && !a.WriteStatus?
    ensures LedgerInv(Apply(s, a))
  {
  }

  lemma StepKeepsLedgerInv(s: State, a: Action)
    requires VersionInv(s) && LedgerInv(s)
    ensures LedgerInv(Apply(s, a))
  {
    match a
    case Commit(id, ok) => CommitKeepsLedgerInv(s, id, ok);
    case AddFinalizer(ok) =>
      if s.r.pc.AddingFinalizer? { FinalizersKeepLedgerInv(s, ok, s.r.md.finalizers + {FINALIZER}, Children); }
    case RemoveFinalizer(ok) =>
      if s.r.pc.RemovingFinalizer? { FinalizersKeepLedgerInv(s, ok, s.r.md.finalizers - {FINALIZER}, Idle); }
    case WriteStatus(ok) => StatusWriteKeepsLedgerInv(s, ok);
    case _ => OthersKeepLedgerInv(s, a);
  }

  lemma ClientsKeepGatewayInv(s: State, a: Action)
    requires VersionInv(s) && GatewayInv(s) && (a.Create? || a.Delete? || a.Open? || a.Commit? || a.Crash?)
    ensures GatewayInv(Apply(s, a))
  {
  }

  lemma AddingKeepsGatewayInv(s: State, ok: bool)
    requires VersionInv(s) && GatewayInv(s)
    ensures GatewayInv(Apply(s, AddFinalizer(ok)))
  {
  }

  lemma RemovalKeepsGatewayInv(s: State, ok: bool)
    requires VersionInv(s) && GatewayInv(s)
    ensures GatewayInv(Apply(s, RemoveFinalizer(ok)))
  {
  }

  lemma StatusWriteKeepsGatewayInv(s: State, ok: bool)
    requires VersionInv(s) && GatewayInv(s)
    ensures GatewayInv(ApplyWriteStatus(s, ok))
  {
  }

  lemma ReconcilerKeepsGatewayInv(s: State, a: Action)
    requires VersionInv(s) && GatewayInv(s)
    requires a.Fetch? || a.Deregister? || a.EnsureChildren? || a.Refetch? || a.Register?
    ensures GatewayInv(Apply(s, a))
  {
  }

  lemma StepKeepsGatewayInv(s: State, a: Action)
    requires VersionInv(s) && GatewayInv(s)
    ensures GatewayInv(Apply(s, a))
  {
    if a.Create? || a.Delete? || a.Open? || a.Commit? || a.Crash? { ClientsKeepGatewayInv(s, a); }
    else if a.AddFinalizer? { AddingKeepsGatewayInv(s, a.ok); }
    else if a.RemoveFinalizer? { RemovalKeepsGatewayInv(s, a.ok); }
    else if a.WriteStatus? { StatusWriteKeepsGatewayInv(s, a.ok); }
    else { ReconcilerKeepsGatewayInv(s, a); }
  }

  lemma StatusOfCoherent(md: ModelDeployment, ready: int, total: int)
    requires Unique(md.status.conditions)
    ensures Coherent(StatusOf(md, ready, total))
  {
    var phase := PhaseOf(md.spec, ready);
    var c := Condition(READY, phase == Ready, if phase == Ready then "AllReplicasReady" else "ReplicasNotReady",
        md.generation);
    SetKeepsOthers(md.status.conditions, c);
    SetIsMapUpdate(md.status.conditions, c);
  }

  lemma ClientsKeepStatusInv(s: State, a: Action)
    requires GatewayInv(s) && StatusInv(s) && (a.Create? || a.Delete? || a.Open? || a.Commit?)
    ensures StatusInv(Apply(s, a))
  {
  }

  lemma FinalizersKeepStatusInv(s: State, ok: bool, finalizers: set<string>, next: Pc)
    requires StatusInv(s) && !next.Registering?
    ensures StatusInv(ApplyFinalizers(s, ok, finalizers, next))
  {
  }

  lemma StatusWriteKeepsStatusInv(s: State, ok: bool)
    requires StatusInv(s)
    ensures StatusInv(ApplyWriteStatus(s, ok))
  {
  }

  lemma ReconcilerKeepsStatusInv(s: State, a: Action)
    requires StatusInv(s) && (a.AddFinalizer? || a.RemoveFinalizer? || a.WriteStatus?)
    ensures StatusInv(Apply(s, a))
  {
    if a.AddFinalizer? { FinalizersKeepStatusInv(s, a.ok, s.r.md.finalizers + {FINALIZER}, Children); }
    else if a.RemoveFinalizer? { FinalizersKeepStatusInv(s, a.ok, s.r.md.finalizers - {FINALIZER}, Idle); }
    else { StatusWriteKeepsStatusInv(s, a.ok); }
  }

  lemma ReadsKeepStatusInv(s: State, a: Action)
    requires StatusInv(s) && !Writes(a)
    ensures StatusInv(Apply(s, a))
  {
    if a.EnsureChildren? { StatusOfCoherent(s.r.md, a.ready, a.total); }
  }

  /* The spec a status was computed for */

  lemma WholeLedger(ledger: Ledger)
    ensures SpecAt(ledger, |ledger.commits|) == Fold(ledger.origin, ledger.commits)
  {
    assert ledger.commits[..|ledger.commits|] == ledger.commits;
  }

  lemma RecordedKeepsReports(s: State, t: State, name: string, c: Command, n: string, commits: nat)
    requires n in s.ledgers && commits <= |s.ledgers[n].commits| && t.ledgers == Recorded(s.ledgers, name, c)
    ensures n in t.ledgers && commits <= |t.ledgers[n].commits|
            && SpecAt(t.ledgers[n], commits) == SpecAt(s.ledgers[n], commits)
  {
    assert t.ledgers[n].commits[..commits] == s.ledgers[n].commits[..commits];
  }

  lemma CommitKeepsReportInv(s: State, id: nat, ok: bool)
    requires ReportInv(s)
    ensures ReportInv(ApplyCommit(s, id, ok))
  {
    var t := ApplyCommit(s, id, ok);
    if t.ledgers != s.ledgers {
      var x := s.sessions[id];
      if s.r.pc.Children? || s.r.pc.Refetching? || s.r.pc.Writing? {
        RecordedKeepsReports(s, t, x.name, x.command, s.r.name, s.held);
      }
      forall n | n in t.store && t.store[n].status.phase != Unset
        ensures n in t.reported && Reports(t, n, t.reported[n], t.store[n].status)
      {
        RecordedKeepsReports(s, t, x.name, x.command, n, s.reported[n]);
      }
    }
  }

  lemma ClientsKeepReportInv(s: State, a: Action)
    requires GatewayInv(s) && ReportInv(s) && (a.Create? || a.Delete? || a.Open?)
    ensures ReportInv(Apply(s, a))
  {
  }

  lemma FetchKeepsReportInv(s: State, name: string, ok: bool)
    requires LedgerInv(s) && ReportInv(s)
    ensures ReportInv(ApplyFetch(s, name, ok))
  {
    if name in s.store { WholeLedger(s.ledgers[name]); }
  }

  lemma FinalizersKeepReportInv(s: State, ok: bool, finalizers: set<string>, next: Pc)
    requires LedgerInv(s) && ReportInv(s) && (Current(s, s.r.name, s.r.md) ==> s.r.md.spec == s.store[s.r.name].spec)
    requires next.Idle? || next.Children?
    ensures ReportInv(ApplyFinalizers(s, ok, finalizers, next))
  {
    if s.r.name in s.store { WholeLedger(s.ledgers[s.r.name]); }
  }

  lemma StatusWriteKeepsReportInv(s: State, ok: bool)
    requires ReportInv(s)
    ensures ReportInv(ApplyWriteStatus(s, ok))
  {
  }

  lemma ReadsKeepReportInv(s: State, a: Action)
    requires ReportInv(s) && !Writes(a) && !a.Fetch?
    ensures ReportInv(Apply(s, a))
  {
  }

  lemma StepKeepsReportInv(s: State, a: Action)
    requires VersionInv(s) && LedgerInv(s) && GatewayInv(s) && ReportInv(s)
    ensures ReportInv(Apply(s, a))
  {
    if a.Commit? { CommitKeepsReportInv(s, a.id, a.ok); }
    else if a.Create? || a.Delete? || a.Open? { ClientsKeepReportInv(s, a); }
    else if a.Fetch? { FetchKeepsReportInv(s, a.name, a.ok); }
    else if a.AddFinalizer? {
      if s.r.pc.AddingFinalizer? { FinalizersKeepReportInv(s, a.ok, s.r.md.finalizers + {FINALIZER}, Children); }
    }
    else if a.RemoveFinalizer? {
      if s.r.pc.RemovingFinalizer? { FinalizersKeepReportInv(s, a.ok, s.r.md.finalizers - {FINALIZER}, Idle); }
    }
    else if a.WriteStatus? { StatusWriteKeepsReportInv(s, a.ok); }
    else { ReadsKeepReportInv(s, a); }
  }

  lemma {:induction false} RunsKeepInv(actions: seq<Action>)
    ensures Inv(Run(actions))
  {
    if actions != [] {
      var s, a := Run(actions[..|actions| - 1]), actions[|actions| - 1];
      RunsKeepInv(actions[..|actions| - 1]);
      StepKeepsVersionInv(s, a);
      StepKeepsLedgerInv(s, a);
      StepKeepsGatewayInv(s, a);
      StepKeepsReportInv(s, a);
      if a.Create? || a.Delete? || a.Open? || a.Commit? { ClientsKeepStatusInv(s, a); }
      else if Writes(a) { ReconcilerKeepsStatusInv(s, a); }
      else { ReadsKeepStatusInv(s, a); }
    }
  }
}
