/** BuildArgoWorkflow: the name of the workflow and the DAG it carries. Strings are byte strings, one character a
    byte. */
module Workflow {

  /* ---- Name ---- */

  function TrimRight(s: string): string {
    if s != "" && s[|s| - 1] == '-' then TrimRight(s[..|s| - 1]) else s
  }

  // The run's name and the first eight bytes of the output name, without trailing dashes.
  function WorkflowName(name: string, outputName: string): string {
    TrimRight(name + "-" + First8(outputName))
  }

  // The first eight bytes of the output name.
  function First8(s: string): string { if |s| > 8 then s[..8] else s }

  lemma {:induction false} TrimRightMeans(s: string)
    ensures var t := TrimRight(s);
            && t <= s && (forall i :: |t| <= i < |s| ==> s[i] == '-') && (t != "" ==> t[|t| - 1] != '-')
  {
    if s != "" && s[|s| - 1] == '-' { TrimRightMeans(s[..|s| - 1]); }
  }

  // What is trimmed of a concatenation.
  lemma {:induction false} TrimRightAppend(p: string, x: string)
    ensures TrimRight(p + x) == if TrimRight(x) == "" then TrimRight(p) else p + TrimRight(x)
  {
    if x == "" {
      assert p + x == p;
    } else if x[|x| - 1] == '-' {
      assert (p + x)[..|p + x| - 1] == p + x[..|x| - 1];
      TrimRightAppend(p, x[..|x| - 1]);
    }
  }

  lemma NameIsNonEmpty(name: string, outputName: string)
    requires TrimRight(name) != ""
    ensures WorkflowName(name, outputName) != ""
  {
    TrimRightAppend(name + "-", First8(outputName));
    TrimRightAppend(name, "-");
    assert "-"[..0] == "" && TrimRight("-") == TrimRight("");
  }

  /** Two output names of one run give the same workflow exactly when their first eight bytes agree up to trailing
      dashes; and a workflow's name never ends in a dash. */
  lemma NamesShareAWorkflow(name: string, a: string, b: string)
    ensures WorkflowName(name, a) == WorkflowName(name, b) <==> TrimRight(First8(a)) == TrimRight(First8(b))
    ensures var w := WorkflowName(name, a); w != "" ==> w[|w| - 1] != '-' && |w| <= |name| + 9
  {
    var p := name + "-";
    TrimRightAppend(p, First8(a));
    TrimRightAppend(p, First8(b));
    TrimRightMeans(p);
    TrimRightMeans(p + First8(a));
    var u, v := TrimRight(First8(a)), TrimRight(First8(b));
    assert (p + u)[|p|..] == u && (p + v)[|p|..] == v;
  }

  /** The name itself: the run's name, a dash and the first eight bytes of the output name, without the dashes at the
      end - all of them, and nothing else. */
  lemma NameIs(name: string, outputName: string)
    ensures var w, full := WorkflowName(name, outputName),
                           name + "-" + outputName[..if |outputName| < 8 then |outputName| else 8];
            && w <= full && (forall i :: |w| <= i < |full| ==> full[i] == '-') && (w != "" ==> w[|w| - 1] != '-')
  {
    assert First8(outputName) == outputName[..if |outputName| < 8 then |outputName| else 8];
    TrimRightMeans(name + "-" + First8(outputName));
  }

  /* ---- DAG ---- */

  datatype Task = Task(name: string, template: string, dependencies: seq<string>)
  datatype Dag = Dag(entrypoint: string, templates: seq<string>, tasks: seq<Task>)

  const STEPS := ["prepare-data", "finetune", "merge-upload", "evaluate", "quality-gate", "deploy"]

  // dagTask copies the dependencies one by one.
  method DagTask(name: string, template: string, deps: seq<string>) returns (task: Task)
    ensures task == Task(name, template, deps)
  {
    var d: seq<string> := [];
    if |deps| > 0 {
      for i := 0 to |deps|
        invariant d == deps[..i]
      {
        d := d + [deps[i]];
      }
    }
    task := Task(name, template, d);
  }

  function StepTask(i: nat): Task
    requires i < |STEPS|
  {
    Task(STEPS[i], STEPS[i], if i == 0 then [] else [STEPS[i - 1]])
  }

  // The six steps in order, each depending on the one before it.
  ghost predicate Emitted(dag: Dag) {
    && dag.entrypoint == "main" && dag.templates == ["main"] + STEPS
    && |dag.tasks| == |STEPS| && forall i :: 0 <= i < |STEPS| ==> dag.tasks[i] == StepTask(i)
  }

  method BuildDag() returns (dag: Dag)
    ensures Emitted(dag)
  {
    var prepareData := DagTask("prepare-data", "prepare-data", []);
    var finetune := DagTask("finetune", "finetune", ["prepare-data"]);
    var mergeUpload := DagTask("merge-upload", "merge-upload", ["finetune"]);
    var evaluate := DagTask("evaluate", "evaluate", ["merge-upload"]);
    var qualityGate := DagTask("quality-gate", "quality-gate", ["evaluate"]);
    var deploy := DagTask("deploy", "deploy", ["quality-gate"]);
    dag := Dag("main",
               ["main", "prepare-data", "finetune", "merge-upload", "evaluate", "quality-gate", "deploy"],
               [prepareData, finetune, mergeUpload, evaluate, qualityGate, deploy]);
  }

  /* ---- Executions ---- */

  // What a DAG engine does: a task starts once, after all its dependencies succeeded, and then succeeds or fails.
  datatype Event = Start(task: string) | Succeed(task: string) | Fail(task: string)

  datatype Progress = Progress(started: set<string>, succeeded: seq<string>, failed: set<string>)

  ghost predicate Enabled(dag: Dag, p: Progress, e: Event) {
    match e
    case Start(t) => t !in p.started && exists i :: 0 <= i < |dag.tasks| && dag.tasks[i].name == t
                                         && forall d :: d in dag.tasks[i].dependencies ==> d in p.succeeded
    case Succeed(t) => t in p.started && t !in p.succeeded && t !in p.failed
    case Fail(t) => t in p.started && t !in p.succeeded && t !in p.failed
  }

  function After(p: Progress, e: Event): Progress {
    match e
    case Start(t) => p.(started := p.started + {t})
    case Succeed(t) => p.(succeeded := p.succeeded + [t])
    case Fail(t) => p.(failed := p.failed + {t})
  }

  ghost predicate Execution(dag: Dag, events: seq<Event>) {
    events == [] || (Execution(dag, events[..|events| - 1])
                     && Enabled(dag, Reached(events[..|events| - 1]), events[|events| - 1]))
  }

  function Reached(events: seq<Event>): Progress {
    if events == [] then Progress({}, [], {}) else After(Reached(events[..|events| - 1]), events[|events| - 1])
  }

  // The emitted shape: the tasks, in order, form one chain of distinct names.
  ghost predicate Chain(dag: Dag) {
    && (forall i, j :: 0 <= i < j < |dag.tasks| ==> dag.tasks[i].name != dag.tasks[j].name)
    && (forall i :: 0 <= i < |dag.tasks| ==>
          dag.tasks[i].dependencies == if i == 0 then [] else [dag.tasks[i - 1].name])
  }

  function Names(dag: Dag): seq<string> { seq(|dag.tasks|, i requires 0 <= i < |dag.tasks| => dag.tasks[i].name) }

  // What has started: the succeeded tasks and at most the next one.
  ghost predicate InStep(dag: Dag, p: Progress) {
    var n := |p.succeeded|;
    && n <= |dag.tasks|
    && p.succeeded == Names(dag)[..n]
    && (forall t :: t in p.started ==> t in p.succeeded || (n < |dag.tasks| && t == dag.tasks[n].name))
    && p.failed * (set t | t in p.succeeded) == {}
  }

  lemma EventKeepsStep(dag: Dag, p: Progress, e: Event)
    requires Chain(dag) && InStep(dag, p) && Enabled(dag, p, e)
    ensures InStep(dag, After(p, e))
  {
    var n := |p.succeeded|;
    match e
    case Start(t) =>
      var i :| 0 <= i < |dag.tasks| && dag.tasks[i].name == t
                && forall d :: d in dag.tasks[i].dependencies ==> d in p.succeeded;
      if i > 0 {
        assert dag.tasks[i - 1].name in dag.tasks[i].dependencies;
        var k :| 0 <= k < n && p.succeeded[k] == dag.tasks[i - 1].name;
        assert k == i - 1;
      }
      if i < n { assert Names(dag)[..n][i] == t; }
    case Succeed(t) =>
      assert t == dag.tasks[n].name;
      assert Names(dag)[..n + 1] == Names(dag)[..n] + [t];
      forall u | u in p.started ensures u in p.succeeded + [t] {}
    case Fail(t) =>
  }

  /** In every execution the succeeded tasks are a prefix of the chain, in chain order, and nothing runs ahead of it. */
  lemma {:induction false} SucceededIsAPrefix(dag: Dag, events: seq<Event>)
    requires Chain(dag) && Execution(dag, events)
    ensures InStep(dag, Reached(events))
  {
    if events != [] {
      SucceededIsAPrefix(dag, events[..|events| - 1]);
      EventKeepsStep(dag, Reached(events[..|events| - 1]), events[|events| - 1]);
    }
  }

  lemma EmittedIsAChain(dag: Dag)
    requires Emitted(dag)
    ensures Chain(dag) && Names(dag) == STEPS
  {
    assert forall i :: 0 <= i < |STEPS| ==> dag.tasks[i].name == STEPS[i];
    StepsAreDistinct();
  }

  lemma StepsAreDistinct()
    ensures forall i, j :: 0 <= i < j < |STEPS| ==> STEPS[i] != STEPS[j]
  {
    forall i, j | 0 <= i < j < |STEPS| ensures STEPS[i] != STEPS[j] {
      assert |STEPS[0]| == 12 && |STEPS[1]| == 8 && |STEPS[2]| == 12 && |STEPS[3]| == 8 && |STEPS[4]| == 12
          && |STEPS[5]| == 6;
      assert STEPS[0][0] == 'p' && STEPS[2][0] == 'm' && STEPS[4][0] == 'q' && STEPS[1][0] == 'f' && STEPS[3][0] == 'e';
    }
  }

  lemma FiveBeforeDeploy(dag: Dag, events: seq<Event>)
    requires Emitted(dag) && Execution(dag, events + [Start("deploy")])
    ensures Reached(events).succeeded == STEPS[..5] && Reached(events).failed * (set t | t in STEPS[..5]) == {}
  {
    EmittedIsAChain(dag);
    StepsAreDistinct();
    assert (events + [Start("deploy")])[..|events|] == events;
    SucceededIsAPrefix(dag, events);
    var p := Reached(events);
    var i :| 0 <= i < |dag.tasks| && dag.tasks[i].name == "deploy"
              && forall d :: d in dag.tasks[i].dependencies ==> d in p.succeeded;
    assert dag.tasks[i].name == STEPS[i] && STEPS[5] == "deploy";
    assert i == 5 && STEPS[4] in dag.tasks[5].dependencies;
    var k :| 0 <= k < |p.succeeded| && p.succeeded[k] == STEPS[4];
    assert p.succeeded[k] == STEPS[k] && k == 4;
    if |p.succeeded| == 6 { DeployStartsOnce(dag, events); }
  }

  /** Whatever the engine's scheduling and failures, deploy only starts when the five other steps, the quality gate
      among them, have succeeded, in that order. */
  lemma DeployIsLast(dag: Dag, events: seq<Event>)
    requires Emitted(dag) && Execution(dag, events + [Start("deploy")])
    ensures Reached(events).succeeded == ["prepare-data", "finetune", "merge-upload", "evaluate", "quality-gate"]
    ensures forall t :: t in Reached(events).succeeded ==> t !in Reached(events).failed
  {
    FiveBeforeDeploy(dag, events);
    var p := Reached(events);
    var five := set t | t in STEPS[..5];
    forall t | t in p.succeeded ensures t !in p.failed {
      assert t in five && (t in p.failed <==> t in p.failed * five);
    }
  }

  lemma {:induction false} DeployStartsOnce(dag: Dag, events: seq<Event>)
    requires Execution(dag, events)
    ensures forall t :: t in Reached(events).succeeded ==> t in Reached(events).started
  {
    if events != [] { DeployStartsOnce(dag, events[..|events| - 1]); }
  }

  /** The order is the only one: any ordering of all tasks that respects the dependencies is the chain. */
  lemma {:induction false} TopologicalOrderIsUnique(dag: Dag, order: seq<nat>)
    requires Chain(dag) && |order| <= |dag.tasks|
    requires forall i :: 0 <= i < |order| ==> order[i] < |dag.tasks|
    requires forall i, j :: 0 <= i < j < |order| ==> order[i] != order[j]
    requires forall i :: 0 <= i < |order| ==> forall d :: d in dag.tasks[order[i]].dependencies ==>
               exists j :: 0 <= j < i && dag.tasks[order[j]].name == d
    ensures forall i :: 0 <= i < |order| ==> order[i] == i
  {
    if order != [] {
      var n := |order| - 1;
      assert order[n] < n ==> order[order[n]] != order[n];
      TopologicalOrderIsUnique(dag, order[..n]);
      assert forall i :: 0 <= i < n ==> order[..n][i] == order[i] == i;
      if order[n] > 0 {
        var d := dag.tasks[order[n] - 1].name;
        assert d in dag.tasks[order[n]].dependencies;
        var j :| 0 <= j < n && dag.tasks[order[j]].name == d;
        assert order[j] == order[n] - 1;
      }
    }
  }

  /** Every dependency names an earlier task, and the entrypoint and every task's template exist. */
  lemma ReferencesResolve(dag: Dag)
    requires Emitted(dag)
    ensures dag.entrypoint in dag.templates
    ensures forall i :: 0 <= i < |dag.tasks| ==> dag.tasks[i].template in dag.templates
    ensures forall i, d :: 0 <= i < |dag.tasks| && d in dag.tasks[i].dependencies ==>
              exists j :: 0 <= j < i && dag.tasks[j].name == d
  {
    assert dag.templates[0] == "main";
    forall i | 0 <= i < |dag.tasks| ensures dag.tasks[i].template in dag.templates {
      assert dag.templates[i + 1] == STEPS[i];
    }
    forall i, d | 0 <= i < |dag.tasks| && d in dag.tasks[i].dependencies
      ensures exists j :: 0 <= j < i && dag.tasks[j].name == d
    {
      assert dag.tasks[i - 1].name == STEPS[i - 1] == d;
    }
  }
}
