/** resolve_engine of the model resolver: the first rule whose conditions all hold. */
module RuleResolution {
  import opened Kubernetes

  // A YAML scalar as == compares them: True and False are 1 and 0, Null is both None and a missing attribute.
  datatype Scalar = Null | Text(text: string) | Number(number: real)

  type Meta = map<string, Scalar>
  datatype Choice = Choice(engine: string, image: string, args: map<string, string>)

  // Rules and fallbacks as the YAML has them, with whatever keys they lack.
  datatype Rule = Rule(conditions: Option<map<string, Scalar>>, engine: Option<string>, image: Option<string>,
                       args: map<string, string>)
  datatype Fallback = Fallback(engine: Option<string>, image: Option<string>, args: map<string, string>)
  datatype EngineMap = EngineMap(rules: seq<Rule>, cpuFallback: Option<Fallback>, fallback: Option<Fallback>)

  // getattr(meta, key, None)
  function Attribute(meta: Meta, key: string): Scalar { if key in meta then meta[key] else Null }

  // rule.get("match", {})
  function Conditions(rule: Rule): map<string, Scalar> {
    if rule.conditions.Some? then rule.conditions.value else map[]
  }

  predicate Matches(meta: Meta, rule: Rule) {
    var c := Conditions(rule); forall key :: key in c ==> Attribute(meta, key) == c[key]
  }

  // match_rule: visit the conditions in some order, stop at the first that fails.
  method MatchRule(meta: Meta, rule: Rule) returns (matched: bool)
    ensures matched == Matches(meta, rule)
    ensures matched <==> (rule.conditions.Some? ==>
                            forall key :: key in rule.conditions.value ==>
                              rule.conditions.value[key] == if key in meta then meta[key] else Null)
  {
    var conditions := Conditions(rule);
    var left := conditions.Keys;
    while left != {}
      invariant left <= conditions.Keys
      invariant forall key :: key in conditions && key !in left ==> Attribute(meta, key) == conditions[key]
      decreases left
    {
      var key :| key in left;
      if Attribute(meta, key) != conditions[key] { return false; }
      left := left - {key};
    }
    matched := true;
  }

  // The index of the first matching rule, or the number of rules.
  function FirstMatch(meta: Meta, rules: seq<Rule>): nat {
    if rules == [] || Matches(meta, rules[0]) then 0 else 1 + FirstMatch(meta, rules[1..])
  }

  // The first matching rule, if any.
  function Chosen(meta: Meta, rules: seq<Rule>): Option<Rule> {
    if FirstMatch(meta, rules) < |rules| then Some(rules[FirstMatch(meta, rules)]) else None
  }

  // Reading a missing key raises KeyError: no result. The log line reads "match" as well.
  function RuleChoice(rule: Rule): Option<Choice> {
    if rule.conditions.Some? && rule.engine.Some? && rule.image.Some?
    then Some(Choice(rule.engine.value, rule.image.value, rule.args)) else None
  }

  function CpuChoice(m: EngineMap): Option<Choice> {
    var fb := if m.cpuFallback.Some? then m.cpuFallback else m.fallback;
    if fb.Some? && fb.value.engine.Some? && fb.value.image.Some?
    then Some(Choice(fb.value.engine.value, fb.value.image.value, fb.value.args)) else None
  }

  function DefaultChoice(m: EngineMap): Choice {
    var fb := if m.fallback.Some? then m.fallback.value else Fallback(None, None, map[]);
    Choice(if fb.engine.Some? then fb.engine.value else "vllm",
           if fb.image.Some? then fb.image.value else "vllm/vllm-openai:latest", fb.args)
  }

  function Resolve(meta: Meta, hasGpu: bool, m: EngineMap): Option<Choice> {
    if !hasGpu then CpuChoice(m)
    else if Chosen(meta, m.rules).Some? then RuleChoice(Chosen(meta, m.rules).value) else Some(DefaultChoice(m))
  }

  method ResolveEngine(meta: Meta, hasGpu: bool, m: EngineMap) returns (choice: Option<Choice>)
    ensures choice == Resolve(meta, hasGpu, m)
  {
    if !hasGpu { return CpuChoice(m); }
    for i := 0 to |m.rules|
      invariant FirstMatch(meta, m.rules) == i + FirstMatch(meta, m.rules[i..])
    {
      assert m.rules[i..][1..] == m.rules[i + 1..];
      var matched := MatchRule(meta, m.rules[i]);
      if matched { return RuleChoice(m.rules[i]); }
    }
    choice := Some(DefaultChoice(m));
  }

  // The choice an entry with these keys gives; a missing one raises KeyError.
  ghost predicate Gives(engine: Option<string>, image: Option<string>, args: map<string, string>,
                        choice: Option<Choice>) {
    && (choice.Some? <==> engine.Some? && image.Some?)
    && (choice.Some? ==>
          Some(choice.value.engine) == engine && Some(choice.value.image) == image && choice.value.args == args)
  }

  // The first rule that matches.
  ghost predicate First(meta: Meta, rules: seq<Rule>, i: int) {
    0 <= i < |rules| && Matches(meta, rules[i]) && forall j :: 0 <= j < i ==> !Matches(meta, rules[j])
  }

  /** What a model resolves to, exactly. Without a GPU: what the CPU fallback says, or the fallback when there is none,
      and nothing when there is neither. With one: what the first rule that matches says, provided it has the keys that
      are read; when none matches, what the fallback has, with vllm and its image for what it lacks. */
  lemma ResolutionMeans(meta: Meta, hasGpu: bool, m: EngineMap)
    ensures var choice := Resolve(meta, hasGpu, m);
            && (!hasGpu && m.cpuFallback.Some? ==>
                  var fb := m.cpuFallback.value; Gives(fb.engine, fb.image, fb.args, choice))
            && (!hasGpu && m.cpuFallback.None? && m.fallback.Some? ==>
                  var fb := m.fallback.value; Gives(fb.engine, fb.image, fb.args, choice))
            && (!hasGpu && m.cpuFallback.None? && m.fallback.None? ==> choice.None?)
            && (forall i :: hasGpu && First(meta, m.rules, i) ==>
                  var rule := m.rules[i];
                  Gives(if rule.conditions.Some? then rule.engine else None, rule.image, rule.args, choice))
            && (hasGpu && (forall r :: r in m.rules ==> !Matches(meta, r)) ==>
                  var fb := if m.fallback.Some? then m.fallback.value else Fallback(None, None, map[]);
                  Gives(Some(if fb.engine.Some? then fb.engine.value else "vllm"),
                        Some(if fb.image.Some? then fb.image.value else "vllm/vllm-openai:latest"), fb.args, choice))
  {
    FirstMatchIsLeast(meta, m.rules);
    forall i | First(meta, m.rules, i) ensures FirstMatch(meta, m.rules) == i
    {
      LeastIsFirstMatch(meta, m.rules, i);
    }
  }

  /** With a GPU and no matching rule, the fallback's own engine, image and arguments are used where it has them. */
  lemma FallbackIsHonoured(meta: Meta, m: EngineMap, fb: Fallback)
    requires m.fallback == Some(fb) && forall r :: r in m.rules ==> !Matches(meta, r)
    ensures var choice := Resolve(meta, true, m);
            && choice.Some? && choice.value.args == fb.args
            && (fb.engine.Some? ==> Some(choice.value.engine) == fb.engine)
            && (fb.engine.None? ==> choice.value.engine == "vllm")
            && (fb.image.Some? ==> Some(choice.value.image) == fb.image)
  {
    FirstMatchIsLeast(meta, m.rules);
  }

  /** What first-match means: the chosen index matches, and nothing before it does. */
  lemma {:induction false} FirstMatchIsLeast(meta: Meta, rules: seq<Rule>)
    ensures var i := FirstMatch(meta, rules);
            && i <= |rules|
            && (i < |rules| ==> Matches(meta, rules[i]))
            && forall j :: 0 <= j < i ==> !Matches(meta, rules[j])
  {
    if rules != [] && !Matches(meta, rules[0]) {
      FirstMatchIsLeast(meta, rules[1..]);
    }
  }

  lemma LeastIsFirstMatch(meta: Meta, rules: seq<Rule>, i: nat)
    requires i <= |rules| && (i < |rules| ==> Matches(meta, rules[i]))
    requires forall j :: 0 <= j < i ==> !Matches(meta, rules[j])
    ensures FirstMatch(meta, rules) == i
  {
    FirstMatchIsLeast(meta, rules);
  }

  // Rule b only fires where rule a does: it has every condition of a.
  predicate Covers(a: Rule, b: Rule) {
    forall key :: key in Conditions(a) ==> key in Conditions(b) && Conditions(b)[key] == Conditions(a)[key]
  }

  function Without(rules: seq<Rule>, j: nat): seq<Rule>
    requires j < |rules|
  {
    rules[..j] + rules[j + 1..]
  }

  lemma ShadowedIsNeverChosen(meta: Meta, rules: seq<Rule>, i: nat, j: nat)
    requires i < j < |rules| && Covers(rules[i], rules[j])
    ensures Chosen(meta, Without(rules, j)) == Chosen(meta, rules)
  {
    FirstMatchIsLeast(meta, rules);
    var f, fewer := FirstMatch(meta, rules), Without(rules, j);
    assert f != j by { if Matches(meta, rules[j]) { assert Matches(meta, rules[i]); } }
    assert forall k :: 0 <= k < |fewer| ==> fewer[k] == if k < j then rules[k] else rules[k + 1];
    LeastIsFirstMatch(meta, fewer, if f < j then f else f - 1);
  }

  /** A rule shadowed by an earlier one can be deleted: no model and no hardware resolves differently. */
  lemma ShadowedRuleIsDead(meta: Meta, hasGpu: bool, m: EngineMap, i: nat, j: nat)
    requires i < j < |m.rules| && Covers(m.rules[i], m.rules[j])
    ensures Resolve(meta, hasGpu, m.(rules := Without(m.rules, j))) == Resolve(meta, hasGpu, m)
  {
    ShadowedIsNeverChosen(meta, m.rules, i, j);
  }

  // Drop every rule that some earlier kept rule covers.
  function Pruned(rules: seq<Rule>): seq<Rule> {
    if rules == [] then []
    else
      var kept, last := Pruned(rules[..|rules| - 1]), rules[|rules| - 1];
      if exists r :: r in kept && Covers(r, last) then kept else kept + [last]
  }

  lemma {:induction false} PrunedChoosesTheSame(meta: Meta, rules: seq<Rule>)
    ensures Chosen(meta, Pruned(rules)) == Chosen(meta, rules)
    ensures forall r :: r in Pruned(rules) ==> r in rules
  {
    if rules != [] {
      var n := |rules| - 1;
      var init, last := rules[..n], rules[n];
      PrunedChoosesTheSame(meta, init);
      assert rules == init + [last];
      ChosenAppend(meta, init, last);
      ChosenAppend(meta, Pruned(init), last);
      if r :| r in Pruned(init) && Covers(r, last) {
        if Matches(meta, last) {
          assert Matches(meta, r);
          var i :| 0 <= i < |Pruned(init)| && Pruned(init)[i] == r;
          FirstMatchIsLeast(meta, Pruned(init));
        }
      }
    }
  }

  lemma ChosenAppend(meta: Meta, rules: seq<Rule>, last: Rule)
    ensures Chosen(meta, rules + [last]) ==
            if Chosen(meta, rules).Some? then Chosen(meta, rules)
            else if Matches(meta, last) then Some(last) else None
  {
    FirstMatchIsLeast(meta, rules);
    var f, all := FirstMatch(meta, rules), rules + [last];
    LeastIsFirstMatch(meta, all, if f < |rules| || Matches(meta, last) then f else f + 1);
  }

  /** Removing every shadowed rule of an engine map at once preserves what it means. */
  lemma PruningPreservesMeaning(meta: Meta, hasGpu: bool, m: EngineMap)
    ensures Resolve(meta, hasGpu, m.(rules := Pruned(m.rules))) == Resolve(meta, hasGpu, m)
  {
    PrunedChoosesTheSame(meta, m.rules);
  }
}
