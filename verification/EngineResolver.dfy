/** ResolveEngine: which inference engine serves a model source. The two regular expressions are decided by a greedy
    left-to-right scanner, proved equivalent to the patterns. */
module EngineResolver {

  /* ---- Strings ---- */

  predicate At(s: string, i: nat, w: string) { i + |w| <= |s| && s[i..i + |w|] == w }

  // strings.Contains
  predicate Contains(s: string, w: string) { exists i :: 0 <= i <= |s| && At(s, i, w) }

  predicate HasSuffix(s: string, w: string) { |w| <= |s| && At(s, |s| - |w|, w) }

  // strings.ToLower, as far as the patterns can tell: they are ASCII, and of the letters beyond ASCII only the dotted
  // capital I and the Kelvin sign have an ASCII lower case.
  function LowerChar(c: char): char {
    if 'A' <= c <= 'Z' then c + ' '
    else if c == '\U{0130}' then 'i'
    else if c == '\U{212A}' then 'k'
    else c
  }

  function Lower(s: string): string { seq(|s|, i requires 0 <= i < |s| => LowerChar(s[i])) }

  /* ---- prefix \d+ separator \d+ suffix ---- */

  datatype Pattern = Pattern(prefix: string, separator: string, suffix: string)

  const QWEN_MOE := Pattern("qwen3-", "b-a", "b")
  const GLM_V := Pattern("glm-", ".", "v")

  predicate IsDigit(c: char) { '0' <= c <= '9' }

  ghost predicate Number(w: string) { w != "" && forall c :: c in w ==> IsDigit(c) }

  // What the regular expression denotes.
  ghost predicate Occurs(s: string, p: Pattern) {
    exists i: nat, m: string, n: string ::
      Number(m) && Number(n) && At(s, i, p.prefix + m + p.separator + n + p.suffix)
  }

  // A digit run never swallows w.
  predicate Stops(w: string) { w != "" && !IsDigit(w[0]) }

  predicate Separated(p: Pattern) { Stops(p.separator) && Stops(p.suffix) }

  // The end of the longest run of digits from i.
  function Digits(s: string, i: nat): (end: nat)
    requires i <= |s|
    ensures i <= end <= |s|
    decreases |s| - i
  {
    if i < |s| && IsDigit(s[i]) then Digits(s, i + 1) else i
  }

  lemma {:induction false} DigitsIsTheRun(s: string, i: nat)
    requires i <= |s|
    ensures forall k :: i <= k < Digits(s, i) ==> IsDigit(s[k])
    ensures Digits(s, i) < |s| ==> !IsDigit(s[Digits(s, i)])
    decreases |s| - i
  {
    if i < |s| && IsDigit(s[i]) { DigitsIsTheRun(s, i + 1); }
  }

  // A digit run followed by w.
  predicate RunThen(s: string, i: nat, w: string) {
    i <= |s| && i < Digits(s, i) && At(s, Digits(s, i), w)
  }

  // Greedy match at one position, without backtracking.
  predicate MatchAt(s: string, i: nat, p: Pattern) {
    var a := i + |p.prefix|;
    At(s, i, p.prefix) && RunThen(s, a, p.separator) && RunThen(s, Digits(s, a) + |p.separator|, p.suffix)
  }

  lemma {:induction false} DigitsEnd(s: string, i: nat, end: nat)
    requires i <= end <= |s|
    requires forall k :: i <= k < end ==> IsDigit(s[k])
    requires end < |s| ==> !IsDigit(s[end])
    ensures Digits(s, i) == end
    decreases end - i
  {
    if i < end { DigitsEnd(s, i + 1, end); }
  }

  lemma AtParts(s: string, i: nat, u: string, v: string)
    ensures At(s, i, u + v) <==> At(s, i, u) && At(s, i + |u|, v)
  {
    if i + |u| + |v| <= |s| {
      var n := |u| + |v|;
      assert s[i..i + n] == s[i..i + |u|] + s[i + |u|..i + n];
      if At(s, i, u + v) {
        assert s[i..i + |u|] == (u + v)[..|u|] && s[i + |u|..i + n] == (u + v)[|u|..];
      }
    }
  }

  lemma AtThree(s: string, i: nat, u: string, v: string, w: string)
    ensures At(s, i, u + v + w) <==> At(s, i, u) && At(s, i + |u|, v) && At(s, i + |u| + |v|, w)
  {
    AtParts(s, i, u + v, w);
    AtParts(s, i, u, v);
  }

  // The five parts of an occurrence, one after the other.
  ghost predicate PartsAt(s: string, i: nat, p: Pattern, m: string, n: string) {
    var a := i + |p.prefix|;
    var b := a + |m|;
    var c := b + |p.separator|;
    At(s, i, p.prefix) && At(s, a, m) && At(s, b, p.separator) && At(s, c, n) && At(s, c + |n|, p.suffix)
  }

  lemma PartsAreTheWhole(s: string, i: nat, p: Pattern, m: string, n: string)
    ensures At(s, i, p.prefix + m + p.separator + n + p.suffix) <==> PartsAt(s, i, p, m, n)
  {
    AtThree(s, i, p.prefix, m, p.separator);
    AtThree(s, i, p.prefix + m + p.separator, n, p.suffix);
  }

  lemma NumberAt(s: string, i: nat, m: string, next: string)
    requires Number(m) && At(s, i, m) && At(s, i + |m|, next) && Stops(next)
    ensures Digits(s, i) == i + |m|
  {
    var w := s[i..i + |m|];
    forall k | i <= k < i + |m| ensures IsDigit(s[k]) { assert s[k] == w[k - i]; assert w[k - i] in m; }
    assert s[i + |m|] == s[i + |m|..i + |m| + |next|][0];
    DigitsEnd(s, i, i + |m|);
  }

  lemma DigitsAreANumber(s: string, i: nat)
    requires i <= |s| && i < Digits(s, i)
    ensures Number(s[i..Digits(s, i)])
  {
    var w := s[i..Digits(s, i)];
    DigitsIsTheRun(s, i);
    forall x | x in w ensures IsDigit(x) {
      var k :| 0 <= k < |w| && w[k] == x;
      assert s[i + k] == x;
    }
  }

  lemma SliceIsAt(s: string, i: nat, j: nat)
    requires i <= j <= |s|
    ensures At(s, i, s[i..j]) && i + |s[i..j]| == j
  {
  }

  lemma RunIsANumber(s: string, i: nat, w: string) returns (m: string)
    requires RunThen(s, i, w)
    ensures Number(m) && At(s, i, m) && At(s, i + |m|, w) && i + |m| == Digits(s, i)
  {
    m := s[i..Digits(s, i)];
    DigitsAreANumber(s, i);
    SliceIsAt(s, i, Digits(s, i));
  }

  lemma NumberIsARun(s: string, i: nat, m: string, w: string)
    requires Number(m) && At(s, i, m) && At(s, i + |m|, w) && Stops(w)
    ensures RunThen(s, i, w) && Digits(s, i) == i + |m|
  {
    NumberAt(s, i, m, w);
  }

  lemma MatchHasParts(s: string, i: nat, p: Pattern) returns (m: string, n: string)
    requires MatchAt(s, i, p)
    ensures Number(m) && Number(n) && PartsAt(s, i, p, m, n)
  {
    var a := i + |p.prefix|;
    m := RunIsANumber(s, a, p.separator);
    n := RunIsANumber(s, Digits(s, a) + |p.separator|, p.suffix);
  }

  lemma MatchOccurs(s: string, i: nat, p: Pattern)
    requires MatchAt(s, i, p)
    ensures Occurs(s, p)
  {
    var m, n := MatchHasParts(s, i, p);
    PartsAreTheWhole(s, i, p, m, n);
  }

  lemma RunsMatch(s: string, i: nat, p: Pattern, b: nat)
    requires At(s, i, p.prefix) && RunThen(s, i + |p.prefix|, p.separator) && b == Digits(s, i + |p.prefix|)
    requires RunThen(s, b + |p.separator|, p.suffix)
    ensures i <= |s| && MatchAt(s, i, p)
  {
  }

  lemma FirstRun(s: string, p: Pattern, i: nat, m: string, n: string)
    requires Stops(p.separator) && Number(m) && PartsAt(s, i, p, m, n)
    ensures var a := i + |p.prefix|; RunThen(s, a, p.separator) && Digits(s, a) == a + |m|
  {
    NumberIsARun(s, i + |p.prefix|, m, p.separator);
  }

  lemma SecondRun(s: string, p: Pattern, i: nat, m: string, n: string)
    requires Stops(p.suffix) && Number(n) && PartsAt(s, i, p, m, n)
    ensures RunThen(s, i + |p.prefix| + |m| + |p.separator|, p.suffix)
  {
    NumberIsARun(s, i + |p.prefix| + |m| + |p.separator|, n, p.suffix);
  }

  lemma OccurrenceMatches(s: string, p: Pattern, i: nat, m: string, n: string)
    requires Separated(p) && Number(m) && Number(n) && PartsAt(s, i, p, m, n)
    ensures i <= |s| && MatchAt(s, i, p)
  {
    FirstRun(s, p, i, m, n);
    SecondRun(s, p, i, m, n);
    RunsMatch(s, i, p, i + |p.prefix| + |m|);
  }

  /** The greedy scanner is exact: it accepts somewhere in the string if and only if some substring has the shape. */
  lemma ScannerIsExact(s: string, p: Pattern)
    requires Separated(p)
    ensures Scans(s, p) <==> Occurs(s, p)
  {
    if Scans(s, p) {
      var i: nat :| i <= |s| && MatchAt(s, i, p);
      MatchOccurs(s, i, p);
    }
    if Occurs(s, p) {
      var i: nat, m: string, n: string :|
        Number(m) && Number(n) && At(s, i, p.prefix + m + p.separator + n + p.suffix);
      PartsAreTheWhole(s, i, p, m, n);
      OccurrenceMatches(s, p, i, m, n);
    }
  }

  predicate Scans(s: string, p: Pattern) { exists i :: 0 <= i <= |s| && MatchAt(s, i, p) }

  // Regexp.MatchString as a loop over starting positions.
  method Scan(s: string, p: Pattern) returns (found: bool)
    ensures found <==> Scans(s, p)
  {
    for i := 0 to |s| + 1
      invariant forall j :: 0 <= j < i ==> !MatchAt(s, j, p)
    {
      if MatchAt(s, i, p) { return true; }
    }
    found := false;
  }

  /* ---- Resolution ---- */

  const EMBEDDING := ["/bge-", "/e5-", "/gte-", "minilm", "/jina-embed", "jina-embeddings", "/nomic-embed",
                      "nomic-embed", "/all-mpnet", "embedding"]

  predicate IsEmbedding(s: string) { exists w :: w in EMBEDDING && Contains(s, w) }
  predicate IsEmbeddingOrReranker(s: string) { Contains(s, "rerank") || IsEmbedding(s) }
  predicate IsGGUF(s: string) { Contains(s, "gguf") || Contains(s, "guff") }

  predicate IsMoE(s: string) {
    || ((Contains(s, "deepseek-v3") || Contains(s, "deepseek-v4") || Contains(s, "deepseek-r1"))
        && !Contains(s, "distill"))
    || Scans(s, QWEN_MOE)
    || Contains(s, "mixtral")
    || Contains(s, "glm-4.") || Contains(s, "glm-5")
    || Contains(s, "kimi-k2")
  }

  predicate IsVLM(s: string) {
    || Contains(s, "-vl-") || HasSuffix(s, "-vl") || Contains(s, "-vlm") || Contains(s, "-vision")
    || Scans(s, GLM_V)
  }

  function ResolveEngineEx(source: string, explicit: string, features: seq<string>, defaultEngine: string): string {
    var s := Lower(source);
    if explicit != "" && explicit != "auto" then explicit
    else if IsGGUF(s) then "llamacpp"
    else if IsEmbeddingOrReranker(s) then "tei"
    else if "domestic-gpu" in features then "chitu"
    else if "moe" in features then "sglang"
    else if "vlm" in features then "sglang"
    else if IsMoE(s) then "sglang"
    else if IsVLM(s) then "sglang"
    else if defaultEngine == "" then "vllm"
    else defaultEngine
  }

  function ResolveEngine(source: string, explicit: string): string { ResolveEngineEx(source, explicit, [], "vllm") }

  predicate Auto(explicit: string) { explicit == "" || explicit == "auto" }

  lemma EmbeddingMarks(s: string)
    ensures IsEmbedding(s) <==>
            || Contains(s, "/bge-") || Contains(s, "/e5-") || Contains(s, "/gte-") || Contains(s, "minilm")
            || Contains(s, "/jina-embed") || Contains(s, "jina-embeddings") || Contains(s, "/nomic-embed")
            || Contains(s, "nomic-embed") || Contains(s, "/all-mpnet") || Contains(s, "embedding")
  {
    AnyOfFive(s, EMBEDDING[..5]);
    AnyOfFive(s, EMBEDDING[5..]);
    assert EMBEDDING == EMBEDDING[..5] + EMBEDDING[5..];
  }

  lemma AnyOfFive(s: string, w: seq<string>)
    requires |w| == 5
    ensures (exists x :: x in w && Contains(s, x)) <==>
            Contains(s, w[0]) || Contains(s, w[1]) || Contains(s, w[2]) || Contains(s, w[3]) || Contains(s, w[4])
  {
    if x :| x in w && Contains(s, x) { var i :| 0 <= i < 5 && w[i] == x; }
  }

  /** For every auto source: llamacpp for GGUF, else tei for embeddings and rerankers, else sglang exactly when one of
      the patterns occurs - the two regular expressions as they are written, not as they are scanned - and vllm
      otherwise. */
  lemma AutoResolution(source: string, explicit: string)
    requires explicit == "" || explicit == "auto"
    ensures var s, e := Lower(source), ResolveEngine(source, explicit);
            var gguf := Contains(s, "gguf") || Contains(s, "guff");
            var embeds := Contains(s, "rerank") || Contains(s, "/bge-") || Contains(s, "/e5-") || Contains(s, "/gte-")
                          || Contains(s, "minilm") || Contains(s, "/jina-embed") || Contains(s, "jina-embeddings")
                          || Contains(s, "/nomic-embed") || Contains(s, "nomic-embed") || Contains(s, "/all-mpnet")
                          || Contains(s, "embedding");
            var named := ((Contains(s, "deepseek-v3") || Contains(s, "deepseek-v4") || Contains(s, "deepseek-r1"))
                          && !Contains(s, "distill"))
                         || Contains(s, "mixtral") || Contains(s, "glm-4.") || Contains(s, "glm-5")
                         || Contains(s, "kimi-k2") || Contains(s, "-vl-") || HasSuffix(s, "-vl")
                         || Contains(s, "-vlm") || Contains(s, "-vision");
            var written := Occurs(s, Pattern("qwen3-", "b-a", "b")) || Occurs(s, Pattern("glm-", ".", "v"));
            && (e == "llamacpp" <==> gguf)
            && (e == "tei" <==> !gguf && embeds)
            && (e == "sglang" <==> !gguf && !embeds && (named || written))
            && (e == "vllm" <==> !gguf && !embeds && !(named || written))
  {
    ScannerIsExact(Lower(source), QWEN_MOE);
    ScannerIsExact(Lower(source), GLM_V);
    EmbeddingMarks(Lower(source));
    assert "llamacpp" != "tei" && "llamacpp" != "sglang" && "llamacpp" != "vllm";
  }

  /** What a source can resolve to: the explicit engine, or one of four. */
  lemma ResolvesToKnown(source: string, explicit: string)
    ensures var e := ResolveEngine(source, explicit);
            if Auto(explicit) then e in {"llamacpp", "tei", "sglang", "vllm"} else e == explicit
  {
  }

  lemma LacksTheLetter(s: string, w: string, c: char)
    requires c in w && c !in s
    ensures !Contains(s, w)
  {
    forall i | 0 <= i <= |s| && i + |w| <= |s| ensures !At(s, i, w) {
      var k :| 0 <= k < |w| && w[k] == c;
      assert s[i..i + |w|][k] == s[i + k] && s[i + k] in s;
    }
  }

  lemma LowerOfLower(s: string)
    requires forall k :: 0 <= k < |s| ==> LowerChar(s[k]) == s[k]
    ensures Lower(s) == s
  {
  }

  lemma LetterAt(w: string, k: nat)
    requires k < |w|
    ensures w[k] in w
  {
  }

  const MIXTRAL := "mistralai/mixtral-8x7b"

  lemma MixtralIsLower()
    ensures Lower(MIXTRAL) == MIXTRAL
  {
    LowerOfLower(MIXTRAL);
  }

  lemma MixtralLacksLetters()
    ensures 'g' !in MIXTRAL && 'e' !in MIXTRAL && 'n' !in MIXTRAL
  {
  }

  lemma MixtralOccurs()
    ensures Contains(MIXTRAL, "mixtral")
  {
    assert MIXTRAL[10..17] == "mixtral";
    assert At(MIXTRAL, 10, "mixtral");
  }

  /** A source that the webhook admits with engine auto and that resolves to sglang. */
  lemma MixtralIsSGLang()
    ensures ResolveEngine(MIXTRAL, "auto") == "sglang"
  {
    MixtralIsLower();
    MixtralLacksLetters();
    MixtralOccurs();
    NeitherGGUFNorReranker(MIXTRAL);
    NoEmbedding(MIXTRAL);
    AutoResolution(MIXTRAL, "auto");
  }

  lemma NeitherGGUFNorReranker(s: string)
    requires 'g' !in s && 'e' !in s
    ensures !IsGGUF(s) && !Contains(s, "rerank")
  {
    LetterAt("gguf", 0);
    LetterAt("guff", 0);
    LetterAt("rerank", 1);
    LacksTheLetter(s, "gguf", 'g');
    LacksTheLetter(s, "guff", 'g');
    LacksTheLetter(s, "rerank", 'e');
  }

  lemma NoEmbedding(s: string)
    requires 'g' !in s && 'e' !in s && 'n' !in s
    ensures !IsEmbedding(s)
  {
    forall w | w in EMBEDDING ensures !Contains(s, w) {
      var k :| 0 <= k < |EMBEDDING| && EMBEDDING[k] == w;
      if k == 0 { LetterAt(w, 2); LacksTheLetter(s, w, 'g'); }
      else if k == 3 { LetterAt(w, 2); LacksTheLetter(s, w, 'n'); }
      else if k == 1 { LetterAt(w, 1); LacksTheLetter(s, w, 'e'); }
      else if k == 2 { LetterAt(w, 1); LacksTheLetter(s, w, 'g'); }
      else if k == 4 { LetterAt(w, 3); LacksTheLetter(s, w, 'n'); }
      else if k == 5 { LetterAt(w, 2); LacksTheLetter(s, w, 'n'); }
      else if k == 6 { LetterAt(w, 1); LacksTheLetter(s, w, 'n'); }
      else if k == 7 { LetterAt(w, 0); LacksTheLetter(s, w, 'n'); }
      else if k == 8 { LetterAt(w, 7); LacksTheLetter(s, w, 'n'); }
      else { LetterAt(w, 0); LacksTheLetter(s, w, 'e'); }
    }
  }
}
