/** buildEngineArgs and parseEngineArgs: rendering user arguments deterministically, and reading them. */
module EngineArgs {

  /* ---- sort.Strings ---- */

  predicate Le(a: string, b: string) {
    a == "" || (b != "" && (a[0] < b[0] || (a[0] == b[0] && Le(a[1..], b[1..]))))
  }

  lemma {:induction false} LeTotal(a: string, b: string)
    ensures Le(a, b) || Le(b, a)
    ensures Le(a, b) && Le(b, a) ==> a == b
  {
    if a != "" && b != "" {
      LeTotal(a[1..], b[1..]);
      assert a == [a[0]] + a[1..] && b == [b[0]] + b[1..];
    }
  }

  lemma {:induction false} LeTransitive(a: string, b: string, c: string)
    requires Le(a, b) && Le(b, c)
    ensures Le(a, c)
  {
    if a != "" && a[0] == b[0] == c[0] { LeTransitive(a[1..], b[1..], c[1..]); }
  }

  // Strictly increasing: sorted, and every key once.
  ghost predicate Increasing(keys: seq<string>) {
    forall i, j :: 0 <= i < j < |keys| ==> Le(keys[i], keys[j]) && keys[i] != keys[j]
  }

  ghost predicate Distinct(keys: seq<string>) { forall i, j :: 0 <= i < j < |keys| ==> keys[i] != keys[j] }

  function Insert(k: string, keys: seq<string>): (r: seq<string>)
    ensures multiset(r) == multiset(keys) + multiset{k}
  {
    if keys == [] then [k]
    else if Le(k, keys[0]) then [k] + keys
    else
      assert keys == [keys[0]] + keys[1..];
      [keys[0]] + Insert(k, keys[1..])
  }

  function Sort(keys: seq<string>): (r: seq<string>)
    ensures multiset(r) == multiset(keys)
  {
    if keys == [] then []
    else
      assert keys == keys[..|keys| - 1] + [keys[|keys| - 1]];
      Insert(keys[|keys| - 1], Sort(keys[..|keys| - 1]))
  }

  lemma {:induction false} InsertIncreasing(k: string, keys: seq<string>)
    requires Increasing(keys) && k !in keys
    ensures Increasing(Insert(k, keys))
  {
    if keys != [] {
      var h, t := keys[0], keys[1..];
      LeTotal(k, h);
      if Le(k, h) {
        forall i | 1 <= i < |keys| ensures Le(k, keys[i]) { LeTransitive(k, h, keys[i]); }
      } else {
        InsertIncreasing(k, t);
        var r := Insert(k, t);
        forall i | 0 <= i < |r| ensures Le(h, r[i]) && h != r[i] { InsertedMembers(k, t, r[i]); }
        PrependIncreasing(h, r);
      }
    }
  }

  lemma InsertedMembers(k: string, keys: seq<string>, x: string)
    requires x in Insert(k, keys)
    ensures x in keys || x == k
  {
    assert x in multiset(Insert(k, keys));
  }

  lemma PrependIncreasing(h: string, r: seq<string>)
    requires Increasing(r) && forall i :: 0 <= i < |r| ==> Le(h, r[i]) && h != r[i]
    ensures Increasing([h] + r)
  {
  }

  lemma LeReflexive(a: string)
    ensures Le(a, a)
  {
    LeTotal(a, a);
  }

  lemma SortedMembers(keys: seq<string>, k: string)
    ensures k in Sort(keys) <==> k in keys
  {
    assert k in multiset(Sort(keys)) <==> k in multiset(keys);
  }

  lemma {:induction false} SortIncreasing(keys: seq<string>)
    requires Distinct(keys)
    ensures Increasing(Sort(keys))
  {
    if keys != [] {
      var n := |keys| - 1;
      SortIncreasing(keys[..n]);
      SortedMembers(keys[..n], keys[n]);
      InsertIncreasing(keys[n], Sort(keys[..n]));
    }
  }

  lemma {:induction false} IncreasingIsUnique(a: seq<string>, b: seq<string>)
    requires Increasing(a) && Increasing(b) && forall k :: k in a <==> k in b
    ensures a == b
  {
    assert b != [] ==> b[0] in b;
    if a != [] {
      assert a[0] in a && a[0] in b;
      var i :| 0 <= i < |b| && b[i] == a[0];
      assert b[0] in b && b[0] in a;
      var j :| 0 <= j < |a| && a[j] == b[0];
      LeTotal(a[0], b[0]);
      LeReflexive(a[0]);
      assert a[0] == b[0];
      forall k ensures k in a[1..] <==> k in b[1..] { TailMembers(a, k); TailMembers(b, k); }
      IncreasingIsUnique(a[1..], b[1..]);
      assert a == [a[0]] + a[1..] && b == [b[0]] + b[1..];
    }
  }

  lemma TailMembers(a: seq<string>, k: string)
    requires a != [] && Increasing(a)
    ensures k in a[1..] <==> k in a && k != a[0]
  {
    assert a == [a[0]] + a[1..];
    if k in a[1..] { var i :| 0 <= i < |a[1..]| && a[1..][i] == k; assert a[i + 1] == k; }
  }

  /* ---- Rendering ---- */

  function Pairs(keys: seq<string>, m: map<string, string>): seq<string>
    requires forall k :: k in keys ==> k in m
  {
    if keys == [] then [] else Pairs(keys[..|keys| - 1], m) + [keys[|keys| - 1], m[keys[|keys| - 1]]]
  }

  // The flags each engine always gets.
  function EngineFlags(engine: string, name: string, slug: string, port: string, prefixCaching: bool): seq<string> {
    var modelPath := "/models/" + slug;
    if engine == "vllm" then
      ["--model", modelPath, "--served-model-name", name, "--host", "0.0.0.0", "--port", port]
      + if prefixCaching then ["--enable-prefix-caching"] else []
    else if engine == "tei" then ["--model-id", modelPath, "--hostname", "0.0.0.0", "--port", port]
    else if engine == "llamacpp" then ["--model", modelPath, "--host", "0.0.0.0", "--port", port]
    else []
  }

  ghost predicate SortedKeys(keys: seq<string>, m: map<string, string>) {
    Increasing(keys) && forall k :: k in keys <==> k in m
  }

  // A set of keys as an increasing list; there is only one.
  ghost function Listed(keys: set<string>): seq<string>
    decreases keys
  {
    if keys == {} then [] else var k :| k in keys; Insert(k, Listed(keys - {k}))
  }

  lemma {:induction false} ListedMeans(keys: set<string>)
    ensures Increasing(Listed(keys)) && forall k :: k in Listed(keys) <==> k in keys
    decreases keys
  {
    if keys != {} {
      var k :| k in keys && Listed(keys) == Insert(k, Listed(keys - {k}));
      ListedMeans(keys - {k});
      InsertIncreasing(k, Listed(keys - {k}));
      forall x ensures x in Listed(keys) <==> x in keys {
        assert x in Listed(keys) <==> x in multiset(Listed(keys));
        assert x in multiset(Listed(keys - {k})) <==> x in Listed(keys - {k});
      }
    }
  }

  ghost function SortedKeysOf(m: map<string, string>): seq<string> { Listed(m.Keys) }

  lemma SortedKeysOfMeans(m: map<string, string>)
    ensures SortedKeys(SortedKeysOf(m), m)
  {
    ListedMeans(m.Keys);
  }

  // The container's arguments: the engine's own, then the user's.
  ghost function Rendered(engine: string, name: string, slug: string, port: string, prefixCaching: bool,
                          engineArgs: map<string, string>): seq<string>
  {
    SortedKeysOfMeans(engineArgs);
    EngineFlags(engine, name, slug, port, prefixCaching) + Pairs(SortedKeysOf(engineArgs), engineArgs)
  }

  /** buildEngineArgs. The range over the map visits the keys in any order; the result is a function of the inputs all
      the same. */
  method BuildEngineArgs(engine: string, name: string, slug: string, port: string, prefixCaching: bool,
                         engineArgs: map<string, string>) returns (args: seq<string>)
    ensures args == Rendered(engine, name, slug, port, prefixCaching, engineArgs)
  {
    SortedKeysOfMeans(engineArgs);
    args := EngineFlags(engine, name, slug, port, prefixCaching);
    var flags := args;
    if |engineArgs| > 0 {
      var keys := CollectKeys(engineArgs);
      for i := 0 to |keys|
        invariant args == flags + Pairs(keys[..i], engineArgs)
      {
        args := AppendPair(args, keys, i, engineArgs, flags);
      }
      assert keys[..|keys|] == keys;
      IncreasingIsUnique(keys, SortedKeysOf(engineArgs));
    } else {
      assert engineArgs == map[];
      IncreasingIsUnique([], SortedKeysOf(engineArgs));
    }
  }

  method AppendPair(args: seq<string>, keys: seq<string>, i: nat, m: map<string, string>, ghost flags: seq<string>)
    returns (more: seq<string>)
    requires i < |keys| && (forall k :: k in keys ==> k in m) && args == flags + Pairs(keys[..i], m)
    ensures more == flags + Pairs(keys[..i + 1], m)
  {
    assert keys[..i + 1][..i] == keys[..i];
    more := args + [keys[i], m[keys[i]]];
  }

  // Gather the keys in whatever order the map yields them, and sort them.
  method CollectKeys(m: map<string, string>) returns (keys: seq<string>)
    ensures SortedKeys(keys, m)
  {
    keys := [];
    var left := m.Keys;
    while left != {}
      invariant left <= m.Keys && Distinct(keys)
      invariant forall k :: k in keys <==> k in m && k !in left
      decreases left
    {
      var k :| k in left;
      keys, left := keys + [k], left - {k};
    }
    SortIncreasing(keys);
    forall k ensures k in Sort(keys) <==> k in m { SortedMembers(keys, k); }
    keys := Sort(keys);
  }

  /** The sorted keys of a map are unique, so nothing rendered from them depends on the order it is visited in. */
  lemma RenderingIgnoresMapOrder(m: map<string, string>, a: seq<string>, b: seq<string>)
    requires SortedKeys(a, m) && SortedKeys(b, m)
    ensures a == b && Pairs(a, m) == Pairs(b, m)
  {
    IncreasingIsUnique(a, b);
  }

  function ReadPairs(args: seq<string>): map<string, string>
    decreases |args|
  {
    if |args| < 2 then map[] else ReadPairs(args[..|args| - 2])[args[|args| - 2] := args[|args| - 1]]
  }

  lemma {:induction false} ReadsThePrefix(keys: seq<string>, m: map<string, string>)
    requires forall k :: k in keys ==> k in m
    ensures ReadPairs(Pairs(keys, m)) == map k | k in keys :: m[k]
    ensures |Pairs(keys, m)| == 2 * |keys|
  {
    if keys != [] {
      var n := |keys| - 1;
      ReadsThePrefix(keys[..n], m);
      assert Pairs(keys, m)[..2 * n] == Pairs(keys[..n], m);
      assert keys == keys[..n] + [keys[n]];
    }
  }

  /** Read back in pairs, the user part is the map it came from. */
  lemma ReadBack(keys: seq<string>, m: map<string, string>)
    requires SortedKeys(keys, m)
    ensures ReadPairs(Pairs(keys, m)) == m && |Pairs(keys, m)| == 2 * |keys|
  {
    ReadsThePrefix(keys, m);
  }

  /* ---- Parsing KEY=VALUE ---- */

  // strings.Cut around the first '='.
  function CutKey(a: string): string { if a == "" || a[0] == '=' then "" else [a[0]] + CutKey(a[1..]) }
  function CutValue(a: string): string { if a == "" then "" else if a[0] == '=' then a[1..] else CutValue(a[1..]) }

  method ParseEngineArgs(args: seq<string>) returns (m: map<string, string>)
    ensures m == Parsed(args)
  {
    m := map[];
    for i := 0 to |args|
      invariant m == Parsed(args[..i])
    {
      assert args[..i + 1][..i] == args[..i];
      m := m[CutKey(args[i]) := CutValue(args[i])];
    }
    assert args[..|args|] == args;
  }

  function Parsed(args: seq<string>): map<string, string> {
    if args == [] then map[]
    else var last := args[|args| - 1]; Parsed(args[..|args| - 1])[CutKey(last) := CutValue(last)]
  }

  /** The last occurrence of a key wins. */
  lemma {:induction false} LastWins(args: seq<string>, i: nat)
    requires i < |args| && forall j :: i < j < |args| ==> CutKey(args[j]) != CutKey(args[i])
    ensures CutKey(args[i]) in Parsed(args) && Parsed(args)[CutKey(args[i])] == CutValue(args[i])
  {
    var n := |args| - 1;
    if i < n { LastWins(args[..n], i); }
  }

  /** And no key appears that was not given. */
  lemma {:induction false} OnlyGivenKeys(args: seq<string>, k: string)
    requires k in Parsed(args)
    ensures exists i :: 0 <= i < |args| && CutKey(args[i]) == k
  {
    var n := |args| - 1;
    if CutKey(args[n]) != k {
      OnlyGivenKeys(args[..n], k);
      var i :| 0 <= i < n && CutKey(args[..n][i]) == k;
      assert CutKey(args[i]) == k;
    }
  }

  lemma {:induction false} CutJoined(k: string, v: string)
    requires '=' !in k
    ensures CutKey(k + "=" + v) == k && CutValue(k + "=" + v) == v
  {
    var s := k + "=" + v;
    if k == "" {
      assert s[1..] == v;
    } else {
      assert s[1..] == k[1..] + "=" + v;
      CutJoined(k[1..], v);
      assert k == [k[0]] + k[1..];
    }
  }

  /** An argument without '=' is a key with an empty value, and only such an argument is its own key. */
  lemma {:induction false} CutBare(a: string)
    ensures '=' !in a <==> CutKey(a) == a
    ensures '=' !in a ==> CutValue(a) == ""
  {
    CutKeysHaveNoEquals(a);
    if a != "" {
      CutBare(a[1..]);
      assert a == [a[0]] + a[1..];
    }
  }

  lemma {:induction false} CutKeysHaveNoEquals(a: string)
    ensures '=' !in CutKey(a)
  {
    if a != "" { CutKeysHaveNoEquals(a[1..]); }
  }

  function Assignments(keys: seq<string>, m: map<string, string>): seq<string>
    requires forall k :: k in keys ==> k in m
  {
    seq(|keys|, i requires 0 <= i < |keys| => keys[i] + "=" + m[keys[i]])
  }

  lemma {:induction false} ParsesThePrefix(keys: seq<string>, m: map<string, string>)
    requires forall k :: k in keys ==> k in m && '=' !in k
    ensures Parsed(Assignments(keys, m)) == map k | k in keys :: m[k]
  {
    if keys != [] {
      var n := |keys| - 1;
      ParsesThePrefix(keys[..n], m);
      assert Assignments(keys, m)[..n] == Assignments(keys[..n], m);
      CutJoined(keys[n], m[keys[n]]);
      assert keys == keys[..n] + [keys[n]];
    }
  }

  /** Giving a map as KEY=VALUE strings and parsing them returns the map exactly when no key contains '='. */
  lemma ParseInvertsAssignments(keys: seq<string>, m: map<string, string>)
    requires SortedKeys(keys, m)
    ensures Parsed(Assignments(keys, m)) == m <==> forall k :: k in m ==> '=' !in k
  {
    if forall k :: k in m ==> '=' !in k {
      ParsesThePrefix(keys, m);
    } else {
      var k :| k in m && '=' in k;
      var args := Assignments(keys, m);
      forall i | 0 <= i < |args| ensures CutKey(args[i]) != k { CutKeysHaveNoEquals(args[i]); }
      if k in Parsed(args) { OnlyGivenKeys(args, k); }
    }
  }
}
