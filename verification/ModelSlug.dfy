/** modelSlug and how far it can be undone. */
module ModelSlug {
  // strings.ReplaceAll(source, "/", "--")
  function Slug(s: string): string {
    if s == "" then "" else (if s[0] == '/' then "--" else [s[0]]) + Slug(s[1..])
  }

  // Left to right, each "--" back to "/".
  function Unslug(t: string): string {
    if t == "" then ""
    else if |t| >= 2 && t[0] == '-' && t[1] == '-' then "/" + Unslug(t[2..])
    else [t[0]] + Unslug(t[1..])
  }

  // No dash is immediately followed by a dash or a slash.
  predicate Clean(s: string) { forall i :: 0 <= i < |s| - 1 && s[i] == '-' ==> s[i + 1] != '-' && s[i + 1] != '/' }

  lemma CleanTail(s: string)
    requires s != ""
    ensures Clean(s) <==> Clean(s[1..]) && (|s| > 1 && s[0] == '-' ==> s[1] != '-' && s[1] != '/')
  {
    var t := s[1..];
    if Clean(t) && (|s| > 1 && s[0] == '-' ==> s[1] != '-' && s[1] != '/') {
      forall i | 0 <= i < |s| - 1 && s[i] == '-' ensures s[i + 1] != '-' && s[i + 1] != '/' {
        if i > 0 { assert t[i - 1] == s[i] && t[i] == s[i + 1]; }
      }
    }
    if Clean(s) {
      forall i | 0 <= i < |t| - 1 && t[i] == '-' ensures t[i + 1] != '-' && t[i + 1] != '/' {
        assert s[i + 1] == t[i] && s[i + 2] == t[i + 1];
      }
    }
  }

  /** The slug can be undone exactly for the sources in which no dash is followed by a dash or a slash. */
  lemma {:induction false} SlugRoundTrip(s: string)
    ensures Unslug(Slug(s)) == s <==> Clean(s)
  {
    if s != "" {
      var rest := s[1..];
      SlugRoundTrip(rest);
      CleanTail(s);
      assert s == [s[0]] + rest;
      if s[0] == '/' {
        assert Slug(s)[2..] == Slug(rest);
        assert Unslug(Slug(s)) == "/" + Unslug(Slug(rest));
        assert ("/" + Unslug(Slug(rest)))[1..] == Unslug(Slug(rest));
      } else {
        assert Slug(s)[1..] == Slug(rest);
        if s[0] == '-' && rest != "" && (rest[0] == '-' || rest[0] == '/') {
          assert Slug(rest)[0] == '-' && Unslug(Slug(s))[0] == '/';
        } else {
          if rest != "" { assert Slug(rest)[0] == if rest[0] == '/' then '-' else rest[0]; }
          assert Unslug(Slug(s)) == [s[0]] + Unslug(Slug(rest));
          assert ([s[0]] + Unslug(Slug(rest)))[1..] == Unslug(Slug(rest));
        }
      }
    }
  }

  /** So two such sources never share a slug. */
  lemma SlugIsInjective(s: string, t: string)
    requires Clean(s) && Clean(t) && Slug(s) == Slug(t)
    ensures s == t
  {
    SlugRoundTrip(s);
    SlugRoundTrip(t);
  }

  /** Outside they can: an organisation's model always collides with the flat name that has a double dash instead. */
  lemma SlugsCollide(org: string, model: string)
    ensures Slug(org + "/" + model) == Slug(org + "--" + model) && org + "/" + model != org + "--" + model
  {
    SlugAppend(org + "/", model);
    SlugAppend(org, "/");
    SlugAppend(org + "--", model);
    SlugAppend(org, "--");
    assert "/"[1..] == "" && "--"[1..] == "-" && "-"[1..] == "";
    assert Slug("-") == "-" + "" && Slug("--") == "-" + Slug("-");
  }

  lemma {:induction false} SlugAppend(s: string, t: string)
    ensures Slug(s + t) == Slug(s) + Slug(t)
  {
    if s == "" {
      assert s + t == t;
    } else {
      assert (s + t)[1..] == s[1..] + t;
      SlugAppend(s[1..], t);
    }
  }
}
