/**
  The Python string and path operations the form relies on: `str.startswith`,
  `str.endswith`, the `in` substring test, `str.replace(old, "")`,
  `os.path.join`, `os.path.basename`, and the names a `glob.glob` pattern of
  the form `dir + "/" + "*" + suffix` picks from a directory listing.
 */
module PyStr {

  predicate StartsWith(s: string, prefix: string) {
    |prefix| <= |s| && s[..|prefix|] == prefix
  }

  predicate EndsWith(s: string, suffix: string) {
    |suffix| <= |s| && s[|s| - |suffix|..] == suffix
  }

  /** Python's `sub in s`. */
  predicate Contains(s: string, sub: string)
    decreases |s|
  {
    StartsWith(s, sub) || (|s| > 0 && Contains(s[1..], sub))
  }

  lemma {:induction false} ContainsLeft(a: string, b: string, sub: string)
    requires Contains(a, sub)
    ensures Contains(a + b, sub)
    decreases |a|
  {
    if StartsWith(a, sub) {
      assert (a + b)[..|sub|] == a[..|sub|];
    } else {
      assert (a + b)[1..] == a[1..] + b;
      ContainsLeft(a[1..], b, sub);
    }
  }

  lemma {:induction false} ContainsRight(a: string, b: string, sub: string)
    requires Contains(b, sub)
    ensures Contains(a + b, sub)
    decreases |a|
  {
    if a == [] {
      assert a + b == b;
    } else {
      assert (a + b)[1..] == a[1..] + b;
      ContainsRight(a[1..], b, sub);
    }
  }

  /**
    A pattern free of line breaks occurs in `a + "\n" + b` exactly when it
    occurs in `a` or in `b`: no occurrence can straddle the separator.
   */
  lemma {:induction false} ContainsAcrossNewline(a: string, b: string, sub: string)
    requires '\n' !in sub
    ensures Contains(a + "\n" + b, sub) <==> Contains(a, sub) || Contains(b, sub)
    decreases |a|
  {
    var s := a + "\n" + b;
    if Contains(a, sub) {
      ContainsLeft(a, "\n" + b, sub);
      assert a + ("\n" + b) == s;
    } else if Contains(b, sub) {
      ContainsRight(a + "\n", b, sub);
    } else {
      assert !StartsWith(s, sub) by {
        if |sub| <= |a| {
          assert a[..|sub|] == s[..|sub|];
        } else if |sub| <= |s| {
          assert s[..|sub|][|a|] == '\n';
          assert sub[|a|] in sub;
        }
      }
      if |a| > 0 {
        assert s[1..] == a[1..] + "\n" + b;
        ContainsAcrossNewline(a[1..], b, sub);
        assert !Contains(s[1..], sub);
      } else {
        assert s[1..] == b;
      }
    }
  }

  /** `s.replace(pat, "")`: every non-overlapping occurrence of `pat`, scanned from the left, is removed. */
  function Remove(s: string, pat: string): (r: string)
    requires pat != []
    ensures |r| <= |s|
    decreases |s|
  {
    if |s| < |pat| then s
    else if s[..|pat|] == pat then Remove(s[|pat|..], pat)
    else [s[0]] + Remove(s[1..], pat)
  }

  /** Removal introduces no character that was not already there. */
  lemma {:induction false} RemoveKeepsChars(s: string, pat: string, c: char)
    requires pat != [] && c in Remove(s, pat)
    ensures c in s
    decreases |s|
  {
    if |s| < |pat| {
    } else if s[..|pat|] == pat {
      RemoveKeepsChars(s[|pat|..], pat, c);
      assert c in s[|pat|..];
    } else if c != s[0] {
      RemoveKeepsChars(s[1..], pat, c);
      assert c in s[1..];
    }
  }

  /** A string without an occurrence of the pattern is left as it is. */
  lemma {:induction false} RemoveAbsent(s: string, pat: string)
    requires pat != [] && !Contains(s, pat)
    ensures Remove(s, pat) == s
    decreases |s|
  {
    if |s| >= |pat| {
      assert !StartsWith(s, pat);
      RemoveAbsent(s[1..], pat);
      assert [s[0]] + s[1..] == s;
    }
  }

  /**
    Removing a pattern from `id + pat` gives back `id` when the pattern's first
    character never occurs in `id`: the only occurrence is the appended one.
   */
  lemma {:induction false} RemoveAppended(id: string, pat: string)
    requires pat != [] && pat[0] !in id
    ensures Remove(id + pat, pat) == id
    decreases |id|
  {
    var s := id + pat;
    if id == [] {
      assert s[..|pat|] == pat && s[|pat|..] == [];
    } else {
      assert s[0] == id[0] != pat[0];
      assert s[..|pat|] != pat;
      assert s[1..] == id[1..] + pat;
      RemoveAppended(id[1..], pat);
      assert [id[0]] + id[1..] == id;
    }
  }

  /** `os.path.join(a, b)` on POSIX: an absolute `b` replaces `a`; a '/' is inserted unless `a` is empty or already ends in one. */
  function Join(a: string, b: string): string {
    if StartsWith(b, "/") then b
    else if a == [] || EndsWith(a, "/") then a + b
    else a + "/" + b
  }

  /** `os.path.basename(p)`: what follows the last '/'. */
  function Basename(p: string): string
    decreases |p|
  {
    if p == [] then []
    else if p[|p| - 1] == '/' then []
    else Basename(p[..|p| - 1]) + [p[|p| - 1]]
  }

  /** The base name is a '/'-free tail of the path. */
  lemma {:induction false} BasenameIsLastComponent(p: string)
    ensures '/' !in Basename(p)
    ensures EndsWith(p, Basename(p))
    decreases |p|
  {
    if p != [] && p[|p| - 1] != '/' {
      var init := p[..|p| - 1];
      BasenameIsLastComponent(init);
      var b := Basename(init);
      assert Basename(p) == b + [p[|p| - 1]];
      assert p == init + [p[|p| - 1]];
      assert p[|p| - |Basename(p)|..] == init[|init| - |b|..] + [p[|p| - 1]];
    }
  }

  lemma {:induction false} BasenameOfEntry(dir: string, name: string)
    requires '/' !in name
    ensures Basename(dir + "/" + name) == name
    decreases |name|
  {
    var p := dir + "/" + name;
    if name == [] {
      assert p[|p| - 1] == '/';
    } else {
      var init := name[..|name| - 1];
      assert p[..|p| - 1] == dir + "/" + init;
      assert '/' !in init by {
        forall c | c in init ensures c != '/' { assert c in name; }
      }
      BasenameOfEntry(dir, init);
      assert init + [name[|name| - 1]] == name;
    }
  }

  /** Whether glob's `*<suffix>` matches an entry name: `*` never matches a leading '.'. */
  predicate MatchesStar(name: string, suffix: string) {
    !StartsWith(name, ".") && EndsWith(name, suffix)
  }

  /**
    `glob.glob(dir + "/" + "*" + suffix)` given the directory's entry names in the
    order the directory enumerates them: each matching entry, as `dir/name`.
   */
  function GlobStar(dir: string, names: seq<string>, suffix: string): (r: seq<string>)
    ensures |r| <= |names|
    ensures forall p :: p in r <==> exists n :: n in names && MatchesStar(n, suffix) && p == dir + "/" + n
    ensures forall i :: 0 <= i < |r| ==> EndsWith(r[i], suffix)
    decreases |names|
  {
    if names == [] then []
    else
      var rest := GlobStar(dir, names[1..], suffix);
      var n := names[0];
      if MatchesStar(n, suffix) then
        var p := dir + "/" + n;
        assert p[|p| - |suffix|..] == n[|n| - |suffix|..];
        [p] + rest
      else rest
  }

  /** A matching entry is among the glob's results. */
  lemma GlobStarHas(dir: string, names: seq<string>, suffix: string, n: string)
    requires n in names && MatchesStar(n, suffix)
    ensures dir + "/" + n in GlobStar(dir, names, suffix)
  {
  }

  lemma PrefixOfConcat(a: string, b: string)
    ensures StartsWith(a + b, a)
  {
    assert (a + b)[..|a|] == a;
  }

  lemma ConcatAssoc(a: string, b: string, c: string)
    ensures (a + b) + c == a + (b + c)
  {
  }
}
