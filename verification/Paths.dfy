/**
 Relative paths as the walker builds them and as the receiver rewrites them:
 joining names with "/", replacing reserved characters, and looking for "..".
 */
module Paths {

  /** The characters `sanitize_path_component` replaces by an underscore. */
  const RESERVED := "\\<>*|?:\""

  function SanitizeChar(c: char): char {
    if c in RESERVED then '_' else c
  }

  function Sanitize(s: string): (r: string)
    ensures |r| == |s|
    ensures forall i :: 0 <= i < |s| ==> r[i] == SanitizeChar(s[i])
  {
    seq(|s|, i requires 0 <= i < |s| => SanitizeChar(s[i]))
  }

  /** The eight characters some filesystem refuses are gone, and nothing else has changed. */
  lemma SanitizeReplaces(s: string, i: nat)
    requires i < |s|
    ensures var c, r := s[i], Sanitize(s)[i];
      if c == '\\' || c == '<' || c == '>' || c == '*' || c == '|' || c == '?' || c == ':' || c == '\"'
      then r == '_' else r == c
  {
    assert RESERVED == ['\\', '<', '>', '*', '|', '?', ':', '\"'];
  }

  predicate ContainsDotDot(s: string) {
    exists i :: 0 <= i < |s| - 1 && s[i] == '.' && s[i + 1] == '.'
  }

  function RelativePath(base: string, name: string): string {
    if base == "" then name else base + "/" + name
  }

  /** The slash-joined form of a list of names, outermost first. */
  function Join(names: seq<string>): string {
    if names == [] then ""
    else RelativePath(Join(names[..|names| - 1]), names[|names| - 1])
  }

  predicate GoodName(name: string) {
    name != "" && '/' !in name
  }

  predicate GoodNames(names: seq<string>) {
    forall i :: 0 <= i < |names| ==> GoodName(names[i])
  }

  function SanitizeAll(names: seq<string>): (r: seq<string>)
    ensures |r| == |names|
    ensures forall i :: 0 <= i < |names| ==> r[i] == Sanitize(names[i])
  {
    seq(|names|, i requires 0 <= i < |names| => Sanitize(names[i]))
  }

  lemma SanitizeKeepsGoodName(name: string)
    requires GoodName(name)
    ensures GoodName(Sanitize(name))
  {
    var r := Sanitize(name);
    forall i | 0 <= i < |r|
      ensures r[i] != '/'
    {
      assert name[i] in name;
    }
  }

  /** Sanitizing twice changes nothing more, so a delivered name is stable. */
  lemma SanitizeIdempotent(s: string)
    ensures Sanitize(Sanitize(s)) == Sanitize(s)
  {
    assert '_' !in RESERVED;
  }

  lemma SanitizeRelativePath(base: string, name: string)
    ensures Sanitize(RelativePath(base, name)) == RelativePath(Sanitize(base), Sanitize(name))
  {
    assert '/' !in RESERVED;
  }

  lemma {:induction false} SanitizeJoin(names: seq<string>)
    ensures Sanitize(Join(names)) == Join(SanitizeAll(names))
  {
    if names == [] {
    } else {
      var n := |names| - 1;
      SanitizeJoin(names[..n]);
      SanitizeRelativePath(Join(names[..n]), names[n]);
      assert SanitizeAll(names)[..n] == SanitizeAll(names[..n]);
    }
  }

  lemma JoinNonEmpty(names: seq<string>)
    requires GoodNames(names) && names != []
    ensures Join(names) != ""
  {
    assert GoodName(names[|names| - 1]);
  }

  /** How many characters follow the last slash; the whole length when there is none. */
  function TailLength(s: string): nat {
    if s == "" || s[|s| - 1] == '/' then 0 else 1 + TailLength(s[..|s| - 1])
  }

  lemma {:induction false} TailLengthOfName(prefix: string, name: string)
    requires '/' !in name
    requires prefix == "" || prefix[|prefix| - 1] == '/'
    ensures TailLength(prefix + name) == |name|
  {
    if name == "" {
      assert prefix + name == prefix;
    } else {
      var k := |name| - 1;
      assert name[k] in name;
      TailLengthOfName(prefix, name[..k]);
      assert (prefix + name)[..|prefix + name| - 1] == prefix + name[..k];
    }
  }

  lemma TailLengthOfPath(base: string, name: string)
    requires '/' !in name
    ensures TailLength(RelativePath(base, name)) == |name|
  {
    if base == "" {
      TailLengthOfName("", name);
      assert "" + name == name;
    } else {
      TailLengthOfName(base + "/", name);
    }
  }

  /** A path determines its last name and everything before it. */
  lemma RelativePathInjective(base1: string, name1: string, base2: string, name2: string)
    requires '/' !in name1 && '/' !in name2
    requires RelativePath(base1, name1) == RelativePath(base2, name2)
    ensures base1 == base2 && name1 == name2
  {
    TailLengthOfPath(base1, name1);
    TailLengthOfPath(base2, name2);
    var s := RelativePath(base1, name1);
    assert s[|s| - |name1|..] == name1 && s[|s| - |name2|..] == name2;
    assert base1 != "" ==> s[..|base1|] == base1;
    assert base2 != "" ==> s[..|base2|] == base2;
  }

  /** Two lists of good names with the same joined path are the same list. */
  lemma {:induction false} JoinInjective(xs: seq<string>, ys: seq<string>)
    requires GoodNames(xs) && GoodNames(ys)
    requires Join(xs) == Join(ys)
    ensures xs == ys
  {
    if xs == [] || ys == [] {
      if xs != [] { JoinNonEmpty(xs); }
      if ys != [] { JoinNonEmpty(ys); }
    } else {
      var n, m := |xs| - 1, |ys| - 1;
      assert GoodName(xs[n]) && GoodName(ys[m]);
      RelativePathInjective(Join(xs[..n]), xs[n], Join(ys[..m]), ys[m]);
      JoinInjective(xs[..n], ys[..m]);
      assert xs == xs[..n] + [xs[n]] && ys == ys[..m] + [ys[m]];
    }
  }

  lemma DotDotInRelativePath(base: string, name: string)
    ensures ContainsDotDot(RelativePath(base, name)) <==> ContainsDotDot(base) || ContainsDotDot(name)
  {
    var s := RelativePath(base, name);
    if base != "" {
      if ContainsDotDot(base) {
        var i :| 0 <= i < |base| - 1 && base[i] == '.' && base[i + 1] == '.';
        assert s[i] == '.' && s[i + 1] == '.';
      }
      if ContainsDotDot(name) {
        var i :| 0 <= i < |name| - 1 && name[i] == '.' && name[i + 1] == '.';
        var j := i + |base| + 1;
        assert s[j] == '.' && s[j + 1] == '.';
      }
      if ContainsDotDot(s) {
        var i :| 0 <= i < |s| - 1 && s[i] == '.' && s[i + 1] == '.';
        assert s[|base|] == '/';
        if i < |base| {
          assert base[i] == '.' && base[i + 1] == '.';
        } else {
          assert name[i - |base| - 1] == '.' && name[i - |base|] == '.';
        }
      }
    }
  }

  /** A joined path holds ".." exactly when one of its names does, and sanitizing does not change that. */
  lemma {:induction false} DotDotInJoin(names: seq<string>)
    ensures ContainsDotDot(Join(names)) <==> exists i :: 0 <= i < |names| && ContainsDotDot(names[i])
  {
    if names == [] {
    } else {
      var n := |names| - 1;
      DotDotInJoin(names[..n]);
      DotDotInRelativePath(Join(names[..n]), names[n]);
      if ContainsDotDot(Join(names[..n])) {
        var i :| 0 <= i < n && ContainsDotDot(names[..n][i]);
        assert ContainsDotDot(names[i]);
      }
      if i :| 0 <= i < |names| && ContainsDotDot(names[i]) {
        if i < n { assert names[..n][i] == names[i]; }
      }
    }
  }

  lemma DotDotSanitize(s: string)
    ensures ContainsDotDot(Sanitize(s)) <==> ContainsDotDot(s)
  {
    assert '.' !in RESERVED && '_' != '.';
    var r := Sanitize(s);
    forall i | 0 <= i < |s|
      ensures r[i] == '.' <==> s[i] == '.'
    {
    }
    if i :| 0 <= i < |s| - 1 && s[i] == '.' && s[i + 1] == '.' {
      assert r[i] == '.' && r[i + 1] == '.';
    }
    if i :| 0 <= i < |r| - 1 && r[i] == '.' && r[i + 1] == '.' {
      assert s[i] == '.' && s[i + 1] == '.';
    }
  }
}
