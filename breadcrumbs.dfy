/**
 * The header's breadcrumb trail: the URL path is cut into segments
 * (client/src/components/Header.tsx) and the segments are turned into crumb labels
 * (client/src/components/NavbarBreadcrumbs.tsx).
 */
module Breadcrumbs {
  import opened Wrappers
  import opened Seqs
  import opened Text

  // ---------------------------------------------------------------------------------------------
  // JavaScript string and array primitives used by the two components.

  /** `s.substring(start, end)` for `start <= end`; both bounds are clamped to the length. */
  function Substring(s: string, start: nat, end: nat): string
    requires start <= end
  {
    if start >= |s| then "" else if end >= |s| then s[start..] else s[start..end]
  }

  /** `s.split(sep)`: the pieces between the separators; `"".split(sep)` is `[""]`. */
  function Split(s: string, sep: char): (r: seq<string>)
    ensures |r| >= 1
    ensures forall i :: 0 <= i < |r| ==> sep !in r[i]
  {
    if s == [] then [""]
    else
      var rest := Split(s[1..], sep);
      if s[0] == sep then [""] + rest else [[s[0]] + rest[0]] + rest[1..]
  }

  /** `pieces.join(sep)`, the inverse of `Split`. */
  function Join(pieces: seq<string>, sep: char): string
    requires |pieces| >= 1
  {
    if |pieces| == 1 then pieces[0] else pieces[0] + [sep] + Join(pieces[1..], sep)
  }

  /** `a.slice(0, -1)`: all elements but the last. */
  function AllButLast<T>(a: seq<T>): seq<T> {
    if |a| == 0 then [] else a[..|a| - 1]
  }

  /** `a.slice(-1)`: the last element alone, or nothing. */
  function LastOnly<T>(a: seq<T>): seq<T> {
    if |a| == 0 then [] else a[|a| - 1..]
  }

  predicate NonEmpty(s: string) {
    |s| > 0
  }

  predicate NotSlash(c: char) {
    c != '/'
  }

  lemma {:induction false} SplitJoin(s: string, sep: char)
    ensures Join(Split(s, sep), sep) == s
  {
    if s != [] {
      var rest := Split(s[1..], sep);
      SplitJoin(s[1..], sep);
      if s[0] == sep {
        assert Split(s, sep)[1..] == rest;
      } else {
        var r := Split(s, sep);
        assert r[0] == [s[0]] + rest[0] && r[1..] == rest[1..];
        if |rest| > 1 {
          assert Join(r, sep) == [s[0]] + rest[0] + [sep] + Join(rest[1..], sep);
        }
      }
    }
  }

  lemma {:induction false} ConcatSplit(s: string)
    ensures Concat(Split(s, '/')) == Filter(s, NotSlash)
  {
    if s != [] {
      var rest := Split(s[1..], '/');
      ConcatSplit(s[1..]);
      assert Concat(rest) == rest[0] + Concat(rest[1..]);
      var r := Split(s, '/');
      if s[0] == '/' {
        assert r[0] == "" && r[1..] == rest;
      } else {
        assert r[0] == [s[0]] + rest[0] && r[1..] == rest[1..];
      }
    }
  }

  lemma {:induction false} ConcatDropsEmpty(pieces: seq<string>)
    ensures Concat(Filter(pieces, NonEmpty)) == Concat(pieces)
  {
    if pieces != [] {
      ConcatDropsEmpty(pieces[1..]);
      assert Concat(pieces) == pieces[0] + Concat(pieces[1..]);
      if NonEmpty(pieces[0]) {
        assert Filter(pieces, NonEmpty) == [pieces[0]] + Filter(pieces[1..], NonEmpty);
        assert Filter(pieces, NonEmpty)[1..] == Filter(pieces[1..], NonEmpty);
      } else {
        assert pieces[0] + Concat(pieces[1..]) == Concat(pieces[1..]);
        assert Filter(pieces, NonEmpty) == Filter(pieces[1..], NonEmpty);
      }
    }
  }

  // ---------------------------------------------------------------------------------------------
  // Header.tsx: location.pathname.substring(1).split('/').filter(s => s.length > 0)

  function PathSegments(pathname: string): (segments: seq<string>)
    ensures forall i :: 0 <= i < |segments| ==> segments[i] != "" && '/' !in segments[i]
  {
    Filter(Split(Substring(pathname, 1, |pathname| + 1), '/'), NonEmpty)
  }

  /**
   * The segments, in order, spell the path after its first character with the slashes taken out;
   * the segments are the non-empty pieces between slashes.
   */
  lemma PathSegmentsSpellPath(pathname: string)
    ensures Concat(PathSegments(pathname)) == Filter(Substring(pathname, 1, |pathname| + 1), NotSlash)
    ensures IsSubsequence(PathSegments(pathname), Split(Substring(pathname, 1, |pathname| + 1), '/'))
  {
    var tail := Substring(pathname, 1, |pathname| + 1);
    ConcatDropsEmpty(Split(tail, '/'));
    ConcatSplit(tail);
    FilterIsSubsequence(Split(tail, '/'), NonEmpty);
  }

  lemma RootPathHasNoSegments()
    ensures PathSegments("/") == []
    ensures PathSegments("") == []
  {
    assert Split("", '/') == [""];
  }

  /** A string without the separator splits into itself alone. */
  lemma {:induction false} SplitWithoutSeparator(s: string, sep: char)
    requires sep !in s
    ensures Split(s, sep) == [s]
  {
    if s != [] {
      SplitWithoutSeparator(s[1..], sep);
      assert [s[0]] + s[1..] == s;
    }
  }

  lemma FilesPathSegments()
    ensures PathSegments("/files") == ["files"]
  {
    assert Substring("/files", 1, 7) == "files";
    SplitWithoutSeparator("files", '/');
    assert Filter(["files"], NonEmpty) == ["files"] + Filter([], NonEmpty);
  }

  // ---------------------------------------------------------------------------------------------
  // NavbarBreadcrumbs.tsx

  const RootCrumb := "WorkChat"
  const HomeCrumb := "Home"

  /** `s.substring(0, 1).toUpperCase() + s.substring(1).toLowerCase()` */
  function Capitalized(s: string): (r: string)
    ensures |r| == |s|
    ensures |s| > 0 ==> r[0] == UpperChar(s[0])
    ensures forall i :: 1 <= i < |s| ==> r[i] == LowerChar(s[i])
  {
    Upper(Substring(s, 0, 1)) + Lower(Substring(s, 1, |s| + 1))
  }

  lemma CapitalizedIdempotent(s: string)
    ensures Capitalized(Capitalized(s)) == Capitalized(s)
  {
    var c := Capitalized(s);
    if |s| > 0 {
      assert UpperChar(UpperChar(s[0])) == UpperChar(s[0]);
      forall i | 1 <= i < |s| ensures Capitalized(c)[i] == c[i] {
        assert LowerChar(LowerChar(s[i])) == LowerChar(s[i]);
      }
    }
  }

  /**
   * The crumbs: "WorkChat", then every value but the last, then the last value capitalised, or
   * "Home" when there is no value.
   */
  function Crumbs(values: Option<seq<string>>): (crumbs: seq<string>)
    ensures var vs := values.GetOr([]);
      && |crumbs| == 2 + (if |vs| > 1 then |vs| - 1 else 0)
      && crumbs[0] == RootCrumb
      && crumbs[1..|crumbs| - 1] == (if |vs| > 1 then vs[..|vs| - 1] else [])
      && crumbs[|crumbs| - 1] == (if |vs| == 0 then HomeCrumb else Capitalized(vs[|vs| - 1]))
  {
    var vs := values.GetOr([]);
    // `(values ?? []).slice(0, -1).length > 0 && values?.slice(0, -1).map(...)` renders nothing when false
    var middle := if |AllButLast(vs)| > 0 then AllButLast(values.value) else [];
    var last := LastOnly(vs);
    [RootCrumb] + middle + [if |last| > 0 then Capitalized(last[0]) else HomeCrumb]
  }

  /** The header's trail for a path: the middle crumbs are plain segments. */
  lemma HeaderCrumbs(pathname: string)
    ensures var crumbs := Crumbs(Some(PathSegments(pathname)));
      forall i :: 1 <= i < |crumbs| - 1 ==> crumbs[i] != "" && '/' !in crumbs[i]
  {
    var segments := PathSegments(pathname);
    var crumbs := Crumbs(Some(segments));
    forall i | 1 <= i < |crumbs| - 1 ensures crumbs[i] != "" && '/' !in crumbs[i] {
      assert crumbs[1..|crumbs| - 1][i - 1] == crumbs[i];
    }
  }

  lemma RootPathCrumbs()
    ensures Crumbs(Some(PathSegments("/"))) == [RootCrumb, HomeCrumb]
  {
    RootPathHasNoSegments();
  }

  lemma FilesPathCrumbs()
    ensures Crumbs(Some(PathSegments("/files"))) == [RootCrumb, "Files"]
  {
    FilesPathSegments();
    var c := Capitalized("files");
    assert |c| == 5 && c[0] == 'F';
    assert c == "Files";
  }
}
