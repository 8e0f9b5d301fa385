/**
 The dotted versions of `wrapper_updater.py`: parsing and comparing.
 */
module Versions {
  import opened Prelude
  import opened Numerals

  /** `s.split(".")`. */
  function Split(s: string): (parts: seq<string>)
    ensures parts != []
  {
    if s == "" then [""]
    else
      var rest := Split(s[1..]);
      if s[0] == '.' then [""] + rest else [[s[0]] + rest[0]] + rest[1..]
  }

  function ParseParts(parts: seq<string>): Option<seq<int>> {
    if parts == [] then Some([])
    else
      var head := PyInt(parts[0], 10);
      var tail := ParseParts(parts[1..]);
      if head.Some? && tail.Some? then Some([head.value] + tail.value) else None
  }

  /** `_parse_version`; None is an absent version. */
  function ParseVersion(v: Option<string>): seq<int> {
    if v.None? || v.value == "" then [0]
    else
      var parsed := ParseParts(Split(v.value));
      if parsed.Some? then parsed.value else [0]
  }

  /** Python's `<=` on tuples. */
  predicate LexLe(a: seq<int>, b: seq<int>) {
    if a == [] then true
    else if b == [] then false
    else if a[0] != b[0] then a[0] < b[0]
    else LexLe(a[1..], b[1..])
  }

  predicate VersionLe(v: string, w: string) {
    LexLe(ParseVersion(Some(v)), ParseVersion(Some(w)))
  }

  // ---- Round trip ----

  function Join(xs: seq<nat>): string
    requires xs != []
  {
    if |xs| == 1 then Print(xs[0], 10) else Print(xs[0], 10) + "." + Join(xs[1..])
  }

  lemma {:induction false} SplitWord(s: string, rest: string)
    requires forall i :: 0 <= i < |s| ==> s[i] != '.'
    ensures Split(s) == [s]
    ensures Split(s + "." + rest) == [s] + Split(rest)
  {
    if s == "" {
      assert s + "." + rest == "." + rest;
      assert ("." + rest)[1..] == rest;
    } else {
      SplitWord(s[1..], rest);
      assert (s + "." + rest)[1..] == s[1..] + "." + rest;
      assert [s[0]] + s[1..] == s;
    }
  }

  lemma ParseOne(p: string, n: int)
    requires PyInt(p, 10) == Some(n)
    ensures ParseParts([p]) == Some([n])
  {
    var parts := [p];
    assert parts[1..] == [];
    var none: seq<int> := [];
    assert ParseParts(parts[1..]) == Some(none);
    assert [n] + none == [n];
  }

  lemma {:induction false} PartsRoundTrip(xs: seq<nat>)
    requires xs != []
    ensures ParseParts(Split(Join(xs))) == Some(xs) && Join(xs) != ""
  {
    var p := Print(xs[0], 10);
    PrintIsPlain(xs[0], 10);
    forall i | 0 <= i < |p| ensures p[i] != '.' {
      assert !IsMark(p[i]);
    }
    DecimalRoundTrip(xs[0]);
    if |xs| == 1 {
      SplitWord(p, "");
      ParseOne(p, xs[0]);
      assert xs == [xs[0]];
    } else {
      PartsRoundTrip(xs[1..]);
      SplitWord(p, Join(xs[1..]));
      var parts := [p] + Split(Join(xs[1..]));
      assert parts[1..] == Split(Join(xs[1..]));
      assert [xs[0]] + xs[1..] == xs;
    }
  }

  /** A non-empty list of naturals, joined with dots, parses back to itself. */
  lemma VersionRoundTrip(xs: seq<nat>)
    requires xs != []
    ensures ParseVersion(Some(Join(xs))) == xs
  {
    PartsRoundTrip(xs);
  }

  // ---- The order ----

  lemma {:induction false} LexReflexive(a: seq<int>)
    ensures LexLe(a, a)
  {
    if a != [] {
      LexReflexive(a[1..]);
    }
  }

  lemma {:induction false} LexTotal(a: seq<int>, b: seq<int>)
    ensures LexLe(a, b) || LexLe(b, a)
    ensures LexLe(a, b) && LexLe(b, a) ==> a == b
  {
    if a != [] && b != [] {
      LexTotal(a[1..], b[1..]);
      assert a == [a[0]] + a[1..] && b == [b[0]] + b[1..];
    }
  }

  lemma {:induction false} LexTransitive(a: seq<int>, b: seq<int>, c: seq<int>)
    requires LexLe(a, b) && LexLe(b, c)
    ensures LexLe(a, c)
  {
    if a != [] && b != [] && c != [] && a[0] == b[0] == c[0] {
      LexTransitive(a[1..], b[1..], c[1..]);
    }
  }

  /** A proper prefix sorts first. */
  lemma {:induction false} LexPrefix(a: seq<int>, more: seq<int>)
    requires more != []
    ensures LexLe(a, a + more) && !LexLe(a + more, a)
  {
    if a == [] {
      assert a + more == more;
    } else {
      assert (a + more)[1..] == a[1..] + more;
      LexPrefix(a[1..], more);
    }
  }

  /** The comparison of the updater is a total preorder on all texts, and a text
      that does not parse ranks with "0". */
  lemma VersionsAreTotallyPreordered(u: string, v: string, w: string)
    ensures VersionLe(u, u)
    ensures VersionLe(u, v) || VersionLe(v, u)
    ensures VersionLe(u, v) && VersionLe(v, w) ==> VersionLe(u, w)
    ensures VersionLe(u, v) && VersionLe(v, u) ==> ParseVersion(Some(u)) == ParseVersion(Some(v))
    ensures u == "" || ParseParts(Split(u)).None? ==> VersionLe(u, "0") && VersionLe("0", u)
  {
    var a, b, c := ParseVersion(Some(u)), ParseVersion(Some(v)), ParseVersion(Some(w));
    LexReflexive(a);
    LexTotal(a, b);
    if LexLe(a, b) && LexLe(b, c) {
      LexTransitive(a, b, c);
    }
    VersionRoundTrip([0]);
    assert Join([0]) == "0";
  }

  /** a comes before b where they first differ, or is a prefix of it. */
  ghost predicate Before(a: seq<int>, b: seq<int>) {
    || a <= b
    || exists i :: 0 <= i < |a| && i < |b| && a[..i] == b[..i] && a[i] < b[i]
  }

  /** The comparison is the lexicographic one. */
  lemma {:induction false} LexExactly(a: seq<int>, b: seq<int>)
    ensures LexLe(a, b) <==> Before(a, b)
  {
    if a != [] && b != [] {
      LexExactly(a[1..], b[1..]);
      if a[0] == b[0] {
        SameHead(a, b);
      } else {
        assert a[..0] == b[..0];
        if Before(a, b) && !(a <= b) {
          var i :| 0 <= i < |a| && i < |b| && a[..i] == b[..i] && a[i] < b[i];
          assert i > 0 ==> a[..i][0] == b[..i][0];
        }
      }
    }
  }

  lemma SameHead(a: seq<int>, b: seq<int>)
    requires a != [] && b != [] && a[0] == b[0]
    ensures Before(a, b) <==> Before(a[1..], b[1..])
  {
    assert a == [a[0]] + a[1..] && b == [b[0]] + b[1..];
    if Before(a, b) && !(a <= b) {
      var i :| 0 <= i < |a| && i < |b| && a[..i] == b[..i] && a[i] < b[i];
      assert i > 0;
      assert a[1..][..i - 1] == a[..i][1..] && b[1..][..i - 1] == b[..i][1..];
    }
    if Before(a[1..], b[1..]) && !(a[1..] <= b[1..]) {
      var i :| 0 <= i < |a[1..]| && i < |b[1..]| && a[1..][..i] == b[1..][..i] && a[1..][i] < b[1..][i];
      assert a[..i + 1] == [a[0]] + a[1..][..i] && b[..i + 1] == [b[0]] + b[1..][..i];
      assert a[i + 1] < b[i + 1];
    }
  }

  /** The components of a version, if every one of them reads as an integer; a single 0
      otherwise, and for no text. */
  lemma ParsesExactly(v: string)
    ensures var parts, xs := Split(v), ParseVersion(Some(v));
            if v != "" && forall i :: 0 <= i < |parts| ==> PyInt(parts[i], 10).Some? then
              |xs| == |parts| && forall i :: 0 <= i < |xs| ==> PyInt(parts[i], 10) == Some(xs[i])
            else xs == [0]
  {
    PartsParse(Split(v));
  }

  lemma {:induction false} PartsParse(parts: seq<string>)
    ensures ParseParts(parts).Some? <==> forall i :: 0 <= i < |parts| ==> PyInt(parts[i], 10).Some?
    ensures ParseParts(parts).Some? ==>
              var xs := ParseParts(parts).value;
              |xs| == |parts| && forall i :: 0 <= i < |xs| ==> PyInt(parts[i], 10) == Some(xs[i])
  {
    hide PyInt;
    if parts != [] {
      PartsParse(parts[1..]);
      assert forall i :: 0 < i < |parts| ==> parts[i] == parts[1..][i - 1];
      if ParseParts(parts[1..]).None? {
        var i :| 0 <= i < |parts[1..]| && PyInt(parts[1..][i], 10).None?;
        assert parts[i + 1] == parts[1..][i];
      }
    }
  }
}
