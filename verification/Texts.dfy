/**
 Texts, occurrences and replacing the first one.
 */
module Texts {
  import opened Prelude

  predicate OccursAt(t: string, p: string, i: nat) {
    i + |p| <= |t| && t[i..i + |p|] == p
  }

  predicate Occurs(t: string, p: string) {
    exists i :: 0 <= i <= |t| && OccursAt(t, p, i)
  }

  lemma Fits(t: string, p: string, i: nat)
    requires OccursAt(t, p, i)
    ensures i + |p| <= |t|
  {
  }

  lemma Shifts(t: string, p: string, i: nat)
    requires 0 < i <= |t|
    ensures OccursAt(t, p, i) <==> OccursAt(t[1..], p, i - 1)
  {
    if i + |p| <= |t| {
      assert t[1..][i - 1..i - 1 + |p|] == t[i..i + |p|];
    }
  }

  lemma AllShift(t: string, p: string)
    requires t != ""
    ensures forall i: int :: 0 < i <= |t| ==> (OccursAt(t, p, i) <==> OccursAt(t[1..], p, i - 1))
  {
    hide OccursAt;
    forall i: int | 0 < i <= |t| ensures OccursAt(t, p, i) <==> OccursAt(t[1..], p, i - 1) {
      Shifts(t, p, i);
    }
  }

  /** The place of the first occurrence. */
  function Find(t: string, p: string): (r: Option<nat>)
    ensures r.Some? ==> OccursAt(t, p, r.value) && forall j :: 0 <= j < r.value ==> !OccursAt(t, p, j)
    ensures r.None? ==> !Occurs(t, p)
  {
    if OccursAt(t, p, 0) then Some(0)
    else if t == "" then None
    else
      var rest := Find(t[1..], p);
      AllShift(t, p);
      if rest.Some? then
        assert OccursAt(t, p, rest.value + 1);
        Some(rest.value + 1)
      else None
  }

  /** `t.replace(p, sub, 1)`. */
  function ReplaceFirst(t: string, p: string, sub: string): string {
    match Find(t, p)
    case None => t
    case Some(i) => t[..i] + sub + t[i + |p|..]
  }

  lemma FindIs(t: string, p: string, i: nat)
    requires OccursAt(t, p, i) && forall j :: 0 <= j < i ==> !OccursAt(t, p, j)
    ensures Find(t, p) == Some(i)
  {
  }

  /** An occurrence, character by character. */
  lemma Chars(t: string, p: string, i: nat, k: nat)
    requires OccursAt(t, p, i) && k < |p|
    ensures t[i + k] == p[k]
  {
    assert t[i..i + |p|][k] == p[k];
  }

  lemma FromChars(t: string, p: string, i: nat)
    requires i + |p| <= |t| && forall k :: 0 <= k < |p| ==> t[i + k] == p[k]
    ensures OccursAt(t, p, i)
  {
    assert t[i..i + |p|] == p;
  }

  // ---- Occurrences in parts of a text ----

  lemma OccursInPrefix(t: string, p: string, n: nat, i: nat)
    requires OccursAt(t, p, i) && i + |p| <= n <= |t|
    ensures OccursAt(t[..n], p, i)
  {
    assert t[..n][i..i + |p|] == t[i..i + |p|];
  }

  lemma OccursInSuffix(t: string, p: string, n: nat, i: nat)
    requires OccursAt(t, p, i) && n <= i
    ensures OccursAt(t[n..], p, i - n)
  {
    assert t[n..][i - n..i - n + |p|] == t[i..i + |p|];
  }

  lemma OccursLeft(a: string, b: string, p: string, i: nat)
    requires OccursAt(a, p, i)
    ensures OccursAt(a + b, p, i)
  {
    assert (a + b)[i..i + |p|] == a[i..i + |p|];
  }

  lemma OccursRight(a: string, b: string, p: string, i: nat)
    requires OccursAt(b, p, i)
    ensures OccursAt(a + b, p, |a| + i)
  {
    assert (a + b)[|a| + i..|a| + i + |p|] == b[i..i + |p|];
  }

  function Concat(ps: seq<string>): string {
    if ps == [] then "" else ps[0] + Concat(ps[1..])
  }
}
