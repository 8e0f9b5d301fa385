/**
 Running the patcher again changes nothing, and one run changes exactly what it
 says it changes.
 */
module PatchLaws {
  import opened Prelude
  import opened Texts
  import opened CMakePatch

  // ---- Characters of the texts the patcher works with ----

  /** What both flag lines have in common. */
  ghost predicate FlagLine(l: string) {
    && |l| > 35 && l[0] == 't' && l[|l| - 1] == ')' && l[|l| - 35] != 'i'
    && '\n' !in l
  }

  lemma GuardChars()
    ensures |GUARD_HEAD| == 35 && GUARD_HEAD[0] == 'i' && '\n' !in GUARD_HEAD
    ensures forall k :: 0 <= k < 34 ==> GUARD_HEAD[k] != ')'
    ensures |GUARD_TAIL| == 7 && 't' !in GUARD_TAIL && '\n' !in GUARD_TAIL
  {
  }

  lemma FlagChars()
    ensures FlagLine(IDENTIFIERS_FLAG) && |IDENTIFIERS_FLAG| == 81
    ensures FlagLine(STACK_REUSE_FLAG) && |STACK_REUSE_FLAG| == 64
  {
  }

  /** x is no part of l indented by two. */
  ghost predicate NotWithin(x: string, l: string) {
    forall k :: 0 <= k && k + |x| <= |l| + 2 ==> !OccursAt("  " + l, x, k)
  }

  lemma FlagsApart()
    ensures NotWithin(STACK_REUSE_FLAG, IDENTIFIERS_FLAG) && NotWithin(IDENTIFIERS_FLAG, STACK_REUSE_FLAG)
  {
    FlagChars();
    var x, l := STACK_REUSE_FLAG, IDENTIFIERS_FLAG;
    assert forall k :: 0 < k < 19 ==> l[k] != 't';
    assert x[24] == 's' && l[24] == 'n';
    hide OccursAt, STACK_REUSE_FLAG, IDENTIFIERS_FLAG;
    forall k | 0 <= k && k + |x| <= |l| + 2 ensures !OccursAt("  " + l, x, k) {
      if OccursAt("  " + l, x, k) {
        Chars("  " + l, x, k, 0);
        Chars("  " + l, x, k, 24);
      }
    }
    TooLong(l, x);
  }

  lemma TooLong(x: string, l: string)
    requires |x| > |l| + 2
    ensures NotWithin(x, l)
  {
  }

  // ---- The top-level file ----

  lemma GuardedChars(l: string)
    ensures var g := Guarded(l);
            && |g| == |l| + 46
            && (forall k :: 0 <= k < 35 ==> g[k] == GUARD_HEAD[k])
            && g[35] == '\n'
            && (forall k :: 36 <= k < 38 + |l| ==> g[k] == ("  " + l)[k - 36])
            && g[38 + |l|] == '\n'
            && (forall k :: 39 + |l| <= k < |g| ==> g[k] == GUARD_TAIL[k - 39 - |l|])
  {
    GuardChars();
  }

  /** x and y at p and q of t agree on the character at m, if both cover it. */
  lemma Meet(t: string, x: string, p: nat, y: string, q: nat, m: nat)
    requires OccursAt(t, x, p) && OccursAt(t, y, q)
    requires p <= m < p + |x| && q <= m < q + |y|
    ensures x[m - p] == y[m - q]
  {
    Chars(t, x, p, m - p);
    Chars(t, y, q, m - q);
  }

  /** A flag line does not contain the newlines of a guard. */
  lemma NewlinesOutside(t: string, l: string, x: string, i: nat, p: nat, m: nat)
    requires FlagLine(x) && OccursAt(t, Guarded(l), i) && OccursAt(t, x, p)
    requires m == i + 35 || m == i + 38 + |l|
    ensures m < p || p + |x| <= m
  {
    GuardedChars(l);
    if p <= m < p + |x| {
      hide OccursAt;
      Meet(t, x, p, Guarded(l), i, m);
    }
  }

  /** A flag line and a guarded flag line share no character of a text. */
  lemma GuardsStayWhole(t: string, l: string, x: string, i: nat, p: nat)
    requires FlagLine(x) && NotWithin(x, l)
    requires OccursAt(t, Guarded(l), i) && OccursAt(t, x, p)
    ensures p + |x| <= i || i + |Guarded(l)| <= p
  {
    var g := Guarded(l);
    var n1, n2 := i + 35, i + 38 + |l|;
    GuardChars();
    GuardedChars(l);
    NewlinesOutside(t, l, x, i, p, n1);
    NewlinesOutside(t, l, x, i, p, n2);
    hide OccursAt, Guarded, NotWithin;
    if i < p + |x| <= n1 {
      HeadEndsNoFlag(t, l, x, i, p);
    } else if n1 < p && p + |x| <= n2 {
      FlagFitsInside(t, l, x, i, p);
    } else if n2 < p < i + |g| {
      Meet(t, x, p, g, i, p);
    }
  }

  lemma HeadEndsNoFlag(t: string, l: string, x: string, i: nat, p: nat)
    requires FlagLine(x) && OccursAt(t, Guarded(l), i) && OccursAt(t, x, p)
    ensures p + |x| <= i || i + 35 < p + |x|
  {
    GuardChars();
    GuardedChars(l);
    hide OccursAt, Guarded;
    if i < p + |x| <= i + 35 {
      Meet(t, x, p, Guarded(l), i, p + |x| - 1);
      if p + |x| == i + 35 {
        Meet(t, x, p, Guarded(l), i, i);
      }
    }
  }

  lemma FlagFitsInside(t: string, l: string, x: string, i: nat, p: nat)
    requires OccursAt(t, Guarded(l), i) && OccursAt(t, x, p) && i + 36 <= p && p + |x| <= i + 38 + |l|
    ensures !NotWithin(x, l)
  {
    GuardedChars(l);
    var k, g := p - i - 36, Guarded(l);
    forall m | 0 <= m < |x| ensures ("  " + l)[k + m] == x[m] {
      hide OccursAt, Guarded, NotWithin;
      Meet(t, x, p, g, i, p + m);
      assert g[36 + k + m] == ("  " + l)[k + m];
    }
    FromChars("  " + l, x, k);
  }

  /** Guarding one line brings no other line into being. */
  lemma GuardingCreatesNothing(pre: string, l: string, post: string, x: string, i: nat)
    requires FlagLine(x) && NotWithin(x, l)
    requires OccursAt(pre + Guarded(l) + post, x, i)
    ensures || OccursAt(pre + l + post, x, i)
            || (i + |l| >= |Guarded(l)| && OccursAt(pre + l + post, x, i + |l| - |Guarded(l)|))
  {
    var g := Guarded(l);
    GuardOccurs(pre, g, post);
    GuardsStayWhole(pre + g + post, l, x, |pre|, i);
    Fits(pre + g + post, x, i);
    hide OccursAt, Guarded, FlagLine, NotWithin;
    if i + |x| <= |pre| {
      SwapAfter(pre, g, l, post, x, i);
    } else {
      SwapBefore(pre, g, l, post, x, i);
    }
  }

  lemma GuardOccurs(pre: string, g: string, post: string)
    ensures OccursAt(pre + g + post, g, |pre|)
  {
  }

  lemma SwapAfter(pre: string, g: string, l: string, post: string, x: string, i: nat)
    requires OccursAt(pre + g + post, x, i) && i + |x| <= |pre|
    ensures OccursAt(pre + l + post, x, i)
  {
    OccursInPrefix(pre + g + post, x, |pre|, i);
    assert (pre + g + post)[..|pre|] == pre;
    hide OccursAt;
    OccursLeft(pre, l, x, i);
    OccursLeft(pre + l, post, x, i);
  }

  lemma SwapBefore(pre: string, g: string, l: string, post: string, x: string, i: nat)
    requires OccursAt(pre + g + post, x, i) && |pre| + |g| <= i
    ensures OccursAt(pre + l + post, x, i + |l| - |g|)
  {
    OccursInSuffix(pre + g + post, x, |pre + g|, i);
    assert (pre + g + post)[|pre + g|..] == post;
    hide OccursAt;
    OccursRight(pre + l, post, x, i - |pre + g|);
  }

  /** After its round a flag is either absent or guarded somewhere. */
  ghost predicate Settled(t: string, l: string) {
    !Occurs(t, l) || Occurs(t, Guarded(l))
  }

  lemma RoundSettles(t: string, l: string)
    ensures Settled(Guard(t, l), l)
  {
    if Occurs(t, l) && !Occurs(t, Guarded(l)) {
      var i := Find(t, l).value;
      assert OccursAt(Guard(t, l), Guarded(l), i);
    }
  }

  /** Guarding line l leaves a guarded line x whole. */
  lemma RoundKeepsGuard(t: string, l: string, x: string, p: nat, i: nat)
    requires FlagLine(l) && NotWithin(l, x) && OccursAt(t, l, p) && OccursAt(t, Guarded(x), i)
    ensures Occurs(t[..p] + Guarded(l) + t[p + |l|..], Guarded(x))
  {
    var r := t[..p] + Guarded(l) + t[p + |l|..];
    GuardsStayWhole(t, x, l, i, p);
    var j := if i < p then i else i + |Guarded(l)| - |l|;
    assert r[j..j + |Guarded(x)|] == t[i..i + |Guarded(x)|];
    assert OccursAt(r, Guarded(x), j);
  }

  /** The round of line l leaves line x settled. */
  lemma RoundKeepsSettled(t: string, l: string, x: string)
    requires FlagLine(l) && FlagLine(x) && NotWithin(x, l) && NotWithin(l, x) && Settled(t, x)
    ensures Settled(Guard(t, l), x)
  {
    hide Guarded, FlagLine, NotWithin;
    var r := Guard(t, l);
    if r != t {
      var p := Find(t, l).value;
      if Occurs(t, Guarded(x)) {
        var i :| 0 <= i <= |t| && OccursAt(t, Guarded(x), i);
        RoundKeepsGuard(t, l, x, p, i);
      } else if Occurs(r, x) {
        var i :| 0 <= i <= |r| && OccursAt(r, x, i);
        assert t == t[..p] + l + t[p + |l|..];
        GuardingCreatesNothing(t[..p], l, t[p + |l|..], x, i);
      }
    }
  }

  lemma GuardAllIs(t: string)
    ensures GuardAll(t, GCC_ONLY_FLAG_LINES) == Guard(Guard(t, IDENTIFIERS_FLAG), STACK_REUSE_FLAG)
  {
    var ls := GCC_ONLY_FLAG_LINES;
    assert |ls| == 2 && ls[..1][..0] == [] && ls[..1] == [IDENTIFIERS_FLAG];
    assert GuardAll(t, ls[..1]) == Guard(GuardAll(t, ls[..1][..0]), IDENTIFIERS_FLAG);
  }

  /** The guard as it stands in the file. */
  function GuardText(l: string): string {
    "if(NOT BTX_ENABLE_HIP_EXPERIMENTAL)\n  " + l + "\nendif()"
  }

  /** The first occurrence of l is put in a guard and nothing else changes; or there is
      no l, or a guarded one already, and nothing changes at all. */
  ghost predicate OneGuard(t: string, r: string, l: string) {
    if !Occurs(t, l) || Occurs(t, GuardText(l)) then r == t
    else
      exists i: nat ::
        && OccursAt(t, l, i) && (forall j :: 0 <= j < i ==> !OccursAt(t, l, j))
        && r == t[..i] + GuardText(l) + t[i + |l|..]
  }

  lemma RoundIsOneGuard(t: string, l: string)
    ensures OneGuard(t, Guard(t, l), l)
  {
    GuardTextIs(l);
    if Occurs(t, l) && !Occurs(t, GuardText(l)) {
      var i := Find(t, l).value;
      Fits(t, l, i);
      hide OccursAt;
      assert Guard(t, l) == t[..i] + GuardText(l) + t[i + |l|..];
    }
  }

  lemma GuardTextIs(l: string)
    ensures Guarded(l) == GuardText(l)
  {
    assert "if(NOT BTX_ENABLE_HIP_EXPERIMENTAL)\n  " == GUARD_HEAD + "\n  ";
    assert "\nendif()" == "\n" + GUARD_TAIL;
  }

  /** The top-level patch guards the one flag and then the other, each at its first
      occurrence, and changes nothing else. */
  lemma TopPatchIsTwoGuards(t: string)
    ensures exists m ::
              OneGuard(t, m, IDENTIFIERS_FLAG) && OneGuard(m, GuardAll(t, GCC_ONLY_FLAG_LINES), STACK_REUSE_FLAG)
  {
    hide OneGuard, Guard;
    GuardAllIs(t);
    RoundIsOneGuard(t, IDENTIFIERS_FLAG);
    RoundIsOneGuard(Guard(t, IDENTIFIERS_FLAG), STACK_REUSE_FLAG);
  }

  /** The top-level patch is idempotent on every text. */
  lemma TopPatchIsIdempotent(t: string)
    ensures var r := GuardAll(t, GCC_ONLY_FLAG_LINES); GuardAll(r, GCC_ONLY_FLAG_LINES) == r
  {
    var a, b := IDENTIFIERS_FLAG, STACK_REUSE_FLAG;
    var r := GuardAll(t, GCC_ONLY_FLAG_LINES);
    GuardAllIs(t);
    GuardAllIs(r);
    FlagChars();
    FlagsApart();
    RoundSettles(t, a);
    RoundKeepsSettled(Guard(t, a), b, a);
    RoundSettles(Guard(t, a), b);
  }

  // ---- The file under src ----

  /** What the source patch does is decided by the marker first, the anchor next and
      the stub last. */
  lemma SrcPatchOutcomes(w: Wiring, t: string)
    ensures PatchSrc(w, t) == AlreadyThere <==> Occurs(t, w.mark)
    ensures PatchSrc(w, t) == NoAnchor <==> !Occurs(t, w.mark) && !Occurs(t, w.anchor)
    ensures PatchSrc(w, t) == NoStub <==> !Occurs(t, w.mark) && Occurs(t, w.anchor) && !Occurs(t, w.stub)
    ensures PatchSrc(w, t).Patched? <==> !Occurs(t, w.mark) && Occurs(t, w.anchor) && Occurs(t, w.stub)
  {
    hide Occurs;
  }

  /** The characters c and d never stand next to each other in s. */
  ghost predicate Apart(s: string, c: char, d: char) {
    forall k :: 0 <= k && k + 1 < |s| && s[k] == c ==> s[k + 1] != d
  }

  /** No piece holds the pair, and no piece ends with the first of it. */
  ghost predicate PiecesApart(ps: seq<string>, c: char, d: char) {
    forall i :: 0 <= i < |ps| ==> PieceApart(ps[i], c, d)
  }

  ghost predicate PieceApart(p: string, c: char, d: char) {
    p != "" && Apart(p, c, d) && p[|p| - 1] != c
  }

  lemma JoinApart(s: string, t: string, c: char, d: char)
    requires PieceApart(s, c, d) && PieceApart(t, c, d)
    ensures PieceApart(s + t, c, d)
  {
  }

  lemma {:induction false} ConcatApart(ps: seq<string>, c: char, d: char)
    requires PiecesApart(ps, c, d) && ps != []
    ensures PieceApart(Concat(ps), c, d)
  {
    hide PieceApart;
    assert Concat(ps) == ps[0] + Concat(ps[1..]);
    if |ps| == 1 {
      assert Concat(ps[1..]) == "" && ps[0] + "" == ps[0];
    } else {
      ConcatApart(ps[1..], c, d);
      JoinApart(ps[0], Concat(ps[1..]), c, d);
    }
  }

  lemma {:induction false} ConcatAvoids(ps: seq<string>, c: char)
    requires forall i :: 0 <= i < |ps| ==> c !in ps[i]
    ensures c !in Concat(ps)
  {
    if ps != [] {
      ConcatAvoids(ps[1..], c);
    }
  }

  lemma TitleAvoids()
    ensures 'V' !in Concat(OPTION_TITLE)
  {
    hide Concat;
    ConcatAvoids(OPTION_TITLE, 'V');
  }

  lemma SwitchAvoids()
    ensures 'V' !in Concat(OPTION_SWITCH)
  {
    hide Concat;
    ConcatAvoids(OPTION_SWITCH, 'V');
  }

  lemma HelpAvoids()
    ensures 'V' !in Concat(OPTION_HELP)
  {
    hide Concat;
    ConcatAvoids(OPTION_HELP, 'V');
  }

  lemma CacheAvoids()
    ensures 'V' !in Concat(OPTION_CACHE)
  {
    hide Concat;
    ConcatAvoids(OPTION_CACHE, 'V');
  }

  lemma BothAvoids()
    ensures 'V' !in Concat(OPTION_BOTH)
  {
    hide Concat;
    ConcatAvoids(OPTION_BOTH, 'V');
  }

  lemma ExclusiveAvoids()
    ensures 'V' !in Concat(OPTION_EXCLUSIVE)
  {
    hide Concat;
    ConcatAvoids(OPTION_EXCLUSIVE, 'V');
  }

  lemma WantedAvoids()
    ensures 'V' !in Concat(OPTION_WANTED)
  {
    hide Concat;
    ConcatAvoids(OPTION_WANTED, 'V');
  }

  lemma ArchitecturesAvoids()
    ensures 'V' !in Concat(OPTION_ARCHITECTURES)
  {
    hide Concat;
    ConcatAvoids(OPTION_ARCHITECTURES, 'V');
  }

  lemma PlatformAvoids()
    ensures 'V' !in Concat(OPTION_PLATFORM)
  {
    hide Concat;
    ConcatAvoids(OPTION_PLATFORM, 'V');
  }

  lemma CheckAvoids()
    ensures 'V' !in Concat(OPTION_CHECK)
  {
    hide Concat;
    ConcatAvoids(OPTION_CHECK, 'V');
  }

  lemma CompilerAvoids()
    ensures 'V' !in Concat(OPTION_COMPILER)
  {
    hide Concat;
    ConcatAvoids(OPTION_COMPILER, 'V');
  }

  lemma EnableAvoids()
    ensures 'V' !in Concat(OPTION_ENABLE)
  {
    hide Concat;
    ConcatAvoids(OPTION_ENABLE, 'V');
  }

  lemma EndAvoids()
    ensures 'V' !in Concat(OPTION_END)
  {
    hide Concat;
    ConcatAvoids(OPTION_END, 'V');
  }

  lemma OptionsAvoid()
    ensures 'V' !in HIP_OPTION_BLOCK
  {
    hide Concat, OPTION_TITLE, OPTION_SWITCH, OPTION_HELP, OPTION_CACHE, OPTION_BOTH, OPTION_EXCLUSIVE, OPTION_WANTED;
    hide OPTION_ARCHITECTURES, OPTION_PLATFORM, OPTION_CHECK, OPTION_COMPILER, OPTION_ENABLE, OPTION_END;
    TitleAvoids();
    SwitchAvoids();
    HelpAvoids();
    CacheAvoids();
    BothAvoids();
    ExclusiveAvoids();
    WantedAvoids();
    ArchitecturesAvoids();
    PlatformAvoids();
    CheckAvoids();
    CompilerAvoids();
    EnableAvoids();
    EndAvoids();
  }

  lemma StubApart()
    ensures PieceApart(CUDA_STUB_BLOCK, 'a', 'd')
  {
    hide Concat;
    assert PieceApart(STUB_PIECES[0], 'a', 'd');
    assert PieceApart(STUB_PIECES[1], 'a', 'd');
    assert PieceApart(STUB_PIECES[2], 'a', 'd');
    assert PieceApart(STUB_PIECES[3], 'a', 'd');
    assert PieceApart(STUB_PIECES[4], 'a', 'd');
    assert PieceApart(STUB_PIECES[5], 'a', 'd');
    assert PieceApart(STUB_PIECES[6], 'a', 'd');
    hide PieceApart;
    ConcatApart(STUB_PIECES, 'a', 'd');
  }

  lemma StubNewlines()
    ensures Apart(CUDA_STUB_BLOCK, '\n', '\n')
  {
    assert Starts(STUB_PIECES[0], '\n') && Starts(STUB_PIECES[1], '\n') && Starts(STUB_PIECES[2], '\n');
    assert Starts(STUB_PIECES[3], '\n') && Starts(STUB_PIECES[4], '\n');
    assert Starts(STUB_PIECES[5], '\n') && Starts(STUB_PIECES[6], '\n');
    hide Starts, Apart, Concat;
    ConcatStarts(STUB_PIECES, '\n');
  }

  /** c stands neither at the start of p nor twice in a row. */
  ghost predicate Starts(p: string, c: char) {
    p != "" && p[0] != c && Apart(p, c, c)
  }

  lemma JoinStarts(s: string, t: string, c: char)
    requires Starts(s, c) && Starts(t, c)
    ensures Starts(s + t, c)
  {
  }

  lemma {:induction false} ConcatStarts(ps: seq<string>, c: char)
    requires ps != [] && forall i :: 0 <= i < |ps| ==> Starts(ps[i], c)
    ensures Starts(Concat(ps), c) && Apart(Concat(ps), c, c)
  {
    assert Concat(ps) == ps[0] + Concat(ps[1..]);
    if |ps| == 1 {
      assert Concat(ps[1..]) == "" && ps[0] + "" == ps[0];
    } else {
      hide Apart, Concat;
      ConcatStarts(ps[1..], c);
      JoinStarts(ps[0], Concat(ps[1..]), c);
      StartsApart(ps[0] + Concat(ps[1..]), c);
    }
  }

  lemma StartsApart(p: string, c: char)
    requires Starts(p, c)
    ensures Apart(p, c, c)
  {
  }

  lemma StubAvoids()
    ensures '#' !in CUDA_STUB_BLOCK
  {
    ConcatAvoids(STUB_PIECES, '#');
  }

  lemma StubEnds()
    ensures |CUDA_STUB_BLOCK| > 2 && CUDA_STUB_BLOCK[0] == 'e' && CUDA_STUB_BLOCK[1] == 'l'
    ensures CUDA_STUB_BLOCK[|CUDA_STUB_BLOCK| - 1] == ')'
  {
    var ps := STUB_PIECES;
    ConcatSplit(ps, |ps| - 1);
    assert ps[|ps| - 1] == "endif()" && ps[0] == "else()\n";
    assert ps[|ps| - 1..] == ["endif()"];
    assert Concat(["endif()"]) == "endif()";
    assert Concat(ps) == ps[0] + Concat(ps[1..]);
  }

  lemma {:induction false} ConcatSplit(ps: seq<string>, k: nat)
    requires k <= |ps|
    ensures Concat(ps) == Concat(ps[..k]) + Concat(ps[k..])
  {
    if k > 0 {
      ConcatSplit(ps[1..], k - 1);
      assert ps[1..][..k - 1] == ps[..k][1..] && ps[1..][k - 1..] == ps[k..];
    }
  }

  lemma AnchorChars()
    ensures PieceApart(ADD_LIB_ANCHOR, 'e', 'l') && |ADD_LIB_ANCHOR| > 2
    ensures ADD_LIB_ANCHOR[0] == 'a' && ADD_LIB_ANCHOR[1] == 'd'
  {
  }

  lemma TitleStarts()
    ensures var h := Concat(OPTION_TITLE); |h| > 2 && h[0] == '\n' && h[1] == '#'
  {
    hide PieceApart;
    var h := OPTION_TITLE;
    assert h[0] == "\n" && |h[1]| > 2 && h[1][0] == '#';
    var rest := h[1..];
    assert rest[0] == h[1];
    assert Concat(rest) == rest[0] + Concat(rest[1..]);
    assert Concat(h) == h[0] + Concat(rest);
  }

  lemma StartOfSeven(a: string, b: string, c: string, d: string, e: string, f: string, g: string)
    requires |a| > 2
    ensures var s := a + b + c + d + e + f + g; |s| > 2 && s[0] == a[0] && s[1] == a[1]
  {
  }

  lemma EndEnds()
    ensures var l := Concat(OPTION_END); |l| > 2 && l[|l| - 1] == '\n'
  {
    var ps := OPTION_END;
    ConcatSplit(ps, |ps| - 1);
    assert ps[|ps| - 1..] == ["--\n"];
    assert Concat(["--\n"]) == "--\n";
  }

  lemma EndOfTwo(a: string, f: string)
    requires |f| > 2 && f[|f| - 1] == '\n'
    ensures |a + f| > 2 && (a + f)[|a + f| - 1] == '\n'
  {
  }

  lemma TopStarts()
    ensures |OPTION_TOP| > 2 && OPTION_TOP[0] == '\n' && OPTION_TOP[1] == '#'
  {
    hide Concat, OPTION_TITLE, OPTION_SWITCH, OPTION_HELP, OPTION_CACHE, OPTION_BOTH, OPTION_EXCLUSIVE, OPTION_WANTED;
    TitleStarts();
    StartOfSeven(Concat(OPTION_TITLE), Concat(OPTION_SWITCH), Concat(OPTION_HELP), Concat(OPTION_CACHE),
               Concat(OPTION_BOTH), Concat(OPTION_EXCLUSIVE), Concat(OPTION_WANTED));
  }

  lemma BottomEnds()
    ensures |OPTION_BOTTOM| > 2 && OPTION_BOTTOM[|OPTION_BOTTOM| - 1] == '\n'
  {
    hide Concat, OPTION_ARCHITECTURES, OPTION_PLATFORM, OPTION_CHECK, OPTION_COMPILER, OPTION_ENABLE, OPTION_END;
    EndEnds();
    EndOfTwo(Concat(OPTION_ARCHITECTURES) + Concat(OPTION_PLATFORM) + Concat(OPTION_CHECK)
             + Concat(OPTION_COMPILER) + Concat(OPTION_ENABLE), Concat(OPTION_END));
  }

  lemma OptionsStartAndEnd()
    ensures var b := HIP_OPTION_BLOCK; |b| > 2 && b[0] == '\n' && b[1] == '#' && b[|b| - 1] == '\n'
  {
    hide OPTION_TOP, OPTION_BOTTOM;
    TopStarts();
    BottomEnds();
  }

  lemma StubHolds()
    ensures 'V' in CUDA_STUB_BLOCK
  {
  }

  /** What the splice relies on, about the anchor n, the stub s and the text o
      inserted before the anchor. */
  ghost predicate Spliceable(n: string, s: string, o: string) {
    && |n| > 2 && n[0] == 'a' && n[1] == 'd' && PieceApart(n, 'e', 'l')
    && |s| > 2 && s[0] == 'e' && s[1] == 'l' && s[|s| - 1] == ')' && PieceApart(s, 'a', 'd') && Apart(s, '\n', '\n')
    && '#' !in s
    && |o| > 3 && o[0] == '\n' && o[1] == '#' && o[|o| - 2] == '\n' && o[|o| - 1] == '\n'
    && exists c :: c in s && c !in o
  }

  /** A wiring whose texts can be spliced, and whose branch carries the marker. */
  ghost predicate Good(w: Wiring) {
    Spliceable(w.anchor, w.stub, w.options) && Occurs(w.branch, w.mark)
  }

  lemma OptionsFit(b: string)
    requires |b| > 2 && b[0] == '\n' && b[1] == '#' && b[|b| - 1] == '\n' && 'V' !in b
    ensures var o := b + "\n";
            |o| > 3 && o[0] == '\n' && o[1] == '#' && o[|o| - 2] == '\n' && o[|o| - 1] == '\n' && 'V' !in o
  {
  }

  /** The script's own wiring is one, whatever its branch goes on with. */
  lemma TheScriptIsGood(rest: string)
    ensures Good(Script(rest))
  {
    AnchorChars();
    StubApart();
    StubNewlines();
    StubAvoids();
    StubEnds();
    StubHolds();
    OptionsStartAndEnd();
    OptionsAvoid();
    hide HIP_OPTION_BLOCK, CUDA_STUB_BLOCK, ADD_LIB_ANCHOR, PieceApart, Apart, MARK;
    OptionsFit(HIP_OPTION_BLOCK);
    HeadIsMarked("elseif(", MARK, ")" + rest);
    assert "elseif(" + MARK + (")" + rest) == "elseif(" + MARK + ")" + rest;
  }

  lemma HeadIsMarked(head: string, mark: string, rest: string)
    ensures Occurs(head + mark + rest, mark)
  {
    var t := head + mark + rest;
    assert t[|head|..|head| + |mark|] == mark;
    assert OccursAt(t, mark, |head|);
  }

  /** Anchor and stub share no character. */
  lemma AnchorAndStubApart(t: string, n: string, s: string, o: string, p: nat, q: nat)
    requires Spliceable(n, s, o) && OccursAt(t, n, p) && OccursAt(t, s, q)
    ensures p + |n| <= q || q + |s| <= p
  {
    Chars(t, n, p, 0);
    Chars(t, n, p, 1);
    Chars(t, s, q, 0);
    Chars(t, s, q, 1);
    if q <= p < q + |s| {
      Chars(t, s, q, p - q);
      if p + 1 < q + |s| {
        Chars(t, s, q, p + 1 - q);
      }
    } else if p < q < p + |n| {
      Chars(t, n, p, q - p);
      if q + 1 < p + |n| {
        Chars(t, n, p, q + 1 - p);
      }
    }
  }

  /** Inserting o before the anchor creates no stub: every stub of the new text
      was one before, on the same side of the anchor. */
  lemma InsertionCreatesNoStub(t: string, n: string, s: string, o: string, p: nat, j: nat, r: string)
    requires Spliceable(n, s, o) && OccursAt(t, n, p) && r == t[..p] + o + t[p..]
    requires OccursAt(r, s, j)
    ensures (j + |s| <= p && OccursAt(t, s, j)) || (j >= p + |o| && OccursAt(t, s, j - |o|))
  {
    if j + |s| <= p {
      assert r[j..j + |s|] == t[j..j + |s|];
    } else if j >= p + |o| {
      assert r[j..j + |s|] == t[j - |o|..j - |o| + |s|];
    } else {
      NoStubAcross(t, n, s, o, p, j, r);
    }
  }

  /** A stub that shares a character with the inserted text. */
  lemma NoStubAcross(t: string, n: string, s: string, o: string, p: nat, j: nat, r: string)
    requires Spliceable(n, s, o) && p <= |t| && r == t[..p] + o + t[p..] && OccursAt(r, s, j)
    ensures j + |s| <= p || p + |o| <= j
  {
    hide PieceApart, Apart;
    var e := p + |o|;
    assert r[p] == o[0] && r[p + 1] == o[1] && r[e - 2] == o[|o| - 2] && r[e - 1] == o[|o| - 1];
    Chars(r, s, j, 0);
    Chars(r, s, j, |s| - 1);
    if j <= p + 1 < j + |s| {
      Chars(r, s, j, p + 1 - j);
    } else if p + 1 < j && j + |s| <= e {
      Inside(r, s, o, p, j);
    } else if p + 1 < j < e - 1 {
      Chars(r, s, j, e - 2 - j);
      Chars(r, s, j, e - 1 - j);
      NeverTwice(s, '\n', '\n', e - 2 - j);
    }
  }

  lemma NeverTwice(s: string, c: char, d: char, k: nat)
    requires Apart(s, c, d) && k + 1 < |s|
    ensures !(s[k] == c && s[k + 1] == d)
  {
  }

  /** A text inside o is made of characters of o. */
  lemma Inside(r: string, s: string, o: string, p: nat, j: nat)
    requires OccursAt(r, s, j) && p + |o| <= |r| && r[p..p + |o|] == o && p <= j && j + |s| <= p + |o|
    ensures forall c :: c in s ==> c in o
  {
    forall k | 0 <= k < |s| ensures s[k] in o {
      Chars(r, s, j, k);
      assert r[p..p + |o|][j + k - p] == r[j + k];
    }
  }

  /** t with o inserted at i and the piece from j to k replaced by b. */
  function Spliced(t: string, o: string, b: string, i: nat, j: nat, k: nat): string
    requires i <= |t| && j <= k <= |t| && (k <= i || i <= j)
  {
    if k <= i then t[..j] + b + t[k..i] + o + t[i..] else t[..i] + o + t[i..j] + b + t[k..]
  }

  /** r is t after exactly two edits, at two separate places of t: o goes in
      front of the first anchor n, and b takes the place of the first stub s. */
  ghost predicate TwoEditsOnly(t: string, r: string, n: string, s: string, o: string, b: string) {
    && Find(t, n).Some? && Find(t, s).Some?
    && var i, j := Find(t, n).value, Find(t, s).value;
    && (i + |n| <= j || j + |s| <= i)
    && r == Spliced(t, o, b, i, j, j + |s|)
  }

  /** That is what a successful source patch does. */
  lemma SrcPatchIsTwoEdits(w: Wiring, t: string)
    requires Good(w) && PatchSrc(w, t).Patched?
    ensures TwoEditsOnly(t, PatchSrc(w, t).txt, w.anchor, w.stub, w.options, w.branch)
  {
    hide Spliceable, ReplaceFirst, TwoEditsOnly;
    FoundSomewhere(t, w.anchor);
    FoundSomewhere(t, w.stub);
    hide Occurs, Find;
    TwoEdits(t, w.anchor, w.stub, w.options, w.branch);
  }

  lemma FoundSomewhere(t: string, p: string)
    ensures Find(t, p).Some? <==> Occurs(t, p)
  {
  }

  lemma TwoEdits(t: string, n: string, s: string, o: string, b: string)
    requires Spliceable(n, s, o) && Find(t, n).Some? && Find(t, s).Some?
    ensures TwoEditsOnly(t, ReplaceFirst(ReplaceFirst(t, n, o + n), s, b), n, s, o, b)
  {
    hide *;
    var i, j := Find(t, n).value, Find(t, s).value;
    var at := if j + |s| <= i then j else j + |o|;
    InsertIsReplace(t, n, o, i);
    var r := ReplaceFirst(t, n, o + n);
    StubMoves(t, n, s, o, i, j, at, r);
    StubStaysFirst(t, n, s, o, i, j, at, r);
    ReplaceAt(r, s, b, at);
    Rearrange(t, s, o, b, i, j, r);
    ThoseEdits(t, ReplaceFirst(r, s, b), n, s, o, b);
  }

  lemma ThoseEdits(t: string, r: string, n: string, s: string, o: string, b: string)
    requires Find(t, n).Some? && Find(t, s).Some?
    requires Find(t, n).value + |n| <= Find(t, s).value || Find(t, s).value + |s| <= Find(t, n).value
    requires r == Spliced(t, o, b, Find(t, n).value, Find(t, s).value, Find(t, s).value + |s|)
    ensures TwoEditsOnly(t, r, n, s, o, b)
  {
  }

  lemma ReplaceAt(t: string, p: string, b: string, i: nat)
    requires Find(t, p) == Some(i)
    ensures i + |p| <= |t| && ReplaceFirst(t, p, b) == t[..i] + b + t[i + |p|..]
  {
  }

  /** Putting o + n in the place of n inserts o before it. */
  lemma InsertIsReplace(t: string, n: string, o: string, i: nat)
    requires Find(t, n) == Some(i)
    ensures OccursAt(t, n, i) && ReplaceFirst(t, n, o + n) == t[..i] + o + t[i..]
  {
    ReplaceAt(t, n, o + n, i);
    hide ReplaceFirst, Find;
    var rest := t[i + |n|..];
    assert t[i..] == n + rest;
    Reassociate(t[..i], o, n, rest);
  }

  lemma Reassociate(a: string, b: string, c: string, d: string)
    ensures a + (b + c) + d == a + b + (c + d)
  {
  }

  lemma InsertAfter(t: string, s: string, o: string, i: nat, j: nat)
    requires OccursAt(t, s, j) && j + |s| <= i <= |t|
    ensures OccursAt(t[..i] + o + t[i..], s, j)
  {
    hide OccursAt;
    OccursInPrefix(t, s, i, j);
    OccursLeft(t[..i], o, s, j);
    OccursLeft(t[..i] + o, t[i..], s, j);
  }

  lemma InsertBefore(t: string, s: string, o: string, i: nat, j: nat)
    requires OccursAt(t, s, j) && i <= j && j + |s| <= |t|
    ensures OccursAt(t[..i] + o + t[i..], s, j + |o|)
  {
    hide OccursAt;
    var a := t[..i] + o;
    assert |a| == i + |o|;
    OccursInSuffix(t, s, i, j);
    OccursRight(a, t[i..], s, j - i);
  }

  lemma StubMoves(t: string, n: string, s: string, o: string, i: nat, j: nat, at: nat, r: string)
    requires Spliceable(n, s, o) && Find(t, n) == Some(i) && Find(t, s) == Some(j) && r == t[..i] + o + t[i..]
    requires at == if j + |s| <= i then j else j + |o|
    ensures i + |n| <= |t| && j + |s| <= |t| && (i + |n| <= j || j + |s| <= i)
    ensures OccursAt(r, s, at)
  {
    AnchorAndStubApart(t, n, s, o, i, j);
    Fits(t, n, i);
    Fits(t, s, j);
    hide *;
    if j + |s| <= i {
      InsertAfter(t, s, o, i, j);
    } else {
      InsertBefore(t, s, o, i, j);
    }
  }

  lemma StubStaysFirst(t: string, n: string, s: string, o: string, i: nat, j: nat, at: nat, r: string)
    requires Spliceable(n, s, o) && Find(t, n) == Some(i) && Find(t, s) == Some(j) && r == t[..i] + o + t[i..]
    requires at == (if j + |s| <= i then j else j + |o|) && (i + |n| <= j || j + |s| <= i)
    requires OccursAt(r, s, at)
    ensures Find(r, s) == Some(at)
  {
    assert |n| > 0;
    forall m | 0 <= m < at ensures !OccursAt(r, s, m) {
      hide Spliceable, Find, OccursAt;
      if OccursAt(r, s, m) {
        InsertionCreatesNoStub(t, n, s, o, i, m, r);
      }
    }
    FindIs(r, s, at);
  }

  lemma CutLeft(a: string, b: string, c: string, j: nat, k: nat)
    requires j <= |a| && k <= |a|
    ensures (a + b + c)[..j] == a[..j] && (a + b + c)[k..] == a[k..] + b + c
  {
  }

  lemma CutRight(a: string, b: string, c: string, j: nat, k: nat)
    requires j <= |c| && k <= |c|
    ensures (a + b + c)[..|a| + |b| + j] == a + b + c[..j] && (a + b + c)[|a| + |b| + k..] == c[k..]
  {
  }

  lemma RearrangeBefore(t: string, o: string, b: string, i: nat, j: nat, k: nat)
    requires j <= k <= i <= |t|
    ensures var r := t[..i] + o + t[i..]; r[..j] + b + r[k..] == t[..j] + b + t[k..i] + o + t[i..]
  {
    CutLeft(t[..i], o, t[i..], j, k);
    assert t[..i][..j] == t[..j] && t[..i][k..] == t[k..i];
    Regroup(t[..j] + b, t[k..i], o, t[i..]);
  }

  lemma RearrangeAfter(t: string, o: string, b: string, i: nat, j: nat, k: nat)
    requires i <= j <= k <= |t|
    ensures var r := t[..i] + o + t[i..]; r[..j + |o|] + b + r[k + |o|..] == t[..i] + o + t[i..j] + b + t[k..]
  {
    CutRight(t[..i], o, t[i..], j - i, k - i);
    assert t[i..][..j - i] == t[i..j] && t[i..][k - i..] == t[k..];
  }

  lemma Rearrange(t: string, s: string, o: string, b: string, i: nat, j: nat, r: string)
    requires i <= |t| && j + |s| <= |t| && (i <= j || j + |s| <= i) && r == t[..i] + o + t[i..]
    ensures var at := if j + |s| <= i then j else j + |o|;
            r[..at] + b + r[at + |s|..] == Spliced(t, o, b, i, j, j + |s|)
  {
    var k := j + |s|;
    if k <= i {
      RearrangeBefore(t, o, b, i, j, k);
    } else {
      RearrangeAfter(t, o, b, i, j, k);
    }
  }

  /** After a successful source patch every later run leaves the file alone. */
  lemma SrcPatchHappensOnce(w: Wiring, t: string)
    requires Good(w) && PatchSrc(w, t).Patched?
    ensures PatchSrc(w, PatchSrc(w, t).txt) == AlreadyThere
  {
    SrcPatchIsTwoEdits(w, t);
    EditsKeepMark(t, PatchSrc(w, t).txt, w.anchor, w.stub, w.options, w.branch, w.mark);
  }

  lemma EditsKeepMark(t: string, r: string, n: string, s: string, o: string, b: string, mark: string)
    requires TwoEditsOnly(t, r, n, s, o, b) && Occurs(b, mark)
    ensures Occurs(r, mark)
  {
    var i, j := Find(t, n).value, Find(t, s).value;
    var k := j + |s|;
    var at :| 0 <= at <= |b| && OccursAt(b, mark, at);
    hide Find, OccursAt, Occurs;
    if k <= i {
      PartOccurs(t[..j], b, t[k..i] + o + t[i..], mark, at);
      Regroup(t[..j] + b, t[k..i], o, t[i..]);
    } else {
      PartOccurs(t[..i] + o + t[i..j], b, t[k..], mark, at);
    }
  }

  /** Both for the script's own texts. */
  lemma TheScriptPatchesOnce(rest: string, t: string)
    requires PatchSrc(Script(rest), t).Patched?
    ensures var w, r := Script(rest), PatchSrc(Script(rest), t).txt;
            TwoEditsOnly(t, r, w.anchor, w.stub, w.options, w.branch) && PatchSrc(w, r) == AlreadyThere
  {
    hide Script, PatchSrc, Good, TwoEditsOnly;
    TheScriptIsGood(rest);
    SrcPatchIsTwoEdits(Script(rest), t);
    SrcPatchHappensOnce(Script(rest), t);
  }

  lemma Regroup(a: string, b: string, c: string, d: string)
    ensures a + b + c + d == a + (b + c + d)
  {
  }

  lemma PartOccurs(pre: string, mid: string, post: string, p: string, i: nat)
    requires OccursAt(mid, p, i)
    ensures Occurs(pre + mid + post, p)
  {
    var t := pre + mid + post;
    var at := |pre| + i;
    assert t[at..at + |p|] == mid[i..i + |p|];
    assert OccursAt(t, p, at);
  }
}
