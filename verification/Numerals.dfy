/**
 Python's integer text: printing in base 10 and 16, zero padding, and `int(s, base)`
 on ASCII text with surrounding blanks, a sign, single underscores between digits
 and, in base 16, a `0x` prefix.
 */
module Numerals {
  import opened Prelude

  const DIGITS := "0123456789abcdef"

  predicate IsBase(b: nat) {
    b == 10 || b == 16
  }

  function DigitValue(c: char): Option<nat> {
    if '0' <= c <= '9' then Some((c - '0') as nat)
    else if 'a' <= c <= 'f' then Some((c - 'a') as nat + 10)
    else if 'A' <= c <= 'F' then Some((c - 'A') as nat + 10)
    else None
  }

  function Print(n: nat, b: nat): (s: string)
    requires IsBase(b)
    ensures |s| > 0
  {
    if n < b then [DIGITS[n]] else Print(n / b, b) + [DIGITS[n % b]]
  }

  function PrintInt(n: int): string {
    if n < 0 then "-" + Print(-n, 10) else Print(n, 10)
  }

  function Pad(s: string, width: nat): string
    decreases width - |s|
  {
    if |s| >= width then s else Pad("0" + s, width)
  }

  /** The format specification `016x`: the sign counts towards the width. */
  function Hex16(n: int): string {
    if n < 0 then "-" + Pad(Print(-n, 16), 15) else Pad(Print(n, 16), 16)
  }

  // ---- int(s, base) ----

  predicate IsBlank(c: char) {
    c == ' ' || c == '\t' || c == '\n' || c == '\r' || c == 11 as char || c == 12 as char
  }

  /** Characters `int` gives a meaning of their own, and the dot of versions. */
  predicate IsMark(c: char) {
    c == '+' || c == '-' || c == '_' || c == 'x' || c == 'X' || c == '.'
  }

  function StripLeft(s: string): string {
    if s != "" && IsBlank(s[0]) then StripLeft(s[1..]) else s
  }

  function StripRight(s: string): string {
    if s != "" && IsBlank(s[|s| - 1]) then StripRight(s[..|s| - 1]) else s
  }

  /** One more digit on the right. */
  function Shift(n: nat, b: nat, d: nat): nat {
    n * b + d
  }

  /** Read digits left to right; `last` says that a digit has just been read. */
  function Digits(s: string, b: nat, acc: nat, last: bool): Option<nat> {
    if s == "" then
      if last then Some(acc) else None
    else if s[0] == '_' then
      if last then Digits(s[1..], b, acc, false) else None
    else
      match DigitValue(s[0])
      case Some(d) => if d < b then Digits(s[1..], b, Shift(acc, b, d), true) else None
      case None => None
  }

  function Magnitude(s: string, b: nat): Option<nat> {
    if b == 16 && |s| >= 2 && s[0] == '0' && (s[1] == 'x' || s[1] == 'X') then
      if |s| == 2 then None else Digits(s[2..], b, 0, true)
    else Digits(s, b, 0, false)
  }

  /** None stands for ValueError. */
  function PyInt(s: string, b: nat): Option<int> {
    var t := StripRight(StripLeft(s));
    var sign := if t != "" && t[0] == '-' then -1 else 1;
    var body := if t != "" && (t[0] == '+' || t[0] == '-') then t[1..] else t;
    Signed(Magnitude(body, b), sign)
  }

  function Signed(n: Option<nat>, sign: int): Option<int> {
    match n
    case Some(k) => Some(sign * k)
    case None => None
  }

  // ---- Reading back what was printed ----

  lemma DigitReadsBack(d: nat)
    requires d < 16
    ensures DigitValue(DIGITS[d]) == Some(d)
    ensures !IsBlank(DIGITS[d]) && !IsMark(DIGITS[d])
    ensures d < 10 <==> '0' <= DIGITS[d] <= '9'
  {
    assert DIGITS[0..10] == "0123456789" && DIGITS[10..] == "abcdef";
  }

  /** Digits and nothing else. */
  predicate Plain(s: string, b: nat) {
    forall i :: 0 <= i < |s| ==> !IsMark(s[i]) && !IsBlank(s[i]) && DigitValue(s[i]).Some? && DigitValue(s[i]).value < b
  }

  lemma {:induction false} PrintIsPlain(n: nat, b: nat)
    requires IsBase(b)
    ensures Plain(Print(n, b), b)
  {
    if n < b {
      DigitReadsBack(n);
    } else {
      DigitReadsBack(n % b);
      PrintIsPlain(n / b, b);
      PlainSnoc(Print(n / b, b), DIGITS[n % b], b);
    }
  }

  lemma PlainSnoc(s: string, c: char, b: nat)
    requires Plain(s, b) && Plain([c], b)
    ensures Plain(s + [c], b)
  {
    assert [c][0] == c;
  }

  lemma {:induction false} DigitsSnoc(s: string, c: char, b: nat, acc: nat, last: bool)
    requires Digits(s, b, acc, last).Some? && c != '_' && DigitValue(c).Some? && DigitValue(c).value < b
    ensures Digits(s + [c], b, acc, last) == Some(Shift(Digits(s, b, acc, last).value, b, DigitValue(c).value))
  {
    hide Shift;
    if s == "" {
      assert s + [c] == [c] && [c][1..] == "";
    } else {
      assert (s + [c])[1..] == s[1..] + [c];
      if s[0] == '_' {
        DigitsSnoc(s[1..], c, b, acc, false);
      } else {
        DigitsSnoc(s[1..], c, b, Shift(acc, b, DigitValue(s[0]).value), true);
      }
    }
  }

  lemma {:induction false} DigitsOfPrint(n: nat, b: nat)
    requires IsBase(b)
    ensures Digits(Print(n, b), b, 0, false) == Some(n)
  {
    if n < b {
      DigitReadsBack(n);
      assert [DIGITS[n]][1..] == "";
    } else {
      DigitReadsBack(n % b);
      DigitsOfPrint(n / b, b);
      DigitsSnoc(Print(n / b, b), DIGITS[n % b], b, 0, false);
    }
  }

  lemma {:induction false} PadReads(s: string, b: nat, width: nat)
    requires IsBase(b) && s != "" && Plain(s, b)
    ensures Plain(Pad(s, width), b) && Pad(s, width) != ""
    ensures Digits(Pad(s, width), b, 0, false) == Digits(s, b, 0, false)
    decreases width - |s|
  {
    if |s| < width {
      assert ("0" + s)[1..] == s;
      assert Digits("0" + s, b, 0, false) == Digits(s, b, 0, true);
      PadReads("0" + s, b, width);
    }
  }

  lemma PlainReads(s: string, b: nat)
    requires IsBase(b) && s != "" && Plain(s, b)
    ensures PyInt(s, b) == Signed(Digits(s, b, 0, false), 1)
    ensures PyInt("-" + s, b) == Signed(Digits(s, b, 0, false), -1)
  {
    assert StripLeft(s) == s && StripRight(s) == s;
    var m := "-" + s;
    assert m[1..] == s && m[|m| - 1] == s[|s| - 1];
    assert StripLeft(m) == m && StripRight(m) == m;
  }

  /** Every decimal print of an integer reads back. */
  lemma DecimalRoundTrip(n: int)
    ensures PyInt(PrintInt(n), 10) == Some(n)
  {
    var k := if n < 0 then -n else n;
    PrintIsPlain(k, 10);
    DigitsOfPrint(k, 10);
    PlainReads(Print(k, 10), 10);
  }

  // ---- What int() accepts ----

  /** Digits of the base with single underscores between them; `last` says whether an
      underscore may come first. */
  predicate Accepted(s: string, b: nat, last: bool) {
    && (forall i :: 0 <= i < |s| ==> s[i] == '_' || (DigitValue(s[i]).Some? && DigitValue(s[i]).value < b))
    && (forall i :: 0 <= i < |s| - 1 ==> !(s[i] == '_' && s[i + 1] == '_'))
    && (if s == "" then last else s[|s| - 1] != '_' && (s[0] == '_' ==> last))
  }

  lemma {:induction false} DigitsAccept(s: string, b: nat, acc: nat, last: bool)
    ensures Digits(s, b, acc, last).Some? <==> Accepted(s, b, last)
  {
    hide Shift;
    if s != "" {
      var rest := s[1..];
      var digit := s[0] != '_';
      DigitsAccept(rest, b, if digit && DigitValue(s[0]).Some? then Shift(acc, b, DigitValue(s[0]).value) else acc, digit);
      assert forall i :: 0 <= i < |rest| ==> rest[i] == s[i + 1];
      if Accepted(s, b, last) {
        assert forall i :: 0 <= i < |rest| - 1 ==> !(rest[i] == '_' && rest[i + 1] == '_');
        assert rest != "" ==> rest[|rest| - 1] == s[|s| - 1];
      }
      if Accepted(rest, b, digit) {
        assert forall i :: 0 < i < |s| ==> s[i] == rest[i - 1];
        assert forall i :: 0 < i < |s| - 1 ==> !(s[i] == '_' && s[i + 1] == '_');
      }
    }
  }

  /** Without blanks around it a text is read exactly if it is an optional sign and
      accepted digits, in base 16 with or without a prefix, behind which an underscore
      may come first. */
  lemma ReadsExactly(s: string, b: nat)
    requires IsBase(b) && s != "" && !IsBlank(s[0]) && !IsBlank(s[|s| - 1])
    ensures var body := if s[0] == '+' || s[0] == '-' then s[1..] else s;
            var prefixed := b == 16 && |body| >= 2 && body[0] == '0' && (body[1] == 'x' || body[1] == 'X');
            && (PyInt(s, b).Some? <==>
                  if prefixed then |body| > 2 && Accepted(body[2..], b, true) else Accepted(body, b, false))
            && (PyInt(s, b).Some? ==>
                  if s[0] == '-' then PyInt(s, b).value <= 0 else PyInt(s, b).value >= 0)
  {
    assert StripLeft(s) == s && StripRight(s) == s;
    var body := if s[0] == '+' || s[0] == '-' then s[1..] else s;
    DigitsAccept(body, b, 0, false);
    if |body| >= 2 {
      DigitsAccept(body[2..], b, 0, true);
    }
  }

  /** Blanks around a text do not count. */
  lemma BlanksDoNotCount(s: string, c: char, b: nat)
    requires IsBlank(c)
    ensures PyInt([c] + s, b) == PyInt(s, b) && PyInt(s + [c], b) == PyInt(s, b)
  {
    assert ([c] + s)[1..] == s;
    StripsBlank(s, c);
  }

  lemma {:induction false} StripsBlank(s: string, c: char)
    requires IsBlank(c)
    ensures StripRight(StripLeft(s + [c])) == StripRight(StripLeft(s))
  {
    if s == "" {
      assert s + [c] == [c] && [c][1..] == "";
    } else if IsBlank(s[0]) {
      assert (s + [c])[1..] == s[1..] + [c];
      StripsBlank(s[1..], c);
    } else {
      assert (s + [c])[..|s|] == s;
    }
  }

  function Without(s: string): string {
    if s == "" then "" else (if s[0] == '_' then "" else [s[0]]) + Without(s[1..])
  }

  /** Nor do underscores, where they are accepted. */
  lemma {:induction false} UnderscoresDoNotCount(s: string, b: nat, acc: nat, last: bool)
    requires Digits(s, b, acc, last).Some?
    ensures Digits(Without(s), b, acc, true) == Digits(s, b, acc, last)
  {
    hide Shift;
    if s != "" {
      if s[0] == '_' {
        UnderscoresDoNotCount(s[1..], b, acc, false);
        assert Without(s) == Without(s[1..]);
      } else {
        UnderscoresDoNotCount(s[1..], b, Shift(acc, b, DigitValue(s[0]).value), true);
        assert Without(s)[1..] == Without(s[1..]);
      }
    }
  }

  /** Nor does the case of a letter. */
  lemma CaseDoesNotCount(k: nat)
    requires k < 6
    ensures DigitValue('a' + k as char) == Some(10 + k) == DigitValue('A' + k as char)
  {
  }
}
