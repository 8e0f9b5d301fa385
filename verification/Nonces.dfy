/**
 Nonces as text: what the client submits and what it makes of a solver record.
 */
module Nonces {
  import opened Prelude
  import opened Numerals
  import opened Client

  // ---- The submitted form ----

  /** The submitted form of any integer reads back to it. */
  lemma HexRoundTrip(n: int)
    ensures PyInt(Hex16(n), 16) == Some(n)
  {
    var k := if n < 0 then -n else n;
    var width := if n < 0 then 15 else 16;
    PrintIsPlain(k, 16);
    DigitsOfPrint(k, 16);
    PadReads(Print(k, 16), 16, width);
    PlainReads(Pad(Print(k, 16), width), 16);
  }

  /** Different nonces are submitted as different texts. */
  lemma HexIsInjective(m: int, n: int)
    requires Hex16(m) == Hex16(n)
    ensures m == n
  {
    HexRoundTrip(m);
    HexRoundTrip(n);
  }

  function Pow16(k: nat): nat {
    if k == 0 then 1 else 16 * Pow16(k - 1)
  }

  lemma {:induction false} PrintLength(n: nat, k: nat)
    requires k > 0
    ensures |Print(n, 16)| <= k <==> n < Pow16(k)
  {
    if k == 1 {
      assert Pow16(1) == 16;
    } else if n >= 16 {
      PrintLength(n / 16, k - 1);
    } else {
      Pow16Grows(k);
    }
  }

  lemma {:induction false} Pow16Grows(k: nat)
    requires k > 0
    ensures Pow16(k) >= 16
  {
    if k > 1 {
      Pow16Grows(k - 1);
    }
  }

  lemma {:induction false} PadLength(s: string, width: nat)
    ensures |Pad(s, width)| == if |s| >= width then |s| else width
    decreases width - |s|
  {
    if |s| < width {
      PadLength("0" + s, width);
    }
  }

  /** A nonce is submitted with exactly 16 digits exactly when it fits in 64 bits. */
  lemma SixteenDigitsExactly(n: nat)
    ensures |Hex16(n)| == 16 <==> n < 0x1_0000_0000_0000_0000
  {
    PrintLength(n, 16);
    PadLength(Print(n, 16), 16);
    assert Pow16(4) == 0x1_0000;
    assert Pow16(8) == 0x1_0000 * Pow16(4);
    assert Pow16(12) == 0x1_0000 * Pow16(8);
    assert Pow16(16) == 0x1_0000 * Pow16(12);
  }

  // ---- The decoder ----

  function LstripDash(s: string): string {
    if s != "" && s[0] == '-' then LstripDash(s[1..]) else s
  }

  predicate IsDecimal(s: string) {
    s != "" && forall i :: 0 <= i < |s| ==> '0' <= s[i] <= '9'
  }

  /** A textual nonce: decimal if it looks like it, hexadecimal otherwise. */
  function DecodeNonce(s: string): Option<int> {
    if IsDecimal(LstripDash(s)) then PyInt(s, 10) else PyInt(s, 16)
  }

  /** Every decimal print is decoded to its number. */
  lemma DecodesDecimal(n: int)
    ensures DecodeNonce(PrintInt(n)) == Some(n)
  {
    var k := if n < 0 then -n else n;
    var p := Print(k, 10);
    PrintIsPlain(k, 10);
    forall i | 0 <= i < |p| ensures '0' <= p[i] <= '9' {
      assert !IsMark(p[i]);
    }
    assert ("-" + p)[1..] == p;
    assert LstripDash(p) == p && LstripDash("-" + p) == p;
    DecimalRoundTrip(n);
  }

  predicate HasLetter(s: string) {
    exists i :: 0 <= i < |s| && 'a' <= s[i] <= 'f'
  }

  /** A hexadecimal print without a letter, read as decimal. */
  lemma {:induction false} ReadAsDecimal(n: nat)
    requires !HasLetter(Print(n, 16))
    ensures var v := Digits(Print(n, 16), 10, 0, false); v.Some? && v.value <= n && (v.value == n <==> n <= 9)
  {
    DigitReadsBack(n % 16);
    if n < 16 {
      assert Print(n, 16)[0] == DIGITS[n];
      assert DigitValue(DIGITS[n]) == Some(n);
      assert [DIGITS[n]][1..] == "";
    } else {
      var p := Print(n / 16, 16);
      var c := DIGITS[n % 16];
      assert forall i :: 0 <= i < |p| ==> Print(n, 16)[i] == p[i];
      assert Print(n, 16)[|p|] == c;
      ReadAsDecimal(n / 16);
      DigitsSnoc(p, c, 10, 0, false);
    }
  }

  /** A lower-case hexadecimal print is decoded to its number exactly when it
      contains a letter or the number is at most 9. */
  lemma DecodesHexExactly(n: nat)
    ensures DecodeNonce(Print(n, 16)) == Some(n) <==> HasLetter(Print(n, 16)) || n <= 9
  {
    hide Digits, Print, PyInt, LstripDash, DecodeNonce;
    var p := Print(n, 16);
    PrintIsPlain(n, 16);
    DigitsOfPrint(n, 16);
    PlainReads(p, 16);
    assert !IsMark(p[0]);
    DecodesByDigits(0, p);
    assert seq(0, _ => '-') + p == p;
    forall i | 0 <= i < |p| ensures '0' <= p[i] <= '9' || 'a' <= p[i] <= 'f' {
      OnlyDigitsAndLetters(n, i);
    }
    if !HasLetter(p) {
      ReadAsDecimal(n);
      PlainDecimal(p);
      PlainReads(p, 10);
    }
  }

  lemma PlainDecimal(p: string)
    requires forall i :: 0 <= i < |p| ==> '0' <= p[i] <= '9'
    ensures Plain(p, 10)
  {
  }

  lemma {:induction false} OnlyDigitsAndLetters(n: nat, i: nat)
    requires i < |Print(n, 16)|
    ensures '0' <= Print(n, 16)[i] <= '9' || 'a' <= Print(n, 16)[i] <= 'f'
  {
    DigitReadsBack(n % 16);
    assert DIGITS[10..] == "abcdef";
    if n >= 16 && i < |Print(n / 16, 16)| {
      OnlyDigitsAndLetters(n / 16, i);
    } else if n % 16 >= 10 {
      assert DIGITS[n % 16] == DIGITS[10..][n % 16 - 10];
    }
  }

  // ---- _result_from_record ----

  /** A JSON value where a number is expected. */
  datatype Json = Missing | Num(n: int) | Text(s: string)

  datatype Record = Record(
    found: bool, nonce64End: Json, nonce64: Json, nonce: Json, isBlock: Option<bool>, items: seq<Item>)

  predicate Truthy(j: Json) {
    match j
    case Missing => false
    case Num(n) => n != 0
    case Text(s) => s != ""
  }

  /** Some(None) is "no value", None an exception. */
  function AsInt(j: Json): Option<Option<int>> {
    match j
    case Missing => Some(None)
    case Num(n) => Some(Some(n))
    case Text(s) => if PyInt(s, 10).Some? then Some(PyInt(s, 10)) else None
  }

  function AsNonce(j: Json): Option<Option<int>> {
    match j
    case Text(s) => if DecodeNonce(s).Some? then Some(DecodeNonce(s)) else None
    case _ => AsInt(j)
  }

  function ResultFromRecord(rec: Record): Option<SliceResult> {
    var end := AsInt(if Truthy(rec.nonce64End) then rec.nonce64End else rec.nonce64);
    if end.None? then None
    else if !rec.found then Some(SliceResult(false, [], None, false, end.value))
    else
      var nonce := AsNonce(if rec.nonce64.Missing? then rec.nonce else rec.nonce64);
      if nonce.None? then None
      else
        var isBlock := if rec.isBlock.Some? then rec.isBlock.value else true;
        Some(SliceResult(true, rec.items, nonce.value, isBlock, None))
  }

  /** A found record loses its end position, so its slice is followed by a full
      budget; a record without a find keeps a printed, non-zero end position,
      and one that reports end 0 reports its `nonce64` instead. */
  lemma EndPositionSurvivesOnlyMisses(rec: Record, e: nat)
    requires rec.nonce64End == Num(e) || rec.nonce64End == Text(PrintInt(e))
    ensures var r := ResultFromRecord(rec);
            && (r.Some? && rec.found ==> r.value.found && r.value.nonceEnd.None?)
            && (!rec.found && e != 0 ==> r.Some? && r.value.nonceEnd == Some(e))
            && (!rec.found && rec.nonce64End == Num(0) ==>
                  (r.None? <==> AsInt(rec.nonce64).None?) && (r.Some? ==> Some(r.value.nonceEnd) == AsInt(rec.nonce64)))
  {
    DecimalRoundTrip(e);
    assert PrintInt(e) != "";
  }

  /** The number a field stands for, if it is one: a number itself, a text as it is
      decoded. */
  predicate Means(j: Json, n: int) {
    j == Num(n) || (j.Text? && DecodeNonce(j.s) == Some(n))
  }

  /** A found record, when it can be decoded at all: its nonce is what `nonce64` means,
      or `nonce` without it, and there is none if both are missing; it is a block
      unless it says that it is none; its share list is passed on. */
  lemma FoundRecordExactly(rec: Record)
    requires rec.found && ResultFromRecord(rec).Some?
    ensures var r := ResultFromRecord(rec).value;
            && r.found && r.items == rec.items
            && (r.isBlock <==> rec.isBlock != Some(false))
            && (!rec.nonce64.Missing? ==> r.nonce.Some? && Means(rec.nonce64, r.nonce.value))
            && (rec.nonce64.Missing? && !rec.nonce.Missing? ==> r.nonce.Some? && Means(rec.nonce, r.nonce.value))
            && (rec.nonce64.Missing? && rec.nonce.Missing? ==> r.nonce.None?)
  {
  }

  /** Decoding raises exactly if the end position is a text that is no decimal number,
      or the record is a find whose nonce is a text that is no number. The end
      position is `nonce64_end` if that is there and neither 0 nor empty, and
      `nonce64` otherwise. */
  lemma RaisesExactly(rec: Record)
    ensures var unnamed := rec.nonce64End.Missing? || rec.nonce64End == Num(0) || rec.nonce64End == Text("");
            var end := if unnamed then rec.nonce64 else rec.nonce64End;
            var nonce := if rec.nonce64.Missing? then rec.nonce else rec.nonce64;
            ResultFromRecord(rec).None? <==>
              || (end.Text? && PyInt(end.s, 10).None?)
              || (rec.found && nonce.Text? && DecodeNonce(nonce.s).None?)
  {
  }

  /** A record without a find passes on nothing but its end position. */
  lemma MissedRecordExactly(rec: Record)
    requires !rec.found && ResultFromRecord(rec).Some?
    ensures var r := ResultFromRecord(rec).value;
            && !r.found && r.items == [] && r.nonce.None?
            && (rec.nonce64End.Num? && rec.nonce64End.n != 0 ==> r.nonceEnd == Some(rec.nonce64End.n))
            && (rec.nonce64End.Missing? && rec.nonce64.Num? ==> r.nonceEnd == Some(rec.nonce64.n))
            && (rec.nonce64End.Missing? && rec.nonce64.Missing? ==> r.nonceEnd.None?)
  {
  }

  /** A textual nonce behind any number of dashes is read in base 10 if it is nothing
      but decimal digits, and in base 16 otherwise. */
  lemma DecodesByDigits(dashes: nat, body: string)
    requires body == "" || body[0] != '-'
    ensures var s := seq(dashes, _ => '-') + body;
            var decimal := body != "" && forall i :: 0 <= i < |body| ==> '0' <= body[i] <= '9';
            DecodeNonce(s) == PyInt(s, if decimal then 10 else 16)
  {
    StripsDashes(dashes, body);
  }

  lemma {:induction false} StripsDashes(dashes: nat, body: string)
    requires body == "" || body[0] != '-'
    ensures LstripDash(seq(dashes, _ => '-') + body) == body
  {
    var s := seq(dashes, _ => '-') + body;
    if dashes == 0 {
      assert s == body;
    } else {
      assert s[1..] == seq(dashes - 1, _ => '-') + body;
      StripsDashes(dashes - 1, body);
    }
  }
}
