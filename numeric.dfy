/**
 * Spreadsheet cells and the numeric cleaning applied to them:
 * `safeFloat` (src/lib/fileProcessor.ts) with a simplified `parseFloat`,
 * and `normalizePercentage`, the percent-scale correction.
 */
module Numeric {
  import opened Wrappers
  import opened Text

  /**
   * One cell of a decoded sheet row. `Blank` is a missing cell (`undefined`,
   * an index past the end of the row); `Num` carries the number and the text
   * `String(value)` renders it as.
   */
  datatype Cell = Blank | Str(s: string) | Num(value: real, text: string)

  /** `row[i]`, which is `undefined` past the end of the row. */
  function CellAt(row: seq<Cell>, i: nat): (c: Cell)
    ensures i < |row| ==> c == row[i]
    ensures i >= |row| ==> c == Blank
  {
    if i < |row| then row[i] else Blank
  }

  /** `String(cell ?? '')`. */
  function CellText(c: Cell): string
  {
    match c
    case Blank => ""
    case Str(s) => s
    case Num(_, t) => t
  }

  predicate IsDigit(c: char) { '0' <= c <= '9' }

  predicate IsSymbol(c: char) { c == '$' || c == ',' || c == '%' }

  /** `s.replace(/[$,%]/g, '')`. */
  function RemoveSymbols(s: string): (r: string)
    ensures |r| <= |s|
    ensures forall i :: 0 <= i < |r| ==> !IsSymbol(r[i])
  {
    if s == [] then []
    else if IsSymbol(s[0]) then RemoveSymbols(s[1..])
    else [s[0]] + RemoveSymbols(s[1..])
  }

  /** Removing the symbols works piece by piece, so the other characters keep their order. */
  lemma {:induction false} RemoveSymbolsAppend(x: string, y: string)
    ensures RemoveSymbols(x + y) == RemoveSymbols(x) + RemoveSymbols(y)
    decreases |x|
  {
    if x == [] {
      assert x + y == y;
    } else {
      assert (x + y)[0] == x[0] && (x + y)[1..] == x[1..] + y;
      RemoveSymbolsAppend(x[1..], y);
    }
  }

  /** A single character is dropped exactly when it is `$`, `,` or `%`. */
  lemma RemoveSymbolsOne(c: char)
    ensures RemoveSymbols([c]) == if IsSymbol(c) then [] else [c]
  {
    assert [c][1..] == [];
  }

  /** The number of decimal digits at the start of `s`. */
  function DigitCount(s: string): (n: nat)
    ensures n <= |s|
    ensures forall k :: 0 <= k < n ==> IsDigit(s[k])
    ensures n < |s| ==> !IsDigit(s[n])
  {
    if s == [] || !IsDigit(s[0]) then 0 else 1 + DigitCount(s[1..])
  }

  /** The value of a string of decimal digits (0 for the empty string). */
  function DigitsValue(s: string): nat
    requires forall k :: 0 <= k < |s| ==> IsDigit(s[k])
  {
    if s == [] then 0
    else DigitsValue(s[..|s| - 1]) * 10 + DigitValue(s[|s| - 1])
  }

  function DigitValue(c: char): nat
    requires IsDigit(c)
  {
    c as int - '0' as int
  }

  function Pow10(n: nat): (r: nat)
    ensures r >= 1
  {
    if n == 0 then 1 else 10 * Pow10(n - 1)
  }

  /**
   * `parseFloat` on a string without leading white space: the longest
   * prefix of the form `[+-]? digits [. digits]` with at least one digit is
   * read; `None` stands for `NaN`.
   */
  function ParseFloatPrefix(s: string): (r: Option<real>)
  {
    var neg := |s| > 0 && s[0] == '-';
    match ReadUnsigned(if |s| > 0 && (s[0] == '-' || s[0] == '+') then s[1..] else s)
    case None => None
    case Some(magnitude) => Some(if neg then -magnitude else magnitude)
  }

  /** The unsigned part of `parseFloat`: `digits [. digits]` with at least one digit. */
  function ReadUnsigned(body: string): (r: Option<real>)
  {
    var n := DigitCount(body);
    var rest := body[n..];
    var f := if |rest| > 0 && rest[0] == '.' then DigitCount(rest[1..]) else 0;
    if n == 0 && f == 0 then None
    else Some(DigitsValue(body[..n]) as real + FractionValue(if f > 0 then rest[1..1 + f] else ""))
  }

  /** The value of the digits after the point (none: 0). */
  function FractionValue(digits: string): real
    requires forall k :: 0 <= k < |digits| ==> IsDigit(digits[k])
  {
    if digits == [] then 0.0 else DigitsValue(digits) as real / Pow10(|digits|) as real
  }

  /**
   * `safeFloat`: 0 for a missing or empty cell; a number cell's own value;
   * otherwise the text with every `$`, `,` and `%` removed and trimmed, read
   * by `parseFloat`, with 0 in place of `NaN`.
   */
  function SafeFloat(c: Cell): (r: real)
    ensures c == Blank || c == Str("") ==> r == 0.0
    ensures c.Num? ==> r == c.value
  {
    match c
    case Blank => 0.0
    case Num(v, _) => v
    case Str(s) =>
      if s == "" then 0.0
      else ParseFloatPrefix(Trim(RemoveSymbols(s))).GetOr(0.0)
  }

  /** Decimal text of a natural number, without leading zeros. */
  function NatToDecimal(n: nat): (r: string)
    ensures |r| > 0
    ensures forall k :: 0 <= k < |r| ==> IsDigit(r[k])
    decreases n
  {
    var d := ['0' + ((n % 10) as char)];
    if n < 10 then d else NatToDecimal(n / 10) + d
  }

  lemma {:induction false} DigitsValueOfDecimal(n: nat)
    ensures DigitsValue(NatToDecimal(n)) == n
    decreases n
  {
    var s := NatToDecimal(n);
    if n >= 10 {
      DigitsValueOfDecimal(n / 10);
      assert s[..|s| - 1] == NatToDecimal(n / 10);
    }
  }

  lemma {:induction false} DigitCountAll(s: string)
    requires forall k :: 0 <= k < |s| ==> IsDigit(s[k])
    ensures DigitCount(s) == |s|
    decreases |s|
  {
    if s != [] {
      DigitCountAll(s[1..]);
    }
  }

  /** `parseFloat` reads back the decimal text of every natural number. */
  lemma ParseNatRoundTrip(n: nat)
    ensures ParseFloatPrefix(NatToDecimal(n)) == Some(n as real)
  {
    DigitsValueOfDecimal(n);
    ParseFloatOfDigits(NatToDecimal(n));
  }

  /** `parseFloat` of a string of digits alone is the value of the digits. */
  lemma ParseFloatOfDigits(s: string)
    requires s != [] && forall k :: 0 <= k < |s| ==> IsDigit(s[k])
    ensures ParseFloatPrefix(s) == Some(DigitsValue(s) as real)
  {
    DigitCountAll(s);
    assert s[DigitCount(s)..] == [] && s[..DigitCount(s)] == s;
    assert FractionValue("") == 0.0;
    assert ReadUnsigned(s) == Some(DigitsValue(s) as real);
    assert IsDigit(s[0]);
  }

  /**
   * `parseFloat` gives `NaN` exactly when, after an optional sign, there is
   * no digit before an optional point and none after it.
   */
  lemma ParseFloatNaN(s: string)
    ensures ParseFloatPrefix(s).None? <==>
      (var b := if |s| > 0 && (s[0] == '-' || s[0] == '+') then s[1..] else s;
       DigitCount(b) == 0 && (|b| == 0 || b[0] != '.' || DigitCount(b[1..]) == 0))
  {
  }

  lemma {:induction false} RemoveSymbolsKeepsDigitFree(s: string)
    requires forall k :: 0 <= k < |s| ==> !IsDigit(s[k])
    ensures forall k :: 0 <= k < |RemoveSymbols(s)| ==> !IsDigit(RemoveSymbols(s)[k])
    decreases |s|
  {
    if s != [] {
      RemoveSymbolsKeepsDigitFree(s[1..]);
    }
  }

  /** Text without a single digit is unparseable, and `safeFloat` makes it 0. */
  lemma SafeFloatOfDigitFreeText(s: string)
    requires forall k :: 0 <= k < |s| ==> !IsDigit(s[k])
    ensures SafeFloat(Str(s)) == 0.0
  {
    if s != "" {
      var t := Trim(RemoveSymbols(s));
      RemoveSymbolsKeepsDigitFree(s);
      var u := RemoveSymbols(s);
      ParseFloatNaN(t);
      assert forall k :: 0 <= k < |t| ==> t[k] == u[LeadingSpaces(u) + k];
      if |t| > 0 && (t[0] == '-' || t[0] == '+') {
        assert |t[1..]| == 0 || !IsDigit(t[1..][0]);
        assert |t[1..]| <= 1 || !IsDigit(t[1..][1]);
      } else {
        assert |t| <= 1 || !IsDigit(t[1]);
      }
    }
  }

  /**
   * Currency and percent decoration is ignored: a cell whose text is the
   * decimal text of `n` once `$`, `,` and `%` are removed reads as `n`
   * (so `"$1,234"` and `"12%"` read as 1234 and 12).
   */
  lemma SafeFloatReadsDecorated(s: string, n: nat)
    requires RemoveSymbols(s) == NatToDecimal(n)
    ensures SafeFloat(Str(s)) == n as real
  {
    var t := NatToDecimal(n);
    assert s != "";
    assert LeadingSpaces(t) == 0;
    assert Trim(t) == t;
    ParseNatRoundTrip(n);
  }

  /**
   * `normalizePercentage`: both branches of the source's flag test scale a
   * value strictly between 0 and 1 by 100, so the flag never matters.
   */
  function NormalizePercentage(v: real, needsMultiplication: bool): (r: real)
    ensures 0.0 < v < 1.0 ==> r == v * 100.0
    ensures !(0.0 < v < 1.0) ==> r == v
  {
    if needsMultiplication && v > 0.0 && v < 1.0 then v * 100.0
    else if !needsMultiplication && v > 0.0 && v < 1.0 then v * 100.0
    else v
  }

  /** The flag is dead: both settings give the same value. */
  lemma NormalizeIgnoresFlag(v: real)
    ensures NormalizePercentage(v, true) == NormalizePercentage(v, false)
  {
  }

  /**
   * A share already on the 0-100 scale is not rescaled by a second pass;
   * only values in (0, 0.01), which the first pass leaves below 1, are.
   */
  lemma NormalizeTwice(v: real, f: bool, g: bool)
    ensures !(0.0 < v < 0.01) ==> NormalizePercentage(NormalizePercentage(v, f), g) == NormalizePercentage(v, f)
    ensures 0.0 < v < 0.01 ==> NormalizePercentage(NormalizePercentage(v, f), g) == v * 10000.0
  {
  }

  /** Normalisation is zero exactly at zero, and keeps the sign. */
  lemma NormalizeZero(v: real, f: bool)
    ensures NormalizePercentage(v, f) == 0.0 <==> v == 0.0
    ensures NormalizePercentage(v, f) > 0.0 <==> v > 0.0
  {
  }
}
