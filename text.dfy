/**
 * The few pieces of Go's standard string handling the service relies on:
 * decimal formatting (`%d`), `strconv.Atoi`, `strings.Join`, and `len` of a
 * string, which counts UTF-8 bytes rather than characters.
 */
module Text {
  import opened Wrappers

  const MinInt64: int := -0x8000_0000_0000_0000
  const MaxInt64: int := 0x7FFF_FFFF_FFFF_FFFF

  predicate IsDigit(c: char) { '0' <= c <= '9' }

  predicate AllDigits(s: string) { forall i :: 0 <= i < |s| ==> IsDigit(s[i]) }

  function DigitValue(c: char): (d: nat)
    requires IsDigit(c)
    ensures d < 10
  {
    (c as int) - ('0' as int)
  }

  function DigitChar(d: nat): (c: char)
    requires d < 10
    ensures IsDigit(c) && DigitValue(c) == d
  {
    (('0' as int) + d) as char
  }

  /** The decimal digits of `n`, most significant first, without leading zeros. */
  function NatToDecimal(n: nat): (s: string)
    ensures |s| >= 1 && AllDigits(s)
    ensures |s| > 1 ==> s[0] != '0'
  {
    if n < 10 then [DigitChar(n)] else NatToDecimal(n / 10) + [DigitChar(n % 10)]
  }

  /** Go's `fmt.Sprintf("%d", n)`. */
  function DecimalString(n: int): (s: string)
    ensures |s| >= 1
  {
    if n < 0 then "-" + NatToDecimal(-n) else NatToDecimal(n)
  }

  /** The value of a string of decimal digits. */
  function DigitsValue(s: string): nat
    requires AllDigits(s)
  {
    if s == [] then 0 else DigitsValue(s[..|s| - 1]) * 10 + DigitValue(s[|s| - 1])
  }

  /**
   * Go's `strconv.Atoi` on a 64-bit platform: an optional sign followed by at
   * least one decimal digit, whose value fits in 64 bits; anything else is an error.
   */
  function Atoi(s: string): (r: Option<int>)
    ensures r.Some? ==> MinInt64 <= r.value <= MaxInt64
    ensures r.Some? ==> |s| >= 1
  {
    var signed := |s| > 0 && (s[0] == '-' || s[0] == '+');
    var digits := if signed then s[1..] else s;
    if digits == [] || !AllDigits(digits) then None
    else
      var magnitude: int := DigitsValue(digits);
      var v := if signed && s[0] == '-' then -magnitude else magnitude;
      if MinInt64 <= v <= MaxInt64 then Some(v) else None
  }

  lemma {:induction false} DigitsValueOfDecimal(n: nat)
    ensures DigitsValue(NatToDecimal(n)) == n
  {
    if n >= 10 {
      var s := NatToDecimal(n);
      assert s[..|s| - 1] == NatToDecimal(n / 10);
      DigitsValueOfDecimal(n / 10);
    }
  }

  /** Formatting an in-range integer with `%d` and reading it back with `Atoi` is the identity. */
  lemma AtoiOfDecimal(n: int)
    requires MinInt64 <= n <= MaxInt64
    ensures Atoi(DecimalString(n)) == Some(n)
  {
    var s := DecimalString(n);
    if n < 0 {
      var d := NatToDecimal(-n);
      assert s == "-" + d && s[0] == '-';
      assert s[1..] == d;
      DigitsValueOfDecimal(-n);
    } else {
      assert s == NatToDecimal(n) && IsDigit(s[0]);
      DigitsValueOfDecimal(n);
    }
  }

  /** Go's `strings.Join(items, sep)`. */
  function Join(items: seq<string>, sep: string): string
  {
    if |items| == 0 then ""
    else if |items| == 1 then items[0]
    else items[0] + sep + Join(items[1..], sep)
  }

  /** Joining non-empty items gives the empty string exactly when there are no items. */
  lemma {:induction false} JoinEmpty(items: seq<string>, sep: string)
    requires forall i :: 0 <= i < |items| ==> items[i] != ""
    ensures Join(items, sep) == "" <==> items == []
  {
    if |items| >= 2 {
      assert |Join(items, sep)| >= |items[0]| > 0;
    } else if |items| == 1 {
      assert items[0] != "";
    }
  }

  /** The joined text is the items and the separators laid end to end. */
  lemma {:induction false} JoinLength(items: seq<string>, sep: string)
    requires items != []
    ensures |Join(items, sep)| == TotalLength(items) + (|items| - 1) * |sep|
  {
    if |items| > 1 {
      JoinLength(items[1..], sep);
      assert TotalLength(items) == |items[0]| + TotalLength(items[1..]);
    }
  }

  function TotalLength(items: seq<string>): nat
  {
    if items == [] then 0 else |items[0]| + TotalLength(items[1..])
  }

  /** The number of bytes UTF-8 uses for one character. */
  function RuneWidth(c: char): (w: nat)
    ensures 1 <= w <= 4
    ensures w == 1 <==> c as int < 0x80
  {
    if c as int < 0x80 then 1
    else if c as int < 0x800 then 2
    else if c as int < 0x10000 then 3
    else 4
  }

  /** Go's `len(s)`: the length of the UTF-8 encoding of `s`. */
  function Utf8Len(s: string): (n: nat)
    ensures |s| <= n <= 4 * |s|
  {
    if s == [] then 0 else RuneWidth(s[0]) + Utf8Len(s[1..])
  }

  predicate IsAscii(s: string) { forall i :: 0 <= i < |s| ==> s[i] as int < 0x80 }

  /** For ASCII text, bytes and characters coincide. */
  lemma {:induction false} Utf8LenAscii(s: string)
    ensures Utf8Len(s) == |s| <==> IsAscii(s)
  {
    if s != [] {
      Utf8LenAscii(s[1..]);
      assert IsAscii(s) <==> s[0] as int < 0x80 && IsAscii(s[1..]) by {
        if IsAscii(s) {
          forall i | 0 <= i < |s[1..]| ensures s[1..][i] as int < 0x80 { assert s[1..][i] == s[i + 1]; }
        }
        if s[0] as int < 0x80 && IsAscii(s[1..]) {
          forall i | 0 <= i < |s| ensures s[i] as int < 0x80 { if i > 0 { assert s[i] == s[1..][i - 1]; } }
        }
      }
    }
  }
}
