/** The currency field's text handling: every keystroke is reduced to its
    decimal digits before it is stored, and the stored text is shown either
    as nothing or as the number its digits spell. */
module CurrencyInput {

  /** The characters `\d` matches: the ASCII digits 0 to 9. */
  predicate IsDigit(c: char) {
    '0' <= c <= '9'
  }

  predicate AllDigits(s: string) {
    forall i :: 0 <= i < |s| ==> IsDigit(s[i])
  }

  predicate NoDigits(s: string) {
    forall i :: 0 <= i < |s| ==> !IsDigit(s[i])
  }

  /** `replace(/[^\d]/g, "")`: the text with every non-digit removed. The
      result is made of digits only, is never longer than the input, and is
      empty exactly when the input holds no digit. */
  function StripNonDigits(s: string): (r: string)
    ensures AllDigits(r)
    ensures |r| <= |s|
    ensures r == [] <==> NoDigits(s)
  {
    if s == [] then []
    else
      assert NoDigits(s) <==> !IsDigit(s[0]) && NoDigits(s[1..]) by {
        assert forall i :: 1 <= i < |s| ==> s[i] == s[1..][i - 1];
      }
      (if IsDigit(s[0]) then [s[0]] else []) + StripNonDigits(s[1..])
  }

  /** Stripping works piece by piece: the digits of a concatenation are the
      digits of the first part followed by those of the second. Together with
      the one-character cases below, this fixes the order of what is kept. */
  lemma {:induction false} StripConcat(a: string, b: string)
    ensures StripNonDigits(a + b) == StripNonDigits(a) + StripNonDigits(b)
  {
    if a == [] {
      assert a + b == b;
    } else {
      var head := if IsDigit(a[0]) then [a[0]] else [];
      assert (a + b)[0] == a[0];
      assert (a + b)[1..] == a[1..] + b;
      assert StripNonDigits(a + b) == head + StripNonDigits(a[1..] + b);
      StripConcat(a[1..], b);
      assert StripNonDigits(a) == head + StripNonDigits(a[1..]);
    }
  }

  /** A single character is kept if it is a digit and dropped otherwise. */
  lemma StripOne(c: char)
    ensures StripNonDigits([c]) == if IsDigit(c) then [c] else []
  {
    assert [c][1..] == [];
  }

  /** Each digit occurs in the result as often as in the input; no other
      character occurs in it at all. */
  lemma {:induction false} StripCounts(s: string, c: char)
    ensures multiset(StripNonDigits(s))[c] == if IsDigit(c) then multiset(s)[c] else 0
  {
    if s != [] {
      StripCounts(s[1..], c);
      assert s == [s[0]] + s[1..];
      assert multiset(s) == multiset([s[0]]) + multiset(s[1..]);
    }
  }

  /** Text made only of digits passes through unchanged, and only such text
      does. */
  lemma {:induction false} StripKeepsDigits(s: string)
    ensures StripNonDigits(s) == s <==> AllDigits(s)
  {
    if s != [] && AllDigits(s) {
      assert AllDigits(s[1..]) by {
        assert forall i :: 0 <= i < |s[1..]| ==> s[1..][i] == s[i + 1];
      }
      StripKeepsDigits(s[1..]);
      assert s == [s[0]] + s[1..];
    }
  }

  /** Stripping twice is stripping once. */
  lemma StripIdempotent(s: string)
    ensures StripNonDigits(StripNonDigits(s)) == StripNonDigits(s)
  {
    StripKeepsDigits(StripNonDigits(s));
  }

  // ---------------------------------------------------------------------------
  // The number the digits spell

  function DigitValue(c: char): (r: nat)
    requires IsDigit(c)
    ensures r <= 9
  {
    (c as int) - ('0' as int)
  }

  function DigitChar(d: nat): (r: char)
    requires d <= 9
    ensures IsDigit(r) && DigitValue(r) == d
  {
    (('0' as int) + d) as char
  }

  /** `Number(num)` for a string of decimal digits: the value it spells,
      most significant digit first; the empty string spells nothing. */
  function DigitsValue(s: string): (r: nat)
    requires AllDigits(s)
  {
    if s == [] then 0
    else DigitsValue(s[..|s| - 1]) * 10 + DigitValue(s[|s| - 1])
  }

  /** The shortest decimal spelling of a number. */
  function Decimal(n: nat): (r: string)
    ensures AllDigits(r) && 1 <= |r|
  {
    if n < 10 then [DigitChar(n)]
    else Decimal(n / 10) + [DigitChar(n % 10)]
  }

  /** Reading back the spelling of a number gives the number. */
  lemma {:induction false} DecimalRoundTrip(n: nat)
    ensures DigitsValue(Decimal(n)) == n
  {
    var r := Decimal(n);
    assert r[..|r| - 1] == if n < 10 then [] else Decimal(n / 10);
    if n >= 10 {
      DecimalRoundTrip(n / 10);
    }
  }

  /** Leading zeros do not change the value. */
  lemma {:induction false} LeadingZero(s: string)
    requires AllDigits(s)
    ensures AllDigits(['0'] + s) && DigitsValue(['0'] + s) == DigitsValue(s)
  {
    var t := ['0'] + s;
    if s != [] {
      assert t[..|t| - 1] == ['0'] + s[..|s| - 1];
      LeadingZero(s[..|s| - 1]);
    }
  }

  // ---------------------------------------------------------------------------
  // What the field shows

  /** The field shows either nothing or the number its digits spell. */
  datatype Display = Blank | Localized(amount: nat)

  /** `formatCurrency`: blank exactly when the value holds no digit; otherwise
      the number spelled by its digits, leading zeros and separators ignored. */
  function FormatCurrency(val: string): (r: Display)
    ensures r.Blank? <==> NoDigits(val)
  {
    var num := StripNonDigits(val);
    if num == [] then Blank else Localized(DigitsValue(num))
  }

  /** The field shows the stored digits exactly as it would show the raw text
      they were stripped from. */
  lemma FormatAfterChange(raw: string)
    ensures FormatCurrency(StripNonDigits(raw)) == FormatCurrency(raw)
  {
    StripIdempotent(raw);
  }

  /** Storing the spelling of an amount shows that amount. */
  lemma FormatDecimal(n: nat)
    ensures FormatCurrency(Decimal(n)) == Localized(n)
  {
    StripKeepsDigits(Decimal(n));
    DecimalRoundTrip(n);
  }
}
