/**
 * Amount cleaning as the app does it everywhere:
 * `parseFloat(String(v).replace(/[^0-9.-]+/g, "")) || 0`, and the modal's
 * variant that also drops the minus sign. Amounts are exact reals; IEEE-754
 * rounding is not modelled.
 */
module Amounts {
  import opened Wrappers
  import opened Text

  /** A character the cleaning regular expression keeps. */
  predicate IsNumChar(c: char) { IsDigit(c) || c == '.' || c == '-' }

  predicate OnlyNumChars(s: string) { forall i :: 0 <= i < |s| ==> IsNumChar(s[i]) }

  /** `s.replace(/[^0-9.-]+/g, "")`: the subsequence of digits, dots and minus signs. */
  function Clean(s: string): (r: string)
    ensures OnlyNumChars(r) && |r| <= |s|
    ensures OnlyNumChars(s) ==> r == s
  {
    if s == [] then []
    else (if IsNumChar(s[0]) then [s[0]] else []) + Clean(s[1..])
  }

  /** `s.replace(/[^0-9.]/g, "")`: the subsequence of digits and dots. */
  function CleanUnsigned(s: string): (r: string)
    ensures OnlyNumChars(r) && '-' !in r && |r| <= |s|
  {
    if s == [] then []
    else (if IsDigit(s[0]) || s[0] == '.' then [s[0]] else []) + CleanUnsigned(s[1..])
  }

  /**
   * `parseFloat` on a string of digits, dots and minus signs: an optional
   * leading `-`, then the longest `digits[.digits]` prefix; None (NaN) when
   * that prefix has no digit at all.
   */
  function ParseFloatPrefix(s: string): Option<real>
    requires OnlyNumChars(s)
  {
    var neg := |s| > 0 && s[0] == '-';
    var body := if neg then s[1..] else s;
    var whole := LeadingDigits(body);
    var rest := body[|whole|..];
    var frac := if |rest| > 0 && rest[0] == '.' then LeadingDigits(rest[1..]) else [];
    if |whole| + |frac| == 0 then None
    else
      var magnitude := DigitsValue(whole) as real + DigitsValue(frac) as real / Pow10(|frac|) as real;
      Some(if neg then -magnitude else magnitude)
  }

  /** The shared `parseVal`: NaN (and zero) become 0. */
  function ParseVal(v: string): real
  {
    match ParseFloatPrefix(Clean(v))
    case None => 0.0
    case Some(x) => x
  }

  /** Only the kept characters matter: cleaning first changes nothing. */
  lemma ParseValIgnoresOtherChars(v: string)
    ensures ParseVal(Clean(v)) == ParseVal(v)
  {
  }

  /** Cleaning distributes over concatenation. */
  lemma {:induction false} CleanAppend(a: string, b: string)
    ensures Clean(a + b) == Clean(a) + Clean(b)
  {
    if a == [] {
      assert a + b == b;
    } else {
      var head := if IsNumChar(a[0]) then [a[0]] else [];
      assert (a + b)[0] == a[0] && (a + b)[1..] == a[1..] + b;
      assert Clean(a + b) == head + Clean(a[1..] + b);
      CleanAppend(a[1..], b);
      assert Clean(a) == head + Clean(a[1..]);
      assert head + (Clean(a[1..]) + Clean(b)) == (head + Clean(a[1..])) + Clean(b);
    }
  }

  /** A string with no digit parses to 0 (NaN falls back to 0), so does "". */
  lemma {:induction false} ParseValNoDigit(v: string)
    requires forall i :: 0 <= i < |v| ==> !IsDigit(v[i])
    ensures ParseVal(v) == 0.0
  {
    NoDigitClean(v);
    var s := Clean(v);
    var body := if |s| > 0 && s[0] == '-' then s[1..] else s;
    assert LeadingDigits(body) == [] by {
      if body != [] { assert body[0] in s; }
    }
    var rest := body[0..];
    if |rest| > 0 && rest[0] == '.' && |rest| > 1 {
      assert rest[1] in s;
    }
  }

  lemma {:induction false} NoDigitClean(v: string)
    requires forall i :: 0 <= i < |v| ==> !IsDigit(v[i])
    ensures forall c :: c in Clean(v) ==> !IsDigit(c)
  {
    if v != [] {
      NoDigitClean(v[1..]);
    }
  }

  /** Without a minus sign the parsed amount is never negative. */
  lemma ParseValNonNegative(v: string)
    requires '-' !in Clean(v)
    ensures ParseVal(v) >= 0.0
  {
    PrefixNonNegative(Clean(v));
  }

  /** `parseFloat` of digits and dots alone is never negative. */
  lemma PrefixNonNegative(s: string)
    requires OnlyNumChars(s) && '-' !in s
    ensures ParseFloatPrefix(s).Some? ==> ParseFloatPrefix(s).value >= 0.0
  {
    assert !(|s| > 0 && s[0] == '-') by {
      if |s| > 0 { assert s[0] in s; }
    }
    var whole := LeadingDigits(s);
    var rest := s[|whole|..];
    var frac := if |rest| > 0 && rest[0] == '.' then LeadingDigits(rest[1..]) else [];
    var part := DigitsValue(frac) as real / Pow10(|frac|) as real;
    QuotientNonNegative(DigitsValue(frac), Pow10(|frac|));
    assert ParseFloatPrefix(s).Some? ==> ParseFloatPrefix(s).value == DigitsValue(whole) as real + part;
  }

  lemma QuotientNonNegative(a: nat, b: nat)
    requires b >= 1
    ensures a as real / b as real >= 0.0
  {
    var q := a as real / b as real;
    assert q * b as real == a as real;
  }

  /** `String(n)` of a natural number parses back to that number. */
  lemma {:induction false} ParseValNat(n: nat)
    ensures ParseVal(NatToString(n)) == n as real
  {
    var s := NatToString(n);
    assert Clean(s) == s;
    assert LeadingDigits(s) == s by { LeadingDigitsAll(s); }
    assert s[|s|..] == [];
  }


  /** A currency symbol or a thousands separator anywhere in the amount is ignored. */
  lemma ParseValDropsSeparator(x: string, c: char, y: string)
    requires !IsNumChar(c)
    ensures ParseVal(x + [c] + y) == ParseVal(x + y)
  {
    assert Clean(x + [c] + y) == Clean(x + y) by {
      CleanAppend(x + [c], y);
      CleanAppend(x, [c]);
      CleanAppend(x, y);
      assert Clean([c]) == [];
    }
  }
}
