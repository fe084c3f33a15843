/** String helpers the views rely on: decimal numerals (`toString`, `parseInt`),
    `padStart`, `indexOf`/`includes`, and the inverse of the "m:ss" clock format. */
module Text {
  import opened Base

  predicate IsDigit(c: char) { '0' <= c <= '9' }

  predicate AllDigits(s: string) { forall i :: 0 <= i < |s| ==> IsDigit(s[i]) }

  function DigitChar(d: nat): (c: char)
    requires d < 10
    ensures IsDigit(c)
  {
    (('0' as int) + d) as char
  }

  function DigitValue(c: char): (d: nat)
    requires IsDigit(c)
    ensures d < 10
  {
    (c as int) - ('0' as int)
  }

  /** `n.toString()` for a non-negative integer: decimal digits, no leading zero. */
  function NatToString(n: nat): (s: string)
    ensures |s| >= 1 && AllDigits(s)
    ensures |s| > 1 ==> s[0] != '0'
    ensures n < 10 <==> |s| == 1
    ensures 10 <= n < 100 <==> |s| == 2
  {
    if n < 10 then [DigitChar(n)] else NatToString(n / 10) + [DigitChar(n % 10)]
  }

  /** `parseInt` of a string of decimal digits ("" reads as 0). */
  function DigitsValue(s: string): nat
    requires AllDigits(s)
  {
    if s == [] then 0 else DigitsValue(s[..|s| - 1]) * 10 + DigitValue(s[|s| - 1])
  }

  /** Reading back a printed number gives the number. */
  lemma {:induction false} DigitsValueOfNatToString(n: nat)
    ensures DigitsValue(NatToString(n)) == n
  {
    if n >= 10 {
      var s := NatToString(n);
      assert s[..|s| - 1] == NatToString(n / 10);
      DigitsValueOfNatToString(n / 10);
    }
  }

  /** Printing is injective. */
  lemma NatToStringInjective(m: nat, n: nat)
    requires NatToString(m) == NatToString(n)
    ensures m == n
  {
    DigitsValueOfNatToString(m);
    DigitsValueOfNatToString(n);
  }

  function Repeat(c: char, n: nat): (r: string)
    ensures |r| == n
    ensures forall i :: 0 <= i < n ==> r[i] == c
  {
    if n == 0 then [] else [c] + Repeat(c, n - 1)
  }

  /** `s.padStart(width, c)` for a one-character filler. */
  function PadStart(s: string, width: nat, c: char): (r: string)
    ensures |r| == if |s| >= width then |s| else width
    ensures r[|r| - |s|..] == s
    ensures forall i :: 0 <= i < |r| - |s| ==> r[i] == c
  {
    if |s| >= width then s else Repeat(c, width - |s|) + s
  }

  /** Leading zeros do not change the value of a numeral. */
  lemma {:induction false} LeadingZeros(k: nat, s: string)
    requires AllDigits(s)
    ensures AllDigits(Repeat('0', k) + s)
    ensures DigitsValue(Repeat('0', k) + s) == DigitsValue(s)
    decreases |s|
  {
    var z := Repeat('0', k);
    if s == [] {
      assert z + s == z;
      ZerosValue(k);
    } else {
      var s' := s[..|s| - 1];
      assert (z + s)[..|z + s| - 1] == z + s';
      LeadingZeros(k, s');
    }
  }

  lemma {:induction false} ZerosValue(k: nat)
    ensures AllDigits(Repeat('0', k))
    ensures DigitsValue(Repeat('0', k)) == 0
  {
    if k > 0 {
      var z := Repeat('0', k);
      assert z == Repeat('0', k - 1) + ['0'] by {
        assert forall i :: 0 <= i < k ==> z[i] == (Repeat('0', k - 1) + ['0'])[i];
      }
      assert z[..k - 1] == Repeat('0', k - 1);
      ZerosValue(k - 1);
    }
  }

  /** A zero-padded printed number reads back as the number. */
  lemma PaddedNumeral(n: nat, width: nat)
    ensures AllDigits(PadStart(NatToString(n), width, '0'))
    ensures DigitsValue(PadStart(NatToString(n), width, '0')) == n
  {
    var s := NatToString(n);
    DigitsValueOfNatToString(n);
    if |s| < width {
      LeadingZeros(width - |s|, s);
    }
  }

  /** Whether `pat` occurs in `s` starting at index `i`. */
  predicate OccursAt(s: string, pat: string, i: nat)
  {
    i + |pat| <= |s| && s[i..i + |pat|] == pat
  }

  /** `s.indexOf(pat, from)`: the least index at or after `from` where `pat` occurs. */
  function IndexOf(s: string, pat: string, from: nat): (r: Option<nat>)
    ensures r.Some? ==> from <= r.value && OccursAt(s, pat, r.value)
    ensures r.Some? ==> forall j :: from <= j < r.value ==> !OccursAt(s, pat, j)
    ensures r.None? ==> forall j :: from <= j ==> !OccursAt(s, pat, j)
    decreases |s| - from
  {
    if from + |pat| > |s| then None
    else if OccursAt(s, pat, from) then Some(from)
    else IndexOf(s, pat, from + 1)
  }

  /** `s.includes(pat)`. */
  predicate Includes(s: string, pat: string)
  {
    IndexOf(s, pat, 0).Some?
  }

  /** The first ':' of `a + ":" + b`, when `a` is a numeral, is the one after `a`. */
  lemma {:induction false} ColonAfterNumeral(a: string, b: string)
    requires AllDigits(a)
    ensures IndexOf(a + ":" + b, ":", 0) == Some(|a|)
  {
    var s := a + ":" + b;
    assert s[|a|..|a| + 1] == ":";
    assert OccursAt(s, ":", |a|);
    forall j | 0 <= j < |a|
      ensures !OccursAt(s, ":", j)
    {
      assert s[j] == a[j];
    }
  }

  /** The number of seconds a clock reading "m:ss" stands for (for any number of digits on
      either side); None when the text is not two numerals around a colon. */
  function ClockSeconds(s: string): Option<nat>
  {
    match IndexOf(s, ":", 0)
    case None => None
    case Some(k) =>
      if 0 < k && k + 1 < |s| && AllDigits(s[..k]) && AllDigits(s[k + 1..])
      then Some(DigitsValue(s[..k]) * 60 + DigitsValue(s[k + 1..]))
      else None
  }

  /** Where the pieces of a clock "a:bb" sit. */
  lemma ClockShape(a: string, b: string)
    requires |b| == 2
    ensures var s := a + ":" + b;
            |s| == |a| + 3 && s[|s| - 3] == ':' && s[..|s| - 3] == a && s[|s| - 2..] == b
  {
    var s := a + ":" + b;
    assert s[..|a|] == a;
    assert s[|a| + 1..] == b;
  }

  /** Reading back a clock made of two numerals. */
  lemma {:induction false} ClockOfNumerals(a: string, b: string)
    requires |a| > 0 && |b| > 0 && AllDigits(a) && AllDigits(b)
    ensures ClockSeconds(a + ":" + b) == Some(DigitsValue(a) * 60 + DigitsValue(b))
  {
    var s := a + ":" + b;
    ColonAfterNumeral(a, b);
    assert s[..|a|] == a;
    assert s[|a| + 1..] == b;
    assert 0 < |a| && |a| + 1 < |s|;
  }
}
