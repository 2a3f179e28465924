/**
 Decimal rendering of the Echo backend's counters, as a template literal
 `${n}` renders a non-negative integer, together with the reading back
 that shows the rendering loses nothing.
 */
module Decimal {
  import opened Chat

  predicate IsDigit(c: char) {
    '0' <= c <= '9'
  }

  function DigitChar(d: nat): (c: char)
    requires d < 10
    ensures IsDigit(c)
    ensures c as int - '0' as int == d
  {
    ('0' as int + d) as char
  }

  /** The canonical decimal text of `n`: digits only, no sign, no leading zero. */
  function NatToString(n: nat): (s: string)
    ensures |s| >= 1
    ensures forall i :: 0 <= i < |s| ==> IsDigit(s[i])
    ensures s[0] == '0' <==> n == 0
    ensures n < 10 <==> |s| == 1
    decreases n
  {
    if n < 10 then [DigitChar(n)] else NatToString(n / 10) + [DigitChar(n % 10)]
  }

  /** Decimal text in the form `${n}` produces: non-empty, digits only, and
      no leading zero unless the text is "0" itself. */
  predicate Canonical(s: string) {
    && |s| > 0
    && (forall i :: 0 <= i < |s| ==> IsDigit(s[i]))
    && (s[0] == '0' ==> |s| == 1)
  }

  /** Reads a non-empty string of decimal digits; anything else is `None`. */
  function ParseNat(s: string): (r: Option<nat>)
    ensures r.Some? <==> |s| > 0 && forall i :: 0 <= i < |s| ==> IsDigit(s[i])
    decreases |s|
  {
    if |s| == 0 || !IsDigit(s[|s| - 1]) then None
    else
      var last := s[|s| - 1] as int - '0' as int;
      if |s| == 1 then Some(last)
      else match ParseNat(s[..|s| - 1])
        case None => None
        case Some(high) => Some(high * 10 + last)
  }

  /** Reading back a rendered counter yields the counter. */
  lemma {:induction false} ParseRendered(n: nat)
    ensures ParseNat(NatToString(n)) == Some(n)
    decreases n
  {
    if n >= 10 {
      var s := NatToString(n);
      assert s[..|s| - 1] == NatToString(n / 10);
      ParseRendered(n / 10);
    }
  }

  /** A canonical text that reads back as `n` is the rendering of `n`. */
  lemma {:induction false} CanonicalIsRendering(s: string, n: nat)
    requires Canonical(s) && ParseNat(s) == Some(n)
    ensures s == NatToString(n)
    decreases |s|
  {
    var last := s[|s| - 1] as int - '0' as int;
    if |s| > 1 {
      var init := s[..|s| - 1];
      var high := ParseNat(init).value;
      assert init[0] == s[0];
      CanonicalIsRendering(init, high);
      assert n / 10 == high && n % 10 == last;
      assert s == init + [DigitChar(last)];
    }
  }

  /** The rendering of `n` is the one canonical text that reads back as `n`,
      so an identifier built by `${n}` is fixed exactly, not just up to
      leading zeros. */
  lemma {:induction false} CanonicalRendering(s: string, n: nat)
    ensures Canonical(s) && ParseNat(s) == Some(n) <==> s == NatToString(n)
  {
    if s == NatToString(n) {
      ParseRendered(n);
    }
    if Canonical(s) && ParseNat(s) == Some(n) {
      CanonicalIsRendering(s, n);
    }
  }

  /** Distinct counters are rendered as distinct identifiers. */
  lemma RenderingInjective(a: nat, b: nat)
    ensures NatToString(a) == NatToString(b) <==> a == b
  {
    if NatToString(a) == NatToString(b) {
      ParseRendered(a);
      ParseRendered(b);
    }
  }
}
