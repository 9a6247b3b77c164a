/** Prices are stored as text; the item server reads them with JavaScript's `parseFloat`.
    This module reads the decimal subset of that syntax: leading white space, an optional
    sign, digits with an optional fraction, and whatever follows ignored. */
module Price {
  import opened Http

  predicate IsDigit(c: char)
  {
    '0' <= c <= '9'
  }

  predicate IsSpace(c: char)
  {
    c == ' ' || c == '\t' || c == '\n' || c == '\r'
  }

  function TrimStart(s: string): (r: string)
    ensures r == [] || !IsSpace(r[0])
    ensures |r| <= |s| && r == s[|s| - |r|..]
  {
    if s != [] && IsSpace(s[0]) then TrimStart(s[1..]) else s
  }

  /** The length of the run of digits at the start of `s`. */
  function LeadingDigits(s: string): (n: nat)
    ensures n <= |s|
    ensures forall i :: 0 <= i < n ==> IsDigit(s[i])
    ensures n == |s| || !IsDigit(s[n])
  {
    if s != [] && IsDigit(s[0]) then 1 + LeadingDigits(s[1..]) else 0
  }

  function DigitsValue(s: string): real
    requires forall i :: 0 <= i < |s| ==> IsDigit(s[i])
  {
    if s == [] then 0.0 else DigitsValue(s[..|s| - 1]) * 10.0 + ((s[|s| - 1] as int - '0' as int) as real)
  }

  function Pow10(n: nat): (r: real)
    ensures r >= 1.0
  {
    if n == 0 then 1.0 else 10.0 * Pow10(n - 1)
  }

  /** The optional `.digits` part at the start of `rest`: how many digits, and their value. */
  function Fraction(rest: string): (nat, real)
  {
    if rest != [] && rest[0] == '.' then
      var digits := rest[1..][..LeadingDigits(rest[1..])];
      (|digits|, DigitsValue(digits) / Pow10(|digits|))
    else (0, 0.0)
  }

  /** The number at the start of an unsigned text, or `None` when it holds no digit. */
  function Unsigned(u: string): (r: Option<real>)
    ensures r.Some? ==> exists i :: 0 <= i < |u| && IsDigit(u[i])
  {
    var whole := u[..LeadingDigits(u)];
    var fraction := Fraction(u[|whole|..]);
    if whole == [] && fraction.0 == 0 then None
    else
      assert whole != [] ==> IsDigit(u[0]);
      assert whole == [] ==> IsDigit(u[1]);
      Some(DigitsValue(whole) + fraction.1)
  }

  /** `parseFloat(s)`, with `None` for NaN. */
  function ParseFloat(s: string): (r: Option<real>)
    ensures r.Some? ==> exists i :: 0 <= i < |s| && IsDigit(s[i])
  {
    var t := TrimStart(s);
    assert forall i :: 0 <= i < |t| ==> t[i] == s[|s| - |t| + i];
    if t != [] && t[0] == '-' then
      match Unsigned(t[1..])
      case None => None
      case Some(v) => Some(-v)
    else if t != [] && t[0] == '+' then Unsigned(t[1..])
    else Unsigned(t)
  }

  lemma {:induction false} DigitsValueOfDecimal(s: string)
    requires forall i :: 0 <= i < |s| ==> IsDigit(s[i])
    ensures DigitsValue(s) == ReadDecimal(s) as real
  {
    if s != [] {
      DigitsValueOfDecimal(s[..|s| - 1]);
    }
  }

  lemma AllDigitsAreLeading(s: string)
    requires forall i :: 0 <= i < |s| ==> IsDigit(s[i])
    ensures LeadingDigits(s) == |s|
  {
  }

  lemma UnsignedDigits(s: string)
    requires s != [] && forall i :: 0 <= i < |s| ==> IsDigit(s[i])
    ensures Unsigned(s) == Some(DigitsValue(s))
  {
    AllDigitsAreLeading(s);
    assert s[..|s|] == s;
    assert Fraction(s[|s|..]) == (0, 0.0);
  }

  /** A text of digits alone reads back as their value. */
  lemma ParseDigits(s: string)
    requires s != [] && forall i :: 0 <= i < |s| ==> IsDigit(s[i])
    ensures ParseFloat(s) == Some(DigitsValue(s))
  {
    assert IsDigit(s[0]) && !IsSpace(s[0]);
    assert TrimStart(s) == s;
    UnsignedDigits(s);
  }

  /** A whole number written out in decimal reads back as that number. */
  lemma ParseFloatOfDecimal(n: nat)
    ensures ParseFloat(Decimal(n)) == Some(n as real)
  {
    var s := Decimal(n);
    ParseDigits(s);
    DigitsValueOfDecimal(s);
    DecimalRoundTrip(n);
  }

  /** Text that starts with no digit, sign or point (such as "free" or "") is not a number. */
  lemma NonNumericIsNaN(s: string)
    requires s == [] || (!IsSpace(s[0]) && !IsDigit(s[0]) && s[0] !in "+-.")
    ensures ParseFloat(s) == None
  {
    assert TrimStart(s) == s;
    assert s != [] ==> LeadingDigits(s) == 0;
  }

  /** The order the sort uses: unreadable prices first, then ascending by value. */
  predicate KeyLe(a: Option<real>, b: Option<real>)
  {
    a.None? || (b.Some? && a.value <= b.value)
  }
}
