/**
 * Decimal text and numbers: `Number(text)`, `parseInt(text)` and the decimal rendering of
 * `Date.now()`, restricted to unsigned ASCII digits (no sign, white space, fraction or exponent).
 */
module Numbers {
  import opened Wrappers

  predicate IsDigit(c: char) {
    '0' <= c <= '9'
  }

  predicate AllDigits(s: string) {
    forall i :: 0 <= i < |s| ==> IsDigit(s[i])
  }

  function DigitChar(d: nat): (c: char)
    requires d < 10
    ensures IsDigit(c)
  {
    ('0' as int + d) as char
  }

  /** The number a digit string denotes (most significant digit first). */
  function Value(s: string): nat
    requires AllDigits(s)
  {
    if s == [] then 0 else Value(s[..|s| - 1]) * 10 + (s[|s| - 1] as int - '0' as int)
  }

  /** The shortest decimal rendering of `n`, as template strings print integers. */
  function Show(n: nat): (s: string)
    ensures |s| >= 1 && AllDigits(s)
  {
    if n < 10 then [DigitChar(n)] else Show(n / 10) + [DigitChar(n % 10)]
  }

  lemma {:induction false} ValueOfShow(n: nat)
    ensures Value(Show(n)) == n
  {
    if n >= 10 {
      ValueOfShow(n / 10);
      var s := Show(n);
      assert s[..|s| - 1] == Show(n / 10);
    }
  }

  /** The digits at the start of `s`, as far as they go. */
  function LeadingDigits(s: string): (d: string)
    ensures AllDigits(d) && |d| <= |s| && d == s[..|d|]
    ensures |d| < |s| ==> !IsDigit(s[|d|])
  {
    if s != [] && IsDigit(s[0]) then [s[0]] + LeadingDigits(s[1..]) else []
  }

  /** `parseInt(s)`: the value of the leading digits; `None` stands for `NaN`. */
  function ParseInt(s: string): (r: Option<nat>)
    ensures r.None? <==> s == [] || !IsDigit(s[0])
    ensures r.Some? ==> r.value == Value(LeadingDigits(s))
  {
    var d := LeadingDigits(s);
    if d == [] then None else Some(Value(d))
  }

  /** `Number(s)`: the empty text is 0, digits give their value, anything else is `NaN` (`None`). */
  function ToNumber(s: string): (r: Option<nat>)
    ensures r.Some? <==> AllDigits(s)
  {
    if AllDigits(s) then Some(Value(s)) else None
  }

  lemma AllDigitsLeading(s: string)
    requires AllDigits(s)
    ensures LeadingDigits(s) == s
  {
  }

  /** The leading digits end exactly where a non-digit (or the end) follows a digit run. */
  lemma LeadingDigitsStop(d: string, t: string)
    requires AllDigits(d)
    requires t == [] || !IsDigit(t[0])
    ensures LeadingDigits(d + t) == d
  {
    assert (d + t)[..|d|] == d;
  }

  /** `parseInt` reads a printed number back and ignores whatever non-digit text follows it. */
  lemma ParseIntStopsAtNonDigit(n: nat, t: string)
    requires t == [] || !IsDigit(t[0])
    ensures ParseInt(Show(n) + t) == Some(n)
  {
    LeadingDigitsStop(Show(n), t);
    ValueOfShow(n);
  }

  /** Both parsers read back what `Show` prints. */
  lemma ShowRoundTrip(n: nat)
    ensures ParseInt(Show(n)) == Some(n)
    ensures ToNumber(Show(n)) == Some(n)
  {
    ValueOfShow(n);
    AllDigitsLeading(Show(n));
  }

  /** On non-empty digit strings `parseInt` and `Number` agree. */
  lemma ParsersAgreeOnDigits(s: string)
    requires s != [] && AllDigits(s)
    ensures ParseInt(s) == ToNumber(s)
  {
    AllDigitsLeading(s);
  }
}
