/**
 * The parts of the Java platform whose exact semantics the ledger depends on:
 * long division truncating toward zero, Integer.parseInt and String.contains.
 */
module JavaLang {
  import opened Options

  const INT_MIN: int := -0x8000_0000
  const INT_MAX: int := 0x7fff_ffff

  /**
   * Java's `a / b` on integers: the quotient truncated toward zero (Dafny's `/`
   * is Euclidean and differs for a negative dividend).
   */
  function JavaDiv(a: int, b: int): (q: int)
    requires b > 0
    ensures a >= 0 ==> 0 <= a - q * b < b
    ensures a < 0 ==> -b < a - q * b <= 0
  {
    if a >= 0 then a / b else -((-a) / b)
  }

  /** A truncated quotient is 0 exactly when the dividend lies strictly within one divisor of 0. */
  lemma JavaDivZero(a: int, b: int)
    requires b > 0
    ensures JavaDiv(a, b) == 0 <==> -b < a < b
  {
    var q := JavaDiv(a, b);
    if q >= 1 {
      assert q * b >= b;
    } else if q <= -1 {
      assert q * b <= -b;
    }
  }

  /** At two or more divisors below 0, the truncated quotient is at most -2. */
  lemma JavaDivFarNegative(a: int, b: int)
    requires b > 0 && a <= -2 * b
    ensures JavaDiv(a, b) <= -2
  {
  }

  predicate IsDigit(c: char)
  {
    '0' <= c <= '9'
  }

  predicate AllDigits(s: string)
  {
    forall i :: 0 <= i < |s| ==> IsDigit(s[i])
  }

  /** The value of a string of decimal digits, most significant first. */
  function DigitsValue(s: string): nat
    requires AllDigits(s)
  {
    if s == [] then 0 else DigitsValue(s[..|s| - 1]) * 10 + (s[|s| - 1] as int - '0' as int)
  }

  /**
   * Integer.parseInt(s) in radix 10: an optional '-' or '+', then at least one digit,
   * the value within the 32-bit range; anything else is a NumberFormatException (None).
   */
  function ParseInt(s: string): (r: Option<int>)
    ensures r.Some? ==> INT_MIN <= r.value <= INT_MAX
    ensures r.Some? ==> |s| > 0 && (r.value < 0 ==> s[0] == '-')
    ensures r.Some? ==> (IsDigit(s[0]) || ((s[0] == '-' || s[0] == '+') && |s| > 1)) && AllDigits(s[1..])
    ensures r.Some? && IsDigit(s[0]) ==> r.value == DigitsValue(s)
    ensures r.Some? && s[0] == '+' ==> r.value == DigitsValue(s[1..])
    ensures r.Some? && s[0] == '-' ==> r.value == -(DigitsValue(s[1..]) as int)
    ensures s == [] || s == "-" || s == "+" ==> r.None?
    ensures (exists i :: 1 <= i < |s| && !IsDigit(s[i])) ==> r.None?
    ensures |s| > 0 && !IsDigit(s[0]) && s[0] != '-' && s[0] != '+' ==> r.None?
    ensures |s| > 0 && (IsDigit(s[0]) || ((s[0] == '-' || s[0] == '+') && |s| > 1)) && AllDigits(s[1..]) &&
            INT_MIN <= (if s[0] == '-' then -(DigitsValue(s[1..]) as int)
                        else if s[0] == '+' then DigitsValue(s[1..]) else DigitsValue(s)) <= INT_MAX
            ==> r.Some?
  {
    if |s| == 0 then None
    else
      var digits := if s[0] == '-' || s[0] == '+' then s[1..] else s;
      if |digits| == 0 || !AllDigits(digits) then None
      else
        var v := if s[0] == '-' then -(DigitsValue(digits) as int) else DigitsValue(digits);
        if INT_MIN <= v <= INT_MAX then Some(v) else None
  }

  /** The decimal digits of a natural number, without leading zeros. */
  function Digits(n: nat): (s: string)
    ensures |s| > 0 && AllDigits(s)
  {
    if n < 10 then [('0' as int + n) as char]
    else Digits(n / 10) + [('0' as int + n % 10) as char]
  }

  /** Integer.toString: the decimal rendering, with '-' for a negative value. */
  function FormatInt(n: int): string
  {
    if n < 0 then "-" + Digits(-n) else Digits(n)
  }

  lemma {:induction false} DigitsRoundTrip(n: nat)
    ensures DigitsValue(Digits(n)) == n
  {
    if n >= 10 {
      DigitsRoundTrip(n / 10);
      var s := Digits(n);
      assert s[..|s| - 1] == Digits(n / 10);
    }
  }

  /** Integer.parseInt accepts the rendering of every 32-bit value and gives that value back. */
  lemma ParseFormatRoundTrip(n: int)
    requires INT_MIN <= n <= INT_MAX
    ensures ParseInt(FormatInt(n)) == Some(n)
  {
    var s := FormatInt(n);
    if n < 0 {
      DigitsRoundTrip(-n);
      assert s[1..] == Digits(-n);
    } else {
      DigitsRoundTrip(n);
    }
  }

  /** String.contains: `term` occurs as a contiguous piece of `s` (the empty term always does). */
  predicate Contains(s: string, term: string)
  {
    exists i :: 0 <= i <= |s| - |term| && OccursAt(s, term, i)
  }

  predicate OccursAt(s: string, term: string, i: int)
  {
    0 <= i <= |s| - |term| && s[i..i + |term|] == term
  }

  /**
   * String.contains on the edge cases: every string contains the empty string and
   * itself, and none contains a longer string.
   */
  lemma ContainsEdges(s: string, term: string)
    ensures Contains(s, "") && Contains(s, s)
    ensures |term| > |s| ==> !Contains(s, term)
  {
    assert OccursAt(s, "", 0) by {
      assert s[0..0] == "";
    }
    assert OccursAt(s, s, 0) by {
      assert s[0..|s|] == s;
    }
  }
}
