/**
 * The fragments of Python semantics the bot relies on: truthiness of
 * optional values, `x or ''`, `str(x)` inside an f-string, and `int(token)`
 * on one whitespace-free token together with its inverse `str(n)`.
 */
module Python {
  import opened Wrappers

  /** Truthiness of a `str` or `None`: both `None` and `''` are false. */
  predicate StrTruthy(s: Option<string>)
    ensures StrTruthy(s) <==> s != None && s != Some("")
  {
    s.Some? && s.value != ""
  }

  /** Truthiness of an `int` or `None`: both `None` and `0` are false. */
  predicate IntTruthy(n: Option<int>)
    ensures IntTruthy(n) <==> n != None && n != Some(0)
  {
    n.Some? && n.value != 0
  }

  /** `s or ''` for a `str` or `None`. */
  function OrEmpty(s: Option<string>): (r: string)
    ensures r == "" || StrTruthy(s)
    ensures StrTruthy(s) ==> Some(r) == s
  {
    if StrTruthy(s) then s.value else ""
  }

  /** `str(s)` (an f-string hole) for a `str` or `None`: `None` prints as `None`. */
  function Str(s: Option<string>): (r: string)
    ensures s.Some? ==> r == s.value
    ensures s.None? ==> r == "None"
  {
    match s
    case None => "None"
    case Some(v) => v
  }

  predicate IsDigit(c: char) {
    '0' <= c <= '9'
  }

  predicate AllDigits(s: string) {
    forall i :: 0 <= i < |s| ==> IsDigit(s[i])
  }

  function DigitValue(c: char): (d: nat)
    requires IsDigit(c)
    ensures d < 10
  {
    c as int - '0' as int
  }

  function DigitChar(d: nat): (c: char)
    requires d < 10
    ensures IsDigit(c) && DigitValue(c) == d
  {
    ('0' as int + d) as char
  }

  /** The value of a string of decimal digits, most significant first. */
  function DigitsValue(s: string): (v: nat)
    requires AllDigits(s)
  {
    if s == [] then 0 else 10 * DigitsValue(s[..|s| - 1]) + DigitValue(s[|s| - 1])
  }

  predicate IsSign(c: char) {
    c == '-' || c == '+'
  }

  /**
   * `int(token)`: an optional sign followed by at least one decimal digit.
   * `None` stands for the `ValueError` Python raises on anything else.
   */
  function ParseInt(t: string): (r: Option<int>)
    ensures r.Some? ==> |t| > 0 && AllDigits(t[1..]) && (IsDigit(t[0]) || (IsSign(t[0]) && |t| > 1))
    ensures r.Some? && r.value < 0 ==> t[0] == '-'
    ensures r.Some? && t[0] != '-' ==> r.value >= 0
    // and every well-formed token is accepted
    ensures |t| > 0 && AllDigits(t[1..]) && (IsDigit(t[0]) || (IsSign(t[0]) && |t| > 1)) ==> r.Some?
  {
    if |t| > 0 && IsSign(t[0]) then
      var ds := t[1..];
      if ds != [] && AllDigits(ds) then
        var magnitude: int := DigitsValue(ds);
        Some(if t[0] == '-' then -magnitude else magnitude)
      else
        None
    else if t != [] && AllDigits(t) then
      Some(DigitsValue(t))
    else
      None
  }

  /** `str(n)` for a natural number: its shortest decimal digits. */
  function ShowNat(n: nat): (s: string)
    ensures |s| > 0 && AllDigits(s)
    ensures n > 0 ==> s[0] != '0'
    decreases n
  {
    if n < 10 then [DigitChar(n)] else ShowNat(n / 10) + [DigitChar(n % 10)]
  }

  /**
   * `str(n)` for an integer, as the bot's replies print channel ids: a `-`
   * exactly for negative numbers, then digits with no leading zero.
   */
  function ShowInt(n: int): (r: string)
    ensures |r| > 0 && (r[0] == '-' <==> n < 0)
    ensures var digits := if n < 0 then r[1..] else r;
      |digits| > 0 && AllDigits(digits) && (digits[0] == '0' ==> n == 0)
  {
    if n < 0 then "-" + ShowNat(-n) else ShowNat(n)
  }

  lemma {:induction false} ShowNatDigits(n: nat)
    ensures |ShowNat(n)| > 0 && AllDigits(ShowNat(n))
    ensures DigitsValue(ShowNat(n)) == n
    decreases n
  {
    var s := ShowNat(n);
    if n >= 10 {
      ShowNatDigits(n / 10);
      assert s[..|s| - 1] == ShowNat(n / 10);
    } else {
      assert s[..|s| - 1] == [];
    }
  }

  /** Reading back what `str` printed gives the same integer: `int(str(n)) == n`. */
  lemma ParseShowRoundTrip(n: int)
    ensures ParseInt(ShowInt(n)) == Some(n)
  {
    var t := ShowInt(n);
    if n < 0 {
      var ds := ShowNat(-n);
      ShowNatDigits(-n);
      assert t == "-" + ds;
      assert t[1..] == ds;
      assert IsSign(t[0]) && ds != [] && AllDigits(ds);
    } else {
      ShowNatDigits(n);
      assert t == ShowNat(n);
      assert !IsSign(t[0]);
    }
  }

  /** A character that is neither a digit nor a leading sign makes `int()` fail. */
  lemma ParseIntRejects(t: string, i: nat)
    requires i < |t| && !IsDigit(t[i])
    requires i > 0 || !IsSign(t[i])
    ensures ParseInt(t) == None
  {
    if |t| > 0 && IsSign(t[0]) {
      assert t[1..][i - 1] == t[i];
    }
  }

  /** The empty token and a bare sign are not integers. */
  lemma ParseIntNeedsDigit(t: string)
    requires t == "" || (|t| == 1 && IsSign(t[0]))
    ensures ParseInt(t) == None
  {
  }

  /** `k` zero digits. */
  function Zeros(k: nat): (z: string)
    ensures |z| == k && AllDigits(z)
  {
    seq(k, _ => '0')
  }

  /**
   * Like `int()`, any sign and any number of leading zeros are accepted:
   * `int('-007') == -7`, `int('+0') == 0`.
   */
  lemma ParseIntLenient(sign: string, zeros: nat, n: nat)
    requires sign == "" || sign == "+" || sign == "-"
    ensures ParseInt(sign + Zeros(zeros) + ShowNat(n)) == Some(if sign == "-" then -(n as int) else n)
  {
    ShowNatDigits(n);
    ZerosPrefix(zeros, ShowNat(n));
    var ds := Zeros(zeros) + ShowNat(n);
    assert sign + Zeros(zeros) + ShowNat(n) == sign + ds;
    ParseSigned(sign, ds);
  }

  /** An optional sign followed by digits parses to their signed value. */
  lemma ParseSigned(sign: string, ds: string)
    requires sign == "" || sign == "+" || sign == "-"
    requires ds != [] && AllDigits(ds)
    ensures ParseInt(sign + ds) == Some(if sign == "-" then -(DigitsValue(ds) as int) else DigitsValue(ds))
  {
    var t := sign + ds;
    if sign == "" {
      assert t == ds;
      assert !IsSign(ds[0]);
    } else {
      assert t[1..] == ds;
    }
  }

  lemma {:induction false} ZerosPrefix(k: nat, s: string)
    requires |s| > 0 && AllDigits(s)
    ensures AllDigits(Zeros(k) + s) && DigitsValue(Zeros(k) + s) == DigitsValue(s)
    decreases k
  {
    if k == 0 {
      assert Zeros(k) + s == s;
    } else {
      ZerosPrefix(k - 1, s);
      assert Zeros(k) + s == "0" + (Zeros(k - 1) + s);
      ZeroPrefix(Zeros(k - 1) + s);
    }
  }

  lemma {:induction false} ZeroPrefix(s: string)
    requires AllDigits(s)
    ensures AllDigits("0" + s) && DigitsValue("0" + s) == DigitsValue(s)
    decreases |s|
  {
    var z := "0" + s;
    if s != [] {
      assert z[..|z| - 1] == "0" + s[..|s| - 1];
      ZeroPrefix(s[..|s| - 1]);
    }
  }
}
