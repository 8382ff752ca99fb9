/** How a path segment is rendered by an f-string such as `f"/user/{user_id}"`,
    where the id is an `int` or a `str`: a string is inserted as it is, an int
    as `str(n)`, its decimal digits with a leading `-` when negative, provided
    it has no more digits than Python's conversion limit. */
module Format {
  import opened Values

  predicate IsDigit(c: char) {
    '0' <= c <= '9'
  }

  predicate AllDigits(s: string) {
    forall i :: 0 <= i < |s| ==> IsDigit(s[i])
  }

  function DigitChar(d: nat): (c: char)
    requires d < 10
    ensures IsDigit(c) && (c - '0') as int == d
  {
    ('0' as int + d) as char
  }

  /** The decimal digits of `n`, most significant first, without leading zeros. */
  function NatToDecimal(n: nat): (s: string)
    ensures |s| > 0 && AllDigits(s)
    ensures s[0] == '0' ==> n == 0 && s == "0"
  {
    if n < 10 then [DigitChar(n)] else NatToDecimal(n / 10) + [DigitChar(n % 10)]
  }

  /** The value of a string of decimal digits. */
  function DecimalValue(s: string): nat
    requires AllDigits(s)
  {
    if s == [] then 0 else DecimalValue(s[..|s| - 1]) * 10 + (s[|s| - 1] - '0') as int
  }

  lemma {:induction false} DecimalRoundTrip(n: nat)
    ensures DecimalValue(NatToDecimal(n)) == n
  {
    if n >= 10 {
      var s := NatToDecimal(n);
      assert s[..|s| - 1] == NatToDecimal(n / 10);
      DecimalRoundTrip(n / 10);
    }
  }

  /** `str(n)` for a Python int. */
  function IntToDecimal(n: int): (s: string)
    ensures IsIntText(s)
    ensures n < 0 <==> s[0] == '-'
    ensures s[0] == '0' ==> s == "0"
    ensures s[0] == '-' ==> |s| > 1 && s[1] != '0'
  {
    if n < 0 then "-" + NatToDecimal(-n) else NatToDecimal(n)
  }

  /** The strings `str(n)` can produce: digits, optionally after one `-`. */
  predicate IsIntText(s: string) {
    |s| > 0 && if s[0] == '-' then AllDigits(s[1..]) else AllDigits(s)
  }

  /** Reads back what `IntToDecimal` writes. */
  function ParseInt(s: string): int
    requires IsIntText(s)
  {
    if s[0] == '-' then -(DecimalValue(s[1..]) as int) else DecimalValue(s)
  }

  /** Rendering an int loses nothing: the number can be read back. */
  lemma IntRoundTrip(n: int)
    ensures ParseInt(IntToDecimal(n)) == n
  {
    if n < 0 {
      assert IntToDecimal(n)[1..] == NatToDecimal(-n);
      DecimalRoundTrip(-n);
    } else {
      DecimalRoundTrip(n);
    }
  }

  /** Two different ints are rendered as different strings. */
  lemma IntToDecimalInjective(m: int, n: int)
    requires IntToDecimal(m) == IntToDecimal(n)
    ensures m == n
  {
    IntRoundTrip(m);
    IntRoundTrip(n);
  }

  /** Python's default limit on the number of decimal digits `str()` will
      produce for an int (`sys.get_int_max_str_digits()`). */
  const MaxStrDigits := 4300
  const MaxStrDigitsMessage := "Exceeds the limit (4300 digits) for integer string conversion; use sys.set_int_max_str_digits() to increase the limit"

  function Abs(n: int): nat {
    if n < 0 then -n else n
  }

  function Pow10(k: nat): (p: nat)
    ensures p >= 1
  {
    if k == 0 then 1 else 10 * Pow10(k - 1)
  }

  /** The number of digits of `n` is at most `k` exactly when `n < 10^k`, so
      the digit limit is a bound on the magnitude of the id. */
  lemma {:induction false} DigitCountBound(n: nat, k: nat)
    requires k >= 1
    ensures |NatToDecimal(n)| <= k <==> n < Pow10(k)
  {
    if n >= 10 {
      assert |NatToDecimal(n)| == |NatToDecimal(n / 10)| + 1;
      if k == 1 {
        assert Pow10(1) == 10;
      } else {
        DigitCountBound(n / 10, k - 1);
        assert n / 10 < Pow10(k - 1) <==> n < 10 * Pow10(k - 1);
      }
    } else {
      assert Pow10(k) == 10 * Pow10(k - 1);
    }
  }

  /** A user or device id as the facades accept it: `Union[int, str]`. */
  datatype PathId = IntId(n: int) | StrId(s: string)

  /** The text an f-string inserts for the id. An int with more digits than
      the limit makes the conversion raise. */
  function Render(id: PathId): (r: Result<string>)
    ensures r.Err? <==> id.IntId? && |NatToDecimal(Abs(id.n))| > MaxStrDigits
    ensures r.Err? ==> r.error == ValueError(MaxStrDigitsMessage)
    ensures id.StrId? ==> r == Ok(id.s)
    ensures r.Ok? && id.IntId? ==> r.value == IntToDecimal(id.n)
    ensures r.Ok? && id.IntId? ==> IsIntText(r.value) && ParseInt(r.value) == id.n
  {
    match id
    case StrId(s) => Ok(s)
    case IntId(n) =>
      if |NatToDecimal(Abs(n))| > MaxStrDigits then Err(ValueError(MaxStrDigitsMessage))
      else IntRoundTrip(n); Ok(IntToDecimal(n))
  }

  /** An int id renders exactly when its magnitude is below `10^4300`. */
  lemma RenderIntIff(n: int)
    ensures Render(IntId(n)).Ok? <==> Abs(n) < Pow10(MaxStrDigits)
  {
    DigitCountBound(Abs(n), MaxStrDigits);
  }
}
