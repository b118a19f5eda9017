/**
 Java's 64-bit `long`: its range, its two's-complement wrap-around, and
 `Long.parseLong` (decimal), which `DiscordUser.getIdAsLong` relies on.
 */
module JavaLong {
  import opened JavaBasics

  const MinLong: int := -0x8000_0000_0000_0000
  const MaxLong: int := 0x7fff_ffff_ffff_ffff

  type Long = x: int | MinLong <= x <= MaxLong

  /** The `long` that Java's arithmetic yields for the mathematical value `x`. */
  function Wrap(x: int): (r: Long)
    ensures (r - x) % 0x1_0000_0000_0000_0000 == 0
  {
    (x - MinLong) % 0x1_0000_0000_0000_0000 + MinLong
  }

  /** A value already in range is its own wrap. */
  lemma WrapInRange(x: int)
    requires MinLong <= x <= MaxLong
    ensures Wrap(x) == x
  {
  }

  // ---------------------------------------------------------------------
  // Decimal literals

  predicate IsDigit(ch: char)
  {
    '0' <= ch <= '9'
  }

  predicate AllDigits(s: string)
  {
    forall i :: 0 <= i < |s| ==> IsDigit(s[i])
  }

  /** The value of a string of decimal digits, most significant first. */
  function DigitsValue(s: string): nat
    requires AllDigits(s)
    decreases |s|
  {
    if |s| == 0 then 0
    else 10 * DigitsValue(s[..|s| - 1]) + (s[|s| - 1] as int - '0' as int)
  }

  /** Length of the optional leading sign. */
  function SignLength(s: string): nat
  {
    if |s| > 0 && (s[0] == '-' || s[0] == '+') then 1 else 0
  }

  /** An optional '+' or '-' followed by at least one decimal digit. */
  predicate IsLongLiteral(s: string)
  {
    SignLength(s) < |s| && AllDigits(s[SignLength(s)..])
  }

  function LiteralValue(s: string): int
    requires IsLongLiteral(s)
  {
    var magnitude := DigitsValue(s[SignLength(s)..]);
    if s[0] == '-' then -(magnitude as int) else magnitude
  }

  /** `Long.parseLong(s)` on ASCII input: the value of a signed decimal literal
      that fits in a `long`, and `None` (a `NumberFormatException`) for
      anything else. */
  function ParseLong(s: string): (r: Option<int>)
    ensures r.Some? ==> MinLong <= r.value <= MaxLong
    ensures r.Some? <==> IsLongLiteral(s) && MinLong <= LiteralValue(s) <= MaxLong
  {
    if IsLongLiteral(s) && MinLong <= LiteralValue(s) <= MaxLong then Some(LiteralValue(s)) else None
  }

  /** Java's `/` on `long`: rounds toward zero. */
  function TruncDiv(a: int, b: int): int
    requires b > 0
  {
    if a >= 0 then a / b else -((-a) / b)
  }

  /** The digit loop of `Long.parseLong` as the JDK writes it: it accumulates
      the value negatively so that `Long.MIN_VALUE` is reachable, and it rejects
      an overflow before it can happen by comparing against `limit / 10`
      before multiplying and against `limit + digit` before subtracting. */
  method ParseLongLoop(s: string) returns (r: Option<int>)
    ensures r == ParseLong(s)
  {
    var len := |s|;
    if len == 0 {
      return None;
    }
    var negative := false;
    var limit := -MaxLong;
    var i := 0;
    var first := s[0];
    if first < '0' {
      if first == '-' {
        negative := true;
        limit := MinLong;
      } else if first != '+' {
        assert !IsDigit(s[SignLength(s)..][0]);
        return None;
      }
      if len == 1 {
        return None;
      }
      i := 1;
    }
    var start := i;
    assert start == SignLength(s);
    var multmin := TruncDiv(limit, 10);
    var result := 0;
    while i < len
      invariant start <= i <= len
      invariant AllDigits(s[start..i])
      invariant result == -(DigitsValue(s[start..i]) as int)
      invariant limit <= result <= 0
    {
      var ch := s[i];
      if !IsDigit(ch) || result < multmin {
        NoLiteralBeyond(s, start, i, negative, limit);
        return None;
      }
      var digit := ch as int - '0' as int;
      assert s[start..i + 1][..i - start] == s[start..i];
      result := result * 10;
      if result < limit + digit {
        NoLiteralBeyond(s, start, i, negative, limit);
        return None;
      }
      result := result - digit;
      i := i + 1;
    }
    assert s[start..i] == s[SignLength(s)..];
    r := if negative then Some(result) else Some(-result);
  }

  /** Why each early exit of the digit loop is right: the digits read so far
      already push the magnitude past what the sign allows, or a non-digit
      follows the sign. */
  lemma NoLiteralBeyond(s: string, start: nat, i: nat, negative: bool, limit: int)
    requires start == SignLength(s) && start <= i < |s|
    requires negative <==> s[0] == '-'
    requires limit == (if negative then MinLong else -MaxLong)
    requires AllDigits(s[start..i])
    requires !IsDigit(s[i])
          || DigitsValue(s[start..i]) > 922337203685477580
          || 10 * DigitsValue(s[start..i]) + (s[i] as int - '0' as int) > -limit
    ensures ParseLong(s) == None
  {
    var tail := s[start..];
    assert s[i] == tail[i - start];
    if AllDigits(tail) {
      assert IsDigit(s[i]);
      assert tail[..i - start + 1][..i - start] == s[start..i];
      DigitsValuePrefix(tail, i - start + 1);
    }
  }

  /** A prefix of a digit string never has a larger value than the whole. */
  lemma {:induction false} DigitsValuePrefix(s: string, k: nat)
    requires AllDigits(s) && k <= |s|
    ensures DigitsValue(s[..k]) <= DigitsValue(s)
    decreases |s| - k
  {
    if k < |s| {
      DigitsValuePrefix(s, k + 1);
      assert s[..k + 1][..k] == s[..k];
    } else {
      assert s[..k] == s;
    }
  }

  // ---------------------------------------------------------------------
  // Decimal rendering, the inverse of parsing

  function DigitChar(d: nat): char
    requires d < 10
  {
    ('0' as int + d) as char
  }

  /** `Long.toString(n)` for a non-negative `n`. */
  function DecimalString(n: nat): (r: string)
    ensures |r| >= 1 && AllDigits(r)
  {
    if n < 10 then [DigitChar(n)] else DecimalString(n / 10) + [DigitChar(n % 10)]
  }

  lemma {:induction false} DigitsValueOfDecimalString(n: nat)
    ensures DigitsValue(DecimalString(n)) == n
  {
    var s := DecimalString(n);
    if n >= 10 {
      DigitsValueOfDecimalString(n / 10);
      assert s[..|s| - 1] == DecimalString(n / 10);
    }
  }

  /** Parsing the decimal rendering of a non-negative `long` gives it back. */
  lemma ParseDecimalString(n: nat)
    requires n <= MaxLong
    ensures ParseLong(DecimalString(n)) == Some(n)
  {
    var s := DecimalString(n);
    assert IsDigit(s[0]);
    assert s[SignLength(s)..] == s;
    DigitsValueOfDecimalString(n);
  }
}
