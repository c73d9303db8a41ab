/**
 * Integer parsing and printing as the two implementations use it: Rust's
 * `str::parse::<u64>` and `u64::to_string`, Go's `strconv.ParseInt(s, 10, 64)`
 * and `strconv.FormatInt(n, 10)`.
 */
module Numbers {
  import opened Wrappers
  import opened Strs

  const U64_LIMIT: int := 0x1_0000_0000_0000_0000
  const I64_LIMIT: int := 0x8000_0000_0000_0000

  newtype u64 = x: int | 0 <= x < 0x1_0000_0000_0000_0000
  newtype i64 = x: int | -0x8000_0000_0000_0000 <= x < 0x8000_0000_0000_0000

  function DigitValue(c: char): (d: nat)
    requires IsAsciiDigit(c)
    ensures d < 10
  {
    (c as int) - ('0' as int)
  }

  function DigitChar(d: nat): (c: char)
    requires d < 10
    ensures IsAsciiDigit(c) && DigitValue(c) == d
  {
    (('0' as int) + d) as char
  }

  /** Decimal notation without sign or leading zeros: `to_string` of an unsigned value. */
  function Decimal(n: nat): (s: string)
    ensures s != [] && AllDigits(s)
    ensures s[0] == '0' ==> n == 0
  {
    if n < 10 then [DigitChar(n)] else Decimal(n / 10) + [DigitChar(n % 10)]
  }

  /** The value of a digit string read left to right, starting from `acc`. */
  function DigitsValueFrom(d: string, acc: nat): nat
    requires AllDigits(d)
  {
    if d == [] then acc else DigitsValueFrom(d[1..], acc * 10 + DigitValue(d[0]))
  }

  function DigitsValue(d: string): nat
    requires AllDigits(d)
  {
    DigitsValueFrom(d, 0)
  }

  lemma {:induction false} DigitsValueFromGrows(d: string, acc: nat)
    requires AllDigits(d)
    ensures DigitsValueFrom(d, acc) >= acc
  {
    if d != [] {
      DigitsValueFromGrows(d[1..], acc * 10 + DigitValue(d[0]));
    }
  }

  lemma {:induction false} DigitsValueFromAppend(a: string, b: string, acc: nat)
    requires AllDigits(a) && AllDigits(b)
    ensures AllDigits(a + b)
    ensures DigitsValueFrom(a + b, acc) == DigitsValueFrom(b, DigitsValueFrom(a, acc))
  {
    if a != [] {
      assert (a + b)[1..] == a[1..] + b;
      DigitsValueFromAppend(a[1..], b, acc * 10 + DigitValue(a[0]));
    } else {
      assert a + b == b;
    }
  }

  /** Reading the decimal notation of `n` gives `n` back. */
  lemma {:induction false} DigitsValueOfDecimal(n: nat)
    ensures DigitsValue(Decimal(n)) == n
  {
    if n >= 10 {
      DigitsValueOfDecimal(n / 10);
      DigitsValueFromAppend(Decimal(n / 10), [DigitChar(n % 10)], 0);
      assert [DigitChar(n % 10)][1..] == [];
      assert DigitsValueFrom([DigitChar(n % 10)], n / 10) == (n / 10) * 10 + n % 10;
    }
  }

  /** Why a Rust integer parse failed: `core::num::IntErrorKind`. */
  datatype IntErrorKind = Empty | InvalidDigit | PosOverflow

  /** `ParseIntError`'s `Display` text for each kind. */
  function IntErrorText(kind: IntErrorKind): string {
    match kind
    case Empty => "cannot parse integer from empty string"
    case InvalidDigit => "invalid digit found in string"
    case PosOverflow => "number too large to fit in target type"
  }

  /**
   * The digit loop of `u64::from_str_radix(_, 10)`: the first character that
   * is not a digit, or the first step that leaves the 64-bit range, decides
   * the error, whichever comes first.
   */
  function ParseDigitsFrom(d: string, acc: u64): Result<u64, IntErrorKind> {
    if d == [] then Ok(acc)
    else if !IsAsciiDigit(d[0]) then Err(InvalidDigit)
    else if (acc as int) * 10 + DigitValue(d[0]) >= U64_LIMIT then Err(PosOverflow)
    else ParseDigitsFrom(d[1..], ((acc as int) * 10 + DigitValue(d[0])) as u64)
  }

  /** The text after one leading sign character, if there is one. */
  function Magnitude(s: string): (m: string)
    ensures |m| >= |s| - 1
  {
    if |s| > 0 && (s[0] == '+' || s[0] == '-') then s[1..] else s
  }

  /**
   * The digit loop succeeds exactly on a digit string whose value stays in
   * the 64-bit range, and yields that value; it never reports `Empty`.
   */
  lemma {:induction false} ParseDigitsFromOk(d: string, acc: u64)
    ensures ParseDigitsFrom(d, acc).Ok? <==> AllDigits(d) && DigitsValueFrom(d, acc as nat) < U64_LIMIT
    ensures ParseDigitsFrom(d, acc).Ok? ==> ParseDigitsFrom(d, acc).value as int == DigitsValueFrom(d, acc as nat)
    ensures ParseDigitsFrom(d, acc) != Err(Empty)
  {
    if AllDigits(d) {
      ParseDigitsFromValue(d, acc);
    } else if IsAsciiDigit(d[0]) && (acc as int) * 10 + DigitValue(d[0]) < U64_LIMIT {
      assert !AllDigits(d[1..]) by {
        var i :| 0 <= i < |d| && !IsAsciiDigit(d[i]);
        assert d[1..][i - 1] == d[i];
      }
      ParseDigitsFromOk(d[1..], ((acc as int) * 10 + DigitValue(d[0])) as u64);
    }
  }

  /**
   * `s.parse::<u64>()`: an optional leading '+', then at least one digit;
   * a lone sign is an invalid digit, and '-' is never accepted.
   */
  function ParseU64(s: string): (r: Result<u64, IntErrorKind>)
    ensures r == Err(Empty) <==> s == []
    ensures r.Ok? <==>
      && s != [] && s[0] != '-'
      && Magnitude(s) != [] && AllDigits(Magnitude(s)) && DigitsValue(Magnitude(s)) < U64_LIMIT
    ensures r.Ok? ==> r.value as int == DigitsValue(Magnitude(s))
    ensures s != [] && s[0] != '-' && Magnitude(s) != [] && AllDigits(Magnitude(s)) && r.Err? ==>
      r.error == PosOverflow
  {
    if s == [] then Err(Empty)
    else if (s[0] == '+' || s[0] == '-') && |s| == 1 then Err(InvalidDigit)
    else if s[0] == '+' then ParseDigitsFromOk(s[1..], 0); ParseDigitsOverflowOnly(s[1..]); ParseDigitsFrom(s[1..], 0)
    else ParseDigitsFromOk(s, 0); ParseDigitsOverflowOnly(s); ParseDigitsFrom(s, 0)
  }

  /** On a digit string the loop fails only by overflow. */
  lemma ParseDigitsOverflowOnly(d: string)
    ensures AllDigits(d) && ParseDigitsFrom(d, 0).Err? ==> ParseDigitsFrom(d, 0).error == PosOverflow
  {
    if AllDigits(d) {
      ParseDigitsFromValue(d, 0);
    }
  }

  /** On a digit string the parse fails exactly when the value leaves the 64-bit range. */
  lemma {:induction false} ParseDigitsFromValue(d: string, acc: u64)
    requires AllDigits(d)
    ensures ParseDigitsFrom(d, acc) ==
      if DigitsValueFrom(d, acc as nat) < U64_LIMIT then Ok(DigitsValueFrom(d, acc as nat) as u64)
      else Err(PosOverflow)
  {
    if d != [] {
      var next := (acc as int) * 10 + DigitValue(d[0]);
      if next >= U64_LIMIT {
        DigitsValueFromGrows(d[1..], next);
      } else {
        ParseDigitsFromValue(d[1..], next as u64);
      }
    }
  }

  /**
   * What `s.parse::<u64>()` accepts: an unsigned or '+'-signed digit string
   * whose value fits in 64 bits, and the value it yields is that number.
   */
  lemma ParseU64Digits(s: string)
    requires s != [] && AllDigits(s)
    ensures ParseU64(s).Ok? <==> DigitsValue(s) < U64_LIMIT
    ensures ParseU64(s).Ok? ==> ParseU64(s).value as int == DigitsValue(s)
    ensures ParseU64(s).Err? ==> ParseU64(s).error == PosOverflow
  {
    ParseDigitsFromValue(s, 0);
  }

  /** `n.to_string().parse::<u64>() == Ok(n)`. */
  lemma ParseU64Decimal(n: u64)
    ensures ParseU64(Decimal(n as nat)) == Ok(n)
  {
    DigitsValueOfDecimal(n as nat);
    ParseU64Digits(Decimal(n as nat));
  }

  /**
   * `strconv.ParseInt(s, 10, 64)` when it succeeds: an optional sign, then
   * at least one digit, within the signed 64-bit range.
   */
  function ParseInt64(s: string): (r: Option<i64>)
    ensures r.Some? ==> s != [] && Magnitude(s) != [] && AllDigits(Magnitude(s))
    ensures r.Some? ==> Abs(r.value as int) == DigitsValue(Magnitude(s))
    ensures r.Some? && r.value < 0 ==> s[0] == '-'
    ensures r.Some? && s[0] == '-' ==> r.value <= 0
    ensures s != [] && AllDigits(s) ==> (r.Some? <==> DigitsValue(s) < I64_LIMIT)
    ensures s != [] && Magnitude(s) != [] && AllDigits(Magnitude(s)) ==>
      (r.Some? <==> DigitsValue(Magnitude(s)) < I64_LIMIT + (if s[0] == '-' then 1 else 0))
  {
    var negative := |s| > 0 && s[0] == '-';
    var digits := if |s| > 0 && (s[0] == '+' || s[0] == '-') then s[1..] else s;
    if digits == [] || !AllDigits(digits) then None
    else if negative then
      (if DigitsValue(digits) <= I64_LIMIT then Some((0 - DigitsValue(digits) as int) as i64) else None)
    else
      (if DigitsValue(digits) < I64_LIMIT then Some(DigitsValue(digits) as i64) else None)
  }

  function Abs(x: int): nat {
    if x < 0 then -x else x
  }

  /** `strconv.FormatInt(n, 10)`: a '-' exactly for a negative value, then the digits of its size. */
  function FormatInt(n: i64): (s: string)
    ensures s != [] && (s[0] == '-' <==> n < 0)
    ensures AllDigits(Magnitude(s)) && DigitsValue(Magnitude(s)) == Abs(n as int)
  {
    DigitsValueOfDecimal(Abs(n as int));
    if n < 0 then
      assert ("-" + Decimal(-(n as int)))[1..] == Decimal(-(n as int));
      "-" + Decimal(-(n as int))
    else Decimal(n as nat)
  }

  /** Printing a value with `FormatInt` and parsing it back with `ParseInt` gives it back. */
  lemma ParseInt64Decimal(n: i64)
    ensures ParseInt64(FormatInt(n)) == Some(n)
  {
    if n >= 0 {
      DigitsValueOfDecimal(n as nat);
    } else {
      var m := -(n as int);
      DigitsValueOfDecimal(m);
      assert FormatInt(n)[1..] == Decimal(m);
    }
  }
}
