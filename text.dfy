/**
 * The pieces of Rust's standard formatting and parsing that the client
 * relies on: `{}` of an unsigned integer or a bool, `u64::from_str` and
 * `bool::from_str`.
 */
module Text {
  import opened Wrappers

  /** Rust's `u64`. */
  type U64 = n: int | 0 <= n < 0x1_0000_0000_0000_0000

  predicate IsDigit(c: char) {
    '0' <= c <= '9'
  }

  predicate IsDigits(s: string) {
    forall i :: 0 <= i < |s| ==> IsDigit(s[i])
  }

  predicate StartsWith(s: string, prefix: string) {
    |prefix| <= |s| && s[..|prefix|] == prefix
  }

  /** The two parts of a concatenation can be sliced back out of it. */
  lemma ConcatParts(x: string, y: string)
    ensures (x + y)[..|x|] == x && (x + y)[|x|..] == y
  {
  }

  lemma ConcatAssoc<T>(a: seq<T>, b: seq<T>, c: seq<T>)
    ensures (a + b) + c == a + (b + c)
  {
  }

  lemma AppendOneAssoc<T>(a: seq<T>, b: seq<T>, x: T)
    ensures a + (b + [x]) == (a + b) + [x]
  {
  }

  function DigitChar(d: nat): (c: char)
    requires d < 10
    ensures IsDigit(c) && c as int - '0' as int == d
  {
    ('0' as int + d) as char
  }

  /** `format!("{}", n)` for an unsigned integer: decimal, no leading zeros. */
  function NatToString(n: nat): (s: string)
    ensures |s| > 0 && IsDigits(s)
    ensures |s| > 1 ==> s[0] != '0'
    ensures s[0] == '0' <==> n == 0
    decreases n
  {
    if n < 10 then [DigitChar(n)] else NatToString(n / 10) + [DigitChar(n % 10)]
  }

  /** The number a string of decimal digits denotes (leading zeros allowed). */
  function DigitsValue(s: string): nat
    requires IsDigits(s)
  {
    if s == [] then 0
    else DigitsValue(s[..|s| - 1]) * 10 + (s[|s| - 1] as int - '0' as int)
  }

  /** Reading the decimal rendering back gives the number again. */
  lemma {:induction false} NatToStringRoundTrip(n: nat)
    ensures DigitsValue(NatToString(n)) == n
  {
    if n >= 10 {
      var s := NatToString(n);
      assert s[..|s| - 1] == NatToString(n / 10);
      NatToStringRoundTrip(n / 10);
    }
  }

  /** Distinct numbers render as distinct strings. */
  lemma NatToStringInjective(m: nat, n: nat)
    ensures NatToString(m) == NatToString(n) ==> m == n
  {
    NatToStringRoundTrip(m);
    NatToStringRoundTrip(n);
  }

  /**
   * `s.parse::<u64>()`: one optional leading `+` (but not `+` alone), then
   * at least one decimal digit and nothing else, and no overflow.
   */
  function ParseU64(s: string): (r: Option<U64>)
    ensures r.Some? <==>
      var digits := if s != [] && s[0] == '+' then s[1..] else s;
      digits != [] && IsDigits(digits) && DigitsValue(digits) < 0x1_0000_0000_0000_0000
    ensures r.Some? ==> r.value == DigitsValue(if s[0] == '+' then s[1..] else s)
  {
    var digits := if s != [] && s[0] == '+' then s[1..] else s;
    if digits != [] && IsDigits(digits) && DigitsValue(digits) < 0x1_0000_0000_0000_0000
    then Some(DigitsValue(digits) as U64)
    else None
  }

  /** Parsing accepts exactly what formatting produces for every `u64`. */
  lemma ParseU64OfNatToString(n: U64)
    ensures ParseU64(NatToString(n)) == Some(n)
  {
    NatToStringRoundTrip(n);
  }

  /** `format!("{}", b)` for a bool. */
  function BoolToString(b: bool): string {
    if b then "true" else "false"
  }

  /** `s.parse::<bool>()`: only the exact words `true` and `false`. */
  function ParseBool(s: string): (r: Option<bool>)
    ensures r.Some? <==> s == "true" || s == "false"
    ensures r == Some(true) <==> s == "true"
  {
    if s == "true" then Some(true) else if s == "false" then Some(false) else None
  }
}
