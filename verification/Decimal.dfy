/** Unsigned decimal numbers as Go's strconv.FormatUint and ParseUint (base 10, 32 bits) treat them. */
module Decimal {
  import opened Wrappers

  const LIMIT: nat := 0x1_0000_0000

  function Format(n: nat): string {
    if n < 10 then [('0' as int + n) as char]
    else Format(n / 10) + [('0' as int + n % 10) as char]
  }

  predicate AllDigits(s: string) {
    forall i | 0 <= i < |s| :: '0' <= s[i] <= '9'
  }

  function Value(s: string): nat
    requires AllDigits(s)
  {
    if s == "" then 0 else Value(s[..|s| - 1]) * 10 + (s[|s| - 1] as int - '0' as int)
  }

  /** Leading zeros are accepted; a sign, a space or an underscore is not. */
  function Parse(s: string): Option<nat> {
    if s != "" && AllDigits(s) && Value(s) < LIMIT then Some(Value(s)) else None
  }

  lemma {:induction false} FormatValue(n: nat)
    ensures Format(n) != "" && AllDigits(Format(n)) && Value(Format(n)) == n
    ensures n > 0 ==> Format(n)[0] != '0'
  {
    if n >= 10 {
      FormatValue(n / 10);
      var s := Format(n);
      assert s[..|s| - 1] == Format(n / 10);
    } else {
      assert Format(n)[..0] == "";
    }
  }

  lemma RoundTrip(n: nat)
    requires n < LIMIT
    ensures Parse(Format(n)) == Some(n)
  {
    FormatValue(n);
  }

  predicate AllZeros(s: string) {
    forall i | 0 <= i < |s| :: s[i] == '0'
  }

  lemma {:induction false} ZeroValue(s: string)
    requires AllDigits(s)
    ensures Value(s) == 0 <==> AllZeros(s)
  {
    if s != "" {
      ZeroValue(s[..|s| - 1]);
    }
  }

  /** Digits put in front of a number leave its value alone only when they are all zeros. */
  lemma {:induction false} PrefixValue(a: string, b: string)
    requires AllDigits(a) && AllDigits(b)
    ensures AllDigits(a + b)
    ensures Value(a + b) >= Value(b)
    ensures Value(a + b) == Value(b) <==> AllZeros(a)
  {
    if b == "" {
      assert a + b == a;
      ZeroValue(a);
    } else {
      PrefixValue(a, b[..|b| - 1]);
      assert (a + b)[..|a + b| - 1] == a + b[..|b| - 1];
    }
  }
}
