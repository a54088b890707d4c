/**
 * String operations for the client model. `TrimSuffix` and the decimal
 * rendering that `fmt.Sprintf("%d", n)` performs model calls the client
 * makes; `HasPrefix` and `HasSuffix` are predicates used to state
 * properties, and the decimal parser serves as the rendering's inverse.
 */
module Text {

  predicate HasPrefix(s: string, prefix: string) {
    |prefix| <= |s| && s[..|prefix|] == prefix
  }

  predicate HasSuffix(s: string, suffix: string) {
    |suffix| <= |s| && s[|s| - |suffix|..] == suffix
  }

  /** `strings.TrimSuffix`: removes one occurrence of `suffix` at the end, if present. */
  function TrimSuffix(s: string, suffix: string): (r: string)
    ensures HasSuffix(s, suffix) ==> r + suffix == s
    ensures !HasSuffix(s, suffix) ==> r == s
  {
    if HasSuffix(s, suffix) then s[..|s| - |suffix|] else s
  }

  /** Trimming "/" removes at most one slash: "x//" keeps one trailing "/". */
  lemma TrimSlashRemovesAtMostOne(s: string)
    ensures |s| - 1 <= |TrimSuffix(s, "/")| <= |s|
    ensures HasPrefix(s, TrimSuffix(s, "/"))
    ensures HasSuffix(s, "//") ==> HasSuffix(TrimSuffix(s, "/"), "/")
    ensures !HasSuffix(s, "/") ==> TrimSuffix(s, "/") == s
  {
  }

  predicate IsDigit(c: char) {
    '0' <= c <= '9'
  }

  predicate AllDigits(s: string) {
    forall i :: 0 <= i < |s| ==> IsDigit(s[i])
  }

  function DigitChar(d: nat): (c: char)
    requires d < 10
    ensures IsDigit(c)
  {
    ('0' as int + d) as char
  }

  function DigitValue(c: char): (d: nat)
    requires IsDigit(c)
    ensures d < 10
  {
    c as int - '0' as int
  }

  /** The decimal digits of `n`, most significant first, without leading zeros. */
  function NatString(n: nat): (s: string)
    ensures |s| > 0 && AllDigits(s)
    ensures |s| > 1 ==> s[0] != '0'
    ensures s[0] == '0' <==> n == 0
  {
    if n < 10 then [DigitChar(n)] else NatString(n / 10) + [DigitChar(n % 10)]
  }

  /** `fmt.Sprintf("%d", n)`: a leading "-" for negative numbers. */
  function IntString(n: int): (s: string)
    ensures |s| > 0 && (s[0] == '-' <==> n < 0)
    ensures n < 0 ==> |s| > 1 && s[1] != '0'
    ensures n >= 0 && |s| > 1 ==> s[0] != '0'
  {
    if n < 0 then "-" + NatString(-n) else NatString(n)
  }

  /** The value of a non-empty run of decimal digits. */
  function ParseNat(s: string): nat
    requires AllDigits(s)
  {
    if s == [] then 0 else ParseNat(s[..|s| - 1]) * 10 + DigitValue(s[|s| - 1])
  }

  predicate IsDecimal(s: string) {
    if |s| > 0 && s[0] == '-' then |s| > 1 && AllDigits(s[1..]) else |s| > 0 && AllDigits(s)
  }

  function ParseInt(s: string): int
    requires IsDecimal(s)
  {
    if s[0] == '-' then -(ParseNat(s[1..]) as int) else ParseNat(s)
  }

  lemma {:induction false} ParseNatString(n: nat)
    ensures ParseNat(NatString(n)) == n
  {
    if n >= 10 {
      ParseNatString(n / 10);
      var s := NatString(n);
      assert s[..|s| - 1] == NatString(n / 10);
    }
  }

  /** Parsing undoes `%d` rendering. */
  lemma IntStringRoundTrip(n: int)
    ensures IsDecimal(IntString(n)) && ParseInt(IntString(n)) == n
  {
    var s := IntString(n);
    if n < 0 {
      assert s[1..] == NatString(-n);
      ParseNatString(-n);
    } else {
      assert IsDigit(s[0]);
      ParseNatString(n);
    }
  }

}
