/** The two number conversions the emitters use: C's `atoi` on the id attribute, and
    printf's `%d` on the resulting integer. Integers are unbounded here. */
module Format {

  predicate IsDigit(c: char)
  {
    '0' <= c <= '9'
  }

  /** The white space `isspace` accepts in the C locale: space, \t, \n, \v, \f and \r. */
  predicate IsSpace(c: char)
  {
    c == ' ' || 9 <= c as int <= 13
  }

  function DigitChar(d: nat): (c: char)
    requires d < 10
    ensures IsDigit(c)
  {
    ('0' as int + d) as char
  }

  function DigitValue(c: char): (d: nat)
    requires IsDigit(c)
    ensures d < 10
  {
    c as int - '0' as int
  }

  predicate AllDigits(s: string)
  {
    forall j | 0 <= j < |s| :: IsDigit(s[j])
  }

  /** The decimal digits of `n`, most significant first, without leading zeros. */
  function NatDigits(n: nat): (s: string)
    ensures |s| > 0 && AllDigits(s)
    decreases n
  {
    if n < 10 then [DigitChar(n)] else NatDigits(n / 10) + [DigitChar(n % 10)]
  }

  /** printf's `%d`: a minus sign for negative numbers, then the digits. */
  function Decimal(n: int): (s: string)
    ensures |s| > 0
    ensures forall j | 0 <= j < |s| :: IsDigit(s[j]) || (j == 0 && s[j] == '-')
    ensures s[0] == '-' <==> n < 0
  {
    if n < 0 then "-" + NatDigits(-n) else NatDigits(n)
  }

  /** The number a run of digits denotes. */
  function DigitsValue(s: string): nat
    requires AllDigits(s)
  {
    if s == [] then 0 else 10 * DigitsValue(s[..|s| - 1]) + DigitValue(s[|s| - 1])
  }

  /** The longest prefix of `s` made of digits. */
  function DigitPrefix(s: string): (p: string)
    ensures p <= s && AllDigits(p)
    ensures |p| < |s| ==> !IsDigit(s[|p|])
  {
    if s == [] || !IsDigit(s[0]) then [] else [s[0]] + DigitPrefix(s[1..])
  }

  function SkipSpace(s: string): (t: string)
    ensures t == [] || !IsSpace(t[0])
    ensures |t| <= |s| && t == s[|s| - |t|..]
    ensures (forall j | 0 <= j < |s| :: !IsSpace(s[j])) ==> t == s
  {
    if s != [] && IsSpace(s[0]) then SkipSpace(s[1..]) else s
  }

  /** C's `atoi`: leading white space, an optional sign, then the longest run of digits;
      0 when no digit follows. */
  function Atoi(s: string): (r: int)
    ensures AllDigits(s) ==> r == DigitsValue(s)
    ensures (forall j | 0 <= j < |s| :: !IsDigit(s[j])) ==> r == 0
    ensures r < 0 ==> '-' in s
  {
    DigitPrefixOfDigits(s);
    var t := SkipSpace(s);
    assert AllDigits(s) ==> t == s;
    assert t != [] ==> t[0] == s[|s| - |t|];
    NoDigitPrefix(s, |s| - |t|);
    NoDigitPrefix(s, if t == [] then |s| else |s| - |t| + 1);
    assert t != [] ==> t[1..] == s[|s| - |t| + 1..];
    if t != [] && t[0] == '-' then -(DigitsValue(DigitPrefix(t[1..])) as int)
    else if t != [] && t[0] == '+' then DigitsValue(DigitPrefix(t[1..]))
    else DigitsValue(DigitPrefix(t))
  }

  lemma {:induction false} NatDigitsValue(n: nat)
    ensures DigitsValue(NatDigits(n)) == n
    decreases n
  {
    if n >= 10 {
      var s := NatDigits(n);
      assert s[..|s| - 1] == NatDigits(n / 10);
      NatDigitsValue(n / 10);
    }
  }

  lemma NoDigitPrefix(s: string, k: nat)
    requires k <= |s|
    ensures (forall j | 0 <= j < |s| :: !IsDigit(s[j])) ==> DigitPrefix(s[k..]) == []
  {
    if k < |s| {
      assert s[k..][0] == s[k];
    }
  }

  lemma {:induction false} DigitPrefixOfDigits(s: string)
    ensures AllDigits(s) ==> DigitPrefix(s) == s
  {
    if s != [] && AllDigits(s) {
      DigitPrefixOfDigits(s[1..]);
    }
  }

  /** `atoi` reads back every number `%d` prints, so an id that is already written in
      canonical decimal form reaches the SQL text unchanged. */
  lemma AtoiDecimal(n: int)
    ensures Atoi(Decimal(n)) == n
  {
    var m: nat := if n < 0 then -n else n;
    var s := Decimal(n);
    NatDigitsValue(m);
    DigitPrefixOfDigits(NatDigits(m));
    assert !IsSpace(s[0]);
    assert SkipSpace(s) == s;
    if n < 0 {
      assert s[1..] == NatDigits(m);
    } else {
      assert s == NatDigits(m) && IsDigit(s[0]);
    }
  }
}
