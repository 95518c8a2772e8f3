/**
 * Decimal text and the `tag:name:number` idempotency keys built from it.
 */
module Text {

  predicate IsDigit(c: char) { '0' <= c <= '9' }

  predicate AllDigits(s: string) { forall i | 0 <= i < |s| :: IsDigit(s[i]) }

  function Digit(d: nat): char
    requires d < 10
  {
    '0' + d as char
  }

  /** What `%d` and `strconv.FormatUint` print for a natural number. */
  function Dec(n: nat): (s: string)
    ensures s != "" && AllDigits(s)
  {
    if n < 10 then [Digit(n)] else Dec(n / 10) + [Digit(n % 10)]
  }

  /** What `%d` prints for a signed number. */
  function DecInt(n: int): (s: string)
    ensures forall i | 0 <= i < |s| :: s[i] == '-' || IsDigit(s[i])
  {
    if n < 0 then "-" + Dec(-n) else Dec(n)
  }

  /** The number a run of digits denotes. */
  function Value(s: string): nat
    requires AllDigits(s)
  {
    if s == "" then 0 else 10 * Value(s[..|s| - 1]) + (s[|s| - 1] as nat - '0' as nat)
  }

  lemma {:induction false} DecValue(n: nat)
    ensures Value(Dec(n)) == n
  {
    if n >= 10 {
      DecValue(n / 10);
      assert Dec(n)[..|Dec(n)| - 1] == Dec(n / 10);
    }
  }

  lemma DecInjective(m: nat, n: nat)
    requires Dec(m) == Dec(n)
    ensures m == n
  {
    DecValue(m);
    DecValue(n);
  }

  lemma DecIntInjective(m: int, n: int)
    requires DecInt(m) == DecInt(n)
    ensures m == n
  {
    assert Dec(if m < 0 then -m else m)[0] != '-' && Dec(if n < 0 then -n else n)[0] != '-';
    assert (m < 0) == (DecInt(m)[0] == '-') && (n < 0) == (DecInt(n)[0] == '-');
    if m < 0 {
      assert Dec(-m) == DecInt(m)[1..] == DecInt(n)[1..] == Dec(-n);
      DecInjective(-m, -n);
    } else {
      DecInjective(m, n);
    }
  }

  /** The last colon splits a key in one way only. */
  lemma SplitAtLastColon(x: string, d: string, y: string, e: string)
    requires x + ":" + d == y + ":" + e
    requires ':' !in d && ':' !in e
    ensures x == y && d == e
  {
    var s, t := x + ":" + d, y + ":" + e;
    assert s[|x|] == ':' && t[|y|] == ':';
    assert forall i | |x| < i < |s| :: s[i] == d[i - |x| - 1];
    assert forall i | |y| < i < |t| :: t[i] == e[i - |y| - 1];
    assert x == s[..|x|] && y == s[..|y|];
    assert d == s[|x| + 1..] && e == s[|y| + 1..];
  }

  /** The text `tag` + `name` + ":" + number used by every event source. */
  function Key(tag: string, name: string, n: int): string {
    tag + name + ":" + DecInt(n)
  }

  lemma KeyInjective(tag: string, a: string, m: int, b: string, n: int)
    requires Key(tag, a, m) == Key(tag, b, n)
    ensures a == b && m == n
  {
    assert ':' !in DecInt(m) && ':' !in DecInt(n);
    SplitAtLastColon(tag + a, DecInt(m), tag + b, DecInt(n));
    assert a == (tag + a)[|tag|..] && b == (tag + b)[|tag|..];
    DecIntInjective(m, n);
  }

  predicate HasPrefix(s: string, p: string) { p <= s }

  predicate HasSuffix(s: string, p: string) {
    |p| <= |s| && s[|s| - |p|..] == p
  }

  /** `strings.TrimSuffix`. */
  function TrimSuffix(s: string, p: string): string {
    if HasSuffix(s, p) then s[..|s| - |p|] else s
  }

  lemma KeyHasTag(tag: string, name: string, n: int)
    ensures HasPrefix(Key(tag, name, n), tag)
  {
    assert Key(tag, name, n) == tag + (name + ":" + DecInt(n));
  }
}
