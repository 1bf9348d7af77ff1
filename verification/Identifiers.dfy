/** Process ids (`p1`, `p2`, ...) and the name checks made before a spawn. */
module Identifiers {

  function Digit(d: nat): char
    requires d < 10
  {
    '0' + d as char
  }

  function Decimal(n: nat): (s: string)
    ensures |s| > 0
  {
    if n < 10 then [Digit(n)] else Decimal(n / 10) + [Digit(n % 10)]
  }

  // The number a string of digits stands for.
  function Value(s: string): int {
    if s == [] then 0 else 10 * Value(s[..|s| - 1]) + (s[|s| - 1] as int - '0' as int)
  }

  // It is written in base ten, without leading zeros.
  lemma {:induction false} DecimalReads(n: nat)
    ensures Value(Decimal(n)) == n && (forall i :: 0 <= i < |Decimal(n)| ==> '0' <= Decimal(n)[i] <= '9')
    ensures n > 0 ==> Decimal(n)[0] != '0'
  {
    if n >= 10 {
      DecimalReads(n / 10);
      assert Decimal(n)[..|Decimal(n)| - 1] == Decimal(n / 10);
    } else {
      assert [Digit(n)][..0] == [] && Value([]) == 0;
    }
  }

  function IdString(n: nat): string {
    "p" + Decimal(n)
  }

  lemma {:induction false} DecimalInjective(m: nat, n: nat)
    requires Decimal(m) == Decimal(n)
    ensures m == n
  {
    var s, t := Decimal(m), Decimal(n);
    assert s[|s| - 1] == t[|t| - 1];
    assert s[..|s| - 1] == t[..|t| - 1];
    if m >= 10 && n >= 10 {
      assert s[..|s| - 1] == Decimal(m / 10) && t[..|t| - 1] == Decimal(n / 10);
      DecimalInjective(m / 10, n / 10);
    }
  }

  // Ids handed out by the counter never repeat.
  lemma IdsDistinct(m: nat, n: nat)
    requires m != n
    ensures IdString(m) != IdString(n)
  {
    if IdString(m) == IdString(n) {
      assert IdString(m)[1..] == Decimal(m) && IdString(n)[1..] == Decimal(n);
      DecimalInjective(m, n);
    }
  }

  // True when `id` came from a counter that now stands at `next`.
  ghost predicate IdIssued(id: string, next: nat) {
    exists k: nat :: k < next && id == IdString(k)
  }

  lemma NewIdIssued(next: nat)
    ensures IdIssued(IdString(next), next + 1)
  {
  }

  lemma NextIdIsFresh(id: string, next: nat)
    requires IdIssued(id, next)
    ensures id != IdString(next)
    ensures IdIssued(id, next + 1)
  {
    var k: nat :| k < next && id == IdString(k);
    IdsDistinct(k, next);
  }

  predicate ContainsDotDot(name: string) {
    exists i :: 0 <= i < |name| - 1 && name[i] == '.' && name[i + 1] == '.'
  }

  // Names that could escape the log directory.
  predicate UnsafeName(name: string) {
    '/' in name || '\\' in name || ContainsDotDot(name) || '\0' in name
  }

  predicate DnsChar(c: char) {
    'a' <= c <= 'z' || '0' <= c <= '9' || c == '-'
  }

  predicate DnsLabel(name: string) {
    0 < |name| <= 63 && name[0] != '-' && name[|name| - 1] != '-' && forall c | c in name :: DnsChar(c)
  }
}
