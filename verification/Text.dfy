/**
 Keys, identifiers and decimal numbers as the control plane renders them.
 */
module Text {

  datatype Option<+T> = None | Some(value: T)

  function Digit(d: nat): (c: char)
    requires d < 10
  {
    "0123456789"[d]
  }

  /** The "%d" rendering of a non-negative integer. */
  function Decimal(n: nat): (s: string)
    ensures |s| > 0
  {
    if n < 10 then [Digit(n)] else Decimal(n / 10) + [Digit(n % 10)]
  }

  predicate IsDigit(c: char) {
    '0' as int <= c as int <= '9' as int
  }

  function DigitValue(c: char): (d: nat)
    requires IsDigit(c)
  {
    c as int - '0' as int
  }

  /** The number that a string of digits denotes in base ten. */
  function Value(s: string): (n: nat)
    requires forall i :: 0 <= i < |s| ==> IsDigit(s[i])
  {
    if s == "" then 0 else 10 * Value(s[..|s| - 1]) + DigitValue(s[|s| - 1])
  }

  lemma DigitDenotes(d: nat)
    requires d < 10
    ensures IsDigit(Digit(d)) && DigitValue(Digit(d)) == d
  {
  }

  /** A rendering consists of digits, has no leading zero, and denotes the number rendered. */
  lemma {:induction false} DecimalRoundTrip(n: nat)
    ensures var s := Decimal(n);
            && (forall i :: 0 <= i < |s| ==> IsDigit(s[i]))
            && Value(s) == n && (n > 0 ==> s[0] != '0')
  {
    DigitDenotes(n % 10);
    var s := Decimal(n);
    if n >= 10 {
      DecimalRoundTrip(n / 10);
      assert s[..|s| - 1] == Decimal(n / 10);
    } else {
      assert s[..0] == "";
    }
  }

  lemma DecimalInjective(m: nat, n: nat)
    requires Decimal(m) == Decimal(n)
    ensures m == n
  {
    DecimalRoundTrip(m);
    DecimalRoundTrip(n);
  }

  lemma DecimalIsSlashFree(n: nat)
    ensures SlashFree(Decimal(n))
  {
    DecimalRoundTrip(n);
  }

  predicate SlashFree(s: string) {
    '/' !in s
  }

  /** The "%s/%s" keys under which agents, instances and teams are filed. */
  function SlashKey(scope: string, name: string): (k: string) {
    scope + "/" + name
  }

  lemma SlashKeyInjective(s1: string, n1: string, s2: string, n2: string)
    requires SlashFree(s1) && SlashFree(s2)
    requires SlashKey(s1, n1) == SlashKey(s2, n2)
    ensures s1 == s2 && n1 == n2
  {
    var k := SlashKey(s1, n1);
    assert k[|s1|] == '/' && SlashKey(s2, n2)[|s2|] == '/';
    assert forall i :: 0 <= i < |s1| ==> k[i] == s1[i] != '/';
    assert forall i :: 0 <= i < |s2| ==> SlashKey(s2, n2)[i] == s2[i] != '/';
    assert s1 == k[..|s1|] && s2 == SlashKey(s2, n2)[..|s2|];
    assert n1 == k[|s1| + 1..] && n2 == SlashKey(s2, n2)[|s2| + 1..];
  }

  /** When the names hold no '/', the last one separates scope and name. */
  lemma SlashKeySplitsLast(s1: string, n1: string, s2: string, n2: string)
    requires SlashFree(n1) && SlashFree(n2)
    requires SlashKey(s1, n1) == SlashKey(s2, n2)
    ensures s1 == s2 && n1 == n2
  {
    var k := SlashKey(s1, n1);
    assert forall i :: |s1| < i < |k| ==> k[i] == n1[i - |s1| - 1];
    assert forall i :: |s2| < i < |k| ==> k[i] == SlashKey(s2, n2)[i] == n2[i - |s2| - 1];
    assert k[|s1|] == '/' && SlashKey(s2, n2)[|s2|] == '/';
    assert s1 == k[..|s1|] && s2 == SlashKey(s2, n2)[..|s2|];
    assert n1 == k[|s1| + 1..] && n2 == SlashKey(s2, n2)[|s2| + 1..];
  }

  /** A key with one '/' comes from one pair only. */
  lemma OneSlashSplits(s1: string, n1: string, s2: string, n2: string)
    requires SlashFree(s2) && SlashFree(n2)
    requires SlashKey(s1, n1) == SlashKey(s2, n2)
    ensures s1 == s2 && n1 == n2
  {
    var k := SlashKey(s2, n2);
    assert SlashKey(s1, n1)[|s1|] == '/';
    assert forall i :: 0 <= i < |k| && i != |s2| ==> k[i] != '/';
    assert s1 == k[..|s1|] && s2 == k[..|s2|];
    assert n1 == SlashKey(s1, n1)[|s1| + 1..] && n2 == k[|s2| + 1..];
  }

  /** Without the guard two different pairs can share one key. */
  lemma SlashKeysCollide()
    ensures SlashKey("a/b", "c") == SlashKey("a", "b/c")
  {
    assert SlashKey("a/b", "c") == "a/b/c" == SlashKey("a", "b/c");
  }

  /** With the scope fixed, the key determines the name, slashes or not. */
  lemma SlashKeySameScope(scope: string, n1: string, n2: string)
    requires SlashKey(scope, n1) == SlashKey(scope, n2)
    ensures n1 == n2
  {
    assert n1 == SlashKey(scope, n1)[|scope| + 1..];
    assert n2 == SlashKey(scope, n2)[|scope| + 1..];
  }
}
