/** The string keys that Sizzle stamps on nodes: doneName "." dirruns "." cachedruns. */
module StampKeys {

  function Digit(d: nat): (c: char)
    requires d < 10
    ensures c != '.'
  {
    ['0', '1', '2', '3', '4', '5', '6', '7', '8', '9'][d]
  }

  /** A number as the string JavaScript makes of it. */
  function Dec(n: nat): (s: string)
    ensures s != [] && '.' !in s
  {
    if n < 10 then [Digit(n)] else Dec(n / 10) + [Digit(n % 10)]
  }

  function DirKey(name: nat, dirruns: nat): string {
    Dec(name) + "." + Dec(dirruns)
  }

  function CachedKey(name: nat, dirruns: nat, runs: nat): string {
    DirKey(name, dirruns) + "." + Dec(runs)
  }

  lemma DigitInjective(a: nat, b: nat)
    requires a < 10 && b < 10 && Digit(a) == Digit(b)
    ensures a == b
  {
  }

  lemma {:induction false} DecInjective(a: nat, b: nat)
    requires Dec(a) == Dec(b)
    ensures a == b
    decreases a + b
  {
    var s := Dec(a);
    if a < 10 && b < 10 {
      DigitInjective(a, b);
    } else if a >= 10 && b >= 10 {
      assert Dec(a / 10) == s[..|s| - 1] == Dec(b / 10);
      assert Digit(a % 10) == s[|s| - 1] == Digit(b % 10);
      DigitInjective(a % 10, b % 10);
      DecInjective(a / 10, b / 10);
    }
  }

  lemma {:induction false} DecMonotone(a: nat, b: nat)
    requires a <= b
    ensures |Dec(a)| <= |Dec(b)|
    decreases b
  {
    if a >= 10 { DecMonotone(a / 10, b / 10); }
  }

  /** Two dot-free words followed by dots, one text a prefix of the other: the words agree. */
  lemma SameWord(a: string, b: string, s: string, t: string)
    requires '.' !in a && '.' !in b
    requires a + "." + s <= b + "." + t
    ensures a == b && s <= t
  {
    var x, y := a + "." + s, b + "." + t;
    assert forall k :: 0 <= k < |x| ==> y[k] == x[k];
    assert x[|a|] == '.' && y[|b|] == '.';
    assert forall k :: 0 <= k < |a| ==> x[k] == a[k] != '.';
    assert forall k :: 0 <= k < |b| ==> y[k] == b[k] != '.';
    assert |a| == |b|;
    assert a == x[..|a|] == y[..|a|] == b;
    assert s == x[|a| + 1..] && t == y[|a| + 1..];
  }

  /**
   The test `cache.indexOf(dirkey) === 0` is sound although it compares prefixes
   of decimal numerals: pass numbers only grow, so a stamp of the same combinator
   never carries a longer numeral than the current one.
   */
  lemma PrefixIsExact(name: nat, dirruns: nat, name1: nat, dirruns1: nat, runs1: nat)
    requires DirKey(name, dirruns) <= CachedKey(name1, dirruns1, runs1)
    requires name1 == name ==> dirruns1 <= dirruns
    ensures name1 == name && dirruns1 == dirruns
  {
    var rest := Dec(dirruns1) + "." + Dec(runs1);
    assert CachedKey(name1, dirruns1, runs1) == Dec(name1) + "." + rest;
    SameWord(Dec(name), Dec(name1), Dec(dirruns), rest);
    DecInjective(name, name1);
    DecMonotone(dirruns1, dirruns);
    assert rest[|Dec(dirruns1)|] == '.';
    assert forall k :: 0 <= k < |Dec(dirruns)| ==> rest[k] == Dec(dirruns)[k] != '.';
    assert Dec(dirruns) == rest[..|Dec(dirruns)|] == Dec(dirruns1);
    DecInjective(dirruns, dirruns1);
  }

  lemma KeyInjective(name: nat, dirruns: nat, runs: nat, name1: nat, dirruns1: nat, runs1: nat)
    requires CachedKey(name, dirruns, runs) == CachedKey(name1, dirruns1, runs1)
    ensures name == name1 && dirruns == dirruns1 && runs == runs1
  {
    var rest, rest1 := Dec(dirruns) + "." + Dec(runs), Dec(dirruns1) + "." + Dec(runs1);
    assert CachedKey(name, dirruns, runs) == Dec(name) + "." + rest;
    assert CachedKey(name1, dirruns1, runs1) == Dec(name1) + "." + rest1;
    hide Dec, CachedKey;
    SameSplit(Dec(name), Dec(name1), rest, rest1);
    SameSplit(Dec(dirruns), Dec(dirruns1), Dec(runs), Dec(runs1));
    DecInjective(name, name1);
    DecInjective(dirruns, dirruns1);
    DecInjective(runs, runs1);
  }

  lemma SameSplit(a: string, b: string, s: string, t: string)
    requires '.' !in a && '.' !in b && a + "." + s == b + "." + t
    ensures a == b && s == t
  {
    SameWord(a, b, s, t);
    SameWord(b, a, t, s);
  }

  /** Without the restriction to earlier passes the prefix test would confuse pass 1 with pass 10. */
  lemma PrefixAloneIsNotExact()
    ensures DirKey(0, 1) <= CachedKey(0, 10, 0)
  {
    assert Dec(1) == "1";
    assert Dec(10 / 10) == "1" && Dec(10) == "10";
    assert CachedKey(0, 10, 0) == DirKey(0, 1) + "0" + "." + Dec(0);
  }
}
