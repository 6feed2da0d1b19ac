/** The credit card rule: a checksum computed by concatenating digit strings. */
module CreditCard {
  import opened Prelude

  // ----- the Luhn formula (ISO/IEC 7812-1, Annex B) -----

  predicate AreDigits(ds: seq<nat>) {
    forall k :: 0 <= k < |ds| ==> ds[k] <= 9
  }

  /** Every second digit, counted from the right, is doubled, and 9 taken off a two-digit result. */
  function Weighted(d: nat, fromRight: nat): int {
    if fromRight % 2 == 0 then d else if 2 * d > 9 then 2 * d - 9 else 2 * d
  }

  function LuhnSum(ds: seq<nat>): int {
    if ds == [] then 0 else Weighted(ds[0], |ds| - 1) + LuhnSum(ds[1..])
  }

  predicate LuhnValid(ds: seq<nat>) {
    LuhnSum(ds) % 10 == 0
  }

  // ----- the string computation -----

  predicate IsDigit(c: char) {
    '0' <= c <= '9'
  }

  function DigitOf(c: char): nat
    requires IsDigit(c)
  {
    (c - '0') as nat
  }

  predicate AllDigits(s: string) {
    forall k :: 0 <= k < |s| ==> IsDigit(s[k])
  }

  function Digits(s: string): (ds: seq<nat>)
    requires AllDigits(s)
    ensures |ds| == |s| && forall k :: 0 <= k < |s| ==> ds[k] == DigitOf(s[k]) <= 9
  {
    if s == "" then [] else [DigitOf(s[0])] + Digits(s[1..])
  }

  /** A number from 0 to 18 as a string. */
  function NumberString(n: nat): (s: string)
    requires n <= 18
    ensures AllDigits(s)
  {
    if n <= 9 then ['0' + n as char] else ['1', '0' + (n - 10) as char]
  }

  /** What the first loop appends for a character at position pos, counted from the right from 1; not-a-number spells itself. */
  function Chunk(c: char, pos: nat): string {
    if !IsDigit(c) then "NaN"
    else NumberString(if pos % 2 == 0 then DigitOf(c) * 2 else DigitOf(c))
  }

  function Luhn(s: string): string {
    if s == "" then "" else Luhn(s[1..]) + Chunk(s[0], |s|)
  }

  /** The second loop's sum; None is not-a-number. */
  function CharSum(s: string): Option<int> {
    if s == "" then Some(0)
    else
      var rest := CharSum(s[..|s| - 1]);
      if rest.None? || !IsDigit(s[|s| - 1]) then None else Some(rest.value + DigitOf(s[|s| - 1]))
  }

  lemma {:induction false} CharSumConcat(a: string, b: string)
    ensures CharSum(a + b) ==
      if CharSum(a).Some? && CharSum(b).Some? then Some(CharSum(a).value + CharSum(b).value) else None
    decreases |b|
  {
    if b == "" {
      assert a + b == a;
    } else {
      assert (a + b)[..|a + b| - 1] == a + b[..|b| - 1];
      CharSumConcat(a, b[..|b| - 1]);
    }
  }

  lemma ChunkSum(c: char, pos: nat)
    requires pos > 0
    ensures CharSum(Chunk(c, pos)) == if IsDigit(c) then Some(Weighted(DigitOf(c), pos - 1)) else None
  {
    var s := Chunk(c, pos);
    if !IsDigit(c) {
      assert s[..2] == "Na" && "Na"[..1] == "N" && "N"[..0] == "";
    } else if |s| == 1 {
      assert s[..0] == "";
      assert CharSum(s) == Some(DigitOf(s[0]));
    } else {
      assert s[..1] == "1" && "1"[..0] == "";
      assert CharSum("1") == Some(1);
    }
  }

  lemma {:induction false} AllDigitsFirst(s: string)
    requires s != ""
    ensures AllDigits(s) <==> IsDigit(s[0]) && AllDigits(s[1..])
  {
    assert s == [s[0]] + s[1..];
  }

  lemma {:induction false} LuhnSumFirst(s: string)
    requires s != "" && AllDigits(s)
    ensures LuhnSum(Digits(s)) == Weighted(DigitOf(s[0]), |s| - 1) + LuhnSum(Digits(s[1..]))
  {
    assert Digits(s)[1..] == Digits(s[1..]);
  }

  /** The digit-string computation is the Luhn formula, for any length; any other character makes it not-a-number. */
  lemma {:induction false} ConcatenationIsLuhn(s: string)
    ensures CharSum(Luhn(s)) == if AllDigits(s) then Some(LuhnSum(Digits(s))) else None
  {
    hide CharSum, Luhn, AllDigits, Digits, LuhnSum, Weighted, IsDigit;
    if s == "" {
      NoCharacters();
    } else {
      ConcatenationIsLuhn(s[1..]);
      FirstCharacter(s);
      AllDigitsFirst(s);
      if AllDigits(s) { LuhnSumFirst(s); }
    }
  }

  lemma NoCharacters()
    ensures AllDigits("") && CharSum(Luhn("")) == Some(LuhnSum(Digits("")))
  {
  }

  /** The sum with one more character in front. */
  lemma {:induction false} FirstCharacter(s: string)
    requires s != ""
    ensures CharSum(Luhn(s)) ==
      if CharSum(Luhn(s[1..])).Some? && IsDigit(s[0])
      then Some(CharSum(Luhn(s[1..])).value + Weighted(DigitOf(s[0]), |s| - 1)) else None
  {
    hide CharSum, Chunk, Weighted, IsDigit, Luhn;
    LuhnFirst(s);
    CharSumConcat(Luhn(s[1..]), Chunk(s[0], |s|));
    ChunkSum(s[0], |s|);
  }

  lemma {:induction false} LuhnFirst(s: string)
    requires s != ""
    ensures Luhn(s) == Luhn(s[1..]) + Chunk(s[0], |s|)
  {
  }

  // ----- the rule -----

  /** value.replace(/ +/g, '').replace(/-+/g, '') */
  function Stripped(s: string): string {
    Filter(s, c => c != ' ' && c != '-')
  }

  /** parseInt( s ) > 0, for a string that begins with a digit: some digit before the first other character is not 0. */
  predicate ParsesPositive(s: string) {
    s != "" && IsDigit(s[0]) && (s[0] != '0' || ParsesPositive(s[1..]))
  }

  lemma {:induction false} PositiveIffNonzero(s: string)
    requires AllDigits(s)
    ensures ParsesPositive(s) <==> exists k :: 0 <= k < |s| && s[k] != '0'
  {
    if s != "" {
      PositiveIffNonzero(s[1..]);
      if k :| 0 <= k < |s| && s[k] != '0' {
        if k > 0 { assert s[1..][k - 1] == s[k]; }
      }
    }
  }

  /** A valid number: 14 to 16 digits, not all of them 0, that satisfy the Luhn formula. */
  ghost predicate ValidNumber(s: string) {
    14 <= |s| <= 16 && AllDigits(s) && (exists k :: 0 <= k < |s| && s[k] != '0') && LuhnValid(Digits(s))
  }

  /** The two loops: build the string of digits, then add its characters up. */
  method Checksum(cardNumber: string) returns (sum: Option<int>)
    requires cardNumber != ""
    ensures sum == CharSum(Luhn(cardNumber))
  {
    hide Chunk;
    var i, pos, luhn := |cardNumber| - 1, 1, "";
    var more := true;
    while more
      invariant -1 <= i < |cardNumber| && pos == |cardNumber| - i && luhn == Luhn(cardNumber[i + 1..])
      invariant more <==> i >= 0
      decreases i
    {
      assert cardNumber[i..][1..] == cardNumber[i + 1..];
      luhn := luhn + Chunk(cardNumber[i], pos);
      pos := pos + 1;
      i := i - 1;
      more := i >= 0;
    }
    assert cardNumber[0..] == cardNumber;
    sum := AddUp(luhn);
  }

  method AddUp(luhn: string) returns (sum: Option<int>)
    ensures sum == CharSum(luhn)
  {
    sum := Some(0);
    var i := 0;
    while i < |luhn|
      invariant 0 <= i <= |luhn| && sum == CharSum(luhn[..i])
    {
      assert luhn[..i + 1][..i] == luhn[..i];
      sum := if sum.None? || !IsDigit(luhn[i]) then None else Some(sum.value + DigitOf(luhn[i]));
      i := i + 1;
    }
    assert luhn[..i] == luhn;
  }

  /** _creditCard */
  method CheckCard(value: string) returns (valid: bool)
    ensures valid <==> ValidNumber(Stripped(value))
  {
    valid := false;
    var cardNumber := Stripped(value);
    var numDigits := |cardNumber|;
    hide Luhn, CharSum, Stripped, LuhnSum, Digits;
    if numDigits >= 14 && numDigits <= 16 && ParsesPositive(cardNumber) {
      var sum := Checksum(cardNumber);
      ConcatenationIsLuhn(cardNumber);
      valid := sum.Some? && sum.value % 10 == 0;
    }
    if AllDigits(cardNumber) { PositiveIffNonzero(cardNumber); }
  }

  // ----- what the formula detects -----

  lemma WeightedIsInjective(a: nat, b: nat, k: nat)
    requires a <= 9 && b <= 9 && a != b
    ensures 0 <= Weighted(a, k) <= 9 && 0 <= Weighted(b, k) <= 9 && Weighted(a, k) != Weighted(b, k)
  {
  }

  lemma ChangeOfMultiple(sum: int, change: int)
    requires sum % 10 == 0
    ensures (sum + change) % 10 == 0 <==> change % 10 == 0
  {
    var q := sum / 10;
    assert sum == 10 * q;
  }

  lemma SmallChange(sum: int, change: int)
    requires sum % 10 == 0 && -9 <= change <= 9 && change != 0
    ensures (sum + change) % 10 != 0
  {
    ChangeOfMultiple(sum, change);
  }

  lemma {:induction false} SumUpdate(ds: seq<nat>, i: nat, x: nat)
    requires i < |ds|
    ensures LuhnSum(ds[i := x]) == LuhnSum(ds) - Weighted(ds[i], |ds| - 1 - i) + Weighted(x, |ds| - 1 - i)
  {
    if i == 0 {
      assert ds[0 := x][1..] == ds[1..];
    } else {
      assert ds[i := x][1..] == ds[1..][i - 1 := x];
      SumUpdate(ds[1..], i - 1, x);
    }
  }

  /** Changing a single digit of a valid number makes it invalid. */
  lemma SingleDigitError(ds: seq<nat>, i: nat, x: nat)
    requires AreDigits(ds) && LuhnValid(ds) && i < |ds| && x <= 9 && x != ds[i]
    ensures !LuhnValid(ds[i := x])
  {
    SumUpdate(ds, i, x);
    WeightedIsInjective(ds[i], x, |ds| - 1 - i);
    var change := Weighted(x, |ds| - 1 - i) - Weighted(ds[i], |ds| - 1 - i);
    SmallChange(LuhnSum(ds), change);
  }

  /** Swapping two neighbouring digits of a valid number goes unnoticed exactly if they are equal or are 0 and 9. */
  lemma AdjacentSwapIff(ds: seq<nat>, i: nat)
    requires AreDigits(ds) && LuhnValid(ds) && i + 1 < |ds|
    ensures var a, b := ds[i], ds[i + 1];
      LuhnValid(ds[i := b][i + 1 := a]) <==> a == b || (a == 0 && b == 9) || (a == 9 && b == 0)
  {
    var a, b, k := ds[i], ds[i + 1], |ds| - 2 - i;
    SumUpdate(ds, i, b);
    SumUpdate(ds[i := b], i + 1, a);
    var change := Weighted(b, k + 1) + Weighted(a, k) - Weighted(a, k + 1) - Weighted(b, k);
    SwapChange(a, b, k);
    ChangeOfMultiple(LuhnSum(ds), change);
    hide Weighted, LuhnSum;
    assert LuhnSum(ds[i := b][i + 1 := a]) == LuhnSum(ds) + change;
  }

  lemma SwapChange(a: nat, b: nat, k: nat)
    requires a <= 9 && b <= 9
    ensures (Weighted(b, k + 1) + Weighted(a, k) - Weighted(a, k + 1) - Weighted(b, k)) % 10 == 0 <==>
      a == b || (a == 0 && b == 9) || (a == 9 && b == 0)
  {
    assert (k + 1) % 2 != k % 2;
  }

  lemma {:induction false} SumAppend(ds: seq<nat>, x: nat)
    requires x <= 9
    ensures LuhnSum(ds + [x]) == LuhnSum(ds + [0]) + x
  {
    if ds == [] {
      assert ds + [x] == [x] && ds + [0] == [0];
    } else {
      assert (ds + [x])[1..] == ds[1..] + [x] && (ds + [0])[1..] == ds[1..] + [0];
      SumAppend(ds[1..], x);
    }
  }

  /** Every prefix has exactly one check digit. */
  lemma UniqueCheckDigit(prefix: seq<nat>) returns (check: nat)
    ensures check <= 9 && forall x :: 0 <= x <= 9 ==> (LuhnValid(prefix + [x]) <==> x == check)
  {
    var r := LuhnSum(prefix + [0]) % 10;
    check := (10 - r) % 10;
    forall x | 0 <= x <= 9 ensures LuhnValid(prefix + [x]) <==> x == check {
      SumAppend(prefix, x);
      assert (LuhnSum(prefix + [0]) + x) % 10 == 0 <==> (r + x) % 10 == 0;
    }
  }

  /** The valid numbers of two digits. */
  lemma ValidPairs(a: nat, b: nat)
    requires a <= 9 && b <= 9
    ensures LuhnValid([a, b]) <==>
      (a, b) in {(0, 0), (1, 8), (2, 6), (3, 4), (4, 2), (5, 9), (6, 7), (7, 5), (8, 3), (9, 1)}
  {
    assert [a, b][1..] == [b] && [b][1..] == [];
    assert LuhnSum([a, b]) == Weighted(a, 1) + (Weighted(b, 0) + LuhnSum([]));
  }

  /** Removing spaces and dashes: character by character, and nothing else changes. */
  lemma {:induction false} StrippedParts(a: string, b: string, c: char)
    ensures Stripped(a + b) == Stripped(a) + Stripped(b)
    ensures Stripped([c]) == if c == ' ' || c == '-' then "" else [c]
    ensures ' ' !in Stripped(a) && '-' !in Stripped(a)
  {
    var p := (c: char) => c != ' ' && c != '-';
    FilterConcat(a, b, p);
    FilterCons(c, "", p);
    assert [c] + "" == [c];
    FilterMember(a, p, ' ');
    FilterMember(a, p, '-');
  }
}
