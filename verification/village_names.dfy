/** Node and pipe names of the village network (`C{c}`, `C{c}H{h}`, `P_Tank_{c}`,
    `P_{c}_{h}`), with the facts that make them unique: decimal numerals are
    injective and contain only digits. */
module VillageNames {

  /** The character of one decimal digit. */
  function DigitChar(d: nat): (ch: char)
    requires d < 10
    ensures '0' <= ch <= '9'
    ensures ch as int == '0' as int + d
  {
    ('0' as int + d) as char
  }

  predicate IsDigits(s: string) {
    forall i :: 0 <= i < |s| ==> '0' <= s[i] <= '9'
  }

  /** `f"{n}"` for a non-negative integer: its decimal numeral without leading zeros. */
  function Decimal(n: nat): (s: string)
    ensures |s| >= 1 && IsDigits(s)
    ensures n < 10 <==> |s| == 1
    decreases n
  {
    if n < 10 then [DigitChar(n)] else Decimal(n / 10) + [DigitChar(n % 10)]
  }

  /** Different numbers have different numerals. */
  lemma {:induction false} DecimalInjective(a: nat, b: nat)
    requires Decimal(a) == Decimal(b)
    ensures a == b
    decreases a
  {
    if a < 10 && b < 10 {
      assert Decimal(a)[0] == DigitChar(a) && Decimal(b)[0] == DigitChar(b);
    } else if a >= 10 && b >= 10 {
      var sa := Decimal(a);
      assert sa[..|sa| - 1] == Decimal(a / 10);
      assert Decimal(b)[..|sa| - 1] == Decimal(b / 10);
      DecimalInjective(a / 10, b / 10);
      assert DigitChar(a % 10) == sa[|sa| - 1] == DigitChar(b % 10);
    }
  }

  /** A marker character that occurs in neither prefix splits a string in one way only. */
  lemma SplitAtMarker(a: string, b: string, a2: string, b2: string, m: char)
    requires m !in a && m !in a2 && a + [m] + b == a2 + [m] + b2
    ensures a == a2 && b == b2
  {
    var s := a + [m] + b;
    if |a| < |a2| {
      MarkerNotBefore(a2, m, b2, |a|);
      assert false;
    } else if |a2| < |a| {
      MarkerNotBefore(a, m, b, |a2|);
      assert false;
    }
    assert a == s[..|a|];
    assert a2 == (a2 + [m] + b2)[..|a2|];
    assert b == s[|a| + 1..];
    assert b2 == (a2 + [m] + b2)[|a2| + 1..];
  }

  lemma MarkerNotBefore(a: string, m: char, b: string, i: nat)
    requires i < |a| && m !in a
    ensures (a + [m] + b)[i] != m
  {
    assert (a + [m] + b)[i] == a[i];
  }

  lemma NoLetterInDigits(s: string, m: char)
    requires IsDigits(s) && !('0' <= m <= '9')
    ensures m !in s
  {
  }

  function ClusterName(c: nat): string {
    "C" + Decimal(c)
  }

  function HouseName(c: nat, h: nat): string {
    "C" + Decimal(c) + "H" + Decimal(h)
  }

  function TrunkPipeName(c: nat): string {
    "P_Tank_" + Decimal(c)
  }

  function BranchPipeName(c: nat, h: nat): string {
    "P_" + Decimal(c) + "_" + Decimal(h)
  }

  /** `C{c}H{h}` names one house only. */
  lemma HouseNameInjective(c: nat, h: nat, c2: nat, h2: nat)
    requires HouseName(c, h) == HouseName(c2, h2)
    ensures c == c2 && h == h2
  {
    var s := HouseName(c, h);
    assert s[1..] == Decimal(c) + ['H'] + Decimal(h);
    assert HouseName(c2, h2)[1..] == Decimal(c2) + ['H'] + Decimal(h2);
    NoLetterInDigits(Decimal(c), 'H');
    NoLetterInDigits(Decimal(c2), 'H');
    SplitAtMarker(Decimal(c), Decimal(h), Decimal(c2), Decimal(h2), 'H');
    DecimalInjective(c, c2);
    DecimalInjective(h, h2);
  }

  lemma ClusterNameInjective(c: nat, c2: nat)
    requires ClusterName(c) == ClusterName(c2)
    ensures c == c2
  {
    assert ClusterName(c)[1..] == Decimal(c);
    assert ClusterName(c2)[1..] == Decimal(c2);
    DecimalInjective(c, c2);
  }

  /** A cluster name has no `H`, a house name has one. */
  lemma ClusterIsNotHouse(c: nat, c2: nat, h2: nat)
    ensures ClusterName(c) != HouseName(c2, h2)
  {
    NoLetterInDigits(Decimal(c), 'H');
    assert 'H' !in ClusterName(c);
    assert HouseName(c2, h2)[1 + |Decimal(c2)|] == 'H';
  }

  lemma BranchPipeNameInjective(c: nat, h: nat, c2: nat, h2: nat)
    requires BranchPipeName(c, h) == BranchPipeName(c2, h2)
    ensures c == c2 && h == h2
  {
    assert BranchPipeName(c, h)[2..] == Decimal(c) + ['_'] + Decimal(h);
    assert BranchPipeName(c2, h2)[2..] == Decimal(c2) + ['_'] + Decimal(h2);
    NoLetterInDigits(Decimal(c), '_');
    NoLetterInDigits(Decimal(c2), '_');
    SplitAtMarker(Decimal(c), Decimal(h), Decimal(c2), Decimal(h2), '_');
    DecimalInjective(c, c2);
    DecimalInjective(h, h2);
  }

  lemma TrunkPipeNameInjective(c: nat, c2: nat)
    requires TrunkPipeName(c) == TrunkPipeName(c2)
    ensures c == c2
  {
    assert TrunkPipeName(c)[7..] == Decimal(c);
    assert TrunkPipeName(c2)[7..] == Decimal(c2);
    DecimalInjective(c, c2);
  }

  /** A trunk pipe name has `T` where a branch pipe name has a digit. */
  lemma TrunkIsNotBranch(c: nat, c2: nat, h2: nat)
    ensures TrunkPipeName(c) != BranchPipeName(c2, h2)
  {
    assert TrunkPipeName(c)[2] == 'T';
    assert BranchPipeName(c2, h2)[2] == Decimal(c2)[0];
  }
}
