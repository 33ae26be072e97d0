/** Decimal rendering of integers and the splitting facts that make composite row keys unambiguous. */
module Strings {

  predicate IsDigit(c: char) {
    '0' <= c <= '9'
  }

  function DigitChar(d: nat): (c: char)
    requires d < 10
    ensures IsDigit(c) && c as int - '0' as int == d
  {
    ('0' as int + d) as char
  }

  /** Java's decimal rendering of a non-negative int (`"" + n`): no sign, no leading zeros. */
  function NatToString(n: nat): (s: string)
    ensures |s| >= 1
    ensures forall i :: 0 <= i < |s| ==> IsDigit(s[i])
    ensures |s| == 1 <==> n < 10
    ensures |s| > 1 ==> s[0] != '0'
    decreases n
  {
    if n < 10 then [DigitChar(n)] else NatToString(n / 10) + [DigitChar(n % 10)]
  }

  /** Java's decimal rendering of an int, with a leading '-' for negative values. */
  function IntToString(i: int): string {
    if i < 0 then "-" + NatToString(-i) else NatToString(i)
  }

  /** Different numbers never render to the same decimal string. */
  lemma {:induction false} NatToStringInjective(a: nat, b: nat)
    requires NatToString(a) == NatToString(b)
    ensures a == b
    decreases a
  {
    var s := NatToString(a);
    if a >= 10 {
      // a single digit renders to one character, so b has at least two digits as well
      var sa, sb := NatToString(a / 10), NatToString(b / 10);
      assert s == sa + [DigitChar(a % 10)] && s == sb + [DigitChar(b % 10)];
      assert sa == s[..|s| - 1] == sb;
      assert DigitChar(a % 10) == s[|s| - 1] == DigitChar(b % 10);
      NatToStringInjective(a / 10, b / 10);
    }
  }

  /** A key `left + sep + right` whose left part never contains `sep` determines both parts. */
  lemma SplitAtFirst(left1: string, right1: string, left2: string, right2: string, sep: char)
    requires sep !in left1 && sep !in left2
    requires left1 + [sep] + right1 == left2 + [sep] + right2
    ensures left1 == left2 && right1 == right2
  {
    var key := left1 + [sep] + right1;
    assert key == left2 + [sep] + right2;
    assert key[|left1|] == sep && key[|left2|] == sep;
    assert forall i :: 0 <= i < |left1| ==> key[i] == left1[i];
    assert forall i :: 0 <= i < |left2| ==> key[i] == left2[i];
    assert |left1| == |left2|;
    assert left1 == key[..|left1|] == left2;
    assert right1 == key[|left1| + 1..] == right2;
  }

  /** A key `left + sep + right` whose right part never contains `sep` determines both parts. */
  lemma SplitAtLast(left1: string, right1: string, left2: string, right2: string, sep: char)
    requires sep !in right1 && sep !in right2
    requires left1 + [sep] + right1 == left2 + [sep] + right2
    ensures left1 == left2 && right1 == right2
  {
    var key := left1 + [sep] + right1;
    assert key == left2 + [sep] + right2;
    assert key[|left1|] == sep && key[|left2|] == sep;
    assert forall i :: |left1| < i < |key| ==> key[i] == right1[i - |left1| - 1];
    assert forall i :: |left2| < i < |key| ==> key[i] == right2[i - |left2| - 1];
    assert |left1| == |left2|;
    assert left1 == key[..|left1|] == left2;
    assert right1 == key[|left1| + 1..] == right2;
  }
}
