/** Java string operations the core relies on: lower-casing, substring search,
    blank tests, decimal rendering of integers and the rendering of a List<String>. */
module Text {

  /** Character.toLowerCase, restricted to the ASCII letters. */
  function LowerChar(c: char): char
  {
    if 'A' <= c <= 'Z' then (c as int - 'A' as int + 'a' as int) as char else c
  }

  /** String.toLowerCase, restricted to the ASCII letters. */
  function Lower(s: string): (r: string)
    ensures |r| == |s|
    ensures forall i :: 0 <= i < |s| ==> r[i] == LowerChar(s[i])
  {
    seq(|s|, i requires 0 <= i < |s| => LowerChar(s[i]))
  }

  lemma LowerConcat(a: string, b: string)
    ensures Lower(a + b) == Lower(a) + Lower(b)
  {
  }

  /** `k` occurs in `s` starting at index `i`. */
  predicate ContainsAt(s: string, k: string, i: nat)
  {
    i + |k| <= |s| && s[i..i + |k|] == k
  }

  /** String.contains. */
  predicate Contains(s: string, k: string)
  {
    exists i: nat | i <= |s| :: ContainsAt(s, k, i)
  }

  lemma ContainsInfix(a: string, k: string, b: string)
    ensures Contains(a + k + b, k)
  {
    var s := a + k + b;
    assert s[|a|..|a| + |k|] == k;
    assert ContainsAt(s, k, |a|);
  }

  lemma ContainsWithin(s: string, k: string, a: string, b: string)
    requires Contains(s, k)
    ensures Contains(a + s + b, k)
  {
    var i: nat :| i <= |s| && ContainsAt(s, k, i);
    var t := a + s + b;
    assert t[|a| + i..|a| + i + |k|] == s[i..i + |k|];
    assert ContainsAt(t, k, |a| + i);
  }

  /** String.startsWith. */
  predicate StartsWith(s: string, prefix: string)
  {
    |prefix| <= |s| && s[..|prefix|] == prefix
  }

  /** String.endsWith. */
  predicate EndsWith(s: string, suffix: string)
  {
    |suffix| <= |s| && s[|s| - |suffix|..] == suffix
  }

  lemma ConcatEnds(a: string, b: string)
    ensures StartsWith(a + b, a) && EndsWith(a + b, b)
  {
    assert (a + b)[..|a|] == a;
    assert (a + b)[|a + b| - |b|..] == b;
  }

  /** A string of four parts starts with the first, contains the third and ends with the last. */
  lemma FourParts(a: string, b: string, c: string, d: string)
    ensures StartsWith(a + b + c + d, a)
    ensures Contains(a + b + c + d, c)
    ensures EndsWith(a + b + c + d, d)
  {
    ConcatEnds(a, b + c + d);
    assert a + b + c + d == a + (b + c + d);
    ConcatEnds(a + b + c, d);
    ContainsInfix(a + b, c, d);
  }

  lemma ConcatAssoc(a: string, b: string, c: string)
    ensures a + b + c == a + (b + c)
  {
  }

  lemma ContainsLeft(a: string, b: string, k: string)
    requires Contains(a, k)
    ensures Contains(a + b, k)
  {
    ContainsWithin(a, k, "", b);
    assert "" + a + b == a + b;
  }

  lemma ContainsRight(a: string, b: string, k: string)
    requires Contains(b, k)
    ensures Contains(a + b, k)
  {
    ContainsWithin(b, k, a, "");
    assert a + b + "" == a + b;
  }

  /** A string that ends with `k + tail` contains `k`. */
  lemma ContainsBeforeSuffix(s: string, k: string, tail: string)
    requires EndsWith(s, k + tail)
    ensures Contains(s, k)
  {
    var i := |s| - |k + tail|;
    assert s[i..i + |k|] == (k + tail)[..|k|];
    assert ContainsAt(s, k, i);
  }

  /** Lower-casing keeps every occurrence, lower-cased. */
  lemma ContainsLower(s: string, k: string)
    requires Contains(s, k)
    ensures Contains(Lower(s), Lower(k))
  {
    var i: nat :| i <= |s| && ContainsAt(s, k, i);
    assert Lower(s)[i..i + |k|] == Lower(k);
    assert ContainsAt(Lower(s), Lower(k), i);
  }

  /** String.trim().isEmpty(): trim drops every character up to U+0020 at both ends. */
  predicate IsBlank(s: string)
  {
    forall i | 0 <= i < |s| :: s[i] <= ' '
  }

  function DigitChar(d: nat): char
    requires d < 10
  {
    "0123456789"[d]
  }

  function DigitValue(c: char): nat
  {
    if '0' <= c <= '9' then c as int - '0' as int else 0
  }

  /** Decimal rendering of a natural number, as Java's %d and string concatenation print it. */
  function NatToString(n: nat): (r: string)
    ensures r != []
    ensures forall i :: 0 <= i < |r| ==> '0' <= r[i] <= '9'
  {
    if n < 10 then [DigitChar(n)] else NatToString(n / 10) + [DigitChar(n % 10)]
  }

  /** Decimal rendering of an int, with a leading minus sign for negatives. */
  function IntToString(i: int): string
  {
    if i < 0 then "-" + NatToString(-i) else NatToString(i)
  }

  /** Reads a string of decimal digits back: the inverse of NatToString. */
  function ParseNat(s: string): nat
  {
    if s == [] then 0 else 10 * ParseNat(s[..|s| - 1]) + DigitValue(s[|s| - 1])
  }

  lemma {:induction false} NatToStringRoundTrip(n: nat)
    ensures ParseNat(NatToString(n)) == n
  {
    var r := NatToString(n);
    if n >= 10 {
      NatToStringRoundTrip(n / 10);
      assert r[..|r| - 1] == NatToString(n / 10);
      assert DigitValue(r[|r| - 1]) == n % 10;
    } else {
      assert DigitValue(r[0]) == n;
    }
  }

  /** Two numbers render alike only when they are equal: the count shown in a
      subject or a message identifies the count. */
  lemma NatToStringInjective(m: nat, n: nat)
    requires NatToString(m) == NatToString(n)
    ensures m == n
  {
    NatToStringRoundTrip(m);
    NatToStringRoundTrip(n);
  }

  /** The items joined by ", ". */
  function JoinComma(items: seq<string>): string
  {
    if items == [] then ""
    else if |items| == 1 then items[0]
    else items[0] + ", " + JoinComma(items[1..])
  }

  /** List.toString of a list of strings: "[a, b]". */
  function ListToString(items: seq<string>): (r: string)
    ensures |r| >= 2 && r[0] == '[' && r[|r| - 1] == ']'
  {
    "[" + JoinComma(items) + "]"
  }
}
