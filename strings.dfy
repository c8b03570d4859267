/** Text building blocks of the generator's output: runs of spaces (the
    source's string(n, ' ')), values joined by single spaces, and the decimal
    rendering of an int that the caption's " (N bit)" suffix uses. */
module Strings {

  /** n space characters. */
  function Spaces(n: nat): (r: string)
    ensures |r| == n
  {
    if n == 0 then "" else Spaces(n - 1) + " "
  }

  /** Spaces(n) holds nothing but spaces. */
  lemma {:induction false} SpacesAreSpaces(n: nat)
    ensures forall i :: 0 <= i < n ==> Spaces(n)[i] == ' '
  {
    if n > 0 {
      SpacesAreSpaces(n - 1);
      assert forall i :: 0 <= i < n - 1 ==> Spaces(n)[i] == Spaces(n - 1)[i];
    }
  }

  /** The strings of rs in order, separated by exactly one space. */
  function Join(rs: seq<string>): string
  {
    if |rs| == 0 then ""
    else if |rs| == 1 then rs[0]
    else Join(rs[..|rs| - 1]) + " " + rs[|rs| - 1]
  }

  /** The total length of the strings of rs. */
  function TotalLength(rs: seq<string>): nat
  {
    if |rs| == 0 then 0 else TotalLength(rs[..|rs| - 1]) + |rs[|rs| - 1]|
  }

  /** A joined line is as long as its parts plus one separator between each two. */
  lemma {:induction false} JoinLength(rs: seq<string>)
    requires |rs| > 0
    ensures |Join(rs)| == TotalLength(rs) + |rs| - 1
  {
    if |rs| > 1 {
      JoinLength(rs[..|rs| - 1]);
    }
  }

  /** Cutting a joined line before element i: the part before, exactly one
      space, and the joined remainder. */
  lemma {:induction false} JoinSplitAt(rs: seq<string>, i: nat)
    requires 0 < i < |rs|
    ensures Join(rs) == Join(rs[..i]) + " " + Join(rs[i..])
  {
    var init := rs[..|rs| - 1];
    if i == |rs| - 1 {
      assert init == rs[..i];
      assert rs[i..] == [rs[i]];
    } else {
      JoinSplitAt(init, i);
      assert init[..i] == rs[..i];
      var rest := rs[i..];
      assert |rest| >= 2;
      assert rest[..|rest| - 1] == init[i..];
      assert rest[|rest| - 1] == rs[|rs| - 1];
    }
  }

  /** A joined line starts with its first element. */
  lemma {:induction false} JoinStartsWithHead(rs: seq<string>)
    requires |rs| > 0
    ensures |rs[0]| <= |Join(rs)| && Join(rs)[..|rs[0]|] == rs[0]
  {
    if |rs| > 1 {
      JoinStartsWithHead(rs[..|rs| - 1]);
      assert rs[..|rs| - 1][0] == rs[0];
    }
  }

  /** Element i of a joined line (i > 0) starts right after the separator that
      follows the joined elements before it. */
  lemma JoinColumn(rs: seq<string>, i: nat)
    requires 0 < i < |rs|
    ensures |Join(rs[..i])| + 1 + |rs[i]| <= |Join(rs)|
    ensures Join(rs)[|Join(rs[..i])| + 1 .. |Join(rs[..i])| + 1 + |rs[i]|] == rs[i]
  {
    JoinSplitAt(rs, i);
    JoinStartsWithHead(rs[i..]);
    var before := Join(rs[..i]) + " ";
    assert Join(rs) == before + Join(rs[i..]);
  }

  /** The index of the last space in s, or -1 when it has none. */
  function LastSpace(s: string): (k: int)
    ensures -1 <= k < |s|
    ensures k >= 0 ==> s[k] == ' '
    ensures forall j :: k < j < |s| ==> s[j] != ' '
  {
    if |s| == 0 then -1
    else if s[|s| - 1] == ' ' then |s| - 1
    else LastSpace(s[..|s| - 1])
  }

  /** Splits s at every space: the reference definition that Join inverts. */
  function Split(s: string): (r: seq<string>)
    ensures |r| > 0
    decreases |s|
  {
    var k := LastSpace(s);
    if k < 0 then [s] else Split(s[..k]) + [s[k + 1..]]
  }

  predicate NoSpace(s: string)
  {
    forall j :: 0 <= j < |s| ==> s[j] != ' '
  }

  /** Joining with single spaces loses nothing: splitting the line at its
      spaces gives back the elements, provided none of them holds a space. */
  lemma {:induction false} SplitJoin(rs: seq<string>)
    requires |rs| > 0
    requires forall i :: 0 <= i < |rs| ==> NoSpace(rs[i])
    ensures Split(Join(rs)) == rs
  {
    if |rs| == 1 {
      assert Join(rs) == rs[0];
      assert LastSpace(rs[0]) < 0;
    } else {
      var init, last := rs[..|rs| - 1], rs[|rs| - 1];
      var s := Join(init) + " " + last;
      assert Join(rs) == s;
      var m := |Join(init)|;
      assert s[m] == ' ';
      assert forall j :: m < j < |s| ==> s[j] == last[j - m - 1];
      var k := LastSpace(s);
      assert k == m;
      assert s[..k] == Join(init);
      assert s[k + 1..] == last;
      SplitJoin(init);
    }
  }

  /** The character of decimal digit d. */
  function DigitChar(d: int): (c: char)
    requires 0 <= d < 10
    ensures '0' <= c <= '9'
  {
    ('0' as int + d) as char
  }

  predicate IsDigits(s: string)
  {
    forall i :: 0 <= i < |s| ==> '0' <= s[i] <= '9'
  }

  /** The decimal rendering of n, without leading zeros. */
  function NatToString(n: nat): (s: string)
    ensures |s| > 0 && IsDigits(s)
    ensures n > 0 ==> s[0] != '0'
  {
    if n < 10 then [DigitChar(n)] else NatToString(n / 10) + [DigitChar(n % 10)]
  }

  /** The decimal rendering of an int, as an output stream writes it. */
  function IntToString(n: int): (s: string)
    ensures |s| > 0
    ensures n < 0 <==> s[0] == '-'
  {
    if n < 0 then "-" + NatToString(-n) else NatToString(n)
  }

  /** The value of a string of decimal digits. */
  function ParseNat(s: string): nat
    requires IsDigits(s)
  {
    if |s| == 0 then 0
    else ParseNat(s[..|s| - 1]) * 10 + (s[|s| - 1] as int - '0' as int)
  }

  /** The value of an optionally negative decimal string. */
  function ParseInt(s: string): int
    requires |s| > 0
    requires s[0] == '-' ==> IsDigits(s[1..])
    requires s[0] != '-' ==> IsDigits(s)
  {
    if s[0] == '-' then -(ParseNat(s[1..]) as int) else ParseNat(s)
  }

  lemma {:induction false} ParseNatToString(n: nat)
    ensures ParseNat(NatToString(n)) == n
  {
    var s := NatToString(n);
    if n >= 10 {
      ParseNatToString(n / 10);
      assert s[..|s| - 1] == NatToString(n / 10);
    }
  }

  /** The width printed in a caption can be read back exactly. */
  lemma IntToStringRoundTrip(n: int)
    ensures ParseInt(IntToString(n)) == n
  {
    var s := IntToString(n);
    if n < 0 {
      assert s[1..] == NatToString(-n);
      ParseNatToString(-n);
    } else {
      ParseNatToString(n);
    }
  }
}
