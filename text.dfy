/**
 * String helpers that the modelled code takes from its platform: joining a
 * list of strings with a separator (Java's String.join and
 * Collectors.joining, JavaScript's Array.join) and printing an int in
 * decimal (Java's String.valueOf and Integer.toString). Each comes with
 * its inverse and a round-trip lemma.
 */
module Text {
  import opened Wrappers

  /** The strings of parts, in order, with sep between neighbours. */
  function Join(sep: string, parts: seq<string>): (r: string)
    ensures parts == [] ==> r == ""
    ensures |parts| == 1 ==> r == parts[0]
  {
    if parts == [] then ""
    else if |parts| == 1 then parts[0]
    else parts[0] + sep + Join(sep, parts[1..])
  }

  /** Join on a non-empty list: the first part, then the separator and the join of the rest. */
  lemma JoinCons(sep: string, head: string, tail: seq<string>)
    requires tail != []
    ensures Join(sep, [head] + tail) == head + sep + Join(sep, tail)
  {
    assert ([head] + tail)[1..] == tail;
  }

  /** Cuts s at every occurrence of c; the pieces do not contain c. */
  function SplitOn(s: string, c: char): (r: seq<string>)
    ensures |r| >= 1
    ensures forall i :: 0 <= i < |r| ==> c !in r[i]
  {
    if s == [] then [""]
    else if s[0] == c then [""] + SplitOn(s[1..], c)
    else
      var rest := SplitOn(s[1..], c);
      [[s[0]] + rest[0]] + rest[1..]
  }

  /** A string free of c is one piece. */
  lemma {:induction false} SplitOnFree(s: string, c: char)
    requires c !in s
    ensures SplitOn(s, c) == [s]
  {
    if s != [] {
      SplitOnFree(s[1..], c);
      assert [s[0]] + s[1..] == s;
    }
  }

  /** A piece free of c followed by c: the piece, then the pieces of the rest. */
  lemma {:induction false} SplitOnPrefix(a: string, c: char, rest: string)
    requires c !in a
    ensures SplitOn(a + [c] + rest, c) == [a] + SplitOn(rest, c)
  {
    if a == [] {
      assert a + [c] + rest == [c] + rest;
      assert ([c] + rest)[1..] == rest;
    } else {
      var s := a + [c] + rest;
      assert s[0] == a[0];
      assert s[1..] == a[1..] + [c] + rest;
      SplitOnPrefix(a[1..], c, rest);
      assert [a[0]] + a[1..] == a;
    }
  }

  /**
   * Joining with a one-character separator that no part contains can be
   * undone: splitting at that character gives back the parts.
   */
  lemma {:induction false} SplitJoin(parts: seq<string>, c: char)
    requires parts != []
    requires forall i :: 0 <= i < |parts| ==> c !in parts[i]
    ensures SplitOn(Join([c], parts), c) == parts
  {
    if |parts| == 1 {
      SplitOnFree(parts[0], c);
    } else {
      var tail := parts[1..];
      JoinCons([c], parts[0], tail);
      assert [parts[0]] + tail == parts;
      SplitJoin(tail, c);
      SplitOnPrefix(parts[0], c, Join([c], tail));
    }
  }

  predicate IsDigit(ch: char) {
    '0' <= ch <= '9'
  }

  function DigitChar(d: nat): (ch: char)
    requires d < 10
    ensures IsDigit(ch) && ch as int - '0' as int == d
  {
    (d + '0' as int) as char
  }

  /** The decimal digits of n, without leading zeros. */
  function NatToString(n: nat): (s: string)
    ensures |s| >= 1
    ensures forall i :: 0 <= i < |s| ==> IsDigit(s[i])
    ensures |s| > 1 ==> s[0] != '0'
  {
    if n < 10 then [DigitChar(n)]
    else NatToString(n / 10) + [DigitChar(n % 10)]
  }

  /** String.valueOf(int): an optional minus sign, then the decimal digits. */
  function IntToString(n: int): (s: string)
    ensures |s| >= 1
    ensures (n < 0) <==> (s[0] == '-')
  {
    if n < 0 then "-" + NatToString(-n) else NatToString(n)
  }

  function DigitValue(ch: char): nat
    requires IsDigit(ch)
  {
    ch as int - '0' as int
  }

  /** The value of a string of decimal digits. */
  function ParseNat(s: string): nat
    requires forall i :: 0 <= i < |s| ==> IsDigit(s[i])
  {
    if s == [] then 0
    else ParseNat(s[..|s| - 1]) * 10 + DigitValue(s[|s| - 1])
  }

  /** Reads back an optional minus sign and decimal digits. */
  function ParseInt(s: string): Option<int>
  {
    if |s| >= 2 && s[0] == '-' && forall i :: 1 <= i < |s| ==> IsDigit(s[i]) then Some(-(ParseNat(s[1..]) as int))
    else if |s| >= 1 && forall i :: 0 <= i < |s| ==> IsDigit(s[i]) then Some(ParseNat(s))
    else None
  }

  lemma {:induction false} ParseNatToString(n: nat)
    ensures ParseNat(NatToString(n)) == n
  {
    if n >= 10 {
      var s := NatToString(n);
      ParseNatToString(n / 10);
      assert s[..|s| - 1] == NatToString(n / 10);
    }
  }

  /** The decimal form of an int reads back as that int. */
  lemma IntToStringRoundTrip(n: int)
    ensures ParseInt(IntToString(n)) == Some(n)
  {
    var s := IntToString(n);
    if n < 0 {
      assert s[1..] == NatToString(-n);
      ParseNatToString(-n);
    } else {
      ParseNatToString(n);
    }
  }
}
