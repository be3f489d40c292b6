/**
 * The content of the jvm.options file the launcher generates for
 * Elasticsearch: a fixed header, then the JVM options one token per line,
 * where each configured option string is cut at every space that is
 * immediately followed by '-' (the regular expression " (?=-)").
 */
module JvmOptions {
  import opened Text

  const ElasticsearchJvmOptionsHeader: string :=
    "# This file has been automatically generated by SonarQube during startup.\n"
    + "# Please use the sonar.search.javaOpts in sonar.properties to specify jvm options for Elasticsearch\n"
    + "\n"
    + "# DO NOT EDIT THIS FILE\n"
    + "\n"

  /** A space at k immediately followed by '-': where the split pattern matches. */
  predicate SpaceBeforeDashAt(s: string, k: int)
  {
    0 <= k && k + 1 < |s| && s[k] == ' ' && s[k + 1] == '-'
  }

  /** The string contains " -". */
  predicate HasSpaceDash(s: string)
  {
    exists k | 0 <= k < |s| :: SpaceBeforeDashAt(s, k)
  }

  /**
   * String.split(" (?=-)"): the pieces between the matched spaces. A match
   * is never at the end of the string, so Java's removal of trailing empty
   * pieces never applies; a leading " -" gives a leading empty piece.
   */
  function SplitBeforeDash(s: string): (r: seq<string>)
    ensures |r| >= 1
  {
    if |s| < 2 then [s]
    else if SpaceBeforeDashAt(s, 0) then [""] + SplitBeforeDash(s[1..])
    else
      var rest := SplitBeforeDash(s[1..]);
      [[s[0]] + rest[0]] + rest[1..]
  }

  /** The first piece is a prefix of the string. */
  lemma {:induction false} FirstPieceIsPrefix(s: string)
    ensures SplitBeforeDash(s)[0] <= s
  {
    if |s| >= 2 && !SpaceBeforeDashAt(s, 0) {
      FirstPieceIsPrefix(s[1..]);
      assert s == [s[0]] + s[1..];
    }
  }

  /** A string that does not start with a space starts its first piece. */
  lemma FirstPieceStart(s: string)
    requires |s| > 0 && s[0] != ' '
    ensures |SplitBeforeDash(s)[0]| > 0 && SplitBeforeDash(s)[0][0] == s[0]
  {
  }

  /** Rejoining the pieces of an option with single spaces gives the option back. */
  lemma {:induction false} SplitBeforeDashRejoins(s: string)
    ensures Join(" ", SplitBeforeDash(s)) == s
  {
    if |s| >= 2 {
      var rest := SplitBeforeDash(s[1..]);
      SplitBeforeDashRejoins(s[1..]);
      if SpaceBeforeDashAt(s, 0) {
        JoinCons(" ", "", rest);
        assert s == " " + s[1..];
      } else {
        var r := SplitBeforeDash(s);
        assert r == [[s[0]] + rest[0]] + rest[1..];
        if |rest| == 1 {
          assert s == [s[0]] + s[1..];
        } else {
          JoinCons(" ", [s[0]] + rest[0], rest[1..]);
          JoinCons(" ", rest[0], rest[1..]);
          assert [rest[0]] + rest[1..] == rest;
          assert s == [s[0]] + s[1..];
        }
      }
    }
  }

  /**
   * No piece contains " -", every piece after the first starts with '-',
   * and every character of a piece comes from the option.
   */
  lemma {:induction false} SplitBeforeDashPieces(s: string)
    ensures forall i :: 0 <= i < |SplitBeforeDash(s)| ==> !HasSpaceDash(SplitBeforeDash(s)[i])
    ensures forall i :: 1 <= i < |SplitBeforeDash(s)| ==>
      |SplitBeforeDash(s)[i]| > 0 && SplitBeforeDash(s)[i][0] == '-'
    ensures forall i, ch :: 0 <= i < |SplitBeforeDash(s)| && ch in SplitBeforeDash(s)[i] ==> ch in s
  {
    var r := SplitBeforeDash(s);
    if |s| >= 2 {
      var rest := SplitBeforeDash(s[1..]);
      SplitBeforeDashPieces(s[1..]);
      if SpaceBeforeDashAt(s, 0) {
        assert r == [""] + rest;
        FirstPieceIsPrefix(s[1..]);
        forall i, ch | 0 <= i < |r| && ch in r[i] ensures ch in s {
          assert i > 0 && r[i] == rest[i - 1];
          assert ch in s[1..];
        }
        assert !HasSpaceDash("");
        FirstPieceStart(s[1..]);
      } else {
        var head := [s[0]] + rest[0];
        assert r == [head] + rest[1..];
        FirstPieceIsPrefix(s[1..]);
        assert !HasSpaceDash(head) by {
          if HasSpaceDash(head) {
            var k :| 0 <= k < |head| && SpaceBeforeDashAt(head, k);
            assert k + 1 < |head|;
            if k == 0 {
              assert s[1] == rest[0][0];
              assert SpaceBeforeDashAt(s, 0);
            } else {
              assert head[k] == rest[0][k - 1] && head[k + 1] == rest[0][k];
              assert SpaceBeforeDashAt(rest[0], k - 1);
            }
          }
        }
        forall i, ch | 0 <= i < |r| && ch in r[i] ensures ch in s {
          if i == 0 {
            if ch != s[0] {
              assert ch in rest[0];
              assert ch in s[1..];
            }
          } else {
            assert r[i] == rest[i];
            assert ch in s[1..];
          }
        }
      }
    } else {
      assert r == [s];
      assert !HasSpaceDash(s);
    }
  }

  /** The stream's flatMap: the pieces of every option, in order. */
  function Tokens(options: seq<string>): seq<string>
  {
    if options == [] then []
    else SplitBeforeDash(options[0]) + Tokens(options[1..])
  }

  /** ELASTICSEARCH_JVM_OPTIONS_HEADER followed by the tokens joined with newlines. */
  function JvmOptionsContent(options: seq<string>): string
  {
    ElasticsearchJvmOptionsHeader + Join("\n", Tokens(options))
  }

  /** Tokens are never " -"-bearing, and their characters come from the options. */
  lemma {:induction false} TokensProperties(options: seq<string>)
    ensures forall i :: 0 <= i < |Tokens(options)| ==> !HasSpaceDash(Tokens(options)[i])
    ensures forall i, ch :: 0 <= i < |Tokens(options)| && ch in Tokens(options)[i] ==>
      exists j :: 0 <= j < |options| && ch in options[j]
    ensures options != [] ==> Tokens(options) != []
  {
    if options != [] {
      var first := SplitBeforeDash(options[0]);
      var rest := Tokens(options[1..]);
      SplitBeforeDashPieces(options[0]);
      TokensProperties(options[1..]);
      forall i, ch | 0 <= i < |Tokens(options)| && ch in Tokens(options)[i]
        ensures exists j :: 0 <= j < |options| && ch in options[j]
      {
        if i < |first| {
          assert Tokens(options)[i] == first[i];
          assert ch in options[0];
        } else {
          assert Tokens(options)[i] == rest[i - |first|];
          var j :| 0 <= j < |options[1..]| && ch in options[1..][j];
          assert ch in options[j + 1];
        }
      }
    }
  }

  /** A character no option contains is in no token. */
  lemma TokensFreeOf(options: seq<string>, c: char)
    requires forall j :: 0 <= j < |options| ==> c !in options[j]
    ensures forall i :: 0 <= i < |Tokens(options)| ==> c !in Tokens(options)[i]
    ensures options != [] ==> Tokens(options) != []
  {
    TokensProperties(options);
  }

  /**
   * The file is the header, then one token per line: when no option holds
   * a line break, cutting the lines after the header at line breaks gives
   * back exactly the tokens.
   */
  lemma JvmOptionsContentLines(options: seq<string>)
    requires options != []
    requires forall j :: 0 <= j < |options| ==> '\n' !in options[j]
    ensures SplitOn(Join("\n", Tokens(options)), '\n') == Tokens(options)
  {
    TokensFreeOf(options, '\n');
    SplitJoin(Tokens(options), '\n');
  }

  /** With no option configured, the file holds the header alone. */
  lemma JvmOptionsContentEmpty()
    ensures JvmOptionsContent([]) == ElasticsearchJvmOptionsHeader
  {
  }
}

