/**
 * The java.lang.String operations the services rely on: startsWith,
 * equalsIgnoreCase against a lower-case ASCII word, split(",") and the
 * "has text" test of Spring's StringUtils.
 */
module Text {

  predicate StartsWith(s: string, prefix: string)
  {
    |prefix| <= |s| && s[..|prefix|] == prefix
  }

  /** A word made of the letters a-z only. */
  predicate LowerAsciiWord(t: string)
  {
    forall k :: 0 <= k < |t| ==> 'a' <= t[k] <= 'z'
  }

  /**
   * Whether Java's case-insensitive comparison equates `c` with the lower-case
   * ASCII letter `t`: the letter itself, its upper case, and the non-ASCII
   * characters whose upper or lower case is one of the two
   * (U+017F long s, U+0131 dotless i, U+0130 dotted capital I, U+212A Kelvin sign).
   */
  predicate FoldsTo(c: char, t: char)
    requires 'a' <= t <= 'z'
  {
    || c == t
    || c as int == t as int - 32
    || (t == 's' && c == '\U{017F}')
    || (t == 'i' && (c == '\U{0131}' || c == '\U{0130}'))
    || (t == 'k' && c == '\U{212A}')
  }

  /** `s.equalsIgnoreCase(t)` for a lower-case ASCII word `t`. */
  predicate EqualsIgnoreCase(s: string, t: string)
    requires LowerAsciiWord(t)
    ensures s == t ==> EqualsIgnoreCase(s, t)
    ensures EqualsIgnoreCase(s, t) ==> |s| == |t|
  {
    |s| == |t| && forall k :: 0 <= k < |s| ==> FoldsTo(s[k], t[k])
  }

  /** `Character.isWhitespace`. */
  predicate IsWhitespace(c: char)
  {
    || c == ' ' || c == '\t' || c == '\n' || c == '\U{000B}' || c == '\U{000C}' || c == '\r'
    || ('\U{001C}' <= c <= '\U{001F}')
    || c == '\U{1680}'
    || ('\U{2000}' <= c <= '\U{2006}')
    || ('\U{2008}' <= c <= '\U{200A}')
    || c == '\U{2028}' || c == '\U{2029}' || c == '\U{205F}' || c == '\U{3000}'
  }

  /** `StringUtils.hasText`: some character is not whitespace. */
  predicate HasText(s: string)
    ensures HasText(s) ==> s != []
    ensures s != [] && !IsWhitespace(s[0]) ==> HasText(s)
  {
    exists k :: 0 <= k < |s| && !IsWhitespace(s[k])
  }

  /** Every piece between commas, empty pieces included. */
  function SplitAll(s: string): (parts: seq<string>)
    ensures |parts| >= 1
  {
    if s == [] then [[]]
    else
      var rest := SplitAll(s[1..]);
      if s[0] == ',' then [[]] + rest else [[s[0]] + rest[0]] + rest[1..]
  }

  /** The pieces glued back together with commas. */
  function Join(parts: seq<string>): string
    requires |parts| >= 1
  {
    if |parts| == 1 then parts[0] else parts[0] + "," + Join(parts[1..])
  }

  /** The list without its trailing empty strings. */
  function DropTrailingEmpty(parts: seq<string>): (r: seq<string>)
    ensures |r| <= |parts| && r == parts[..|r|]
    ensures r != [] ==> r[|r| - 1] != []
    ensures forall k :: |r| <= k < |parts| ==> parts[k] == []
  {
    if parts == [] then []
    else if parts[|parts| - 1] == [] then DropTrailingEmpty(parts[..|parts| - 1])
    else parts
  }

  /**
   * `s.split(",")`: a string without a comma gives itself (even when empty);
   * otherwise the pieces between commas, minus the trailing empty ones.
   */
  function JavaSplit(s: string): (r: seq<string>)
    ensures ',' !in s ==> r == [s]
    ensures forall k :: 0 <= k < |r| ==> ',' !in r[k]
    ensures ',' in s && r != [] ==> r[|r| - 1] != []
  {
    if ',' !in s then [s]
    else
      SplitAllCommaFree(s);
      DropTrailingEmpty(SplitAll(s))
  }

  /** The characters before the first comma. */
  function TakeUntilComma(s: string): (r: string)
  {
    if s == [] || s[0] == ',' then [] else [s[0]] + TakeUntilComma(s[1..])
  }

  /** Splitting at every comma loses nothing: the pieces join back to the input. */
  lemma {:induction false} JoinSplitAll(s: string)
    ensures Join(SplitAll(s)) == s
  {
    if s != [] {
      var rest := SplitAll(s[1..]);
      JoinSplitAll(s[1..]);
      if s[0] == ',' {
        assert SplitAll(s)[1..] == rest;
        assert s == [','] + s[1..];
      } else if |rest| == 1 {
        assert s == [s[0]] + s[1..];
      } else {
        var parts := SplitAll(s);
        assert parts[1..] == rest[1..];
        assert Join(rest) == rest[0] + "," + Join(rest[1..]);
        assert s == [s[0]] + s[1..];
      }
    }
  }

  /** No piece of a split contains a comma. */
  lemma {:induction false} SplitAllCommaFree(s: string)
    ensures forall k :: 0 <= k < |SplitAll(s)| ==> ',' !in SplitAll(s)[k]
  {
    if s != [] {
      SplitAllCommaFree(s[1..]);
      var rest := SplitAll(s[1..]);
      if s[0] != ',' {
        assert ',' !in [s[0]] + rest[0];
      }
    }
  }

  /** The first piece of a split is the text before the first comma. */
  lemma {:induction false} SplitAllFirst(s: string)
    ensures SplitAll(s)[0] == TakeUntilComma(s)
  {
    if s != [] {
      SplitAllFirst(s[1..]);
    }
  }

  /** `split(",")` gives no pieces at all exactly when the input is one or more commas only. */
  lemma {:induction false} JavaSplitEmptyIff(s: string)
    ensures JavaSplit(s) == [] <==> (s != [] && forall k :: 0 <= k < |s| ==> s[k] == ',')
  {
    if ',' in s {
      var parts := SplitAll(s);
      if forall k :: 0 <= k < |s| ==> s[k] == ',' {
        AllCommasSplit(s);
        assert forall k :: 0 <= k < |parts| ==> parts[k] == [];
        DropAllEmpty(parts);
      } else {
        var k :| 0 <= k < |s| && s[k] != ',';
        SplitKeepsText(s, k);
      }
    } else if s != [] {
      assert s[0] in s;
    }
  }

  /** With a first piece, that piece is the text before the first comma. */
  lemma JavaSplitFirst(s: string)
    requires JavaSplit(s) != []
    ensures JavaSplit(s)[0] == TakeUntilComma(s)
  {
    if ',' in s {
      SplitAllFirst(s);
    } else {
      NoCommaTake(s);
    }
  }

  lemma {:induction false} NoCommaTake(s: string)
    requires ',' !in s
    ensures TakeUntilComma(s) == s
  {
    if s != [] {
      assert ',' !in s[1..] by {
        forall k | 0 <= k < |s[1..]| ensures s[1..][k] != ',' { assert s[1..][k] == s[k + 1]; }
      }
      NoCommaTake(s[1..]);
      assert s == [s[0]] + s[1..];
    }
  }

  lemma {:induction false} AllCommasSplit(s: string)
    requires forall k :: 0 <= k < |s| ==> s[k] == ','
    ensures forall k :: 0 <= k < |SplitAll(s)| ==> SplitAll(s)[k] == []
  {
    if s != [] {
      AllCommasSplit(s[1..]);
    }
  }

  lemma {:induction false} DropAllEmpty(parts: seq<string>)
    requires forall k :: 0 <= k < |parts| ==> parts[k] == []
    ensures DropTrailingEmpty(parts) == []
  {
    if parts != [] {
      DropAllEmpty(parts[..|parts| - 1]);
    }
  }

  /** A non-comma character at position k leaves a non-empty piece, which survives the trimming. */
  lemma {:induction false} SplitKeepsText(s: string, k: nat)
    requires k < |s| && s[k] != ','
    ensures DropTrailingEmpty(SplitAll(s)) != []
  {
    var parts := SplitAll(s);
    var j := NonEmptyPiece(s, k);
    assert parts[j] != [];
  }

  lemma {:induction false} NonEmptyPiece(s: string, k: nat) returns (j: nat)
    requires k < |s| && s[k] != ','
    ensures j < |SplitAll(s)| && SplitAll(s)[j] != []
  {
    var rest := SplitAll(s[1..]);
    if k == 0 {
      j := 0;
    } else {
      var j' := NonEmptyPiece(s[1..], k - 1);
      if s[0] == ',' {
        j := j' + 1;
      } else if j' == 0 {
        j := 0;
      } else {
        j := j';
      }
    }
  }
}
