/**
 * The string helpers the query path relies on: blankness as Apache
 * Commons' StringUtils decides it, quote stripping of operator names, and
 * Java's String.split on a single separator character.
 */
module Text {
  import opened Types

  /** Character.isWhitespace: the ASCII controls, the information separators and
      the Unicode space, line and paragraph separators other than the no-break spaces. */
  predicate IsWhitespace(c: char)
  {
    c == ' ' || ('\t' <= c <= '\r') || ('\U{1C}' <= c <= '\U{1F}')
    || c == '\U{1680}' || ('\U{2000}' <= c <= '\U{2006}') || ('\U{2008}' <= c <= '\U{200A}')
    || c == '\U{205F}' || c == '\U{2028}' || c == '\U{2029}' || c == '\U{3000}'
  }

  /** StringUtils.isBlank: null, empty, or whitespace only. */
  predicate IsBlank(s: Option<string>)
  {
    s.None? || forall i :: 0 <= i < |s.value| ==> IsWhitespace(s.value[i])
  }

  /** The characters removed from names: the ASCII quote and the two curly quotes. */
  predicate IsQuote(c: char)
  {
    c == '"' || c == '\U{201C}' || c == '\U{201D}'
  }

  /** Removes every quote character, as the source's replaceAll over that character class does. */
  function StripQuotes(s: string): (r: string)
    ensures |r| <= |s|
    ensures forall i :: 0 <= i < |r| ==> !IsQuote(r[i])
  {
    if s == [] then []
    else if IsQuote(s[0]) then StripQuotes(s[1..])
    else [s[0]] + StripQuotes(s[1..])
  }

  /** A string without quotes is left as it is, so stripping is idempotent. */
  lemma {:induction false} StripQuotesNoQuotes(s: string)
    requires forall i :: 0 <= i < |s| ==> !IsQuote(s[i])
    ensures StripQuotes(s) == s
  {
    if s != [] {
      StripQuotesNoQuotes(s[1..]);
    }
  }

  lemma StripQuotesIdempotent(s: string)
    ensures StripQuotes(StripQuotes(s)) == StripQuotes(s)
  {
    StripQuotesNoQuotes(StripQuotes(s));
  }

  /** Stripping works character by character: the result of a concatenation is the
      concatenation of the results. */
  lemma {:induction false} StripQuotesAppend(a: string, b: string)
    ensures StripQuotes(a + b) == StripQuotes(a) + StripQuotes(b)
  {
    if a == [] {
      assert a + b == b;
    } else {
      assert (a + b)[0] == a[0];
      assert (a + b)[1..] == a[1..] + b;
      StripQuotesAppend(a[1..], b);
    }
  }

  /** Each character is kept, in order, exactly when it is not a quote; with StripQuotes("") == "",
      this determines StripQuotes on every string. */
  lemma StripQuotesSnoc(s: string, c: char)
    ensures StripQuotes(s + [c]) == StripQuotes(s) + (if IsQuote(c) then [] else [c])
  {
    StripQuotesAppend(s, [c]);
    assert [c][1..] == [];
  }

  /** All the fields of s between occurrences of sep, empty ones included. */
  function Fields(s: string, sep: char): (r: seq<string>)
    ensures |r| >= 1
    ensures forall k, i :: 0 <= k < |r| && 0 <= i < |r[k]| ==> r[k][i] != sep
  {
    if s == [] then [[]]
    else
      var rest := Fields(s[1..], sep);
      if s[0] == sep then [[]] + rest
      else [[s[0]] + rest[0]] + rest[1..]
  }

  /** The inverse of Fields: the fields glued back together with sep. */
  function Join(fs: seq<string>, sep: char): string
    requires |fs| >= 1
  {
    if |fs| == 1 then fs[0] else fs[0] + [sep] + Join(fs[1..], sep)
  }

  lemma {:induction false} JoinFields(s: string, sep: char)
    ensures Join(Fields(s, sep), sep) == s
  {
    if s != [] {
      var rest := Fields(s[1..], sep);
      JoinFields(s[1..], sep);
      if s[0] == sep {
        assert Fields(s, sep) == [[]] + rest;
        assert Fields(s, sep)[1..] == rest;
      } else {
        var fs := Fields(s, sep);
        assert fs == [[s[0]] + rest[0]] + rest[1..];
        if |rest| == 1 {
          assert fs == [[s[0]] + rest[0]];
        } else {
          assert fs[1..] == rest[1..];
          assert Join(rest, sep) == rest[0] + [sep] + Join(rest[1..], sep);
        }
      }
    }
  }

  /** Drops the empty strings at the end of a list of fields. */
  function DropTrailingEmpty(fs: seq<string>): (r: seq<string>)
    ensures |r| <= |fs| && r == fs[..|r|]
    ensures |r| > 0 ==> r[|r| - 1] != []
    ensures forall k :: |r| <= k < |fs| ==> fs[k] == []
  {
    if |fs| > 0 && fs[|fs| - 1] == [] then DropTrailingEmpty(fs[..|fs| - 1]) else fs
  }

  /** `s.split(String.valueOf(sep))`: the input itself when sep does not occur, and
      otherwise every field with the trailing empty ones removed. */
  function JavaSplit(s: string, sep: char): (r: seq<string>)
    ensures forall k, i :: 0 <= k < |r| && 0 <= i < |r[k]| ==> r[k][i] != sep
    ensures sep !in s ==> r == [s]
  {
    if sep !in s then [s] else DropTrailingEmpty(Fields(s, sep))
  }

  /** When sep occurs, the tokens are a prefix of the fields and only empty fields were dropped,
      so joining the tokens and the dropped separators gives back the input. */
  lemma JavaSplitTokens(s: string, sep: char)
    requires sep in s
    ensures JavaSplit(s, sep) == Fields(s, sep)[..|JavaSplit(s, sep)|]
    ensures forall k :: |JavaSplit(s, sep)| <= k < |Fields(s, sep)| ==> Fields(s, sep)[k] == []
    ensures Join(Fields(s, sep), sep) == s
  {
    JoinFields(s, sep);
  }
}
