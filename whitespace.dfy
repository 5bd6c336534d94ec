/**
 * Splitting a line into tokens the way Rust's `str::split_whitespace` does:
 * maximal runs of characters that are not white space, in order, with the empty
 * pieces between adjacent separators dropped.
 */
module Whitespace {

  /** The characters with the Unicode White_Space property. */
  const WhiteSpace: set<char> := {
    '\t', '\n', '\U{000B}', '\U{000C}', '\r', ' ', '\U{0085}', '\U{00A0}', '\U{1680}',
    '\U{2000}', '\U{2001}', '\U{2002}', '\U{2003}', '\U{2004}', '\U{2005}', '\U{2006}',
    '\U{2007}', '\U{2008}', '\U{2009}', '\U{200A}', '\U{2028}', '\U{2029}', '\U{202F}',
    '\U{205F}', '\U{3000}'
  }

  /** Rust's `char::is_whitespace`. */
  predicate IsWs(c: char)
  {
    c in WhiteSpace
  }

  predicate AllWs(s: string)
  {
    forall i :: 0 <= i < |s| ==> IsWs(s[i])
  }

  /** A token: non-empty and free of white space. */
  predicate IsWord(w: string)
  {
    |w| > 0 && forall i :: 0 <= i < |w| ==> !IsWs(w[i])
  }

  /** The length of the leading run of non-white-space characters of `s`. */
  function WordLen(s: string): (n: nat)
    ensures n <= |s|
  {
    if s != [] && !IsWs(s[0]) then 1 + WordLen(s[1..]) else 0
  }

  /** `s.split_whitespace()`, collected into a sequence. */
  function SplitWhitespace(s: string): seq<string>
    decreases |s|
  {
    if s == [] then []
    else if IsWs(s[0]) then SplitWhitespace(s[1..])
    else
      var n := WordLen(s);
      [s[..n]] + SplitWhitespace(s[n..])
  }

  /** The words joined with one space between neighbours. */
  function Join(words: seq<string>): string
  {
    if words == [] then []
    else if |words| == 1 then words[0]
    else words[0] + " " + Join(words[1..])
  }

  /** The leading run is free of white space and ends at white space or at the end. */
  lemma {:induction false} WordLenBounds(s: string)
    ensures forall i :: 0 <= i < WordLen(s) ==> !IsWs(s[i])
    ensures WordLen(s) == |s| || IsWs(s[WordLen(s)])
  {
    if s != [] && !IsWs(s[0]) {
      WordLenBounds(s[1..]);
      assert forall i :: 1 <= i < WordLen(s) ==> s[i] == s[1..][i - 1];
    }
  }

  /** Every token split_whitespace yields is a non-empty run without white space. */
  lemma {:induction false} SplitYieldsWords(s: string)
    ensures forall i :: 0 <= i < |SplitWhitespace(s)| ==> IsWord(SplitWhitespace(s)[i])
    decreases |s|
  {
    if s != [] {
      if IsWs(s[0]) {
        SplitYieldsWords(s[1..]);
      } else {
        var n := WordLen(s);
        WordLenBounds(s);
        SplitYieldsWords(s[n..]);
        var r := SplitWhitespace(s);
        assert r == [s[..n]] + SplitWhitespace(s[n..]);
        forall i | 0 <= i < |r| ensures IsWord(r[i]) {
          if i > 0 {
            assert r[i] == SplitWhitespace(s[n..])[i - 1];
          }
        }
      }
    }
  }

  /** A line yields no tokens exactly when it is empty or all white space. */
  lemma {:induction false} SplitEmptyIffAllWs(s: string)
    ensures SplitWhitespace(s) == [] <==> AllWs(s)
    decreases |s|
  {
    if s != [] {
      if IsWs(s[0]) {
        SplitEmptyIffAllWs(s[1..]);
        assert AllWs(s) <==> AllWs(s[1..]) by {
          assert forall i :: 1 <= i < |s| ==> s[i] == s[1..][i - 1];
        }
      } else {
        assert !AllWs(s);
      }
    }
  }

  lemma {:induction false} WordLenOfWord(w: string, tail: string)
    requires forall i :: 0 <= i < |w| ==> !IsWs(w[i])
    requires tail == [] || IsWs(tail[0])
    ensures WordLen(w + tail) == |w|
  {
    if w != [] {
      assert (w + tail)[0] == w[0];
      assert (w + tail)[1..] == w[1..] + tail;
      WordLenOfWord(w[1..], tail);
    } else {
      assert w + tail == tail;
    }
  }

  /** A line that starts with word `w`, followed by white space or the end, has `w` as its first token. */
  lemma SplitWordThen(w: string, tail: string)
    requires IsWord(w)
    requires tail == [] || IsWs(tail[0])
    ensures SplitWhitespace(w + tail) == [w] + SplitWhitespace(tail)
  {
    var s := w + tail;
    assert s[0] == w[0];
    WordLenOfWord(w, tail);
    assert s[..|w|] == w;
    assert s[|w|..] == tail;
  }

  /** Leading white space does not change the tokens. */
  lemma SplitAfterSpace(s: string)
    ensures SplitWhitespace(" " + s) == SplitWhitespace(s)
  {
    assert (" " + s)[1..] == s;
  }

  lemma JoinStart(words: seq<string>)
    requires |words| > 1
    ensures Join(words) == words[0] + (" " + Join(words[1..]))
  {
  }

  /** One step of SplitJoin: a word, a space, then a line whose tokens are `rest`. */
  lemma SplitJoinStep(words: seq<string>, w: string, rest: seq<string>, line: string)
    requires words == [w] + rest && |rest| > 0 && line == Join(rest)
    requires IsWord(w)
    requires SplitWhitespace(line) == rest
    ensures SplitWhitespace(Join(words)) == words
  {
    JoinStart(words);
    assert words[0] == w && words[1..] == rest;
    var tail := " " + line;
    assert tail[0] == ' ';
    SplitWordThen(w, tail);
    SplitAfterSpace(line);
  }

  /** A single word is its own only token. */
  lemma SplitWord(w: string)
    requires IsWord(w)
    ensures SplitWhitespace(w) == [w]
  {
    SplitWordThen(w, []);
    assert w + [] == w;
  }

  lemma SplitJoinOne(words: seq<string>)
    requires |words| == 1 && IsWord(words[0])
    ensures SplitWhitespace(Join(words)) == words
  {
    SplitWord(words[0]);
  }

  /** Splitting undoes joining: every token list is recovered from its line. */
  lemma {:induction false} SplitJoin(words: seq<string>)
    requires forall i :: 0 <= i < |words| ==> IsWord(words[i])
    ensures SplitWhitespace(Join(words)) == words
  {
    if |words| == 1 {
      SplitJoinOne(words);
    } else if |words| > 1 {
      var rest := words[1..];
      assert forall i :: 0 <= i < |rest| ==> IsWord(rest[i]) by {
        forall i | 0 <= i < |rest| ensures IsWord(rest[i]) {
          assert rest[i] == words[i + 1];
        }
      }
      SplitJoin(rest);
      SplitJoinStep(words, words[0], rest, Join(rest));
    }
  }
}
