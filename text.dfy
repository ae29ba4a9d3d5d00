/** The three Python string operations the answer heuristic relies on, on
    ASCII text: `str.split()` with no separator, `str.lower()` and the
    substring test `k in s`. */
module Text {

  /** Python's whitespace among the ASCII characters: tab, line feed,
      vertical tab, form feed, carriage return (9..13), the four information
      separators U+001C..U+001F and the space (32). */
  predicate IsSpace(c: char) {
    ('\t' <= c <= '\r') || ('\U{1C}' <= c <= ' ')
  }

  /** A token of `str.split()`: non-empty and free of whitespace. */
  predicate IsWord(w: string) {
    |w| > 0 && forall i :: 0 <= i < |w| ==> !IsSpace(w[i])
  }

  // ---------------------------------------------------------------------
  // str.split()
  // ---------------------------------------------------------------------

  /** The text left after skipping leading whitespace. */
  function DropSpaces(s: string): (t: string)
    ensures |t| <= |s| && t == s[|s| - |t|..]
    ensures t == [] || !IsSpace(t[0])
  {
    if s != [] && IsSpace(s[0]) then DropSpaces(s[1..]) else s
  }

  /** The longest prefix of `s` that holds no whitespace. */
  function LeadingWord(s: string): (w: string)
    ensures w <= s
    ensures forall i :: 0 <= i < |w| ==> !IsSpace(w[i])
    ensures |w| < |s| ==> IsSpace(s[|w|])
    ensures s != [] && !IsSpace(s[0]) ==> |w| > 0
  {
    if s == [] || IsSpace(s[0]) then [] else [s[0]] + LeadingWord(s[1..])
  }

  /** `s.split()`: skip whitespace, take the maximal run of non-whitespace as
      the next token, repeat until the text is exhausted. */
  function Split(s: string): (words: seq<string>)
    ensures forall w :: w in words ==> IsWord(w)
    decreases |s|
  {
    var t := DropSpaces(s);
    if t == [] then []
    else
      var w := LeadingWord(t);
      [w] + Split(t[|w|..])
  }

  /** `len(s.split())`. */
  function WordCount(s: string): nat {
    |Split(s)|
  }

  /** Reference count of words, in one left-to-right pass: a word begins at
      every non-whitespace character that follows whitespace or the start of
      the text (`afterSpace` says whether the previous character was
      whitespace, or there was none). */
  function WordStarts(s: string, afterSpace: bool): nat {
    if s == [] then 0
    else if IsSpace(s[0]) then WordStarts(s[1..], true)
    else (if afterSpace then 1 else 0) + WordStarts(s[1..], false)
  }

  lemma {:induction false} DropSpacesKeepsStarts(s: string)
    ensures WordStarts(DropSpaces(s), true) == WordStarts(s, true)
  {
    if s != [] && IsSpace(s[0]) {
      DropSpacesKeepsStarts(s[1..]);
    }
  }

  /** Inside a word no further word begins before the word ends. */
  lemma {:induction false} RestOfWordStarts(t: string)
    ensures WordStarts(t[|LeadingWord(t)|..], true) == WordStarts(t, false)
  {
    if t != [] && !IsSpace(t[0]) {
      RestOfWordStarts(t[1..]);
      assert t[|LeadingWord(t)|..] == t[1..][|LeadingWord(t[1..])|..];
    }
  }

  /** The number of tokens `split()` returns is the number of word starts. */
  lemma {:induction false} WordCountIsWordStarts(s: string)
    ensures WordCount(s) == WordStarts(s, true)
    decreases |s|
  {
    DropSpacesKeepsStarts(s);
    var t := DropSpaces(s);
    if t != [] {
      var w := LeadingWord(t);
      RestOfWordStarts(t[1..]);
      assert t[|w|..] == t[1..][|LeadingWord(t[1..])|..];
      WordCountIsWordStarts(t[|w|..]);
    }
  }

  /** Two texts with whitespace at exactly the same positions. */
  predicate SameSpacing(a: string, b: string) {
    |a| == |b| && forall i :: 0 <= i < |a| ==> IsSpace(a[i]) == IsSpace(b[i])
  }

  lemma {:induction false} SameSpacingSameStarts(a: string, b: string, afterSpace: bool)
    requires SameSpacing(a, b)
    ensures WordStarts(a, afterSpace) == WordStarts(b, afterSpace)
  {
    if a != [] {
      assert SameSpacing(a[1..], b[1..]) by {
        forall i | 0 <= i < |a[1..]|
          ensures IsSpace(a[1..][i]) == IsSpace(b[1..][i])
        {
          assert a[1..][i] == a[i + 1] && b[1..][i] == b[i + 1];
        }
      }
      SameSpacingSameStarts(a[1..], b[1..], IsSpace(a[0]));
    }
  }

  /** The word count depends only on where the whitespace is. */
  lemma SameSpacingSameWordCount(a: string, b: string)
    requires SameSpacing(a, b)
    ensures WordCount(a) == WordCount(b)
  {
    WordCountIsWordStarts(a);
    WordCountIsWordStarts(b);
    SameSpacingSameStarts(a, b, true);
  }

  lemma {:induction false} BlankHasNoStarts(s: string, afterSpace: bool)
    requires forall i :: 0 <= i < |s| ==> IsSpace(s[i])
    ensures WordStarts(s, afterSpace) == 0
  {
    if s != [] {
      assert forall i :: 0 <= i < |s[1..]| ==> s[1..][i] == s[i + 1];
      BlankHasNoStarts(s[1..], true);
    }
  }

  /** Text made only of whitespace (the empty text included) has no words. */
  lemma BlankHasNoWords(s: string)
    requires forall i :: 0 <= i < |s| ==> IsSpace(s[i])
    ensures WordCount(s) == 0
  {
    WordCountIsWordStarts(s);
    BlankHasNoStarts(s, true);
  }

  /** `" ".join(words)`. */
  function JoinWords(words: seq<string>): string {
    if words == [] then []
    else if |words| == 1 then words[0]
    else words[0] + (" " + JoinWords(words[1..]))
  }

  lemma {:induction false} LeadingWordOfJoin(w: string, rest: string)
    requires forall i :: 0 <= i < |w| ==> !IsSpace(w[i])
    requires rest == [] || IsSpace(rest[0])
    ensures LeadingWord(w + rest) == w
  {
    if w != [] {
      assert (w + rest)[1..] == w[1..] + rest;
      LeadingWordOfJoin(w[1..], rest);
    } else {
      assert w + rest == rest;
    }
  }

  /** A token followed by whitespace or the end of the text is split off whole. */
  lemma SplitFromWord(w: string, rest: string)
    requires IsWord(w)
    requires rest == [] || IsSpace(rest[0])
    ensures Split(w + rest) == [w] + Split(rest)
  {
    var s := w + rest;
    assert s[0] == w[0];
    assert DropSpaces(s) == s;
    LeadingWordOfJoin(w, rest);
    assert s[|w|..] == rest;
  }

  /** Leading whitespace does not change the tokens. */
  lemma SplitSkipsSpace(c: char, s: string)
    requires IsSpace(c)
    ensures Split([c] + s) == Split(s)
  {
    assert ([c] + s)[1..] == s;
  }

  /** A token followed by a space and more text is split off whole. */
  lemma SplitAfterWord(head: string, tail: string)
    requires IsWord(head)
    ensures Split(head + (" " + tail)) == [head] + Split(tail)
  {
    SplitFromWord(head, " " + tail);
    SplitSkipsSpace(' ', tail);
  }

  /** A single token splits to itself. */
  lemma SplitOneWord(w: string)
    requires IsWord(w)
    ensures Split(w) == [w]
  {
    var empty: string := [];
    assert w + empty == w;
    LeadingWordOfJoin(w, empty);
    assert DropSpaces(w) == w;
    assert w[|w|..] == empty;
    assert Split(empty) == [];
  }

  lemma SplitHeadRest(words: seq<string>)
    requires words != []
    ensures words == [words[0]] + words[1..]
    ensures forall w :: w in words[1..] ==> w in words
  {
  }

  /** Splitting the space-joined tokens gives the tokens back. */
  lemma {:induction false} SplitJoinWords(words: seq<string>)
    requires forall w :: w in words ==> IsWord(w)
    ensures Split(JoinWords(words)) == words
  {
    if |words| == 1 {
      SplitOneWord(words[0]);
    } else if |words| > 1 {
      var head, rest := words[0], words[1..];
      SplitHeadRest(words);
      SplitJoinWords(rest);
      assert JoinWords(words) == head + (" " + JoinWords(rest));
      SplitAfterWord(head, JoinWords(rest));
    }
  }

  // ---------------------------------------------------------------------
  // str.lower()
  // ---------------------------------------------------------------------

  predicate IsUpper(c: char) {
    'A' <= c <= 'Z'
  }

  /** `c.lower()` for an ASCII character; any other character is kept. */
  function LowerChar(c: char): (d: char)
    ensures !IsUpper(d)
    ensures IsSpace(d) == IsSpace(c)
    ensures IsUpper(c) ==> 'a' <= d <= 'z' && d as int - 'a' as int == c as int - 'A' as int
    ensures !IsUpper(c) ==> d == c
  {
    if IsUpper(c) then (c as int + 32) as char else c
  }

  /** `s.lower()`, character by character. */
  function ToLower(s: string): (r: string)
    ensures |r| == |s|
    ensures forall i :: 0 <= i < |s| ==> r[i] == LowerChar(s[i])
  {
    if s == [] then [] else [LowerChar(s[0])] + ToLower(s[1..])
  }

  /** Lowering keeps every whitespace character where it was. */
  lemma LowerKeepsSpacing(a: string, b: string)
    requires ToLower(a) == ToLower(b)
    ensures SameSpacing(a, b)
  {
    forall i | 0 <= i < |a|
      ensures IsSpace(a[i]) == IsSpace(b[i])
    {
      assert LowerChar(a[i]) == ToLower(a)[i] == ToLower(b)[i] == LowerChar(b[i]);
    }
  }

  // ---------------------------------------------------------------------
  // k in s
  // ---------------------------------------------------------------------

  /** `k` occurs in `s` at index `i`. */
  predicate OccursAt(s: string, k: string, i: int) {
    0 <= i && i + |k| <= |s| && s[i..i + |k|] == k
  }

  /** Python's `k in s` on strings, scanning `s` left to right. */
  function Contains(s: string, k: string): bool
    decreases |s|
  {
    if |k| > |s| then false
    else if k <= s then true
    else Contains(s[1..], k)
  }

  /** The middle part of a concatenation occurs where it was put. */
  lemma OccursInThreeParts(a: string, b: string, c: string)
    ensures OccursAt(a + b + c, b, |a|)
  {
    assert (a + b + c)[|a|..|a| + |b|] == b;
  }

  /** Each inner part of a four-part concatenation occurs where it was put. */
  lemma OccursInFourParts(a: string, b: string, c: string, d: string)
    ensures OccursAt(a + b + c + d, b, |a|)
    ensures OccursAt(a + b + c + d, c, |a| + |b|)
  {
    var s := a + b + c + d;
    assert s[|a|..|a| + |b|] == b;
    assert s[|a| + |b|..|a| + |b| + |c|] == c;
  }

  /** Whitespace-only text holds no text that starts with a non-space. */
  lemma BlankHasNoOccurrence(s: string, k: string, i: int)
    requires forall j :: 0 <= j < |s| ==> IsSpace(s[j])
    requires k != [] && !IsSpace(k[0])
    ensures !OccursAt(s, k, i)
  {
    if 0 <= i && i + |k| <= |s| {
      assert s[i..i + |k|][0] == s[i];
    }
  }

  /** `k` occurs at index 0 exactly when it is a prefix. */
  lemma PrefixOccurs(s: string, k: string)
    ensures OccursAt(s, k, 0) <==> k <= s
  {
    if |k| <= |s| {
      assert s[0..|k|] == s[..|k|];
    }
  }

  /** Dropping the first character moves every occurrence one place left. */
  lemma OccursShift(s: string, k: string, j: nat)
    requires s != []
    ensures OccursAt(s[1..], k, j) <==> OccursAt(s, k, j + 1)
  {
    if j + |k| <= |s| - 1 {
      assert s[1..][j..j + |k|] == s[j + 1..j + 1 + |k|];
    }
  }

  /** `k in s` holds exactly when `k` occurs somewhere in `s`. */
  lemma {:induction false} ContainsIff(s: string, k: string)
    ensures Contains(s, k) <==> exists i :: OccursAt(s, k, i)
    decreases |s|
  {
    PrefixOccurs(s, k);
    if |k| > |s| {
    } else if k <= s {
    } else {
      assert s != [];
      ContainsIff(s[1..], k);
      if i :| OccursAt(s, k, i) {
        assert i >= 1;
        OccursShift(s, k, i - 1);
      }
      if j :| OccursAt(s[1..], k, j) {
        OccursShift(s, k, j);
      }
    }
  }
}
