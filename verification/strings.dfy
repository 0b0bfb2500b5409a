/** The string operations of Rust's standard library that the codecs are
    built from: `str::split` on one character, `join`, and
    `str::split_whitespace`. */
module Strings {
  import opened Chars

  /** The index of the first occurrence of `sep` in `s`. */
  function IndexOf(s: string, sep: char): (i: nat)
    requires sep in s
    ensures i < |s| && s[i] == sep && sep !in s[..i]
  {
    if s[0] == sep then 0 else 1 + IndexOf(s[1..], sep)
  }

  /** `s.split(sep)`: the pieces between occurrences of `sep`; there is
      always one more piece than there are separators. */
  function Split(s: string, sep: char): (parts: seq<string>)
    ensures |parts| >= 1
    ensures forall p | p in parts :: sep !in p
    decreases |s|
  {
    if sep !in s then [s]
    else
      var i := IndexOf(s, sep);
      [s[..i]] + Split(s[i + 1..], sep)
  }

  /** `parts.join(sep)`. */
  function Join(parts: seq<string>, sep: string): string
  {
    if |parts| == 0 then ""
    else if |parts| == 1 then parts[0]
    else parts[0] + sep + Join(parts[1..], sep)
  }

  /** Splitting text whose first separator sits right after `a`. */
  lemma SplitAt(a: string, sep: char, b: string)
    requires sep !in a
    ensures Split(a + [sep] + b, sep) == [a] + Split(b, sep)
  {
    var s := a + [sep] + b;
    assert s[|a|] == sep;
    var i := IndexOf(s, sep);
    assert s[..i] == a;
    assert s[i + 1..] == b;
  }

  /** `split` undoes `join` when no part contains the separator. */
  lemma {:induction false} SplitJoin(parts: seq<string>, sep: char)
    requires |parts| >= 1
    requires forall p | p in parts :: sep !in p
    ensures Split(Join(parts, [sep]), sep) == parts
    decreases |parts|
  {
    if |parts| > 1 {
      SplitJoin(parts[1..], sep);
      SplitAt(parts[0], sep, Join(parts[1..], [sep]));
      assert [parts[0]] + parts[1..] == parts;
    }
  }

  /** A text is its prefix before `i`, its `i`-th character and the rest. */
  lemma Around(s: string, i: nat)
    requires i < |s|
    ensures s == s[..i] + [s[i]] + s[i + 1..]
  {
    assert s[i..] == [s[i]] + s[i + 1..];
    assert s == s[..i] + s[i..];
  }

  /** `join` undoes `split`: no character is lost or added. */
  lemma {:induction false} JoinSplit(s: string, sep: char)
    ensures Join(Split(s, sep), [sep]) == s
    decreases |s|
  {
    if sep in s {
      var i := IndexOf(s, sep);
      var rest := Split(s[i + 1..], sep);
      assert Split(s, sep) == [s[..i]] + rest;
      assert (Split(s, sep))[1..] == rest;
      JoinSplit(s[i + 1..], sep);
      Around(s, i);
    } else {
      assert Split(s, sep) == [s];
    }
  }

  /** Every character of a joined text comes from the separator or from
      one of the parts. */
  lemma {:induction false} JoinChars(parts: seq<string>, sep: string, c: char)
    requires c in Join(parts, sep)
    ensures c in sep || exists p | p in parts :: c in p
    decreases |parts|
  {
    if |parts| == 1 {
      assert parts[0] in parts;
    } else if |parts| > 1 {
      assert parts[0] in parts;
      if c !in parts[0] && c !in sep {
        JoinChars(parts[1..], sep, c);
        var p :| p in parts[1..] && c in p;
        assert p in parts;
      }
    }
  }

  /** `s.trim_start()`: `s` without its leading white space. */
  function TrimStart(s: string): (t: string)
    ensures |t| <= |s| && t == s[|s| - |t|..]
    ensures forall k | 0 <= k < |s| - |t| :: IsWhitespace(s[k])
    ensures |t| > 0 ==> !IsWhitespace(t[0])
    decreases |s|
  {
    if |s| > 0 && IsWhitespace(s[0]) then TrimStart(s[1..]) else s
  }

  /** The length of the run of non-white-space characters at the front. */
  function RunLength(s: string): (n: nat)
    ensures n <= |s|
    ensures NoWhitespace(s[..n])
    ensures n < |s| ==> IsWhitespace(s[n])
  {
    if |s| == 0 || IsWhitespace(s[0]) then 0
    else
      var n := 1 + RunLength(s[1..]);
      assert s[..n] == [s[0]] + s[1..][..n - 1];
      n
  }

  /** `s.split_whitespace()`: the maximal runs of non-white-space
      characters, in order; leading, trailing and repeated white space
      produces no empty piece. */
  function SplitWhitespace(s: string): (words: seq<string>)
    ensures forall w | w in words :: |w| > 0 && NoWhitespace(w)
    decreases |s|
  {
    if |s| == 0 then []
    else if IsWhitespace(s[0]) then SplitWhitespace(s[1..])
    else
      var n := RunLength(s);
      [s[..n]] + SplitWhitespace(s[n..])
  }

  lemma RunLengthOf(w: string, rest: string)
    requires NoWhitespace(w)
    requires |rest| > 0 && IsWhitespace(rest[0])
    ensures RunLength(w + rest) == |w|
  {
    var s := w + rest;
    assert s[|w|] == rest[0];
  }

  lemma RunLengthAll(w: string)
    requires NoWhitespace(w)
    ensures RunLength(w) == |w|
  {
  }

  /** Splitting on white space undoes joining with one space, provided
      every word is non-empty and free of white space. */
  lemma {:induction false} SplitWhitespaceJoin(words: seq<string>)
    requires forall w | w in words :: |w| > 0 && NoWhitespace(w)
    ensures SplitWhitespace(Join(words, " ")) == words
    decreases |words|
  {
    if |words| == 1 {
      var w := words[0];
      RunLengthAll(w);
      assert w[..|w|] == w;
      assert w[|w|..] == [];
    } else if |words| > 1 {
      var w := words[0];
      var tail := Join(words[1..], " ");
      var s := w + " " + tail;
      assert s == w + (" " + tail);
      RunLengthOf(w, " " + tail);
      assert s[..|w|] == w;
      assert s[|w|..] == " " + tail;
      assert (" " + tail)[1..] == tail;
      SplitWhitespaceJoin(words[1..]);
      assert [w] + words[1..] == words;
    }
  }
}
