/**
 * The few Python string operations the core uses, over `seq<char>`. Case mapping and letter tests
 * cover ASCII only; the whitespace set is the full set of characters for which Python's
 * `str.isspace()` holds.
 */
module Text {

  /** Python's `c.isspace()`. */
  predicate IsSpace(c: char)
  {
    var n := c as int;
    (9 <= n <= 13) || (28 <= n <= 32) || n == 0x85 || n == 0xA0 || n == 0x1680
    || (0x2000 <= n <= 0x200A) || n == 0x2028 || n == 0x2029 || n == 0x202F || n == 0x205F || n == 0x3000
  }

  /** ASCII letters (Python's `c.isalpha()` restricted to ASCII). */
  predicate IsAlpha(c: char)
  {
    ('a' <= c <= 'z') || ('A' <= c <= 'Z')
  }

  function LowerChar(c: char): char
  {
    if 'A' <= c <= 'Z' then (c as int + 32) as char else c
  }

  function UpperChar(c: char): char
  {
    if 'a' <= c <= 'z' then (c as int - 32) as char else c
  }

  /** `s.lower()`. */
  function Lower(s: string): (r: string)
    ensures |r| == |s|
    ensures forall i :: 0 <= i < |s| ==> r[i] == LowerChar(s[i])
  {
    if s == [] then [] else [LowerChar(s[0])] + Lower(s[1..])
  }

  /** `s.upper()`. */
  function Upper(s: string): (r: string)
    ensures |r| == |s|
    ensures forall i :: 0 <= i < |s| ==> r[i] == UpperChar(s[i])
  {
    if s == [] then [] else [UpperChar(s[0])] + Upper(s[1..])
  }

  /** `s.lstrip()`. */
  function TrimLeft(s: string): (r: string)
    ensures |r| <= |s| && r == s[|s| - |r|..]
    ensures r == [] || !IsSpace(r[0])
    ensures forall i :: 0 <= i < |s| - |r| ==> IsSpace(s[i])
  {
    if s != [] && IsSpace(s[0]) then TrimLeft(s[1..]) else s
  }

  /** `s.rstrip()`. */
  function TrimRight(s: string): (r: string)
    ensures |r| <= |s| && r == s[..|r|]
    ensures r == [] || !IsSpace(r[|r| - 1])
    ensures forall i :: |r| <= i < |s| ==> IsSpace(s[i])
  {
    if s != [] && IsSpace(s[|s| - 1]) then TrimRight(s[..|s| - 1]) else s
  }

  /** `s.strip()`: a contiguous part of `s` that neither starts nor ends with whitespace. */
  function Strip(s: string): (r: string)
    ensures |r| <= |s|
    ensures r == [] || (!IsSpace(r[0]) && !IsSpace(r[|r| - 1]))
  {
    TrimRight(TrimLeft(s))
  }

  /** Stripping a string made only of whitespace leaves nothing. */
  lemma StripAllSpace(s: string)
    requires forall i :: 0 <= i < |s| ==> IsSpace(s[i])
    ensures Strip(s) == []
  {
  }

  /** Stripping a string that neither starts nor ends with whitespace keeps it. */
  lemma StripUnspaced(s: string)
    requires s != [] && !IsSpace(s[0]) && !IsSpace(s[|s| - 1])
    ensures Strip(s) == s
  {
  }

  /** `sub` occurs in `s` starting at position `i`. */
  predicate OccursAt(s: string, sub: string, i: int)
  {
    0 <= i <= |s| - |sub| && s[i..i + |sub|] == sub
  }

  /** `sub in s` for strings: `sub` occurs as a contiguous part of `s`. */
  predicate Contains(s: string, sub: string)
  {
    exists i | 0 <= i <= |s| - |sub| :: OccursAt(s, sub, i)
  }

  /** `sep.join(words)`. */
  function Join(sep: string, words: seq<string>): string
  {
    if words == [] then ""
    else if |words| == 1 then words[0]
    else words[0] + sep + Join(sep, words[1..])
  }

  /** `s.split(sep)` for a one-character separator: the parts between separators, in order. */
  function Split(s: string, sep: char): (parts: seq<string>)
    ensures |parts| >= 1
    ensures forall i :: 0 <= i < |parts| ==> sep !in parts[i]
  {
    if s == [] then [""]
    else
      var parts := Split(s[..|s| - 1], sep);
      var last := s[|s| - 1];
      if last == sep then parts + [""]
      else parts[..|parts| - 1] + [parts[|parts| - 1] + [last]]
  }

  /** Joining one more word appends the separator and the word. */
  lemma {:induction false} JoinAppend(sep: string, words: seq<string>, w: string)
    requires words != []
    ensures Join(sep, words + [w]) == Join(sep, words) + sep + w
  {
    if |words| == 1 {
      assert words + [w] == [words[0], w];
    } else {
      assert (words + [w])[1..] == words[1..] + [w];
      JoinAppend(sep, words[1..], w);
    }
  }

  /** A string without the separator splits into itself. */
  lemma {:induction false} SplitNoSep(s: string, sep: char)
    requires sep !in s
    ensures Split(s, sep) == [s]
  {
    if s != [] {
      var init := s[..|s| - 1];
      assert s == init + [s[|s| - 1]];
      assert sep !in init;
      SplitNoSep(init, sep);
    }
  }

  /** Text after the last separator becomes the last part. */
  lemma {:induction false} SplitAfterSep(s: string, sep: char, t: string)
    requires sep !in t
    ensures Split(s + [sep] + t, sep) == Split(s, sep) + [t]
  {
    if t == [] {
      assert s + [sep] + t == s + [sep];
    } else {
      var init, last := t[..|t| - 1], t[|t| - 1];
      assert t == init + [last];
      assert sep !in init;
      SplitAfterSep(s, sep, init);
      var u := s + [sep] + t;
      assert u[..|u| - 1] == s + [sep] + init;
    }
  }

  /** Splitting at the separator undoes joining words that do not contain it. */
  lemma {:induction false} SplitJoin(words: seq<string>, sep: char)
    requires words != []
    requires forall i :: 0 <= i < |words| ==> sep !in words[i]
    ensures Split(Join([sep], words), sep) == words
  {
    if |words| == 1 {
      SplitNoSep(words[0], sep);
    } else {
      var init, last := words[..|words| - 1], words[|words| - 1];
      SplitJoin(init, sep);
      JoinAppend([sep], init, last);
      SplitAfterSep(Join([sep], init), sep, last);
      assert init + [last] == words;
    }
  }
}
