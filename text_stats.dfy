/**
 * Document statistics from lib/utils.ts: word count (`trim` then `split(/\s+/)`),
 * character count and reading time at 200 words per minute, rounded up.
 */
module TextStats {

  /**
   * JavaScript's `\s` (also what `trim` strips): tab, vertical tab, form feed,
   * the byte-order mark, the space separators of Unicode category Zs, and the
   * line terminators LF, CR, LS and PS.
   */
  predicate IsSpace(c: char) {
    c == '\t' || c == '\n' || c == '\U{000B}' || c == '\U{000C}' || c == '\r' ||
    c == ' ' || c == '\U{00A0}' || c == '\U{1680}' || ('\U{2000}' <= c <= '\U{200A}') ||
    c == '\U{2028}' || c == '\U{2029}' || c == '\U{202F}' || c == '\U{205F}' ||
    c == '\U{3000}' || c == '\U{FEFF}'
  }

  /** A piece with no white space in it. */
  predicate NoSpace(w: string) {
    forall k :: 0 <= k < |w| ==> !IsSpace(w[k])
  }

  /** `trimStart`: drop the leading white space, and only that. */
  function TrimStart(s: string): (r: string)
    ensures |r| <= |s| && r == s[|s| - |r|..]
    ensures r == [] || !IsSpace(r[0])
    ensures forall i :: 0 <= i < |s| - |r| ==> IsSpace(s[i])
    decreases |s|
  {
    if s != [] && IsSpace(s[0]) then
      var r := TrimStart(s[1..]);
      assert s[1..][|s| - 1 - |r|..] == s[|s| - |r|..];
      assert forall i :: 1 <= i < |s| - |r| ==> s[i] == s[1..][i - 1];
      r
    else s
  }

  /** `trimEnd`: drop the trailing white space, and only that. */
  function TrimEnd(s: string): (r: string)
    ensures |r| <= |s| && r == s[..|r|]
    ensures r == [] || !IsSpace(r[|r| - 1])
    ensures forall i :: |r| <= i < |s| ==> IsSpace(s[i])
    decreases |s|
  {
    if s != [] && IsSpace(s[|s| - 1]) then
      var r := TrimEnd(s[..|s| - 1]);
      assert s[..|s| - 1][..|r|] == s[..|r|];
      r
    else s
  }

  /** `trim`: the text between the leading and the trailing white space. */
  function Trim(s: string): (r: string)
    ensures |r| <= |s|
    ensures r == [] || (!IsSpace(r[0]) && !IsSpace(r[|r| - 1]))
  {
    TrimEnd(TrimStart(s))
  }

  /**
   * The trimmed text is the slice of `s` after its leading white space, and
   * everything around that slice is white space.
   */
  lemma TrimSlice(s: string)
    ensures LeadingSpace(s) + |Trim(s)| <= |s|
    ensures Trim(s) == s[LeadingSpace(s)..LeadingSpace(s) + |Trim(s)|]
    ensures forall i :: 0 <= i < LeadingSpace(s) ==> IsSpace(s[i])
    ensures forall i :: LeadingSpace(s) + |Trim(s)| <= i < |s| ==> IsSpace(s[i])
  {
    InnerSlice(s, TrimStart(s), Trim(s), LeadingSpace(s));
  }

  /** `r`, a prefix of the suffix `t` of `s` with only white space after it, sits in `s` where `t` starts. */
  lemma InnerSlice(s: string, t: string, r: string, start: nat)
    requires |t| <= |s| && t == s[|s| - |t|..] && start == |s| - |t|
    requires |r| <= |t| && r == t[..|r|]
    requires forall i :: |r| <= i < |t| ==> IsSpace(t[i])
    ensures start + |r| <= |s|
    ensures r == s[start..start + |r|]
    ensures forall i :: start + |r| <= i < |s| ==> IsSpace(s[i])
  {
    forall i | start + |r| <= i < |s|
      ensures IsSpace(s[i])
    {
      assert s[i] == t[i - start];
    }
  }

  /** How many white-space characters `trim` drops at the start. */
  function LeadingSpace(s: string): nat
  {
    |s| - |TrimStart(s)|
  }

  /**
   * `s.split(/\s+/)`: the pieces between maximal runs of white space. A run
   * at the very start or end yields an empty piece there, and `''` splits
   * into `['']`. No piece holds white space.
   */
  function SplitOnSpaceRuns(s: string): (parts: seq<string>)
    ensures |parts| >= 1
    ensures forall i :: 0 <= i < |parts| ==> NoSpace(parts[i])
    decreases |s|
  {
    if s == [] then [""]
    else if IsSpace(s[0]) then [""] + SplitOnSpaceRuns(TrimStart(s[1..]))
    else
      var rest := SplitOnSpaceRuns(s[1..]);
      [[s[0]] + rest[0]] + rest[1..]
  }

  /** Number of maximal runs of white space in `s`, counted at the first character of each run. */
  function SpaceRuns(s: string): nat
  {
    RunsAfter(s, false)
  }

  function RunsAfter(s: string, afterSpace: bool): nat
  {
    if s == [] then 0
    else (if IsSpace(s[0]) && !afterSpace then 1 else 0) + RunsAfter(s[1..], IsSpace(s[0]))
  }

  /** `getWordCount`: 0 for `''`, otherwise the number of pieces of the trimmed text. */
  function WordCount(text: string): (n: nat)
    ensures n == 0 <==> text == ""
  {
    if text == "" then 0 else |SplitOnSpaceRuns(Trim(text))|
  }

  /** `getCharacterCount`: the `!text` guard changes nothing, the count is the length. */
  function CharacterCount(text: string): (n: nat)
    ensures n == |text|
  {
    if text == "" then 0 else |text|
  }

  const WordsPerMinute: nat := 200

  /** `getReadingTime`: 0 for `''`, otherwise `Math.ceil(words / 200)`. */
  function ReadingTime(text: string): (minutes: nat)
    ensures text == "" ==> minutes == 0
    ensures minutes * WordsPerMinute >= WordCount(text)
    ensures minutes == 0 || (minutes - 1) * WordsPerMinute < WordCount(text)
  {
    if text == "" then 0 else (WordCount(text) + WordsPerMinute - 1) / WordsPerMinute
  }

  lemma {:induction false} RunsAfterSpace(t: string)
    ensures RunsAfter(t, true) == SpaceRuns(TrimStart(t))
    decreases |t|
  {
    if t != [] && IsSpace(t[0]) {
      RunsAfterSpace(t[1..]);
    }
  }

  /** One more piece than there are runs of white space. */
  lemma {:induction false} PiecesAreRunsPlusOne(s: string)
    ensures |SplitOnSpaceRuns(s)| == SpaceRuns(s) + 1
    decreases |s|
  {
    if s != [] {
      if IsSpace(s[0]) {
        PiecesAreRunsPlusOne(TrimStart(s[1..]));
        RunsAfterSpace(s[1..]);
      } else {
        PiecesAreRunsPlusOne(s[1..]);
      }
    }
  }

  /**
   * In text that neither starts nor ends with white space every piece is a
   * non-empty word; in general only the first piece can be empty, and it is
   * exactly when the text starts with white space.
   */
  lemma {:induction false} PiecesNonEmpty(s: string)
    requires s != [] && !IsSpace(s[|s| - 1])
    ensures (SplitOnSpaceRuns(s)[0] == "") <==> IsSpace(s[0])
    ensures forall i :: 1 <= i < |SplitOnSpaceRuns(s)| ==> SplitOnSpaceRuns(s)[i] != ""
    decreases |s|
  {
    var parts := SplitOnSpaceRuns(s);
    if IsSpace(s[0]) {
      var u := TrimStart(s[1..]);
      assert |s| > 1;
      assert u != [] by {
        assert !IsSpace(s[1..][|s[1..]| - 1]);
      }
      assert u[|u| - 1] == s[|s| - 1];
      PiecesNonEmpty(u);
      assert parts == [""] + SplitOnSpaceRuns(u);
    } else if |s| > 1 {
      var rest := SplitOnSpaceRuns(s[1..]);
      PiecesNonEmpty(s[1..]);
      assert parts == [[s[0]] + rest[0]] + rest[1..];
    }
  }

  /**
   * For non-empty text the word count is one more than the number of runs
   * of white space inside the trimmed text, so it is at least 1; the words
   * are then non-empty exactly when the text is not blank.
   */
  lemma WordCountIsRunsPlusOne(text: string)
    requires text != ""
    ensures WordCount(text) == SpaceRuns(Trim(text)) + 1
    ensures WordCount(text) >= 1
    ensures Trim(text) != "" ==> forall i :: 0 <= i < |SplitOnSpaceRuns(Trim(text))| ==> SplitOnSpaceRuns(Trim(text))[i] != ""
  {
    PiecesAreRunsPlusOne(Trim(text));
    var t := Trim(text);
    if t != "" {
      PiecesNonEmpty(t);
    }
  }

  /** Text made only of white space (and not empty) counts as one word. */
  lemma BlankTextIsOneWord(text: string)
    requires text != ""
    requires forall i :: 0 <= i < |text| ==> IsSpace(text[i])
    ensures WordCount(text) == 1
  {
    assert TrimStart(text) == "";
  }

  /** For non-empty text the reading time is at least one minute and never exceeds the word count. */
  lemma ReadingTimeBounds(text: string)
    requires text != ""
    ensures 1 <= ReadingTime(text) <= WordCount(text)
  {
    WordCountIsRunsPlusOne(text);
  }
}
