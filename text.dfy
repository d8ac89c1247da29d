/**
 * String helpers shared by the routes and pages: concatenation of stream
 * chunks, JavaScript's `split` on a one-character separator and its inverse
 * `join`, the demo responders' word chunking, and the small string tests
 * (`endsWith`, `substring(0, n)`, truthiness) the handlers use.
 */
module Text {
  import opened Wrappers

  /** Truthiness of an optional JSON string field: absent or `''` is falsy. */
  predicate Filled(o: Option<string>) {
    o.Some? && o.value != ""
  }

  /** The in-order concatenation of a sequence of text fragments. */
  function Concat(parts: seq<string>): string
  {
    if parts == [] then "" else parts[0] + Concat(parts[1..])
  }

  lemma {:induction false} ConcatAppend(a: seq<string>, b: seq<string>)
    ensures Concat(a + b) == Concat(a) + Concat(b)
    decreases |a|
  {
    if a == [] {
      assert a + b == b;
    } else {
      assert (a + b)[0] == a[0];
      assert (a + b)[1..] == a[1..] + b;
      ConcatAppend(a[1..], b);
    }
  }

  lemma ConcatSingle(x: string)
    ensures Concat([x]) == x
  {
    assert [x][1..] == [];
  }

  /** Number of occurrences of `c` in `s`. */
  function Count(s: string, c: char): nat
  {
    if s == [] then 0 else (if s[0] == c then 1 else 0) + Count(s[1..], c)
  }

  /**
   * JavaScript's `s.split(sep)` for a one-character separator: the pieces
   * between consecutive separators, empty pieces included. There is always
   * one more piece than there are separators, and no piece holds one.
   */
  function Split(s: string, sep: char): (parts: seq<string>)
    ensures |parts| == Count(s, sep) + 1
    ensures forall i :: 0 <= i < |parts| ==> sep !in parts[i]
    decreases |s|
  {
    if s == [] then [""]
    else
      var rest := Split(s[1..], sep);
      if s[0] == sep then [""] + rest
      else [[s[0]] + rest[0]] + rest[1..]
  }

  /** JavaScript's `parts.join(sep)`. */
  function Join(parts: seq<string>, sep: char): string
  {
    if parts == [] then ""
    else if |parts| == 1 then parts[0]
    else parts[0] + [sep] + Join(parts[1..], sep)
  }

  /** Prefixing the first piece prefixes the joined text. */
  lemma JoinPrefixFirst(c: char, parts: seq<string>, sep: char)
    requires parts != []
    ensures Join([[c] + parts[0]] + parts[1..], sep) == [c] + Join(parts, sep)
  {
    var q := [[c] + parts[0]] + parts[1..];
    if |parts| > 1 {
      assert q[1..] == parts[1..];
      assert Join(q, sep) == ([c] + parts[0]) + [sep] + Join(parts[1..], sep);
    }
  }

  /** Joining the pieces of a split with the same separator gives back the text. */
  lemma {:induction false} SplitJoin(s: string, sep: char)
    ensures Join(Split(s, sep), sep) == s
    decreases |s|
  {
    if s != [] {
      var rest := Split(s[1..], sep);
      SplitJoin(s[1..], sep);
      if s[0] == sep {
        assert ([""] + rest)[1..] == rest;
      } else {
        JoinPrefixFirst(s[0], rest, sep);
      }
      assert s == [s[0]] + s[1..];
    }
  }

  /** Splitting text that begins with a separator-free piece `a`. */
  lemma {:induction false} SplitAfterFreePiece(a: string, t: string, sep: char)
    requires sep !in a
    ensures Split(a + t, sep) == [a + Split(t, sep)[0]] + Split(t, sep)[1..]
    decreases |a|
  {
    if a == [] {
      var big := Split(t, sep);
      assert a + t == t;
      assert a + big[0] == big[0];
      assert big == [big[0]] + big[1..];
    } else {
      assert (a + t)[0] == a[0];
      assert (a + t)[1..] == a[1..] + t;
      SplitAfterFreePiece(a[1..], t, sep);
      var r := Split(a[1..] + t, sep);
      var big := Split(t, sep);
      assert a[0] != sep;
      assert Split(a + t, sep) == [[a[0]] + r[0]] + r[1..];
      assert r[0] == a[1..] + big[0] && r[1..] == big[1..];
      assert a == [a[0]] + a[1..];
      assert [a[0]] + r[0] == a + big[0];
    }
  }

  /** The other direction: splitting a join of separator-free pieces gives back the pieces. */
  lemma {:induction false} JoinSplit(parts: seq<string>, sep: char)
    requires |parts| >= 1
    requires forall i :: 0 <= i < |parts| ==> sep !in parts[i]
    ensures Split(Join(parts, sep), sep) == parts
    decreases |parts|
  {
    var p := parts[0];
    if |parts| == 1 {
      SplitAfterFreePiece(p, "", sep);
      assert p + "" == p;
    } else {
      var rest := parts[1..];
      var j := Join(rest, sep);
      JoinSplit(rest, sep);
      assert Join(parts, sep) == p + ([sep] + j);
      SplitAfterFreePiece(p, [sep] + j, sep);
      assert ([sep] + j)[0] == sep && ([sep] + j)[1..] == j;
      assert Split([sep] + j, sep) == [""] + rest;
      assert Split([sep] + j, sep)[0] == "" && Split([sep] + j, sep)[1..] == rest;
      assert p + "" == p;
      assert parts == [p] + rest;
    }
  }

  lemma {:induction false} JoinSnoc(init: seq<string>, last: string, sep: char)
    requires |init| >= 1
    ensures Join(init + [last], sep) == Join(init, sep) + [sep] + last
    decreases |init|
  {
    var whole := init + [last];
    assert whole[0] == init[0];
    if |init| == 1 {
      assert whole[1..] == [last];
    } else {
      assert whole[1..] == init[1..] + [last];
      JoinSnoc(init[1..], last, sep);
    }
  }

  /** The `i`-th demo chunk: the first word bare, every later one led by a single space. */
  function Chunk(words: seq<string>, i: nat): string
    requires i < |words|
  {
    if i == 0 then words[0] else " " + words[i]
  }

  /** All demo chunks of a word list, in order. */
  function Chunks(words: seq<string>): (chunks: seq<string>)
    ensures |chunks| == |words|
  {
    seq(|words|, i requires 0 <= i < |words| => Chunk(words, i))
  }

  /** Concatenating the chunks is joining the words with single spaces. */
  lemma {:induction false} ChunksConcat(words: seq<string>)
    ensures Concat(Chunks(words)) == Join(words, ' ')
    decreases |words|
  {
    if |words| == 1 {
      assert Chunks(words) == [words[0]];
      ConcatSingle(words[0]);
    } else if |words| > 1 {
      var init := words[..|words| - 1];
      var last := words[|words| - 1];
      ChunksConcat(init);
      assert Chunks(words) == Chunks(init) + [" " + last];
      ConcatAppend(Chunks(init), [" " + last]);
      ConcatSingle(" " + last);
      JoinSnoc(init, last, ' ');
      assert init + [last] == words;
    }
  }

  /**
   * The merge request read by Morph's apply models: the current code inside
   * `<code>` tags, a newline, then the update inside `<update>` tags. Both
   * parts sit verbatim at fixed offsets.
   */
  function MergePrompt(code: string, update: string): (r: string)
    ensures |r| == |code| + |update| + 31
    ensures r[..6] == "<code>" && r[6..6 + |code|] == code
    ensures r[6 + |code|..22 + |code|] == "</code>\n<update>"
    ensures r[22 + |code|..22 + |code| + |update|] == update
    ensures r[22 + |code| + |update|..] == "</update>"
  {
    var r := "<code>" + code + "</code>\n<update>" + update + "</update>";
    assert r == "<code>" + (code + ("</code>\n<update>" + (update + "</update>")));
    r
  }

  /** JavaScript's `s.endsWith(suffix)`. */
  predicate EndsWith(s: string, suffix: string): (b: bool)
    ensures b <==> exists p :: s == p + suffix
  {
    if |suffix| <= |s| && s[|s| - |suffix|..] == suffix then
      assert s == s[..|s| - |suffix|] + suffix;
      true
    else
      assert forall p :: (p + suffix)[|p|..] == suffix;
      false
  }

  /** Whatever precedes it, a string ending in `suffix` ends with it. */
  lemma EndsWithAppend(p: string, suffix: string)
    ensures EndsWith(p + suffix, suffix)
  {
    assert (p + suffix)[|p|..] == suffix;
  }

  /** JavaScript's `s.substring(0, n)`: the first `n` characters, or all of `s`. */
  function Take(s: string, n: nat): (r: string)
    ensures |r| == if n < |s| then n else |s|
    ensures r <= s
  {
    if n < |s| then s[..n] else s
  }

  /** The character of a decimal digit. */
  function DigitChar(d: nat): (c: char)
    requires d < 10
    ensures '0' <= c <= '9' && c as int - '0' as int == d
  {
    ('0' as int + d) as char
  }

  /** Decimal rendering of a non-negative integer, as a template literal prints it. */
  function NatToString(n: nat): (r: string)
    ensures |r| >= 1
    ensures forall k :: 0 <= k < |r| ==> '0' <= r[k] <= '9'
    ensures |r| > 1 ==> r[0] != '0'
    decreases n
  {
    if n < 10 then [DigitChar(n)] else NatToString(n / 10) + [DigitChar(n % 10)]
  }

  /** Reading a string of decimal digits back as a number, most significant first. */
  function DecimalValue(s: string): nat
    requires forall k :: 0 <= k < |s| ==> '0' <= s[k] <= '9'
  {
    if s == [] then 0
    else DecimalValue(s[..|s| - 1]) * 10 + (s[|s| - 1] as int - '0' as int)
  }

  /** The rendering spells the number: reading it back gives `n`. */
  lemma {:induction false} NatToStringValue(n: nat)
    ensures DecimalValue(NatToString(n)) == n
    decreases n
  {
    var r := NatToString(n);
    if n >= 10 {
      NatToStringValue(n / 10);
      assert r[..|r| - 1] == NatToString(n / 10);
    }
  }
}
