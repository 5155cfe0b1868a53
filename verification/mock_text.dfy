/**
 * The text mock of the test harness
 * (test/testUtils/mocks/mocksContainer/mockText.ts): a word-wrap routine
 * that mirrors Phaser's basic wrapping, where every character is 2 pixels
 * wide and a space too, and a list of child objects.
 */
module MockTextModel {
  import opened Wrappers

  // ---------------------------------------------------------------------
  // Strings
  // ---------------------------------------------------------------------

  predicate IsBreak(c: char) {
    c == '\r' || c == '\n'
  }

  /** `s.split(c)` for a one-character separator: the pieces between separators, at least one. */
  function Split(s: string, c: char): (r: seq<string>)
    ensures |r| >= 1
    ensures forall k, i :: 0 <= k < |r| && 0 <= i < |r[k]| ==> r[k][i] != c && r[k][i] in s
  {
    if |s| == 0 then [""]
    else
      var rest := Split(s[1..], c);
      if s[0] == c then [""] + rest
      else [[s[0]] + rest[0]] + rest[1..]
  }

  /** `s.split(/(?:\r\n|\r|\n)/)`: the lines between breaks, where `\r\n` is one break. */
  function SplitLines(s: string): (r: seq<string>)
    ensures |r| >= 1
    ensures forall k, i :: 0 <= k < |r| && 0 <= i < |r[k]| ==> !IsBreak(r[k][i])
  {
    if |s| == 0 then [""]
    else if IsBreak(s[0]) then
      var skip := if s[0] == '\r' && |s| > 1 && s[1] == '\n' then 2 else 1;
      [""] + SplitLines(s[skip..])
    else
      var rest := SplitLines(s[1..]);
      [[s[0]] + rest[0]] + rest[1..]
  }

  /** `parts.join(sep)`. */
  function Join(parts: seq<string>, sep: string): string {
    if |parts| == 0 then ""
    else if |parts| == 1 then parts[0]
    else parts[0] + sep + Join(parts[1..], sep)
  }

  /** The first `j` parts, each followed by `sep` unless it is the last part: a join built left to right. */
  function JoinPrefix(parts: seq<string>, j: nat, sep: string): string
    requires j <= |parts|
  {
    if j == 0 then ""
    else JoinPrefix(parts, j - 1, sep) + (parts[j - 1] + if j - 1 < |parts| - 1 then sep else "")
  }

  /** All parts, concatenated. */
  function Concat(parts: seq<string>): string {
    if |parts| == 0 then "" else parts[0] + Concat(parts[1..])
  }

  /** `s` with every `c` deleted. */
  function Without(s: string, c: char): string {
    if |s| == 0 then "" else (if s[0] == c then "" else [s[0]]) + Without(s[1..], c)
  }

  /** `s` with every `\r` and `\n` deleted. */
  function StripBreaks(s: string): string {
    if |s| == 0 then "" else (if IsBreak(s[0]) then "" else [s[0]]) + StripBreaks(s[1..])
  }

  /** `s` with each of its line breaks (`\r\n`, `\r`, `\n`) written as `\n`. */
  function NormalizeBreaks(s: string): string {
    if |s| == 0 then ""
    else if s[0] == '\r' && |s| > 1 && s[1] == '\n' then "\n" + NormalizeBreaks(s[2..])
    else if s[0] == '\r' then "\n" + NormalizeBreaks(s[1..])
    else [s[0]] + NormalizeBreaks(s[1..])
  }

  /** How many times `c` occurs in `s`. */
  function Count(s: string, c: char): nat {
    if |s| == 0 then 0 else (if s[0] == c then 1 else 0) + Count(s[1..], c)
  }

  lemma {:induction false} WithoutAppend(a: string, b: string, c: char)
    ensures Without(a + b, c) == Without(a, c) + Without(b, c)
  {
    if |a| > 0 {
      assert (a + b)[0] == a[0] && (a + b)[1..] == a[1..] + b;
      WithoutAppend(a[1..], b, c);
    } else {
      assert a + b == b;
    }
  }

  lemma {:induction false} WithoutAbsent(s: string, c: char)
    requires forall i :: 0 <= i < |s| ==> s[i] != c
    ensures Without(s, c) == s
  {
    if |s| > 0 {
      WithoutAbsent(s[1..], c);
    }
  }

  lemma {:induction false} CountAppend(a: string, b: string, c: char)
    ensures Count(a + b, c) == Count(a, c) + Count(b, c)
  {
    if |a| > 0 {
      assert (a + b)[0] == a[0] && (a + b)[1..] == a[1..] + b;
      CountAppend(a[1..], b, c);
    } else {
      assert a + b == b;
    }
  }

  lemma {:induction false} ConcatAppend(a: seq<string>, b: seq<string>)
    ensures Concat(a + b) == Concat(a) + Concat(b)
  {
    if |a| > 0 {
      assert (a + b)[0] == a[0] && (a + b)[1..] == a[1..] + b;
      ConcatAppend(a[1..], b);
    } else {
      assert a + b == b;
    }
  }

  /** Joining the pieces of a split with the separator gives the string back. */
  lemma {:induction false} JoinSplit(s: string, c: char)
    ensures Join(Split(s, c), [c]) == s
  {
    if |s| > 0 {
      JoinSplit(s[1..], c);
      var rest := Split(s[1..], c);
      if s[0] != c {
        JoinConsHead([s[0]], rest, [c]);
      }
    }
  }

  /** Prepending to the first part prepends to the join. */
  lemma JoinConsHead(a: string, parts: seq<string>, sep: string)
    requires |parts| >= 1
    ensures Join([a + parts[0]] + parts[1..], sep) == a + Join(parts, sep)
  {
    var joined := [a + parts[0]] + parts[1..];
    if |parts| > 1 {
      assert joined[1..] == parts[1..];
    }
  }

  /** Building the join left to right gives `Join`. */
  lemma JoinPrefixFull(parts: seq<string>, sep: string)
    ensures JoinPrefix(parts, |parts|, sep) == Join(parts, sep)
  {
    if |parts| > 0 {
      var j := 0;
      while j < |parts| - 1
        invariant 0 <= j <= |parts| - 1
        invariant JoinPrefix(parts, j, sep) + Join(parts[j..], sep) == Join(parts, sep)
      {
        assert parts[j..][1..] == parts[j + 1..];
        j := j + 1;
      }
      assert parts[j..] == [parts[j]];
    }
  }

  /** The lines joined by `\n` are the text with normalized breaks. */
  lemma {:induction false} JoinSplitLines(s: string)
    ensures Join(SplitLines(s), "\n") == NormalizeBreaks(s)
  {
    if |s| > 0 {
      if IsBreak(s[0]) {
        var skip := if s[0] == '\r' && |s| > 1 && s[1] == '\n' then 2 else 1;
        JoinSplitLines(s[skip..]);
      } else {
        JoinSplitLines(s[1..]);
        JoinConsHead([s[0]], SplitLines(s[1..]), "\n");
      }
    }
  }

  /** The lines, concatenated, are the text without its breaks. */
  lemma {:induction false} ConcatSplitLines(s: string)
    ensures Concat(SplitLines(s)) == StripBreaks(s)
  {
    if |s| > 0 {
      if IsBreak(s[0]) {
        var skip := if s[0] == '\r' && |s| > 1 && s[1] == '\n' then 2 else 1;
        ConcatSplitLines(s[skip..]);
        if skip == 2 {
          assert s[1..][1..] == s[2..];
        }
      } else {
        ConcatSplitLines(s[1..]);
        var rest := SplitLines(s[1..]);
        assert rest == [rest[0]] + rest[1..];
      }
    }
  }

  /** The text has one `\n` fewer, once normalized, than it has lines. */
  lemma {:induction false} BreakCount(s: string)
    ensures Count(NormalizeBreaks(s), '\n') == |SplitLines(s)| - 1
  {
    if |s| > 0 {
      if s[0] == '\r' && |s| > 1 && s[1] == '\n' {
        BreakCount(s[2..]);
      } else {
        BreakCount(s[1..]);
      }
    }
  }

  // ---------------------------------------------------------------------
  // runWordWrap
  // ---------------------------------------------------------------------

  /** Pixel width of a character, and of the space between words. */
  const CharWidth: nat := 2
  const WhiteSpaceWidth: nat := 2

  /**
   * `spaceLeft` starts as the wrap width, which is `undefined` until
   * `setWordWrapWidth` runs; arithmetic keeps it undefined (NaN), and `>`
   * against it is false.
   */
  function Sub(spaceLeft: Option<int>, w: int): Option<int> {
    if spaceLeft.Some? then Some(spaceLeft.value - w) else None
  }

  /** One pass of the inner loop, for word `j`: the text appended and the new space left. */
  function Step(words: seq<string>, j: nat, spaceLeft: Option<int>, width: Option<int>): (r: (string, Option<int>))
    requires j < |words|
    ensures var tail := words[j] + (if j < |words| - 1 then " " else "");
            r.0 == tail || (j > 0 && spaceLeft.Some? && r.0 == "\n" + tail)
    ensures spaceLeft.None? ==> r.1.None?
  {
    var word := words[j];
    var wordWidth := |word| * CharWidth;
    var notLast := j < |words| - 1;
    var wordWidthWithSpace := wordWidth + if notLast then WhiteSpaceWidth else 0;
    var wrap := spaceLeft.Some? && wordWidthWithSpace > spaceLeft.value && j > 0;
    var start := if wrap then width else spaceLeft;
    ((if wrap then "\n" else "") + word + (if notLast then " " else ""),
     Sub(start, if notLast then wordWidthWithSpace else wordWidth))
  }

  /**
   * What one pass appends: the word, a space unless it is the last word, and
   * before it a newline only when the word does not fit and is not the first.
   */
  lemma StepShape(words: seq<string>, j: nat, spaceLeft: Option<int>, width: Option<int>)
    requires j < |words|
    ensures var tail := words[j] + (if j < |words| - 1 then " " else "");
            && (Step(words, j, spaceLeft, width).0 == tail || (j > 0 && Step(words, j, spaceLeft, width).0 == "\n" + tail))
            && (spaceLeft.None? ==> Step(words, j, spaceLeft, width) == (tail, None))
  {
  }

  /** The inner loop after its first `j` passes: the text of the line so far, and the space left. */
  function WrapState(words: seq<string>, j: nat, width: Option<int>): (r: (string, Option<int>))
    requires j <= |words|
    ensures width.None? ==> r.1.None?
  {
    if j == 0 then ("", width)
    else
      var prev := WrapState(words, j - 1, width);
      var step := Step(words, j - 1, prev.1, width);
      (prev.0 + step.0, step.1)
  }

  /** One line, wrapped. */
  function WrapLine(line: string, width: Option<int>): (r: string)
    ensures |Split(line, ' ')| == 1 ==> r == line
  {
    JoinSplit(line, ' ');
    var words := Split(line, ' ');
    assert |words| == 1 ==> WrapState(words, 1, width).0 == "" + Step(words, 0, width, width).0 == words[0];
    WrapState(words, |words|, width).0
  }

  /** The outer loop after its first `n` passes. */
  function Wrapped(lines: seq<string>, n: nat, width: Option<int>): (r: string)
    requires n <= |lines|
    ensures |r| >= if n < |lines| then n else n - 1
  {
    if n == 0 then ""
    else Wrapped(lines, n - 1, width) + WrapLine(lines[n - 1], width) + (if n - 1 < |lines| - 1 then "\n" else "")
  }

  /** `runWordWrap` of `text` (`None` for `undefined` or `null`) at wrap width `width`. */
  function WordWrap(text: Option<string>, width: Option<int>): (r: string)
    ensures text.None? || text == Some("") ==> r == ""
    ensures text.Some? && text.value != "" ==> |r| >= |SplitLines(text.value)| - 1
  {
    if text.None? || text.value == "" then ""
    else
      var lines := SplitLines(text.value);
      Wrapped(lines, |lines|, width)
  }

  /** Without its newlines, a wrapped line reads as its words joined by spaces. */
  lemma {:induction false} WrapStateText(words: seq<string>, j: nat, width: Option<int>)
    requires j <= |words|
    requires forall k, i :: 0 <= k < |words| && 0 <= i < |words[k]| ==> words[k][i] != '\n'
    ensures Without(WrapState(words, j, width).0, '\n') == JoinPrefix(words, j, " ")
  {
    if j > 0 {
      WrapStateText(words, j - 1, width);
      var prev := WrapState(words, j - 1, width);
      var piece := Step(words, j - 1, prev.1, width).0;
      var tail := words[j - 1] + (if j - 1 < |words| - 1 then " " else "");
      StepShape(words, j - 1, prev.1, width);
      assert forall i :: 0 <= i < |tail| ==> tail[i] != '\n';
      WithoutAbsent(tail, '\n');
      if piece != tail {
        WithoutAppend("\n", tail, '\n');
      }
      assert Without(piece, '\n') == tail;
      var out := WrapState(words, j, width).0;
      assert out == prev.0 + piece;
      WithoutAppend(prev.0, piece, '\n');
      assert Without(out, '\n') == JoinPrefix(words, j - 1, " ") + tail;
      assert JoinPrefix(words, j, " ") == JoinPrefix(words, j - 1, " ") + tail;
    }
  }

  /**
   * A newline the wrap inserts always follows the space after the previous
   * word: never at the start of a line, and the space stays at the end of the
   * wrapped line. Before the last word, the text so far ends with a space.
   */
  lemma {:induction false} WrapNewlineFollowsSpace(words: seq<string>, j: nat, width: Option<int>)
    requires j <= |words|
    requires forall k, i :: 0 <= k < |words| && 0 <= i < |words[k]| ==> words[k][i] != '\n'
    ensures var out := WrapState(words, j, width).0;
            && (forall k :: 0 <= k < |out| && out[k] == '\n' ==> k > 0 && out[k - 1] == ' ')
            && (0 < j < |words| ==> |out| > 0 && out[|out| - 1] == ' ')
  {
    if j > 0 {
      WrapNewlineFollowsSpace(words, j - 1, width);
      var prev := WrapState(words, j - 1, width);
      var step := Step(words, j - 1, prev.1, width);
      var tail := words[j - 1] + (if j - 1 < |words| - 1 then " " else "");
      StepShape(words, j - 1, prev.1, width);
      assert forall i :: 0 <= i < |tail| ==> tail[i] != '\n';
      var out := prev.0 + step.0;
      forall k | 0 <= k < |out| && out[k] == '\n'
        ensures k > 0 && out[k - 1] == ' '
      {
        if k < |prev.0| {
          assert prev.0[k] == '\n';
        } else {
          assert step.0[k - |prev.0|] == '\n';
          assert step.0 == "\n" + tail && k == |prev.0|;
        }
      }
    }
  }

  /** With no wrap width, the inner loop never breaks a line. */
  lemma {:induction false} NoWidthNoBreak(words: seq<string>, j: nat)
    requires j <= |words|
    ensures WrapState(words, j, None) == (JoinPrefix(words, j, " "), None)
  {
    if j > 0 {
      NoWidthNoBreak(words, j - 1);
      StepShape(words, j - 1, None, None);
    }
  }

  /** With no wrap width a line comes out as it went in. */
  lemma NoWidthLine(line: string)
    ensures WrapLine(line, None) == line
  {
    var words := Split(line, ' ');
    NoWidthNoBreak(words, |words|);
    JoinPrefixFull(words, " ");
    JoinSplit(line, ' ');
  }

  /** Without its newlines, a wrapped line is the line. */
  lemma WrapLineText(line: string, width: Option<int>)
    requires forall i :: 0 <= i < |line| ==> line[i] != '\n'
    ensures Without(WrapLine(line, width), '\n') == line
  {
    var words := Split(line, ' ');
    WrapStateText(words, |words|, width);
    JoinPrefixFull(words, " ");
    JoinSplit(line, ' ');
  }

  lemma {:induction false} WrappedText(lines: seq<string>, n: nat, width: Option<int>)
    requires n <= |lines|
    requires forall k, i :: 0 <= k < |lines| && 0 <= i < |lines[k]| ==> lines[k][i] != '\n'
    ensures Without(Wrapped(lines, n, width), '\n') == Concat(lines[..n])
  {
    if n > 0 {
      WrappedText(lines, n - 1, width);
      var line := lines[n - 1];
      WrapLineText(line, width);
      var sep := if n - 1 < |lines| - 1 then "\n" else "";
      WithoutLineStep(Wrapped(lines, n - 1, width), WrapLine(line, width), sep);
      assert lines[..n] == lines[..n - 1] + [line];
      ConcatAppend(lines[..n - 1], [line]);
      assert Concat([line]) == line + Concat([]);
    }
  }

  /** One pass of the outer loop, with the newlines deleted: the separator disappears. */
  lemma WithoutLineStep(prev: string, wrapped: string, sep: string)
    requires sep == "" || sep == "\n"
    ensures Without(prev + wrapped + sep, '\n') == Without(prev, '\n') + Without(wrapped, '\n')
  {
    assert Without(sep, '\n') == "";
    WithoutAppend(prev, wrapped, '\n');
    WithoutAppend(prev + wrapped, sep, '\n');
  }

  lemma {:induction false} WrappedNoWidth(lines: seq<string>, n: nat)
    requires n <= |lines|
    ensures Wrapped(lines, n, None) == JoinPrefix(lines, n, "\n")
  {
    if n > 0 {
      WrappedNoWidth(lines, n - 1);
      NoWidthLine(lines[n - 1]);
      var sep := if n - 1 < |lines| - 1 then "\n" else "";
      var prev, line := Wrapped(lines, n - 1, None), lines[n - 1];
      assert Wrapped(lines, n, None) == prev + WrapLine(line, None) + sep;
      assert JoinPrefix(lines, n, "\n") == prev + (line + sep);
    }
  }

  lemma {:induction false} WrappedBreaks(lines: seq<string>, n: nat, width: Option<int>)
    requires n <= |lines|
    ensures Count(Wrapped(lines, n, width), '\n') >= if n < |lines| then n else n - 1
  {
    if n > 0 {
      WrappedBreaks(lines, n - 1, width);
      var sep := if n - 1 < |lines| - 1 then "\n" else "";
      CountAppend(Wrapped(lines, n - 1, width), WrapLine(lines[n - 1], width), '\n');
      CountAppend(Wrapped(lines, n - 1, width) + WrapLine(lines[n - 1], width), sep, '\n');
    }
  }

  /** An empty or missing text wraps to "". */
  lemma WordWrapEmpty(width: Option<int>)
    ensures WordWrap(None, width) == "" && WordWrap(Some(""), width) == ""
  {
  }

  /**
   * Deleting the newlines from the output gives the text without its line
   * breaks: wrapping only inserts newlines, and each break (`\r\n`, `\r`,
   * `\n`) becomes one newline.
   */
  lemma WordWrapKeepsText(text: string, width: Option<int>)
    ensures Without(WordWrap(Some(text), width), '\n') == StripBreaks(text)
  {
    if text != "" {
      var lines := SplitLines(text);
      WrappedText(lines, |lines|, width);
      assert lines[..|lines|] == lines;
      ConcatSplitLines(text);
    }
  }

  /** With no wrap width set, the output is the text with each line break written as `\n`. */
  lemma WordWrapNoWidth(text: string)
    ensures WordWrap(Some(text), None) == NormalizeBreaks(text)
  {
    if text != "" {
      var lines := SplitLines(text);
      WrappedNoWidth(lines, |lines|);
      JoinPrefixFull(lines, "\n");
      JoinSplitLines(text);
    }
  }

  /** The output has at least one `\n` per line break of the text. */
  lemma WordWrapBreaks(text: string, width: Option<int>)
    ensures Count(WordWrap(Some(text), width), '\n') >= Count(NormalizeBreaks(text), '\n')
  {
    BreakCount(text);
    if text != "" {
      var lines := SplitLines(text);
      WrappedBreaks(lines, |lines|, width);
    }
  }

  /** Every newline the wrap inserts into a line follows a space. */
  lemma WrapLineNewlines(line: string, width: Option<int>)
    requires forall i :: 0 <= i < |line| ==> line[i] != '\n'
    ensures var out := WrapLine(line, width);
            forall k :: 0 <= k < |out| && out[k] == '\n' ==> k > 0 && out[k - 1] == ' '
  {
    var words := Split(line, ' ');
    assert forall k, i :: 0 <= k < |words| && 0 <= i < |words[k]| ==> words[k][i] != '\n';
    WrapNewlineFollowsSpace(words, |words|, width);
    assert WrapLine(line, width) == WrapState(words, |words|, width).0;
  }

  // ---------------------------------------------------------------------
  // The child list
  // ---------------------------------------------------------------------

  /** `Array.prototype.indexOf`: the first index holding `x`, or -1. */
  function IndexOf<T(==)>(s: seq<T>, x: T): (r: int)
    ensures -1 <= r < |s|
    ensures r == -1 <==> x !in s
    ensures r >= 0 ==> s[r] == x && forall k :: 0 <= k < r ==> s[k] != x
  {
    if |s| == 0 then -1
    else if s[0] == x then 0
    else
      var i := IndexOf(s[1..], x);
      if i == -1 then -1 else i + 1
  }

  /** The start `splice` uses: a negative index counts from the end, and both ends clamp. */
  function SpliceStart(index: int, length: nat): (r: nat)
    ensures r <= length
    ensures 0 <= index <= length ==> r == index
    ensures index < 0 && length + index >= 0 ==> r == length + index
    ensures length + index < 0 ==> r == 0
    ensures index > length ==> r == length
  {
    if index < 0 then (if length + index > 0 then length + index else 0)
    else if index < length then index else length
  }

  /** `list.splice(index, 1)` at the first `x`, when there is one. */
  function RemoveFirst<T(==)>(s: seq<T>, x: T): (r: seq<T>)
    ensures x !in s ==> r == s
    ensures x in s ==>
              |r| == |s| - 1 &&
              (forall k :: 0 <= k < IndexOf(s, x) ==> r[k] == s[k]) &&
              (forall k :: IndexOf(s, x) <= k < |r| ==> r[k] == s[k + 1])
  {
    var i := IndexOf(s, x);
    if i != -1 then s[..i] + s[i + 1..] else s
  }

  /** `getAt`: `list[index]`, `undefined` out of range. */
  function ElementAt<T>(s: seq<T>, index: int): (r: Option<T>)
    ensures r.Some? <==> 0 <= index < |s|
  {
    if 0 <= index < |s| then Some(s[index]) else None
  }

  /** `remove` takes out one occurrence of `x`, if any, and nothing else. */
  lemma RemoveFirstOne<T>(s: seq<T>, x: T)
    ensures multiset(RemoveFirst(s, x)) == multiset(s) - multiset{x}
    ensures x in s ==> |RemoveFirst(s, x)| == |s| - 1
    ensures x !in s ==> RemoveFirst(s, x) == s
  {
    var i := IndexOf(s, x);
    if i != -1 {
      assert s == s[..i] + [x] + s[i + 1..];
      assert multiset(s) == multiset(s[..i]) + multiset{x} + multiset(s[i + 1..]);
      assert multiset(RemoveFirst(s, x)) == multiset(s[..i]) + multiset(s[i + 1..]);
    } else {
      assert multiset(s)[x] == 0;
    }
  }

  /** `getAt` of the index `indexOf` reports gives the object back. */
  lemma ElementAtIndexOf<T>(s: seq<T>, x: T)
    requires x in s
    ensures ElementAt(s, IndexOf(s, x)) == Some(x)
  {
  }

  /** After `addAt`, `getAt` of the clamped index gives the new object. */
  lemma ElementAtInserted<T>(s: seq<T>, x: T, index: int)
    ensures var p := SpliceStart(index, |s|);
            ElementAt(s[..p] + [x] + s[p..], p) == Some(x)
  {
  }

  /** `getIndex` as the source writes it: `index || -1`, so index 0 reads as -1. */
  function GetIndexAsWritten<T(==)>(s: seq<T>, x: T): (r: int)
    ensures r == -1 <==> x !in s || s[0] == x
    ensures r != -1 ==> 0 < r < |s| && s[r] == x && x !in s[..r]
  {
    var index := IndexOf(s, x);
    if index == 0 then -1 else index
  }

  /** The first child of a non-empty list is reported absent. */
  lemma GetIndexAsWrittenMissesFirst<T>(s: seq<T>)
    requires |s| > 0
    ensures s[0] in s && GetIndexAsWritten(s, s[0]) == -1
  {
  }

  /** The mock text object: its child list and its wrap width. */
  class MockText<T(==)> {
    var list: seq<T>
    var wordWrapWidth: Option<int>

    constructor ()
      ensures list == [] && wordWrapWidth == None
    {
      list := [];
      wordWrapWidth := None;
    }

    /** `setWordWrapWidth`. */
    method SetWordWrapWidth(width: int)
      modifies this
      ensures wordWrapWidth == Some(width) && list == old(list)
    {
      wordWrapWidth := Some(width);
    }

    /** `runWordWrap` at the current wrap width. */
    method RunWordWrap(text: Option<string>) returns (result: string)
      ensures result == WordWrap(text, wordWrapWidth)
    {
      if text.None? || text.value == "" {
        return "";
      }
      result := "";
      var lines := SplitLines(text.value);
      var lastLineIndex := |lines| - 1;
      for i := 0 to |lines|
        invariant result == Wrapped(lines, i, wordWrapWidth)
      {
        assert Wrapped(lines, i + 1, wordWrapWidth) ==
               Wrapped(lines, i, wordWrapWidth) + WrapLine(lines[i], wordWrapWidth) + (if i < lastLineIndex then "\n" else "");
        result := AppendWrappedLine(result, Split(lines[i], ' '));
        if i < lastLineIndex {
          result := result + "\n";
        }
      }
    }

    /** The inner loop of `runWordWrap`: one line's words, wrapped and appended to `result`. */
    method AppendWrappedLine(result0: string, words: seq<string>) returns (result: string)
      ensures result == result0 + WrapState(words, |words|, wordWrapWidth).0
    {
      result := result0;
      var spaceLeft := wordWrapWidth;
      var lastWordIndex := |words| - 1;
      ghost var lineStart, line := result, "";
      for j := 0 to |words|
        invariant result == lineStart + line
        invariant line == WrapState(words, j, wordWrapWidth).0
        invariant spaceLeft == WrapState(words, j, wordWrapWidth).1
      {
        ghost var step := Step(words, j, spaceLeft, wordWrapWidth);
        ghost var piece := "";
        var word := words[j];
        var wordWidth := |word| * CharWidth;
        var wordWidthWithSpace := wordWidth;
        if j < lastWordIndex {
          wordWidthWithSpace := wordWidthWithSpace + WhiteSpaceWidth;
        }
        if spaceLeft.Some? && wordWidthWithSpace > spaceLeft.value {
          if j > 0 {
            result, piece := result + "\n", piece + "\n";
            spaceLeft := wordWrapWidth;
          }
        }
        result, piece := result + word, piece + word;
        if j < lastWordIndex {
          result, piece := result + " ", piece + " ";
          spaceLeft := Sub(spaceLeft, wordWidthWithSpace);
        } else {
          spaceLeft := Sub(spaceLeft, wordWidth);
        }
        assert piece == step.0 && spaceLeft == step.1;
        line := line + piece;
      }
    }

    /** `add`: appends. */
    method Add(obj: T)
      modifies this
      ensures list == old(list) + [obj] && wordWrapWidth == old(wordWrapWidth)
    {
      list := list + [obj];
    }

    /** `removeAll`. */
    method RemoveAll()
      modifies this
      ensures list == [] && wordWrapWidth == old(wordWrapWidth)
    {
      list := [];
    }

    /** `destroy`: empties the list as well. */
    method Destroy()
      modifies this
      ensures list == [] && wordWrapWidth == old(wordWrapWidth)
    {
      list := [];
    }

    /** `addAt`: `splice(index, 0, obj)`. */
    method AddAt(obj: T, index: int)
      modifies this
      ensures var p := SpliceStart(index, |old(list)|);
              list == old(list)[..p] + [obj] + old(list)[p..]
      ensures wordWrapWidth == old(wordWrapWidth)
    {
      var start := SpliceStart(index, |list|);
      list := list[..start] + [obj] + list[start..];
    }

    /** `remove`: deletes the first occurrence, if any. */
    method Remove(obj: T)
      modifies this
      ensures list == RemoveFirst(old(list), obj) && wordWrapWidth == old(wordWrapWidth)
    {
      var index := IndexOf(list, obj);
      if index != -1 {
        list := list[..index] + list[index + 1..];
      }
    }

    /** `getIndex`, corrected to return `indexOf` itself (see Findings). */
    method GetIndex(obj: T) returns (index: int)
      ensures index == -1 <==> obj !in list
      ensures index >= 0 ==> index < |list| && list[index] == obj && obj !in list[..index]
    {
      index := IndexOf(list, obj);
    }

    /** `getAt`. */
    method GetAt(index: int) returns (obj: Option<T>)
      ensures obj == ElementAt(list, index)
    {
      if 0 <= index < |list| {
        obj := Some(list[index]);
      } else {
        obj := None;
      }
    }
  }
}
