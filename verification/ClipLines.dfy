/** Long tool output is wrapped at a column and cut off after some lines, with a count of what is hidden. */
module ClipLines {
  import opened Text

  // ---------------------------------------------------------------- lines

  function LineLength(text: string): (n: nat)
    ensures n <= |text|
    ensures '\n' !in text[..n]
    ensures n < |text| ==> text[n] == '\n'
  {
    if text != [] && text[0] != '\n' then
      var n := LineLength(text[1..]);
      assert text[..n + 1] == [text[0]] + text[1..][..n];
      n + 1
    else 0
  }

  /** A carriage return belongs to the line break after it. */
  function WithoutReturn(line: string): string {
    if line != [] && line[|line| - 1] == '\r' then line[..|line| - 1] else line
  }

  /** Rust's `str::lines`. */
  function Lines(text: string): seq<string> {
    if text == [] then []
    else
      var n := LineLength(text);
      if n == |text| then [text]
      else [WithoutReturn(text[..n])] + Lines(text[n + 1..])
  }

  /** The text with its line breaks taken out. */
  function WithoutBreaks(text: string): string {
    if text == [] then []
    else if text[0] == '\n' || (text[0] == '\r' && |text| > 1 && text[1] == '\n') then WithoutBreaks(text[1..])
    else [text[0]] + WithoutBreaks(text[1..])
  }

  // ---------------------------------------------------------------- wrapping

  /** A line cut after every `columns` characters; an empty line is one empty chunk. */
  function Chunks(line: string, columns: nat): (r: seq<string>)
    requires columns >= 1
    ensures |r| >= 1
  {
    if |line| <= columns then [line] else [line[..columns]] + Chunks(line[columns..], columns)
  }

  function CeilDiv(a: nat, b: nat): nat
    requires b >= 1
  {
    (a + b - 1) / b
  }

  function WrappedLineCount(line: string, columns: nat): nat
    requires columns >= 1
  {
    var n := CeilDiv(|line|, columns);
    if n >= 1 then n else 1
  }

  function WrapAll(lines: seq<string>, columns: nat): seq<string>
    requires columns >= 1
  {
    if lines == [] then [] else WrapAll(lines[..|lines| - 1], columns) + Chunks(lines[|lines| - 1], columns)
  }

  function FullWrap(text: string, columns: nat): seq<string>
    requires columns >= 1
  {
    WrapAll(Lines(TrimEnd(text)), columns)
  }

  datatype ClippedLines = ClippedLines(lines: seq<string>, hidden: nat)

  function Shown<T>(all: seq<T>, limit: nat): seq<T> {
    if |all| <= limit then all else all[..limit]
  }

  /** What is shown is how the full wrap begins, and what is not shown is counted. */
  predicate Clips(all: seq<string>, limit: nat, clipped: ClippedLines) {
    clipped.lines == Shown(all, limit) && |clipped.lines| + clipped.hidden == |all|
  }

  // ---------------------------------------------------------------- the loops

  method WrapLine(before: seq<string>, line: string, columns: nat, limit: nat) returns (r: ClippedLines)
    requires columns >= 1 && |before| < limit
    ensures Clips(before + Chunks(line, columns), limit, r)
  {
    var lines := before;
    var rest := line;
    while true
      invariant |lines| < limit
      invariant lines + Chunks(rest, columns) == before + Chunks(line, columns)
      decreases |rest|
    {
      var split := if columns < |rest| then columns else |rest|;
      var chunk, tail := rest[..split], rest[split..];
      lines := lines + [chunk];
      if tail == [] {
        assert chunk == rest;
        return ClippedLines(lines, 0);
      }
      assert lines + Chunks(tail, columns) == before + Chunks(line, columns);
      rest := tail;
      if |lines| >= limit {
        ChunkCount(rest, columns);
        return ClippedLines(lines, WrappedLineCount(rest, columns));
      }
    }
  }

  method ClipText(text: string, columns: nat, limit: nat) returns (r: ClippedLines)
    requires columns >= 1
    ensures Clips(FullWrap(text, columns), limit, r)
  {
    var all := Lines(TrimEnd(text));
    r := ClippedLines([], 0);
    for i := 0 to |all|
      invariant Clips(WrapAll(all[..i], columns), limit, r)
    {
      var line := all[i];
      assert all[..i + 1][..i] == all[..i];
      if |r.lines| >= limit {
        ChunkCount(line, columns);
        r := r.(hidden := r.hidden + WrappedLineCount(line, columns));
      } else {
        r := WrapLine(r.lines, line, columns, limit);
      }
    }
    assert all[..|all|] == all;
  }

  // ---------------------------------------------------------------- what wrapping keeps

  lemma QuotientIs(a: nat, c: nat, q: nat, r: nat)
    requires c >= 1 && a == q * c + r && r < c
    ensures a / c == q
  {
    var p, s := a / c, a % c;
    assert a == p * c + s;
    assert (q - p) * c == q * c - p * c && (p - q) * c == p * c - q * c;
    if p < q {
      Multiple(q - p, c);
    } else if p > q {
      Multiple(p - q, c);
    }
  }

  lemma Multiple(x: nat, c: nat)
    requires x >= 1
    ensures x * c >= c
  {
    assert x * c == (x - 1) * c + c;
  }

  lemma CeilDivShifts(n: nat, c: nat)
    requires c >= 1 && n > c
    ensures CeilDiv(n, c) == 1 + CeilDiv(n - c, c)
  {
    var q, r := (n - 1) / c, (n - 1) % c;
    assert (q + 1) * c == q * c + c;
    QuotientIs(n + c - 1, c, q + 1, r);
  }

  lemma CeilDivOfShort(n: nat, c: nat)
    requires c >= 1 && n <= c
    ensures CeilDiv(n, c) == if n == 0 then 0 else 1
  {
    if n > 0 {
      QuotientIs(n + c - 1, c, 1, n - 1);
    } else {
      QuotientIs(c - 1, c, 0, c - 1);
    }
  }

  lemma {:induction false} CeilDivIsPositive(n: nat, c: nat)
    requires c >= 1 && n >= 1
    ensures CeilDiv(n, c) >= 1
  {
    hide CeilDiv;
    if n <= c {
      CeilDivOfShort(n, c);
    } else {
      CeilDivShifts(n, c);
      CeilDivIsPositive(n - c, c);
    }
  }

  /** The hidden count needs no wrapping: it is the number of chunks there would be. */
  lemma {:induction false} ChunkCount(line: string, columns: nat)
    requires columns >= 1
    ensures |Chunks(line, columns)| == WrappedLineCount(line, columns)
    decreases |line|
  {
    hide CeilDiv;
    if |line| <= columns {
      CeilDivOfShort(|line|, columns);
    } else {
      CeilDivShifts(|line|, columns);
      CeilDivIsPositive(|line| - columns, columns);
      ChunkCount(line[columns..], columns);
    }
  }

  function Concat(parts: seq<string>): string {
    if parts == [] then [] else Concat(parts[..|parts| - 1]) + parts[|parts| - 1]
  }

  lemma {:induction false} ConcatJoins(a: seq<string>, b: seq<string>)
    ensures Concat(a + b) == Concat(a) + Concat(b)
  {
    if b == [] {
      assert a + b == a;
    } else {
      assert (a + b)[..|a + b| - 1] == a + b[..|b| - 1];
      ConcatJoins(a, b[..|b| - 1]);
    }
  }

  lemma ConcatOne(part: string)
    ensures Concat([part]) == part
  {
    assert [part][..0] == [];
  }

  /** Every chunk but the last is as long as allowed, and the chunks of a line make up the line. */
  lemma {:induction false} ChunksMakeUpTheLine(line: string, columns: nat)
    requires columns >= 1
    ensures Concat(Chunks(line, columns)) == line
    ensures forall k | 0 <= k < |Chunks(line, columns)| :: |Chunks(line, columns)[k]| <= columns
    ensures forall k | 0 <= k < |Chunks(line, columns)| - 1 :: |Chunks(line, columns)[k]| == columns
    decreases |line|
  {
    if |line| <= columns {
      ConcatOne(line);
    } else {
      hide Concat;
      var rest := Chunks(line[columns..], columns);
      ChunksMakeUpTheLine(line[columns..], columns);
      assert Chunks(line, columns) == [line[..columns]] + rest;
      ConcatJoins([line[..columns]], rest);
      ConcatOne(line[..columns]);
    }
  }

  /** Every line is wrapped on its own, one behind the other. */
  lemma {:induction false} LinesWrapApart(a: seq<string>, line: string, b: seq<string>, columns: nat)
    requires columns >= 1
    ensures WrapAll(a + [line] + b, columns) == WrapAll(a, columns) + Chunks(line, columns) + WrapAll(b, columns)
  {
    hide Chunks;
    var all := a + [line] + b;
    if b == [] {
      assert all[..|all| - 1] == a;
    } else {
      assert all[..|all| - 1] == a + [line] + b[..|b| - 1];
      LinesWrapApart(a, line, b[..|b| - 1], columns);
    }
  }

  lemma {:induction false} WrapFits(lines: seq<string>, columns: nat)
    requires columns >= 1
    ensures forall k | 0 <= k < |WrapAll(lines, columns)| :: |WrapAll(lines, columns)[k]| <= columns
    ensures Concat(WrapAll(lines, columns)) == Concat(lines)
  {
    if lines != [] {
      var n := |lines| - 1;
      WrapFits(lines[..n], columns);
      ChunksMakeUpTheLine(lines[n], columns);
      ConcatJoins(WrapAll(lines[..n], columns), Chunks(lines[n], columns));
    }
  }

  lemma {:induction false} WithoutBreaksOfLine(line: string, rest: string)
    requires '\n' !in line
    ensures WithoutBreaks(line + ['\n'] + rest) == WithoutReturn(line) + WithoutBreaks(rest)
  {
    var text := line + ['\n'] + rest;
    if line == [] {
      assert text[1..] == rest;
    } else {
      var tail := line[1..] + ['\n'] + rest;
      assert text[0] == line[0] && text[1..] == tail;
      assert text[1] == if |line| > 1 then line[1] else '\n';
      WithoutBreaksOfLine(line[1..], rest);
      WithoutBreaksByHead(text);
      hide WithoutBreaks;
      if line != ['\r'] {
        assert WithoutReturn(line) == [line[0]] + WithoutReturn(line[1..]);
      }
    }
  }

  lemma WithoutBreaksByHead(text: string)
    requires text != []
    ensures WithoutBreaks(text) ==
              (if text[0] == '\n' || (text[0] == '\r' && |text| > 1 && text[1] == '\n') then [] else [text[0]])
              + WithoutBreaks(text[1..])
  {
  }

  lemma {:induction false} WithoutBreaksOfLastLine(line: string)
    requires '\n' !in line
    ensures WithoutBreaks(line) == line
  {
    if line != [] {
      WithoutBreaksOfLastLine(line[1..]);
    }
  }

  lemma {:induction false} LinesMakeUpTheText(text: string)
    ensures Concat(Lines(text)) == WithoutBreaks(text)
    decreases |text|
  {
    if text != [] {
      var n := LineLength(text);
      if n == |text| {
        assert text[..n] == text;
        WithoutBreaksOfLastLine(text);
        ConcatOne(text);
      } else {
        assert text == text[..n] + ['\n'] + text[n + 1..];
        WithoutBreaksOfLine(text[..n], text[n + 1..]);
        LinesMakeUpTheText(text[n + 1..]);
        ConcatJoins([WithoutReturn(text[..n])], Lines(text[n + 1..]));
        ConcatOne(WithoutReturn(text[..n]));
      }
    }
  }

  /** Wrapping fits every line into the columns and loses nothing of the text but line breaks and what trails it. */
  lemma FullWrapKeepsTheText(text: string, columns: nat)
    requires columns >= 1
    ensures Concat(FullWrap(text, columns)) == WithoutBreaks(TrimEnd(text))
    ensures forall k | 0 <= k < |FullWrap(text, columns)| :: |FullWrap(text, columns)[k]| <= columns
  {
    WrapFits(Lines(TrimEnd(text)), columns);
    LinesMakeUpTheText(TrimEnd(text));
  }

  /** A larger limit shows more of the same lines, and a large enough one hides nothing. */
  lemma LimitsAgree(text: string, columns: nat, small: nat, large: nat, a: ClippedLines, b: ClippedLines)
    requires columns >= 1 && small <= large
    requires Clips(FullWrap(text, columns), small, a) && Clips(FullWrap(text, columns), large, b)
    ensures a.lines <= b.lines && a.hidden == b.hidden + |b.lines| - |a.lines|
    ensures large >= |FullWrap(text, columns)| ==> b.hidden == 0
  {
    hide FullWrap;
  }

  // ---------------------------------------------------------------- where lines end

  /** Each line with what ended it. */
  function Interleaved(lines: seq<string>, ends: seq<string>): string
    requires |lines| == |ends|
  {
    if lines == [] then [] else lines[0] + ends[0] + Interleaved(lines[1..], ends[1..])
  }

  /** Ended by a line feed with or without a carriage return; only a last line that is not empty may lack one. */
  predicate EndsLine(line: string, end: string, last: bool) {
    && '\n' !in line
    && (|| (end == "\n" && (line == [] || line[|line| - 1] != '\r'))
        || end == "\r\n"
        || (end == "" && last && line != []))
  }

  lemma LinesByHead(text: string)
    requires text != []
    ensures var n := LineLength(text);
            Lines(text) == if n == |text| then [text] else [WithoutReturn(text[..n])] + Lines(text[n + 1..])
  {
    hide WithoutReturn, LineLength;
  }

  lemma FirstBreak(text: string)
    ensures var n := LineLength(text);
            && '\n' !in text[..n]
            && (n == |text| ==> text[..n] == text)
            && (n < |text| ==> text == text[..n] + "\n" + text[n + 1..])
  {
    var n := LineLength(text);
    hide LineLength;
    if n < |text| {
      SplitAt(text, n);
      assert "\n" == [text[n]];
    }
  }

  lemma SplitAt<T>(s: seq<T>, i: nat)
    requires i < |s|
    ensures s == s[..i] + [s[i]] + s[i + 1..]
  {
  }

  lemma OnlyLine(text: string)
    requires text != [] && '\n' !in text
    ensures Interleaved([text], [""]) == text && EndsLine(text, "", true)
  {
    assert [text][1..] == [] && [""][1..] == [];
  }

  /** The lines of a text stand between its line breaks, and nowhere else is it broken. */
  lemma {:induction false} LinesStandBetweenBreaks(text: string) returns (ends: seq<string>)
    ensures |ends| == |Lines(text)| && Interleaved(Lines(text), ends) == text
    ensures forall k | 0 <= k < |ends| :: EndsLine(Lines(text)[k], ends[k], k == |ends| - 1)
    decreases |text|
  {
    if text == [] {
      ends := [];
    } else {
      LinesByHead(text);
      FirstBreak(text);
      var n := LineLength(text);
      hide Lines, LineLength, EndsLine, Interleaved, WithoutReturn;
      if n == |text| {
        ends := [""];
        OnlyLine(text);
      } else {
        var line, rest := text[..n], text[n + 1..];
        var more := LinesStandBetweenBreaks(rest);
        var end := if WithoutReturn(line) == line then "\n" else "\r\n";
        ends := [end] + more;
        LineEnds(line);
        OneLineMore(WithoutReturn(line), end, Lines(rest), more);
      }
    }
  }

  lemma OneLineMore(line: string, end: string, lines: seq<string>, ends: seq<string>)
    requires |lines| == |ends| && EndsLine(line, end, false)
    requires forall k | 0 <= k < |ends| :: EndsLine(lines[k], ends[k], k == |ends| - 1)
    ensures Interleaved([line] + lines, [end] + ends) == line + end + Interleaved(lines, ends)
    ensures forall k | 0 <= k < |ends| + 1 :: EndsLine(([line] + lines)[k], ([end] + ends)[k], k == |ends|)
  {
    var l, e := [line] + lines, [end] + ends;
    assert l[1..] == lines && e[1..] == ends;
    forall k | 0 <= k < |ends| + 1 ensures EndsLine(l[k], e[k], k == |ends|) {
      if k > 0 {
        assert EndsLine(lines[k - 1], ends[k - 1], k - 1 == |ends| - 1);
      }
    }
  }

  lemma LineEnds(line: string)
    requires '\n' !in line
    ensures var end := if WithoutReturn(line) == line then "\n" else "\r\n";
            EndsLine(WithoutReturn(line), end, false) && WithoutReturn(line) + end == line + "\n"
  {
  }

  lemma {:induction false} OneWayOfLines(text: string, lines: seq<string>, ends: seq<string>)
    requires |lines| == |ends| && Interleaved(lines, ends) == text
    requires forall k | 0 <= k < |ends| :: EndsLine(lines[k], ends[k], k == |ends| - 1)
    ensures lines == Lines(text)
    decreases |lines|
  {
    if lines != [] {
      var line, end := lines[0], ends[0];
      var rest := Interleaved(lines[1..], ends[1..]);
      assert EndsLine(line, end, 0 == |ends| - 1);
      assert text == line + end + rest;
      forall k | 0 <= k < |ends[1..]| ensures EndsLine(lines[1..][k], ends[1..][k], k == |ends[1..]| - 1) {
        assert EndsLine(lines[k + 1], ends[k + 1], k + 1 == |ends| - 1);
      }
      OneWayOfLines(rest, lines[1..], ends[1..]);
      FirstLine(line, end, rest);
      if end == "" {
        assert lines == [line];
      } else {
        assert lines == [line] + lines[1..];
      }
    }
  }

  /** What stands before the first break is the first line. */
  lemma FirstLine(line: string, end: string, rest: string)
    requires EndsLine(line, end, end == "") && (end == "" ==> rest == "")
    ensures Lines(line + end + rest) == if end == "" then [line] else [line] + Lines(rest)
  {
    var text := line + end + rest;
    if end == "" {
      assert text == line;
      LineLengthIs(text, |text|);
    } else {
      var whole := if end == "\r\n" then line + "\r" else line;
      assert text == whole + "\n" + rest && text[|whole|] == '\n' && text[..|whole|] == whole;
      LineLengthIs(text, |whole|);
      assert text[|whole| + 1..] == rest;
    }
  }

  lemma {:induction false} LineLengthIs(text: string, n: nat)
    requires n <= |text| && '\n' !in text[..n] && (n < |text| ==> text[n] == '\n')
    ensures LineLength(text) == n
  {
    if n > 0 {
      assert text[..n][0] == text[0] && text[..n][1..] == text[1..][..n - 1];
      LineLengthIs(text[1..], n - 1);
    }
  }
}
