/** What every sequence of transcript operations builds, compared with descriptions that never mention entries. */
module TranscriptFold {
  import opened Wrappers
  import opened Transcripts

  /** One thing an event does to a transcript. */
  datatype Op =
    | Delta(text: string, thinking: bool, now: int)
    | Block(entry: Entry)
    | BlockClosed
    | ToolCalled(id: string, call: ToolCall)
    | ToolFinished(id: string, isError: bool, output: Option<string>, diff: Option<ToolDiff>)
    | RunningCanceled
  {
    /** A block that is not streamed text: a user message, a notice or an image. */
    predicate Valid() {
      Block? ==> entry.User? || entry.Notice? || entry.Image?
    }
  }

  function Apply(t: TranscriptState, op: Op): TranscriptState {
    match op
    case Delta(text, thinking, now) => AppendText(t, text, thinking, now)
    case Block(entry) => Push(t, entry)
    case BlockClosed => CloseBlock(t)
    case ToolCalled(id, call) => StartTool(t, id, call)
    case ToolFinished(id, isError, output, diff) => FinishTool(t, id, isError, output, diff)
    case RunningCanceled => CancelRunning(t)
  }

  function Fold(t: TranscriptState, ops: seq<Op>): TranscriptState {
    if ops == [] then t else Apply(Fold(t, ops[..|ops| - 1]), ops[|ops| - 1])
  }

  predicate AllValid(ops: seq<Op>) {
    forall i | 0 <= i < |ops| :: ops[i].Valid()
  }

  // ---------------------------------------------------------------- streamed text

  /** What an operation is to the text blocks: a piece of text, a break, or nothing. */
  datatype Mark = Piece(thinking: bool, text: string) | Break

  function MarksOf(op: Op): seq<Mark> {
    match op
    case Delta(text, thinking, _) => if text == [] then [] else [Piece(thinking, text)]
    case ToolFinished(_, _, _, _) => []
    case RunningCanceled => []
    case _ => [Break]
  }

  function Marks(ops: seq<Op>): seq<Mark> {
    if ops == [] then [] else Marks(ops[..|ops| - 1]) + MarksOf(ops[|ops| - 1])
  }

  datatype TextRun = TextRun(thinking: bool, text: string)

  predicate StartsWithPiece(marks: seq<Mark>, thinking: bool) {
    marks != [] && marks[0].Piece? && marks[0].thinking == thinking
  }

  /** A piece put in front of the runs behind it: it joins the first of them, or stands alone. */
  function Joined(piece: Mark, runs: seq<TextRun>, joins: bool): seq<TextRun>
    requires piece.Piece?
  {
    if joins && runs != [] then [TextRun(piece.thinking, piece.text + runs[0].text)] + runs[1..]
    else [TextRun(piece.thinking, piece.text)] + runs
  }

  /** The maximal runs of pieces of one kind, each joined into one text. */
  function TextRuns(marks: seq<Mark>): seq<TextRun> {
    if marks == [] then []
    else if marks[0].Break? then TextRuns(marks[1..])
    else Joined(marks[0], TextRuns(marks[1..]), StartsWithPiece(marks[1..], marks[0].thinking))
  }

  /** The text entries of a transcript, in order. */
  function TextEntries(entries: seq<Entry>): seq<TextRun> {
    if entries == [] then []
    else
      var last := entries[|entries| - 1];
      TextEntries(entries[..|entries| - 1]) +
      (match last
       case Assistant(text, _) => [TextRun(false, text)]
       case Thinking(text) => [TextRun(true, text)]
       case _ => [])
  }

  lemma TextEntriesAppend(entries: seq<Entry>, entry: Entry)
    ensures TextEntries(entries + [entry]) == TextEntries(entries) + TextEntries([entry])
  {
    assert (entries + [entry])[..|entries|] == entries;
    assert [entry][..0] == [];
  }

  lemma {:induction false} TextEntriesIgnoreTools(entries: seq<Entry>, i: nat, entry: Entry)
    requires i < |entries| && entries[i].Tool? && entry.Tool?
    ensures TextEntries(entries[i := entry]) == TextEntries(entries)
  {
    var n := |entries| - 1;
    if i == n {
      assert entries[i := entry][..n] == entries[..n];
    } else {
      assert entries[i := entry][..n] == entries[..n][i := entry];
      TextEntriesIgnoreTools(entries[..n], i, entry);
    }
  }

  lemma {:induction false} TextEntriesIgnoreCancel(entries: seq<Entry>)
    ensures TextEntries(CancelEntries(entries)) == TextEntries(entries)
  {
    if entries != [] {
      var n := |entries| - 1;
      assert CancelEntries(entries)[..n] == CancelEntries(entries[..n]);
      TextEntriesIgnoreCancel(entries[..n]);
    }
  }

  predicate EndsInPiece(marks: seq<Mark>, thinking: bool) {
    marks != [] && marks[|marks| - 1].Piece? && marks[|marks| - 1].thinking == thinking
  }

  /** The runs once a mark is added: `same` says that the marks so far end in a piece of its kind. */
  function Grown(runs: seq<TextRun>, mark: Mark, same: bool): seq<TextRun> {
    if mark.Break? then runs
    else if same && runs != [] then
      runs[..|runs| - 1] + [TextRun(runs[|runs| - 1].thinking, runs[|runs| - 1].text + mark.text)]
    else runs + [TextRun(mark.thinking, mark.text)]
  }

  lemma JoinedCommutesWithGrown(piece: Mark, runs: seq<TextRun>, joins: bool, mark: Mark, same: bool)
    requires piece.Piece? && runs != []
    ensures Joined(piece, Grown(runs, mark, same), joins) == Grown(Joined(piece, runs, joins), mark, same)
  {
    if mark.Piece? && |runs| == 1 && joins && same {
      assert piece.text + (runs[0].text + mark.text) == piece.text + runs[0].text + mark.text;
    }
  }

  /** Runs found from the front can be grown at the back. */
  lemma {:induction false} TextRunsOfAppend(marks: seq<Mark>, mark: Mark)
    ensures TextRuns(marks + [mark]) ==
            Grown(TextRuns(marks), mark, mark.Piece? && EndsInPiece(marks, mark.thinking))
    ensures marks != [] && marks[|marks| - 1].Piece? ==> TextRuns(marks) != []
  {
    if marks == [] {
      assert marks + [mark] == [mark] && [mark][1..] == [];
    } else {
      var tail := marks[1..];
      assert (marks + [mark])[1..] == tail + [mark];
      TextRunsOfAppend(tail, mark);
      if marks[0].Piece? && tail != [] {
        var same := mark.Piece? && EndsInPiece(marks, mark.thinking);
        if TextRuns(tail) == [] {
          AllBreaks(tail);
        } else {
          JoinedCommutesWithGrown(
            marks[0], TextRuns(tail), StartsWithPiece(tail, marks[0].thinking), mark, same);
        }
      }
    }
  }

  lemma {:induction false} AllBreaks(marks: seq<Mark>)
    requires TextRuns(marks) == []
    ensures forall i | 0 <= i < |marks| :: marks[i].Break?
  {
    if marks != [] {
      AllBreaks(marks[1..]);
    }
  }

  /** The block is open exactly while the last mark is a piece, and then the last entry has its kind. */
  predicate BlockMatches(t: TranscriptState, marks: seq<Mark>) {
    var n, m := |t.entries|, |marks|;
    && (t.blockOpen <==> m > 0 && marks[m - 1].Piece?)
    && (t.blockOpen ==> n > 0 && IsText(t.entries[n - 1]) && t.entries[n - 1].Thinking? == marks[m - 1].thinking)
  }

  lemma DeltaExtendsRuns(t: TranscriptState, marks: seq<Mark>, text: string, thinking: bool, now: int)
    requires BlockMatches(t, marks) && TextEntries(t.entries) == TextRuns(marks) && text != []
    ensures var t' := AppendText(t, text, thinking, now);
            var marks' := marks + [Piece(thinking, text)];
            BlockMatches(t', marks') && TextEntries(t'.entries) == TextRuns(marks')
  {
    TextRunsOfAppend(marks, Piece(thinking, text));
    var t' := AppendText(t, text, thinking, now);
    var n := |t.entries|;
    if t.blockOpen && t.entries[n - 1].Thinking? == thinking {
      assert t'.entries[..n - 1] == t.entries[..n - 1];
    } else {
      TextEntriesAppend(t.entries, t'.entries[n]);
      assert [t'.entries[n]][..0] == [];
    }
  }

  predicate RunsMatch(t: TranscriptState, marks: seq<Mark>) {
    BlockMatches(t, marks) && TextEntries(t.entries) == TextRuns(marks)
  }

  lemma BreakKeepsRuns(t: TranscriptState, marks: seq<Mark>, entry: Entry)
    requires RunsMatch(t, marks) && !IsText(entry)
    ensures RunsMatch(Push(t, entry), marks + [Break])
    ensures RunsMatch(CloseBlock(t), marks + [Break])
  {
    TextRunsOfAppend(marks, Break);
    TextEntriesAppend(t.entries, entry);
    assert [entry][..0] == [];
    assert TextEntries([entry]) == [];
  }

  lemma CallKeepsRuns(t: TranscriptState, marks: seq<Mark>, id: string, call: ToolCall)
    requires RunsMatch(t, marks)
    ensures RunsMatch(StartTool(t, id, call), marks + [Break])
  {
    match LastTool(t.entries, id) {
      case Some(i) =>
        TextRunsOfAppend(marks, Break);
        TextEntriesIgnoreTools(t.entries, i, StartTool(t, id, call).entries[i]);
      case None =>
        BreakKeepsRuns(t, marks, Tool(ToolEntry(id, call, Running, None, DiffForCall(call))));
    }
  }

  lemma FinishKeepsRuns(
    t: TranscriptState, marks: seq<Mark>, id: string, isError: bool, output: Option<string>, diff: Option<ToolDiff>)
    requires RunsMatch(t, marks)
    ensures RunsMatch(FinishTool(t, id, isError, output, diff), marks)
  {
    if LastTool(t.entries, id).Some? {
      var i := LastTool(t.entries, id).value;
      TextEntriesIgnoreTools(t.entries, i, Tool(Finished(t.entries[i].tool, isError, output, diff)));
    }
  }

  lemma OpKeepsRuns(t: TranscriptState, marks: seq<Mark>, op: Op)
    requires op.Valid() && RunsMatch(t, marks)
    ensures RunsMatch(Apply(t, op), marks + MarksOf(op))
  {
    hide AppendText, StartTool, FinishTool, TextRuns, TextEntries, BlockMatches;
    assert marks + [] == marks;
    match op
    case Delta(text, thinking, now) =>
      if text != [] {
        DeltaExtendsRuns(t, marks, text, thinking, now);
      } else {
        NothingIsAppended(t, thinking, now);
      }
    case Block(entry) => BreakKeepsRuns(t, marks, entry);
    case BlockClosed => BreakKeepsRuns(t, marks, Image(""));
    case ToolCalled(id, call) => CallKeepsRuns(t, marks, id, call);
    case ToolFinished(id, isError, output, diff) => FinishKeepsRuns(t, marks, id, isError, output, diff);
    case RunningCanceled => CancelKeepsRuns(t, marks);
  }

  lemma NothingIsAppended(t: TranscriptState, thinking: bool, now: int)
    ensures AppendText(t, [], thinking, now) == t
  {
  }

  lemma CancelKeepsRuns(t: TranscriptState, marks: seq<Mark>)
    requires RunsMatch(t, marks)
    ensures RunsMatch(CancelRunning(t), marks)
  {
    TextEntriesIgnoreCancel(t.entries);
  }

  /** The text entries are the maximal runs of same-kind, non-empty deltas between the operations that end a block. */
  lemma {:induction false} TextEntriesAreMaximalRuns(ops: seq<Op>)
    requires AllValid(ops)
    ensures RunsMatch(Fold(EMPTY, ops), Marks(ops))
  {
    if ops != [] {
      var n := |ops| - 1;
      TextEntriesAreMaximalRuns(ops[..n]);
      OpKeepsRuns(Fold(EMPTY, ops[..n]), Marks(ops[..n]), ops[n]);
    }
  }

  function DeltaText(ops: seq<Op>): string {
    if ops == [] then []
    else DeltaText(ops[..|ops| - 1]) + (if ops[|ops| - 1].Delta? then ops[|ops| - 1].text else [])
  }

  function RunText(runs: seq<TextRun>): string {
    if runs == [] then [] else RunText(runs[..|runs| - 1]) + runs[|runs| - 1].text
  }

  lemma RunTextOfGrown(runs: seq<TextRun>, mark: Mark, same: bool)
    ensures RunText(Grown(runs, mark, same)) == RunText(runs) + (if mark.Piece? then mark.text else [])
  {
    var all := Grown(runs, mark, same);
    if mark.Piece? {
      if |all| == |runs| {
        assert all[..|all| - 1] == runs[..|runs| - 1];
      } else {
        assert all[..|all| - 1] == runs;
      }
    }
  }

  lemma {:induction false} RunTextIsDeltaText(ops: seq<Op>)
    ensures RunText(TextRuns(Marks(ops))) == DeltaText(ops)
  {
    if ops != [] {
      var n := |ops| - 1;
      RunTextIsDeltaText(ops[..n]);
      var before := Marks(ops[..n]);
      if MarksOf(ops[n]) == [] {
        assert Marks(ops) == before;
      } else {
        var mark := MarksOf(ops[n])[0];
        assert MarksOf(ops[n]) == [mark];
        TextRunsOfAppend(before, mark);
        RunTextOfGrown(TextRuns(before), mark, mark.Piece? && EndsInPiece(before, mark.thinking));
      }
    }
  }

  /** No character of streamed text is lost, repeated or moved. */
  lemma StreamedTextIsKept(ops: seq<Op>)
    requires AllValid(ops)
    ensures RunText(TextEntries(Fold(EMPTY, ops).entries)) == DeltaText(ops)
  {
    TextEntriesAreMaximalRuns(ops);
    RunTextIsDeltaText(ops);
  }

  lemma JoinedInFront(piece: Mark, runs: seq<TextRun>, more: seq<TextRun>, joins: bool)
    requires piece.Piece? && (joins ==> runs != [])
    ensures Joined(piece, runs + more, joins) == Joined(piece, runs, joins) + more
  {
    if joins {
      assert (runs + more)[1..] == runs[1..] + more;
    }
  }

  /** A break separates: what stands before it and what stands after it form their runs on their own. */
  lemma {:induction false} BreakSeparates(a: seq<Mark>, b: seq<Mark>)
    ensures TextRuns(a + [Break] + b) == TextRuns(a) + TextRuns(b)
  {
    var all := a + [Break] + b;
    if a == [] {
      assert all[1..] == b;
    } else {
      RunsUnfold(all);
      RunsUnfold(a);
      hide TextRuns;
      assert all[1..] == a[1..] + [Break] + b;
      BreakSeparates(a[1..], b);
      if a[0].Piece? && StartsWithPiece(a[1..], a[0].thinking) {
        HeadRunHasKindOfHead(a[1..]);
        JoinedInFront(a[0], TextRuns(a[1..]), TextRuns(b), true);
      } else if a[0].Piece? {
        assert !StartsWithPiece(all[1..], a[0].thinking);
        JoinedInFront(a[0], TextRuns(a[1..]), TextRuns(b), false);
      }
    }
  }

  /** The break behind a run whose neighbour is of the same kind. */
  lemma {:induction false} BreakBehindRun(marks: seq<Mark>, i: nat) returns (k: nat)
    requires i + 1 < |TextRuns(marks)|
    requires TextRuns(marks)[i].thinking == TextRuns(marks)[i + 1].thinking
    ensures k < |marks| && marks[k].Break?
    ensures |TextRuns(marks[..k])| == i + 1
  {
    var tail := marks[1..];
    RunsByHead(marks);
    hide TextRuns;
    assert i > 0 ==> TextRuns(marks)[i] == TextRuns(marks)[1..][i - 1];
    assert TextRuns(marks)[i + 1] == TextRuns(marks)[1..][i];
    if marks[0].Break? {
      k := BreakBehindRun(tail, i);
      RunsOfLongerPrefix(marks, k);
      k := k + 1;
    } else {
      var joins := StartsWithPiece(tail, marks[0].thinking);
      if joins || i > 0 {
        k := BreakBehindRun(tail, if joins then i else i - 1);
        RunsOfLongerPrefix(marks, k);
        k := k + 1;
      } else {
        if tail[0].Piece? {
          HeadRunHasKindOfHead(tail);
        }
        k := 1;
        RunOfOnePiece(marks);
      }
    }
  }

  /** Two neighbouring runs are of one kind only if a break stands right between them. */
  lemma RunsAreMaximal(marks: seq<Mark>, i: nat) returns (k: nat)
    requires i + 1 < |TextRuns(marks)|
    requires TextRuns(marks)[i].thinking == TextRuns(marks)[i + 1].thinking
    ensures k < |marks| && marks[k].Break?
    ensures |TextRuns(marks[..k])| == i + 1
    ensures TextRuns(marks) == TextRuns(marks[..k]) + TextRuns(marks[k + 1..])
  {
    hide TextRuns;
    k := BreakBehindRun(marks, i);
    assert marks == marks[..k] + [Break] + marks[k + 1..];
    BreakSeparates(marks[..k], marks[k + 1..]);
  }

  /** The runs, told by the first mark. */
  lemma RunsByHead(marks: seq<Mark>)
    requires TextRuns(marks) != []
    ensures marks != []
    ensures var runs := TextRuns(marks[1..]);
            if marks[0].Break? then TextRuns(marks) == runs
            else if StartsWithPiece(marks[1..], marks[0].thinking) && runs != [] then
              |TextRuns(marks)| == |runs|
              && TextRuns(marks)[0].thinking == marks[0].thinking == runs[0].thinking
              && TextRuns(marks)[1..] == runs[1..]
            else
              !StartsWithPiece(marks[1..], marks[0].thinking)
              && TextRuns(marks) == [TextRun(marks[0].thinking, marks[0].text)] + runs
  {
    assert marks != [];
    var tail := marks[1..];
    RunsUnfold(marks);
    hide TextRuns;
    if tail != [] && tail[0].Piece? {
      HeadRunHasKindOfHead(tail);
    }
  }

  lemma RunsUnfold(marks: seq<Mark>)
    requires marks != []
    ensures TextRuns(marks) ==
              if marks[0].Break? then TextRuns(marks[1..])
              else Joined(marks[0], TextRuns(marks[1..]), StartsWithPiece(marks[1..], marks[0].thinking))
  {
  }

  lemma RunOfOnePiece(marks: seq<Mark>)
    requires marks != [] && marks[0].Piece?
    ensures |TextRuns(marks[..1])| == 1
  {
    assert marks[..1][1..] == [];
  }

  lemma RunsOfLongerPrefix(marks: seq<Mark>, k: nat)
    requires marks != [] && k + 1 < |marks| && marks[k + 1].Break?
    requires |TextRuns(marks[1..][..k])| > 0
    ensures |TextRuns(marks[..k + 1])| == |TextRuns(marks[1..][..k])| +
              if marks[0].Break? || StartsWithPiece(marks[1..], marks[0].thinking) then 0 else 1
  {
    var tail := marks[1..];
    assert marks[..k + 1][1..] == tail[..k];
    if k > 0 {
      assert tail[..k][0] == tail[0];
    }
  }

  lemma {:induction false} HeadRunHasKindOfHead(marks: seq<Mark>)
    requires marks != [] && marks[0].Piece?
    ensures TextRuns(marks) != [] && TextRuns(marks)[0].thinking == marks[0].thinking
  {
  }

  // ---------------------------------------------------------------- tools

  function ToolIds(entries: seq<Entry>): seq<string> {
    if entries == [] then []
    else
      var last := entries[|entries| - 1];
      ToolIds(entries[..|entries| - 1]) + if last.Tool? then [last.tool.id] else []
  }

  function CalledIds(ops: seq<Op>): seq<string> {
    if ops == [] then []
    else CalledIds(ops[..|ops| - 1]) + if ops[|ops| - 1].ToolCalled? then [ops[|ops| - 1].id] else []
  }

  function Without(ids: seq<string>, id: string): (r: seq<string>)
    ensures |r| <= |ids|
  {
    if ids == [] then []
    else (if ids[0] == id then [] else [ids[0]]) + Without(ids[1..], id)
  }

  /** The ids without repetition, each where it first stands. */
  function FirstOccurrences(ids: seq<string>): seq<string>
    decreases |ids|
  {
    if ids == [] then [] else [ids[0]] + FirstOccurrences(Without(ids[1..], ids[0]))
  }

  lemma {:induction false} WithoutOfAppend(ids: seq<string>, x: string, id: string)
    ensures Without(ids + [x], id) == Without(ids, id) + (if x == id then [] else [x])
    ensures x in Without(ids, id) <==> x in ids && x != id
  {
    if ids == [] {
      assert ids + [x] == [x] && [x][1..] == [];
    } else {
      var head := if ids[0] == id then [] else [ids[0]];
      assert (ids + [x])[1..] == ids[1..] + [x] && (ids + [x])[0] == ids[0];
      WithoutOfAppend(ids[1..], x, id);
      assert Without(ids, id) == head + Without(ids[1..], id);
      assert Without(ids + [x], id) == head + Without(ids[1..] + [x], id);
      assert x in ids <==> x == ids[0] || x in ids[1..];
    }
  }

  lemma {:induction false} FirstOccurrencesOfAppend(ids: seq<string>, x: string)
    ensures FirstOccurrences(ids + [x]) == FirstOccurrences(ids) + (if x in ids then [] else [x])
    ensures x in FirstOccurrences(ids) <==> x in ids
    decreases |ids|
  {
    if ids == [] {
      assert ids + [x] == [x] && [x][1..] == [];
      assert FirstOccurrences([x]) == [x] + FirstOccurrences(Without([], x));
    } else {
      assert (ids + [x])[1..] == ids[1..] + [x];
      WithoutOfAppend(ids[1..], x, ids[0]);
      FirstOccurrencesOfAppend(Without(ids[1..], ids[0]), x);
      assert Without(ids[1..], ids[0]) + [] == Without(ids[1..], ids[0]);
    }
  }

  predicate Distinct(ids: seq<string>) {
    forall i, j | 0 <= i < j < |ids| :: ids[i] != ids[j]
  }

  lemma {:induction false} ToolIdsFacts(entries: seq<Entry>, id: string)
    ensures id in ToolIds(entries) <==> LastTool(entries, id).Some?
  {
    if entries != [] {
      ToolIdsFacts(entries[..|entries| - 1], id);
    }
  }

  lemma {:induction false} ToolIdsOfUpdate(entries: seq<Entry>, i: nat, entry: Entry)
    requires i < |entries| && entries[i].Tool? && entry.Tool? && entry.tool.id == entries[i].tool.id
    ensures ToolIds(entries[i := entry]) == ToolIds(entries)
  {
    var n := |entries| - 1;
    if i == n {
      assert entries[i := entry][..n] == entries[..n];
    } else {
      assert entries[i := entry][..n] == entries[..n][i := entry];
      ToolIdsOfUpdate(entries[..n], i, entry);
    }
  }

  lemma {:induction false} ToolIdsOfCancel(entries: seq<Entry>)
    ensures ToolIds(CancelEntries(entries)) == ToolIds(entries)
  {
    if entries != [] {
      var n := |entries| - 1;
      assert CancelEntries(entries)[..n] == CancelEntries(entries[..n]);
      ToolIdsOfCancel(entries[..n]);
    }
  }

  lemma ToolIdsOfStep(t: TranscriptState, op: Op)
    requires op.Valid()
    ensures ToolIds(Apply(t, op).entries) ==
            ToolIds(t.entries) +
            if op.ToolCalled? && op.id !in ToolIds(t.entries) then [op.id] else []
  {
    var t' := Apply(t, op);
    var n := |t.entries|;
    if |t'.entries| == n + 1 {
      assert t'.entries[..n] == t.entries;
    }
    match op
    case Delta(text, thinking, now) =>
      if |t'.entries| == n && n > 0 {
        assert t'.entries[..n - 1] == t.entries[..n - 1];
      }
    case ToolCalled(id, call) =>
      ToolIdsFacts(t.entries, id);
      if LastTool(t.entries, id).Some? {
        var i := LastTool(t.entries, id).value;
        ToolIdsOfUpdate(t.entries, i, t'.entries[i]);
      }
    case ToolFinished(id, _, _, _) =>
      if LastTool(t.entries, id).Some? {
        var i := LastTool(t.entries, id).value;
        ToolIdsOfUpdate(t.entries, i, t'.entries[i]);
      }
    case RunningCanceled => ToolIdsOfCancel(t.entries);
    case _ =>
  }

  /** There is one entry per tool id, placed where the id was first called. */
  lemma {:induction false} ToolsStandInFirstCallOrder(ops: seq<Op>)
    requires AllValid(ops)
    ensures ToolIds(Fold(EMPTY, ops).entries) == FirstOccurrences(CalledIds(ops))
    ensures Distinct(ToolIds(Fold(EMPTY, ops).entries))
  {
    if ops != [] {
      var n := |ops| - 1;
      ToolsStandInFirstCallOrder(ops[..n]);
      ToolIdsOfStep(Fold(EMPTY, ops[..n]), ops[n]);
      if ops[n].ToolCalled? {
        FirstOccurrencesOfAppend(CalledIds(ops[..n]), ops[n].id);
      } else {
        assert CalledIds(ops[..n]) + [] == CalledIds(ops[..n]);
      }
    }
  }

  // ---------------------------------------------------------------- invariants

  predicate DiffFilled(entry: Entry) {
    entry.Tool? && DiffForCall(entry.tool.call).Some? ==> entry.tool.diff.Some?
  }

  predicate DiffsFilled(t: TranscriptState) {
    forall i | 0 <= i < |t.entries| :: DiffFilled(t.entries[i])
  }

  predicate OneEntryPerTool(t: TranscriptState) {
    forall i, j | 0 <= i < j < |t.entries| ::
      t.entries[i].Tool? && t.entries[j].Tool? ==> t.entries[i].tool.id != t.entries[j].tool.id
  }

  predicate OpenBlockIsText(t: TranscriptState) {
    t.blockOpen ==> |t.entries| > 0 && IsText(t.entries[|t.entries| - 1])
  }

  /** What every transcript built by live events satisfies. */
  predicate Consistent(t: TranscriptState) {
    OpenBlockIsText(t) && OneEntryPerTool(t) && DiffsFilled(t)
  }

  lemma OpKeepsConsistent(t: TranscriptState, op: Op)
    requires Consistent(t) && op.Valid()
    ensures Consistent(Apply(t, op))
  {
    match op
    case ToolCalled(id, call) => CallKeepsConsistent(t, id, call);
    case ToolFinished(id, _, _, _) =>
    case _ =>
  }

  lemma CallKeepsConsistent(t: TranscriptState, id: string, call: ToolCall)
    requires Consistent(t)
    ensures Consistent(StartTool(t, id, call))
  {
    if LastTool(t.entries, id).None? {
      assert forall i | 0 <= i < |t.entries| :: t.entries[i].Tool? ==> !IsTool(t.entries[i], id);
    }
  }

  lemma {:induction false} FoldKeepsConsistent(t: TranscriptState, ops: seq<Op>)
    requires Consistent(t) && AllValid(ops)
    ensures Consistent(Fold(t, ops))
  {
    if ops != [] {
      FoldKeepsConsistent(t, ops[..|ops| - 1]);
      OpKeepsConsistent(Fold(t, ops[..|ops| - 1]), ops[|ops| - 1]);
    }
  }

  /** The tool is there and no longer running. */
  predicate Settled(t: TranscriptState, id: string) {
    exists i | 0 <= i < |t.entries| :: IsTool(t.entries[i], id) && t.entries[i].tool.status != Running
  }

  lemma OpKeepsSettled(t: TranscriptState, op: Op, id: string)
    requires Consistent(t) && op.Valid() && Settled(t, id)
    ensures Settled(Apply(t, op), id)
  {
    var i :| 0 <= i < |t.entries| && IsTool(t.entries[i], id) && t.entries[i].tool.status != Running;
    var t' := Apply(t, op);
    assert IsTool(t'.entries[i], id);
    assert t'.entries[i].tool.status != Running;
  }

  /** A tool that has finished or was canceled never runs again, whatever is called or finished later. */
  lemma {:induction false} SettledToolsStaySettled(t: TranscriptState, ops: seq<Op>, id: string)
    requires Consistent(t) && AllValid(ops) && Settled(t, id)
    ensures Settled(Fold(t, ops), id)
  {
    if ops != [] {
      var init := ops[..|ops| - 1];
      SettledToolsStaySettled(t, init, id);
      FoldKeepsConsistent(t, init);
      OpKeepsSettled(Fold(t, init), ops[|ops| - 1], id);
    }
  }
}
