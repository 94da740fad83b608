/** What can be read in a transcript besides the user's messages: texts, tools, images and notices. */
module TranscriptReadings {
  import opened Wrappers
  import opened Transcripts
  import opened TranscriptFold

  // ---------------------------------------------------------------- all but messages and errors

  predicate IsKept(entry: Entry) {
    !entry.User? && !IsErrorNotice(entry)
  }

  /** The entries that no retry and no failure touches. */
  function Kept(entries: seq<Entry>): seq<Entry> {
    if entries == [] then []
    else
      var last := entries[|entries| - 1];
      Kept(entries[..|entries| - 1]) + if IsKept(last) then [last] else []
  }

  function ToolOf(entries: seq<Entry>, id: string): Option<ToolEntry> {
    if LastTool(entries, id).Some? then Some(entries[LastTool(entries, id).value].tool) else None
  }

  /** Which of the entries that come in one piece: images and notices that report no error, or messages and errors too. */
  datatype Pick = SignsOnly | EveryBlock {
    predicate Takes(entry: Entry) {
      if entry.Notice? then this == EveryBlock || !entry.isError
      else entry.Image? || (entry.User? && this == EveryBlock)
    }
  }

  function Picked(entries: seq<Entry>, pick: Pick): seq<Entry> {
    if entries == [] then []
    else
      var last := entries[|entries| - 1];
      Picked(entries[..|entries| - 1], pick) + if pick.Takes(last) then [last] else []
  }

  /** The images and the notices that report no error. */
  function Signs(entries: seq<Entry>): seq<Entry> {
    Picked(entries, SignsOnly)
  }

  /** Messages, notices and images. */
  function Blocks(entries: seq<Entry>): seq<Entry> {
    Picked(entries, EveryBlock)
  }

  lemma KeptAppends(entries: seq<Entry>, entry: Entry)
    ensures Kept(entries + [entry]) == Kept(entries) + (if IsKept(entry) then [entry] else [])
  {
    assert (entries + [entry])[..|entries|] == entries;
  }

  lemma {:induction false} KeptJoins(a: seq<Entry>, b: seq<Entry>)
    ensures Kept(a + b) == Kept(a) + Kept(b)
  {
    if b == [] {
      assert a + b == a;
    } else {
      var init, last := b[..|b| - 1], b[|b| - 1];
      assert (a + b)[..|a + b| - 1] == a + init;
      KeptJoins(a, init);
    }
  }

  lemma {:induction false} KeptOfErrors(entries: seq<Entry>)
    requires forall i | 0 <= i < |entries| :: IsErrorNotice(entries[i])
    ensures Kept(entries) == []
  {
    if entries != [] {
      KeptOfErrors(entries[..|entries| - 1]);
    }
  }

  lemma KeptOfDrain(t: TranscriptState, index: nat)
    requires index < |t.entries| && t.entries[index].User?
    ensures Kept(DrainFailed(t, index).entries) == Kept(t.entries)
  {
    var n := ErrorNotices(t.entries[index + 1..]);
    var front, gone, rest := t.entries[..index], t.entries[index + 1..][..n], t.entries[index + 1 + n..];
    assert t.entries == front + [t.entries[index]] + gone + rest;
    assert DrainFailed(t, index).entries == front + rest;
    KeptOfGone(front, t.entries[index], gone, rest);
    hide Kept;
  }

  lemma KeptOfGone(front: seq<Entry>, message: Entry, gone: seq<Entry>, rest: seq<Entry>)
    requires message.User? && forall i | 0 <= i < |gone| :: IsErrorNotice(gone[i])
    ensures Kept(front + [message] + gone + rest) == Kept(front + rest)
  {
    KeptAppends(front, message);
    hide Kept;
    KeptJoins(front + [message] + gone, rest);
    KeptJoins(front + [message], gone);
    KeptOfErrors(gone);
    KeptJoins(front, rest);
  }

  lemma KeptOfUndelivered(t: TranscriptState)
    ensures Kept(UndeliverLast(t).entries) == Kept(t.entries)
  {
    var n := |t.entries|;
    if n > 0 && t.entries[n - 1].User? {
      assert UndeliverLast(t).entries[..n - 1] == t.entries[..n - 1];
    }
  }

  lemma {:induction false} KeptOfCancel(entries: seq<Entry>)
    ensures Kept(CancelEntries(entries)) == CancelEntries(Kept(entries))
  {
    if entries != [] {
      var n := |entries| - 1;
      KeptOfCancel(entries[..n]);
      assert CancelEntries(entries)[..n] == CancelEntries(entries[..n]);
    }
  }

  // ---------------------------------------------------------------- readings depend on them

  lemma {:induction false} TextsOfKept(entries: seq<Entry>)
    ensures TextEntries(Kept(entries)) == TextEntries(entries)
  {
    if entries != [] {
      var init, last := entries[..|entries| - 1], entries[|entries| - 1];
      TextsOfKept(init);
      if IsKept(last) {
        assert (Kept(init) + [last])[..|Kept(init)|] == Kept(init);
      } else {
        assert TextEntries(init) + [] == TextEntries(init) && Kept(init) + [] == Kept(init);
      }
    }
  }

  lemma {:induction false} SignsOfKept(entries: seq<Entry>)
    ensures Signs(Kept(entries)) == Signs(entries)
  {
    if entries != [] {
      var init, last := entries[..|entries| - 1], entries[|entries| - 1];
      SignsOfKept(init);
      if IsKept(last) {
        assert (Kept(init) + [last])[..|Kept(init)|] == Kept(init);
      } else {
        assert Signs(init) + [] == Signs(init) && Kept(init) + [] == Kept(init);
      }
    }
  }

  /** The last tool with an id, found from the end. */
  lemma ToolOfLast(entries: seq<Entry>, id: string)
    requires entries != []
    ensures var init, last := entries[..|entries| - 1], entries[|entries| - 1];
            ToolOf(entries, id) == if IsTool(last, id) then Some(last.tool) else ToolOf(init, id)
  {
  }

  lemma ToolOfAppend(entries: seq<Entry>, entry: Entry, id: string)
    ensures ToolOf(entries + [entry], id) == if IsTool(entry, id) then Some(entry.tool) else ToolOf(entries, id)
  {
    ToolOfLast(entries + [entry], id);
    assert (entries + [entry])[..|entries|] == entries;
  }

  lemma {:induction false} ToolOfKept(entries: seq<Entry>, id: string)
    ensures ToolOf(Kept(entries), id) == ToolOf(entries, id)
  {
    if entries != [] {
      var init, last := entries[..|entries| - 1], entries[|entries| - 1];
      ToolOfKept(init, id);
      ToolOfLast(entries, id);
      ToolOfAppend(Kept(init), last, id);
      assert Kept(init) + [] == Kept(init);
    }
  }

  // ---------------------------------------------------------------- what becomes of a tool

  /** What a transcript is told of one tool. */
  datatype News = Called(call: ToolCall) | Resulted(isError: bool, output: Option<string>, diff: Option<ToolDiff>) | Stopped

  /** The call announced last. */
  function LatestCall(call: ToolCall, news: seq<News>): ToolCall {
    if news == [] then call
    else if news[|news| - 1].Called? then news[|news| - 1].call
    else LatestCall(call, news[..|news| - 1])
  }

  /** The result reported last; one that was running and has none was canceled by a stop. */
  function LatestStatus(status: ToolStatus, news: seq<News>): ToolStatus {
    if news == [] then status
    else
      var last := news[|news| - 1];
      if last.Resulted? then (if last.isError then Failed else Completed)
      else
        var before := LatestStatus(status, news[..|news| - 1]);
        if last.Stopped? && before == Running then Canceled else before
  }

  function LatestOutput(output: Option<string>, news: seq<News>): Option<string> {
    if news == [] then output
    else
      var last := news[|news| - 1];
      if last.Resulted? then
        if last.output.Some? then Some(TruncateOutput(last.output.value)) else None
      else LatestOutput(output, news[..|news| - 1])
  }

  /** The last diff that came with a result, or that a call shows itself. */
  function LatestDiff(diff: Option<ToolDiff>, news: seq<News>): Option<ToolDiff> {
    if news == [] then diff
    else
      var last := news[|news| - 1];
      if last.Resulted? && last.diff.Some? then last.diff
      else if last.Called? && DiffForCall(last.call).Some? then DiffForCall(last.call)
      else LatestDiff(diff, news[..|news| - 1])
  }

  /** A tool is there from its first call on; before that nothing is known of it. */
  function Told(tool: Option<ToolEntry>, id: string, news: seq<News>): Option<ToolEntry>
    decreases |news|
  {
    if tool.Some? then
      Some(ToolEntry(
        tool.value.id, LatestCall(tool.value.call, news), LatestStatus(tool.value.status, news),
        LatestOutput(tool.value.output, news), LatestDiff(tool.value.diff, news)))
    else if news == [] then None
    else if news[0].Called? then
      Told(Some(ToolEntry(id, news[0].call, Running, None, DiffForCall(news[0].call))), id, news[1..])
    else Told(None, id, news[1..])
  }

  lemma LatestAppend(tool: ToolEntry, news: seq<News>, last: News)
    ensures LatestCall(tool.call, news + [last]) == LatestCall(LatestCall(tool.call, news), [last])
    ensures LatestStatus(tool.status, news + [last]) == LatestStatus(LatestStatus(tool.status, news), [last])
    ensures LatestOutput(tool.output, news + [last]) == LatestOutput(LatestOutput(tool.output, news), [last])
    ensures LatestDiff(tool.diff, news + [last]) == LatestDiff(LatestDiff(tool.diff, news), [last])
  {
    assert (news + [last])[..|news|] == news;
    assert [last][..0] == [];
    LatestOfNone(tool.(call := LatestCall(tool.call, news), status := LatestStatus(tool.status, news),
                       output := LatestOutput(tool.output, news), diff := LatestDiff(tool.diff, news)));
  }

  lemma LatestOfNone(tool: ToolEntry)
    ensures LatestCall(tool.call, []) == tool.call && LatestStatus(tool.status, []) == tool.status
    ensures LatestOutput(tool.output, []) == tool.output && LatestDiff(tool.diff, []) == tool.diff
  {
  }

  lemma NewsAppend(tool: ToolEntry, id: string, news: seq<News>, last: News)
    ensures Told(Some(tool), id, news + [last]) == Told(Told(Some(tool), id, news), id, [last])
  {
    LatestAppend(tool, news, last);
    hide LatestCall, LatestStatus, LatestOutput, LatestDiff;
  }

  lemma {:induction false} ToldAppends(tool: Option<ToolEntry>, id: string, news: seq<News>, last: News)
    ensures Told(tool, id, news + [last]) == Told(Told(tool, id, news), id, [last])
    decreases |news|
  {
    if tool.Some? {
      NewsAppend(tool.value, id, news, last);
    } else if news == [] {
      assert [] + [last] == [last];
    } else {
      hide LatestCall, LatestStatus, LatestOutput, LatestDiff;
      assert (news + [last])[1..] == news[1..] + [last];
      if news[0].Called? {
        var first := ToolEntry(id, news[0].call, Running, None, DiffForCall(news[0].call));
        NewsAppend(first, id, news[1..], last);
      } else {
        ToldAppends(None, id, news[1..], last);
      }
    }
  }

  lemma {:induction false} ToldJoins(tool: Option<ToolEntry>, id: string, news: seq<News>, more: seq<News>)
    ensures Told(tool, id, news + more) == Told(Told(tool, id, news), id, more)
    decreases |more|
  {
    hide Told;
    if more == [] {
      assert news + more == news;
      NothingTold(Told(tool, id, news), id);
    } else {
      var init, last := more[..|more| - 1], more[|more| - 1];
      assert news + more == (news + init) + [last] && more == init + [last];
      ToldJoins(tool, id, news, init);
      ToldAppends(tool, id, news + init, last);
      ToldAppends(Told(tool, id, news), id, init, last);
    }
  }

  lemma NothingTold(tool: Option<ToolEntry>, id: string)
    ensures Told(tool, id, []) == tool
  {
  }

  // ---------------------------------------------------------------- one operation

  function NewsOfOp(op: Op, id: string): seq<News> {
    match op
    case ToolCalled(called, call) => if called == id then [Called(call)] else []
    case ToolFinished(called, isError, output, diff) => if called == id then [Resulted(isError, output, diff)] else []
    case RunningCanceled => [Stopped]
    case _ => []
  }

  function PickedOfOp(op: Op, pick: Pick): seq<Entry> {
    if op.Block? && pick.Takes(op.entry) then [op.entry] else []
  }

  lemma {:induction false} ToolOfUpdate(entries: seq<Entry>, i: nat, entry: Entry, id: string)
    requires i < |entries| && entries[i].Tool? && LastTool(entries, entries[i].tool.id) == Some(i)
    requires entry.Tool? && entry.tool.id == entries[i].tool.id
    ensures ToolOf(entries[i := entry], id) == if entry.tool.id == id then Some(entry.tool) else ToolOf(entries, id)
  {
    var n := |entries| - 1;
    ToolOfLast(entries, id);
    ToolOfLast(entries[i := entry], id);
    if i == n {
      assert entries[i := entry][..n] == entries[..n];
    } else {
      assert entries[i := entry][..n] == entries[..n][i := entry];
      assert LastTool(entries, entries[i].tool.id) == LastTool(entries[..n], entries[i].tool.id);
      ToolOfUpdate(entries[..n], i, entry, id);
    }
  }

  lemma {:induction false} PickedOfUpdate(entries: seq<Entry>, i: nat, entry: Entry, pick: Pick)
    requires i < |entries| && !pick.Takes(entries[i]) && !pick.Takes(entry)
    ensures Picked(entries[i := entry], pick) == Picked(entries, pick)
  {
    var n := |entries| - 1;
    if i == n {
      assert entries[i := entry][..n] == entries[..n];
    } else {
      assert entries[i := entry][..n] == entries[..n][i := entry];
      PickedOfUpdate(entries[..n], i, entry, pick);
    }
  }

  lemma StoppedTool(tool: ToolEntry, id: string)
    ensures Told(Some(tool), id, [Stopped]) == Some(CancelEntry(Tool(tool)).tool)
    ensures Told(None, id, [Stopped]) == None
  {
    assert [Stopped][..0] == [] && [Stopped][1..] == [];
    LatestOfNone(tool);
  }

  lemma {:induction false} ToolOfCancel(entries: seq<Entry>, id: string)
    ensures ToolOf(CancelEntries(entries), id) == Told(ToolOf(entries, id), id, [Stopped])
  {
    if entries == [] {
      StoppedTool(ToolEntry([], Unknown([]), Running, None, None), id);
    } else {
      var n := |entries| - 1;
      ToolOfLast(entries, id);
      ToolOfLast(CancelEntries(entries), id);
      assert CancelEntries(entries)[..n] == CancelEntries(entries[..n]);
      ToolOfCancel(entries[..n], id);
      if entries[n].Tool? {
        StoppedTool(entries[n].tool, id);
      }
      hide Told, ToolOf;
    }
  }

  lemma {:induction false} PickedOfCancel(entries: seq<Entry>, pick: Pick)
    ensures Picked(CancelEntries(entries), pick) == Picked(entries, pick)
  {
    if entries != [] {
      var n := |entries| - 1;
      assert CancelEntries(entries)[..n] == CancelEntries(entries[..n]);
      PickedOfCancel(entries[..n], pick);
    }
  }

  lemma {:induction false} ToolOfUntouched(a: seq<Entry>, b: seq<Entry>, id: string)
    requires |a| == |b| && forall i | 0 <= i < |a| :: a[i] == b[i] || (!a[i].Tool? && !b[i].Tool?)
    ensures ToolOf(a, id) == ToolOf(b, id)
  {
    if a != [] {
      ToolOfLast(a, id);
      ToolOfLast(b, id);
      ToolOfUntouched(a[..|a| - 1], b[..|b| - 1], id);
    }
  }

  lemma CallTellsTool(t: TranscriptState, called: string, call: ToolCall, id: string)
    ensures ToolOf(StartTool(t, called, call).entries, id) ==
            Told(ToolOf(t.entries, id), id, NewsOfOp(ToolCalled(called, call), id))
  {
    NothingTold(ToolOf(t.entries, id), id);
    var news := [Called(call)];
    assert news[..0] == [] && news[1..] == [];
    match LastTool(t.entries, called)
    case Some(i) =>
      ToolOfUpdate(t.entries, i, StartTool(t, called, call).entries[i], id);
    case None =>
      ToolOfAppend(t.entries, Tool(ToolEntry(called, call, Running, None, DiffForCall(call))), id);
  }

  lemma ResultTellsTool(
    t: TranscriptState, called: string, isError: bool, output: Option<string>, diff: Option<ToolDiff>, id: string)
    ensures ToolOf(FinishTool(t, called, isError, output, diff).entries, id) ==
            Told(ToolOf(t.entries, id), id, NewsOfOp(ToolFinished(called, isError, output, diff), id))
  {
    NothingTold(ToolOf(t.entries, id), id);
    var news := [Resulted(isError, output, diff)];
    assert news[..0] == [] && news[1..] == [];
    if LastTool(t.entries, called).Some? {
      var i := LastTool(t.entries, called).value;
      ToolOfUpdate(t.entries, i, Tool(Finished(t.entries[i].tool, isError, output, diff)), id);
    }
  }

  lemma TextTellsNothing(t: TranscriptState, text: string, thinking: bool, now: int, id: string)
    ensures ToolOf(AppendText(t, text, thinking, now).entries, id) == ToolOf(t.entries, id)
  {
    var t' := AppendText(t, text, thinking, now);
    if |t'.entries| == |t.entries| {
      ToolOfUntouched(t.entries, t'.entries, id);
    } else {
      ToolOfAppend(t.entries, t'.entries[|t.entries|], id);
    }
  }

  lemma TextShowsNone(t: TranscriptState, text: string, thinking: bool, now: int, pick: Pick)
    ensures Picked(AppendText(t, text, thinking, now).entries, pick) == Picked(t.entries, pick)
  {
    var t' := AppendText(t, text, thinking, now);
    var n := |t.entries|;
    if |t'.entries| > n {
      PickedAppend(t.entries, t'.entries[n], pick);
    } else if t'.entries != t.entries {
      PickedOfUpdate(t.entries, n - 1, t'.entries[n - 1], pick);
    }
  }

  lemma PickedAppend(entries: seq<Entry>, entry: Entry, pick: Pick)
    ensures Picked(entries + [entry], pick) == Picked(entries, pick) + (if pick.Takes(entry) then [entry] else [])
  {
    assert (entries + [entry])[..|entries|] == entries;
  }

  lemma OpTellsTool(t: TranscriptState, op: Op, id: string)
    requires op.Valid()
    ensures ToolOf(Apply(t, op).entries, id) == Told(ToolOf(t.entries, id), id, NewsOfOp(op, id))
  {
    hide AppendText, StartTool, FinishTool, Told, ToolOf;
    NothingTold(ToolOf(t.entries, id), id);
    match op
    case Delta(text, thinking, now) => TextTellsNothing(t, text, thinking, now, id);
    case Block(entry) => ToolOfAppend(t.entries, entry, id);
    case BlockClosed =>
    case ToolCalled(called, call) => CallTellsTool(t, called, call, id);
    case ToolFinished(called, isError, output, diff) => ResultTellsTool(t, called, isError, output, diff, id);
    case RunningCanceled => ToolOfCancel(t.entries, id);
  }

  lemma OpShows(t: TranscriptState, op: Op, pick: Pick)
    requires op.Valid()
    ensures Picked(Apply(t, op).entries, pick) == Picked(t.entries, pick) + PickedOfOp(op, pick)
  {
    assert Picked(t.entries, pick) + [] == Picked(t.entries, pick);
    match op
    case Delta(text, thinking, now) =>
      hide AppendText;
      TextShowsNone(t, text, thinking, now, pick);
    case Block(entry) => PickedAppend(t.entries, entry, pick);
    case BlockClosed =>
    case ToolCalled(called, call) =>
      match LastTool(t.entries, called) {
        case Some(i) => PickedOfUpdate(t.entries, i, StartTool(t, called, call).entries[i], pick);
        case None => PickedAppend(t.entries, Tool(ToolEntry(called, call, Running, None, DiffForCall(call))), pick);
      }
    case ToolFinished(called, isError, output, diff) =>
      match LastTool(t.entries, called) {
        case Some(i) =>
          PickedOfUpdate(t.entries, i, Tool(Finished(t.entries[i].tool, isError, output, diff)), pick);
        case None =>
      }
    case RunningCanceled => PickedOfCancel(t.entries, pick);
  }

  // ---------------------------------------------------------------- a few operations

  function NewsOfOps(ops: seq<Op>, id: string): seq<News> {
    if ops == [] then [] else NewsOfOps(ops[..|ops| - 1], id) + NewsOfOp(ops[|ops| - 1], id)
  }

  function PickedOfOps(ops: seq<Op>, pick: Pick): seq<Entry> {
    if ops == [] then [] else PickedOfOps(ops[..|ops| - 1], pick) + PickedOfOp(ops[|ops| - 1], pick)
  }

  lemma {:induction false} FoldTells(t: TranscriptState, ops: seq<Op>, id: string)
    requires AllValid(ops)
    ensures ToolOf(Fold(t, ops).entries, id) == Told(ToolOf(t.entries, id), id, NewsOfOps(ops, id))
  {
    hide Told, Apply, ToolOf, NewsOfOp;
    if ops == [] {
      NothingTold(ToolOf(t.entries, id), id);
    } else {
      var init, last := ops[..|ops| - 1], ops[|ops| - 1];
      FoldTells(t, init, id);
      OpTellsTool(Fold(t, init), last, id);
      ToldJoins(ToolOf(t.entries, id), id, NewsOfOps(init, id), NewsOfOp(last, id));
    }
  }

  lemma {:induction false} FoldShows(t: TranscriptState, ops: seq<Op>, pick: Pick)
    requires AllValid(ops)
    ensures Picked(Fold(t, ops).entries, pick) == Picked(t.entries, pick) + PickedOfOps(ops, pick)
  {
    hide Picked, Apply, PickedOfOp;
    if ops != [] {
      var init, last := ops[..|ops| - 1], ops[|ops| - 1];
      FoldShows(t, init, pick);
      OpShows(Fold(t, init), last, pick);
    }
  }

  lemma {:induction false} FoldKeepsRuns(t: TranscriptState, marks: seq<Mark>, ops: seq<Op>)
    requires AllValid(ops) && RunsMatch(t, marks)
    ensures RunsMatch(Fold(t, ops), marks + Marks(ops))
  {
    hide RunsMatch, Apply, MarksOf;
    if ops == [] {
      assert marks + [] == marks;
    } else {
      var init, last := ops[..|ops| - 1], ops[|ops| - 1];
      FoldKeepsRuns(t, marks, init);
      OpKeepsRuns(Fold(t, init), marks + Marks(init), last);
      assert marks + Marks(init) + MarksOf(last) == marks + Marks(ops);
    }
  }

  // ---------------------------------------------------------------- breaks

  predicate EndsInText(t: TranscriptState) {
    t.entries != [] && IsText(t.entries[|t.entries| - 1])
  }

  /** A break more or less at the same place makes no difference. */
  lemma BreakTwice(t: TranscriptState, marks: seq<Mark>)
    ensures RunsMatch(t, marks + [Break] + [Break]) <==> RunsMatch(t, marks + [Break])
  {
    TextRunsOfAppend(marks + [Break], Break);
    hide TextRuns, TextEntries;
  }

  /** Where no text stands last, nothing goes on. */
  lemma NoTextNoRun(t: TranscriptState, marks: seq<Mark>)
    requires RunsMatch(t, marks) && !EndsInText(t)
    ensures RunsMatch(t, marks + [Break])
  {
    TextRunsOfAppend(marks, Break);
    hide TextRuns, TextEntries;
  }

  /** A transcript to which messages and errors were added, or taken back behind a finished text. */
  predicate GoesOn(t: TranscriptState, t': TranscriptState, stopped: bool) {
    && Kept(t'.entries) == (if stopped then CancelEntries(Kept(t.entries)) else Kept(t.entries))
    && (|| (!t'.blockOpen && !EndsInText(t'))
        || (t'.blockOpen == t.blockOpen && (t.blockOpen ==> EndsInText(t'))))
  }

  function BreakOf(t: TranscriptState): seq<Mark> {
    if EndsInText(t) then [] else [Break]
  }

  lemma LastTextIsLastRun(t: TranscriptState)
    requires EndsInText(t)
    ensures var last := t.entries[|t.entries| - 1];
            TextEntries(t.entries) != []
            && TextEntries(t.entries)[|TextEntries(t.entries)| - 1].thinking == last.Thinking?
  {
  }

  lemma GoesOnKeepsTexts(t: TranscriptState, t': TranscriptState, stopped: bool)
    requires GoesOn(t, t', stopped)
    ensures TextEntries(t'.entries) == TextEntries(t.entries)
  {
    TextsOfKept(t.entries);
    TextsOfKept(t'.entries);
    TextEntriesIgnoreCancel(Kept(t.entries));
    hide Kept, TextEntries, CancelEntries;
  }

  lemma GoesOnKeepsRuns(t: TranscriptState, t': TranscriptState, stopped: bool, marks: seq<Mark>)
    requires RunsMatch(t, marks) && GoesOn(t, t', stopped)
    ensures RunsMatch(t', marks + BreakOf(t'))
  {
    GoesOnKeepsTexts(t, t', stopped);
    TextRunsOfAppend(marks, Break);
    if EndsInText(t) {
      LastTextIsLastRun(t);
    }
    if EndsInText(t') {
      LastTextIsLastRun(t');
    }
    assert marks + [] == marks;
    hide TextRuns, TextEntries, Kept, CancelEntries;
  }

  lemma GoesOnTells(t: TranscriptState, t': TranscriptState, stopped: bool, id: string)
    requires GoesOn(t, t', stopped)
    ensures ToolOf(t'.entries, id) == Told(ToolOf(t.entries, id), id, if stopped then [Stopped] else [])
  {
    ToolOfKept(t.entries, id);
    ToolOfKept(t'.entries, id);
    ToolOfCancel(Kept(t.entries), id);
    NothingTold(ToolOf(t.entries, id), id);
    hide ToolOf, Told, Kept;
  }

  lemma GoesOnSigns(t: TranscriptState, t': TranscriptState, stopped: bool)
    requires GoesOn(t, t', stopped)
    ensures Signs(t'.entries) == Signs(t.entries)
  {
    SignsOfKept(t.entries);
    SignsOfKept(t'.entries);
    PickedOfCancel(Kept(t.entries), SignsOnly);
    hide Picked, Kept;
  }

  // ---------------------------------------------------------------- a transcript of the past

  /** Marks that spell finished texts. */
  function PastMarks(entries: seq<Entry>): seq<Mark> {
    if entries == [] then []
    else
      var last := entries[|entries| - 1];
      PastMarks(entries[..|entries| - 1]) +
      (match last
       case Assistant(text, _) => [Piece(false, text), Break]
       case Thinking(text) => [Piece(true, text), Break]
       case _ => [])
  }

  lemma {:induction false} PastSpells(entries: seq<Entry>)
    ensures TextRuns(PastMarks(entries)) == TextEntries(entries)
    ensures PastMarks(entries) == [] || PastMarks(entries)[|PastMarks(entries)| - 1].Break?
  {
    if entries != [] {
      var init, last := entries[..|entries| - 1], entries[|entries| - 1];
      PastSpells(init);
      var before := PastMarks(init);
      if IsText(last) {
        var text := if last.Assistant? then last.text else last.text;
        var piece := Piece(last.Thinking?, text);
        TextRunsOfAppend(before, piece);
        TextRunsOfAppend(before + [piece], Break);
        assert before + [piece, Break] == before + [piece] + [Break];
        hide TextRuns;
      } else {
        assert before + [] == before && TextEntries(init) + [] == TextEntries(init);
        hide TextRuns;
      }
    }
  }

  /** Behind a finished past, what is said forms its runs on its own. */
  lemma RunsAfterThePast(t: TranscriptState, t': TranscriptState, marks: seq<Mark>)
    requires !t.blockOpen
    requires RunsMatch(t, PastMarks(t.entries)) ==> RunsMatch(t', PastMarks(t.entries) + marks)
    ensures TextEntries(t'.entries) == TextEntries(t.entries) + TextRuns(marks)
  {
    var past := PastMarks(t.entries);
    PastSpells(t.entries);
    hide TextRuns, TextEntries, PastMarks;
    assert RunsMatch(t, past);
    if past == [] {
      assert past + marks == marks;
      NoMarksNoRuns();
    } else {
      var before := past[..|past| - 1];
      assert past == before + [Break];
      BreakSeparates(before, marks);
      TextRunsOfAppend(before, Break);
    }
  }

  lemma NoMarksNoRuns()
    ensures TextRuns([]) == []
  {
  }

  // ---------------------------------------------------------------- places

  /** The same entry later: a text may have grown, and a tool may have moved on. */
  predicate SameEntry(a: Entry, b: Entry) {
    match a
    case Assistant(text, _) => b.Assistant? && text <= b.text
    case Thinking(text) => b.Thinking? && text <= b.text
    case Tool(tool) => b.Tool? && tool.id == b.tool.id
    case _ => a == b
  }

  predicate Extends(a: seq<Entry>, b: seq<Entry>) {
    |a| <= |b| && forall i | 0 <= i < |a| :: SameEntry(a[i], b[i])
  }

  lemma ExtendsOn(a: seq<Entry>, b: seq<Entry>, c: seq<Entry>)
    requires Extends(a, b) && Extends(b, c)
    ensures Extends(a, c)
  {
    forall i | 0 <= i < |a| ensures SameEntry(a[i], c[i]) {
      assert SameEntry(a[i], b[i]) && SameEntry(b[i], c[i]);
    }
  }

  lemma GoesOnExtends(t: TranscriptState, t': TranscriptState, stopped: bool)
    requires GoesOn(t, t', stopped)
    ensures Extends(Kept(t.entries), Kept(t'.entries))
  {
    hide Kept;
  }

  lemma {:induction false} UpdateExtends(entries: seq<Entry>, i: nat, entry: Entry)
    requires i < |entries| && SameEntry(entries[i], entry) && IsKept(entries[i]) && IsKept(entry)
    ensures Extends(Kept(entries), Kept(entries[i := entry]))
  {
    var n := |entries| - 1;
    if i == n {
      assert entries[i := entry][..n] == entries[..n];
      AppendExtends(Kept(entries[..n]), entries[n], entry);
      hide Kept, SameEntry, Extends;
    } else {
      assert entries[i := entry][..n] == entries[..n][i := entry];
      UpdateExtends(entries[..n], i, entry);
      BothExtend(Kept(entries[..n]), Kept(entries[..n][i := entry]), entries[n]);
      UpdateKeepsLength(entries[..n], i, entry);
      hide SameEntry;
    }
  }

  lemma {:induction false} UpdateKeepsLength(entries: seq<Entry>, i: nat, entry: Entry)
    requires i < |entries| && IsKept(entries[i]) == IsKept(entry)
    ensures |Kept(entries[i := entry])| == |Kept(entries)|
  {
    var n := |entries| - 1;
    if i == n {
      assert entries[i := entry][..n] == entries[..n];
    } else {
      assert entries[i := entry][..n] == entries[..n][i := entry];
      UpdateKeepsLength(entries[..n], i, entry);
    }
  }

  lemma BothExtend(a: seq<Entry>, b: seq<Entry>, entry: Entry)
    requires Extends(a, b)
    ensures |a| == |b| ==> Extends(a + [entry], b + [entry])
  {
  }

  lemma AppendExtends(entries: seq<Entry>, a: Entry, b: Entry)
    requires SameEntry(a, b)
    ensures Extends(entries + [a], entries + [b])
  {
  }

  lemma PushExtends(entries: seq<Entry>, entry: Entry)
    ensures Extends(Kept(entries), Kept(entries + [entry]))
  {
    KeptAppends(entries, entry);
    hide Kept;
  }

  lemma OpExtends(t: TranscriptState, op: Op)
    requires op.Valid()
    ensures Extends(Kept(t.entries), Kept(Apply(t, op).entries))
  {
    hide Kept, Extends, SameEntry;
    SameExtends(Kept(t.entries));
    var t' := Apply(t, op);
    match op
    case Delta(text, thinking, now) => TextExtends(t, text, thinking, now);
    case Block(entry) => PushExtends(t.entries, entry);
    case BlockClosed =>
    case ToolCalled(id, call) =>
      match LastTool(t.entries, id) {
        case Some(i) => ToolExtends(t.entries, i, t'.entries[i].tool);
        case None => PushExtends(t.entries, Tool(ToolEntry(id, call, Running, None, DiffForCall(call))));
      }
    case ToolFinished(id, isError, output, diff) =>
      if LastTool(t.entries, id).Some? {
        var i := LastTool(t.entries, id).value;
        ToolExtends(t.entries, i, Finished(t.entries[i].tool, isError, output, diff));
      }
    case RunningCanceled =>
      KeptOfCancel(t.entries);
      CancelExtends(Kept(t.entries));
  }

  lemma SameExtends(entries: seq<Entry>)
    ensures Extends(entries, entries)
  {
  }

  lemma CancelExtends(entries: seq<Entry>)
    ensures Extends(entries, CancelEntries(entries))
  {
  }

  lemma ToolExtends(entries: seq<Entry>, i: nat, tool: ToolEntry)
    requires i < |entries| && entries[i].Tool? && tool.id == entries[i].tool.id
    ensures Extends(Kept(entries), Kept(entries[i := Tool(tool)]))
  {
    UpdateExtends(entries, i, Tool(tool));
  }

  lemma TextExtends(t: TranscriptState, text: string, thinking: bool, now: int)
    ensures Extends(Kept(t.entries), Kept(AppendText(t, text, thinking, now).entries))
  {
    hide Kept, Extends;
    SameExtends(Kept(t.entries));
    var t' := AppendText(t, text, thinking, now);
    var n := |t.entries|;
    if |t'.entries| > n {
      PushExtends(t.entries, t'.entries[n]);
    } else if text != [] {
      UpdateExtends(t.entries, n - 1, t'.entries[n - 1]);
    }
  }

  lemma {:induction false} FoldExtends(t: TranscriptState, ops: seq<Op>)
    requires AllValid(ops)
    ensures Extends(Kept(t.entries), Kept(Fold(t, ops).entries))
  {
    hide Kept, Extends, Apply;
    if ops == [] {
      SameExtends(Kept(t.entries));
    } else {
      var init := Fold(t, ops[..|ops| - 1]);
      FoldExtends(t, ops[..|ops| - 1]);
      OpExtends(init, ops[|ops| - 1]);
      ExtendsOn(Kept(t.entries), Kept(init.entries), Kept(Fold(t, ops).entries));
    }
  }
}
