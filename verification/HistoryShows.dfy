/** What is shown of a chat that another program saved, read off its events. */
module HistoryShows {
  import opened Wrappers
  import opened Transcripts
  import opened TranscriptFold
  import opened TranscriptReadings
  import opened Sessions
  import opened SubagentShows
  import SavedChats

  /** Ends of turns and confirmed steers leave no trace in the chat itself, and what subagents say is theirs. */
  predicate IsShown(event: AgentEvent) {
    !event.Done? && !event.SteerConfirmed? && !event.SubagentEvent?
  }

  function HistoryMarks(events: seq<AgentEvent>): seq<Mark> {
    if events == [] then []
    else
      var last := events[|events| - 1];
      HistoryMarks(events[..|events| - 1]) + if IsShown(last) then MarksOfEvent(last) else []
  }

  function HistoryNews(events: seq<AgentEvent>, id: string): seq<News> {
    if events == [] then []
    else
      var last := events[|events| - 1];
      HistoryNews(events[..|events| - 1], id) + if IsShown(last) then NewsOfSaid(last, id) else []
  }

  function HistoryBlocks(events: seq<AgentEvent>, now: int): seq<Entry> {
    if events == [] then []
    else
      var last := events[|events| - 1];
      HistoryBlocks(events[..|events| - 1], now) + if IsShown(last) then BlocksOfEvent(last, now) else []
  }

  // ---------------------------------------------------------------- event by event

  lemma ReadsOne(s: SessionState, events: seq<AgentEvent>, now: int)
    requires events != []
    ensures var before, after := SavedChats.ReadHistory(s, events[..|events| - 1], now), SavedChats.ReadHistory(s, events, now);
            var last := events[|events| - 1];
            && (IsShown(last) ==> Takes(before.transcript, after.transcript, last, now))
            && (!IsShown(last) ==> after.transcript == before.transcript)
            && after.subagents == (if last.SubagentEvent? then
                                     ApplySubagentEvent(before.subagents, last.parent, last.event, now)
                                   else before.subagents)
  {
    hide SubagentOps, Takes, ApplySubagentEvent;
    var before := SavedChats.ReadHistory(s, events[..|events| - 1], now);
    OpsTake(before.transcript, events[|events| - 1], now);
    assert Fold(before.transcript, []) == before.transcript;
  }

  lemma {:induction false} HistoryKeepsRuns(s: SessionState, events: seq<AgentEvent>, now: int, marks: seq<Mark>)
    requires RunsMatch(s.transcript, marks)
    ensures RunsMatch(SavedChats.ReadHistory(s, events, now).transcript, marks + HistoryMarks(events))
  {
    hide RunsMatch, MarksOfEvent, IsShown, ApplySubagentEvent, ToolOf, Told, Picked, Kept, Extends;
    if events == [] {
      assert marks + [] == marks;
    } else {
      var init, last := events[..|events| - 1], events[|events| - 1];
      HistoryKeepsRuns(s, init, now, marks);
      ReadsOne(s, events, now);
      hide SavedChats.ReadHistory;
      if IsShown(last) {
        assert HistoryMarks(events) == HistoryMarks(init) + MarksOfEvent(last);
        assert marks + HistoryMarks(init) + MarksOfEvent(last) == marks + HistoryMarks(events);
      } else {
        assert HistoryMarks(events) == HistoryMarks(init);
      }
    }
  }

  lemma OneMoreTold(
    t: TranscriptState, t1: TranscriptState, t2: TranscriptState, news: seq<News>, blocks: seq<Entry>,
    event: AgentEvent, now: int, id: string)
    requires ToolOf(t1.entries, id) == Told(ToolOf(t.entries, id), id, news)
    requires Blocks(t1.entries) == Blocks(t.entries) + blocks && Extends(Kept(t.entries), Kept(t1.entries))
    requires Takes(t1, t2, event, now)
    ensures ToolOf(t2.entries, id) == Told(ToolOf(t.entries, id), id, news + NewsOfSaid(event, id))
    ensures Blocks(t2.entries) == Blocks(t.entries) + (blocks + BlocksOfEvent(event, now))
    ensures Extends(Kept(t.entries), Kept(t2.entries))
  {
    hide RunsMatch, NewsOfSaid, BlocksOfEvent, ToolOf, Told, Blocks, Kept, Extends;
    ToldJoins(ToolOf(t.entries, id), id, news, NewsOfSaid(event, id));
    ExtendsOn(Kept(t.entries), Kept(t1.entries), Kept(t2.entries));
  }

  lemma {:induction false} HistoryTells(s: SessionState, events: seq<AgentEvent>, now: int, id: string)
    ensures var t, r := s.transcript.entries, SavedChats.ReadHistory(s, events, now).transcript.entries;
            && ToolOf(r, id) == Told(ToolOf(t, id), id, HistoryNews(events, id))
            && Blocks(r) == Blocks(t) + HistoryBlocks(events, now)
            && Extends(Kept(t), Kept(r))
  {
    hide Takes, NewsOfSaid, BlocksOfEvent, IsShown, ApplySubagentEvent, ToolOf, Told, Blocks, Kept, Extends;
    if events == [] {
      TellsNothing(s.transcript, id);
    } else {
      var init, last := events[..|events| - 1], events[|events| - 1];
      HistoryTells(s, init, now, id);
      ReadsOne(s, events, now);
      var before, after := SavedChats.ReadHistory(s, init, now).transcript, SavedChats.ReadHistory(s, events, now).transcript;
      hide SavedChats.ReadHistory;
      if IsShown(last) {
        OneMoreTold(s.transcript, before, after, HistoryNews(init, id), HistoryBlocks(init, now), last, now, id);
      } else {
        assert HistoryBlocks(init, now) + [] == HistoryBlocks(init, now);
        assert HistoryNews(init, id) + [] == HistoryNews(init, id);
      }
    }
  }

  // ---------------------------------------------------------------- the whole chat

  lemma ClosedAndNoted(t: TranscriptState, notice: string, marks: seq<Mark>)
    requires RunsMatch(t, marks)
    ensures RunsMatch(PushNotice(CancelRunning(t), notice, false), marks + [Break])
  {
    hide RunsMatch;
    CancelKeepsRuns(t, marks);
    BreakKeepsRuns(CancelRunning(t), marks, Notice(notice, false));
  }

  /** The texts of a chat another program saved are the maximal runs of what its events say. */
  lemma SavedAnswersAreShown(
    s: SessionState, events: seq<AgentEvent>, context: Option<string>, notice: string, now: int)
    requires !s.transcript.blockOpen
    ensures TextEntries(SavedChats.LoadHistory(s, events, context, notice, now).transcript.entries)
         == TextEntries(s.transcript.entries) + TextRuns(HistoryMarks(events))
  {
    hide RunsMatch, SavedChats.ReadHistory, HistoryMarks, PastMarks, CancelRunning, PushNotice;
    var read := SavedChats.ReadHistory(s, events, now).transcript;
    var past, marks := PastMarks(s.transcript.entries), HistoryMarks(events);
    if RunsMatch(s.transcript, past) {
      HistoryKeepsRuns(s, events, now, past);
      ClosedAndNoted(read, notice, past + marks);
      assert past + marks + [Break] == past + (marks + [Break]);
    }
    RunsAfterThePast(s.transcript, PushNotice(CancelRunning(read), notice, false), marks + [Break]);
    TextRunsOfAppend(marks, Break);
  }

  /** Its tools, messages and errors are those its events name; what was still running is stopped, and a notice ends it. */
  lemma SavedToolsAreAsTold(
    s: SessionState, events: seq<AgentEvent>, context: Option<string>, notice: string, now: int, id: string)
    ensures var t := s.transcript.entries;
            var r := SavedChats.LoadHistory(s, events, context, notice, now).transcript.entries;
            && ToolOf(r, id) == Told(ToolOf(t, id), id, HistoryNews(events, id) + [Stopped])
            && Blocks(r) == Blocks(t) + HistoryBlocks(events, now) + [Notice(notice, false)]
            && Extends(Kept(t), Kept(r))
  {
    var read := SavedChats.ReadHistory(s, events, now).transcript;
    HistoryTells(s, events, now, id);
    var closed := CancelRunning(read);
    ToolOfCancel(read.entries, id);
    PickedOfCancel(read.entries, EveryBlock);
    KeptOfCancel(read.entries);
    CancelExtends(Kept(read.entries));
    hide SavedChats.ReadHistory, ToolOf, Told, Picked, Kept, Extends, CancelEntries;
    ToldJoins(ToolOf(s.transcript.entries, id), id, HistoryNews(events, id), [Stopped]);
    ToolOfAppend(closed.entries, Notice(notice, false), id);
    PickedAppend(closed.entries, Notice(notice, false), EveryBlock);
    PushExtends(closed.entries, Notice(notice, false));
    var r := PushNotice(closed, notice, false).entries;
    ExtendsOn(Kept(s.transcript.entries), Kept(read.entries), Kept(closed.entries));
    ExtendsOn(Kept(s.transcript.entries), Kept(closed.entries), Kept(r));
  }

  // ---------------------------------------------------------------- its subagents

  function SaidIn(event: AgentEvent, who: string): Option<AgentEvent> {
    if event.SubagentEvent? && SpeakerOf(event.parent, event.event) == who then Some(SaidBy(event.event)) else None
  }

  /** The events in which one subagent speaks. */
  function Speeches(events: seq<AgentEvent>, who: string): seq<AgentEvent> {
    if events == [] then []
    else
      var said := SaidIn(events[|events| - 1], who);
      Speeches(events[..|events| - 1], who) + if said.Some? then [said.value] else []
  }

  function SpokenMarks(speeches: seq<AgentEvent>): seq<Mark> {
    if speeches == [] then []
    else SpokenMarks(speeches[..|speeches| - 1]) + MarksOfEvent(speeches[|speeches| - 1])
  }

  function SpokenNews(speeches: seq<AgentEvent>, id: string): seq<News> {
    if speeches == [] then []
    else SpokenNews(speeches[..|speeches| - 1], id) + NewsOfSaid(speeches[|speeches| - 1], id)
  }

  function SpokenBlocks(speeches: seq<AgentEvent>, now: int): seq<Entry> {
    if speeches == [] then []
    else SpokenBlocks(speeches[..|speeches| - 1], now) + BlocksOfEvent(speeches[|speeches| - 1], now)
  }

  /** A transcript that has taken in some speeches. */
  ghost predicate TakesAll(t: TranscriptState, r: TranscriptState, speeches: seq<AgentEvent>, now: int) {
    && (forall marks | RunsMatch(t, marks) :: RunsMatch(r, marks + SpokenMarks(speeches)))
    && (forall id :: ToolOf(r.entries, id) == Told(ToolOf(t.entries, id), id, SpokenNews(speeches, id)))
    && Blocks(r.entries) == Blocks(t.entries) + SpokenBlocks(speeches, now)
  }

  lemma TakesNone(t: TranscriptState, now: int)
    ensures TakesAll(t, t, [], now)
  {
    hide RunsMatch, ToolOf, Told, Blocks;
    forall marks | RunsMatch(t, marks) ensures RunsMatch(t, marks + SpokenMarks([])) {
      assert marks + [] == marks;
    }
    forall id ensures ToolOf(t.entries, id) == Told(ToolOf(t.entries, id), id, SpokenNews([], id)) {
      NothingTold(ToolOf(t.entries, id), id);
    }
  }

  lemma TakesOneMore(t: TranscriptState, t1: TranscriptState, t2: TranscriptState, speeches: seq<AgentEvent>,
                     last: AgentEvent, now: int)
    requires TakesAll(t, t1, speeches, now) && Takes(t1, t2, last, now)
    ensures TakesAll(t, t2, speeches + [last], now)
  {
    hide RunsMatch, ToolOf, Told, Blocks, MarksOfEvent, NewsOfSaid, BlocksOfEvent, Extends;
    assert (speeches + [last])[..|speeches|] == speeches;
    forall marks | RunsMatch(t, marks) ensures RunsMatch(t2, marks + SpokenMarks(speeches + [last])) {
      assert marks + SpokenMarks(speeches) + MarksOfEvent(last) == marks + SpokenMarks(speeches + [last]);
    }
    forall id ensures ToolOf(t2.entries, id) == Told(ToolOf(t.entries, id), id, SpokenNews(speeches + [last], id)) {
      ToldJoins(ToolOf(t.entries, id), id, SpokenNews(speeches, id), NewsOfSaid(last, id));
    }
  }

  lemma {:induction false} SubagentReads(s: SessionState, events: seq<AgentEvent>, now: int, who: string)
    ensures TakesAll(
              SubagentTranscript(s, who), SubagentTranscript(SavedChats.ReadHistory(s, events, now), who),
              Speeches(events, who), now)
  {
    hide TakesAll, Takes, ApplySubagentEvent, SubagentAt, SpokenMarks;
    var t := SubagentTranscript(s, who);
    if events == [] {
      TakesNone(t, now);
    } else {
      var init, last := events[..|events| - 1], events[|events| - 1];
      var before := SavedChats.ReadHistory(s, init, now);
      SubagentReads(s, init, now, who);
      ReadsOne(s, events, now);
      if last.SubagentEvent? {
        SubagentTakes(before.subagents, last.parent, last.event, now, who);
        if SaidIn(last, who).Some? {
          TakesOneMore(
            t, SubagentTranscript(before, who), SubagentTranscript(SavedChats.ReadHistory(s, events, now), who),
            Speeches(init, who), SaidBy(last.event), now);
        }
      }
      assert Speeches(init, who) + [] == Speeches(init, who);
      hide SavedChats.ReadHistory;
    }
  }

  /** Every subagent of a saved chat shows what its events say, with everything that was still running stopped. */
  lemma SavedSubagentsAreAsTold(
    s: SessionState, events: seq<AgentEvent>, context: Option<string>, notice: string, now: int, who: string, id: string)
    ensures var t := SubagentTranscript(s, who);
            var r := SubagentTranscript(SavedChats.LoadHistory(s, events, context, notice, now), who);
            var speeches := Speeches(events, who);
            && (!t.blockOpen ==> TextEntries(r.entries) == TextEntries(t.entries) + TextRuns(SpokenMarks(speeches)))
            && ToolOf(r.entries, id) == Told(ToolOf(t.entries, id), id, SpokenNews(speeches, id) + [Stopped])
            && Blocks(r.entries) == Blocks(t.entries) + SpokenBlocks(speeches, now)
  {
    var t := SubagentTranscript(s, who);
    var read := SubagentTranscript(SavedChats.ReadHistory(s, events, now), who);
    var speeches := Speeches(events, who);
    SubagentReads(s, events, now, who);
    SettledAt(SavedChats.ReadHistory(s, events, now).subagents, who);
    ToolOfCancel(read.entries, id);
    PickedOfCancel(read.entries, EveryBlock);
    hide SavedChats.ReadHistory, ToolOf, Told, Picked, RunsMatch, CancelEntries, SpokenMarks, SpokenNews, Speeches,
      TextEntries, TextRuns, SettleSubagents, SubagentAt;
    assert ToolOf(read.entries, id) == Told(ToolOf(t.entries, id), id, SpokenNews(speeches, id));
    ToldJoins(ToolOf(t.entries, id), id, SpokenNews(speeches, id), [Stopped]);
    if !t.blockOpen {
      StoppedTexts(t, read, speeches, now);
    }
  }

  lemma StoppedTexts(t: TranscriptState, read: TranscriptState, speeches: seq<AgentEvent>, now: int)
    requires TakesAll(t, read, speeches, now) && !t.blockOpen
    ensures TextEntries(CancelRunning(read).entries) == TextEntries(t.entries) + TextRuns(SpokenMarks(speeches))
  {
    hide RunsMatch, ToolOf, Told, Blocks, CancelRunning, PastMarks, SpokenMarks, TextEntries, TextRuns;
    if RunsMatch(t, PastMarks(t.entries)) {
      CancelKeepsRuns(read, PastMarks(t.entries) + SpokenMarks(speeches));
    }
    RunsAfterThePast(t, CancelRunning(read), SpokenMarks(speeches));
  }

  lemma SettledAt(subagents: map<string, Subagent>, who: string)
    ensures SubagentAt(SettleSubagents(subagents, RunCompleted), who).transcript
         == CancelRunning(SubagentAt(subagents, who).transcript)
  {
    assert CancelEntries([]) == [];
  }
}
