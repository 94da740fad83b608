/** What a chat shows of what its subagents say and do, read off the events. */
module SubagentShows {
  import opened Wrappers
  import opened Prompts
  import opened Transcripts
  import opened TranscriptFold
  import opened TranscriptReadings
  import opened Sessions
  import opened SessionInvariants
  import opened SessionShows

  // ---------------------------------------------------------------- read off an event

  function MarksOfEvent(event: AgentEvent): seq<Mark> {
    match event
    case TextDelta(text) => PieceOf(false, text)
    case ReasoningDelta(text) => PieceOf(true, text)
    case UserMessage(_) => [Break]
    case AssistantMessageCompleted => [Break]
    case SteerConfirmed => [Break]
    case ToolCallEvent(_, _) => [Break]
    case ErrorEvent(_) => [Break]
    case Done(_, _, _) => [Break]
    case _ => []
  }

  function NewsOfSaid(event: AgentEvent, id: string): seq<News> {
    if event.Done? then [Stopped] else NewsOfEvent(event, id)
  }

  /** Messages to the subagent, and errors. */
  function BlocksOfEvent(event: AgentEvent, now: int): seq<Entry> {
    match event
    case UserMessage(text) => [User(Prompt(text, [], []), now, false)]
    case ErrorEvent(message) => [Notice(message, true)]
    case Done(RunErrored, Some(message), _) => [Notice(message, true)]
    case _ => []
  }

  /** A transcript that has taken in one event. */
  ghost predicate Takes(t: TranscriptState, r: TranscriptState, event: AgentEvent, now: int) {
    && (forall marks | RunsMatch(t, marks) :: RunsMatch(r, marks + MarksOfEvent(event)))
    && (forall id :: ToolOf(r.entries, id) == Told(ToolOf(t.entries, id), id, NewsOfSaid(event, id)))
    && Blocks(r.entries) == Blocks(t.entries) + BlocksOfEvent(event, now)
    && Extends(Kept(t.entries), Kept(r.entries))
  }

  predicate Says(ops: seq<Op>, event: AgentEvent, now: int, id: string) {
    && (Marks(ops) == MarksOfEvent(event) || (Marks(ops) == [Break] + [Break] && MarksOfEvent(event) == [Break]))
    && NewsOfOps(ops, id) == NewsOfSaid(event, id)
    && PickedOfOps(ops, EveryBlock) == BlocksOfEvent(event, now)
  }

  lemma DoneSays(event: AgentEvent, now: int, id: string)
    requires event.Done?
    ensures Says(SubagentOps(event, now), event, now, id)
  {
    var ops := SubagentOps(event, now);
    var two := [RunningCanceled, BlockClosed];
    assert ops[..2] == two && two[..1] == [RunningCanceled] && [RunningCanceled][..0] == [];
    OneSays(RunningCanceled, id);
    assert Marks(two) == [Break] && NewsOfOps(two, id) == [Stopped] && PickedOfOps(two, EveryBlock) == [];
  }

  lemma OtherSays(event: AgentEvent, now: int, id: string)
    requires !event.Done?
    ensures Says(SubagentOps(event, now), event, now, id)
  {
    var ops := SubagentOps(event, now);
    OneSays(if ops == [] then BlockClosed else ops[0], id);
    hide Marks, NewsOfOps, PickedOfOps;
    assert ops == [] || ops == [ops[0]];
  }

  lemma OpsSay(event: AgentEvent, now: int, id: string)
    ensures Says(SubagentOps(event, now), event, now, id)
  {
    hide SubagentOps, Says;
    if event.Done? {
      DoneSays(event, now, id);
    } else {
      OtherSays(event, now, id);
    }
  }

  lemma OneSays(op: Op, id: string)
    ensures Marks([op]) == MarksOf(op) && NewsOfOps([op], id) == NewsOfOp(op, id)
    ensures PickedOfOps([op], EveryBlock) == PickedOfOp(op, EveryBlock)
    ensures Marks([]) == [] && NewsOfOps([], id) == [] && PickedOfOps([], EveryBlock) == []
  {
    assert [op][..0] == [];
  }

  lemma OpsTakeMarks(t: TranscriptState, event: AgentEvent, now: int, marks: seq<Mark>)
    requires RunsMatch(t, marks)
    ensures RunsMatch(Fold(t, SubagentOps(event, now)), marks + MarksOfEvent(event))
  {
    var ops := SubagentOps(event, now);
    SaidOpsAreValid(event, now);
    hide RunsMatch, SubagentOps, Fold, MarksOfEvent, NewsOfOps, PickedOfOps, Marks;
    OpsSay(event, now, []);
    FoldKeepsRuns(t, marks, ops);
    if Marks(ops) != MarksOfEvent(event) {
      assert marks + [] == marks;
      BreaksCollapse(Fold(t, ops), marks, [], Marks(ops));
    }
  }

  lemma OpsTell(t: TranscriptState, event: AgentEvent, now: int, id: string)
    ensures var r := Fold(t, SubagentOps(event, now));
            && ToolOf(r.entries, id) == Told(ToolOf(t.entries, id), id, NewsOfSaid(event, id))
            && Blocks(r.entries) == Blocks(t.entries) + BlocksOfEvent(event, now)
            && Extends(Kept(t.entries), Kept(r.entries))
  {
    var ops := SubagentOps(event, now);
    SaidOpsAreValid(event, now);
    hide SubagentOps, Fold, ToolOf, Told, Picked, Kept, Extends, MarksOfEvent, NewsOfSaid, BlocksOfEvent, Marks,
      NewsOfOps, PickedOfOps;
    OpsSay(event, now, id);
    FoldTells(t, ops, id);
    FoldShows(t, ops, EveryBlock);
    FoldExtends(t, ops);
  }

  lemma SaidOpsAreValid(event: AgentEvent, now: int)
    ensures AllValid(SubagentOps(event, now))
  {
  }

  lemma OpsTake(t: TranscriptState, event: AgentEvent, now: int)
    ensures Takes(t, Fold(t, SubagentOps(event, now)), event, now)
  {
    var r := Fold(t, SubagentOps(event, now));
    hide RunsMatch, SubagentOps, Fold, ToolOf, Told, Blocks, Kept, Extends, MarksOfEvent, NewsOfSaid, BlocksOfEvent;
    forall marks | RunsMatch(t, marks) ensures RunsMatch(r, marks + MarksOfEvent(event)) {
      OpsTakeMarks(t, event, now, marks);
    }
    forall id ensures ToolOf(r.entries, id) == Told(ToolOf(t.entries, id), id, NewsOfSaid(event, id)) {
      OpsTell(t, event, now, id);
    }
    OpsTell(t, event, now, []);
  }

  // ---------------------------------------------------------------- who says what

  /** A subagent's subagent speaks for itself. */
  function SpeakerOf(parent: string, event: AgentEvent): string
    decreases event
  {
    if event.SubagentEvent? then SpeakerOf(event.parent, event.event) else parent
  }

  function SaidBy(event: AgentEvent): AgentEvent {
    if event.SubagentEvent? then SaidBy(event.event) else event
  }

  /** Everyone an event names on the way to its speaker. */
  function NamedIn(parent: string, event: AgentEvent): set<string>
    decreases event
  {
    {parent} + if event.SubagentEvent? then NamedIn(event.parent, event.event) else {}
  }

  lemma {:induction false} SubagentTakes(
    subagents: map<string, Subagent>, parent: string, event: AgentEvent, now: int, who: string)
    ensures var r := ApplySubagentEvent(subagents, parent, event, now);
            var t, t' := SubagentAt(subagents, who), SubagentAt(r, who);
            && (who in r <==> who in subagents || who in NamedIn(parent, event))
            && (if SpeakerOf(parent, event) == who then
                  Takes(t.transcript, t'.transcript, SaidBy(event), now)
                  && t'.status == if SaidBy(event).Done? then Some(SaidBy(event).status) else t.status
                else t' == t)
    decreases event
  {
    hide Takes, SubagentOps, Fold;
    if event.SubagentEvent? {
      SubagentTakes(subagents[parent := SubagentAt(subagents, parent)], event.parent, event.event, now, who);
    } else {
      OpsTake(SubagentAt(subagents, parent).transcript, event, now);
    }
  }

  // ---------------------------------------------------------------- one step

  /** What a step of a live run lets a subagent say. */
  function SaidAt(s: SessionState, action: Action, who: string): Option<AgentEvent> {
    if s.run.Some? && action.Event? && action.event.SubagentEvent?
       && SpeakerOf(action.event.parent, action.event.event) == who
    then Some(SaidBy(action.event.event))
    else None
  }

  /** The run ends, and with it everything that is still going on. */
  predicate EndsTheRun(s: SessionState, action: Action) {
    s.run.Some? && (action.RunOver? || action.RunStartFailed?)
  }

  /** Subagents are known from the call that spawns them, or from the first event that names them. */
  predicate NamesSubagent(s: SessionState, action: Action, who: string) {
    && s.run.Some? && action.Event?
    && match action.event
       case ToolCallEvent(id, call) => id == who && call.IsSubagentSpawn()
       case SubagentEvent(parent, event) => who in NamedIn(parent, event)
       case _ => false
  }

  function SubagentMarksAt(s: SessionState, action: Action, who: string): seq<Mark> {
    if SaidAt(s, action, who).Some? then MarksOfEvent(SaidAt(s, action, who).value) else []
  }

  function SubagentNewsAt(s: SessionState, action: Action, who: string, id: string): seq<News> {
    if SaidAt(s, action, who).Some? then NewsOfSaid(SaidAt(s, action, who).value, id)
    else if EndsTheRun(s, action) then [Stopped]
    else []
  }

  function SubagentBlocksAt(s: SessionState, move: Move, who: string): seq<Entry> {
    if SaidAt(s, move.action, who).Some? then BlocksOfEvent(SaidAt(s, move.action, who).value, move.env.now) else []
  }

  /** The status a subagent reported last; one that reported none was interrupted with its run. */
  function StatusAt(s: SessionState, action: Action, who: string, known: bool, status: Option<DoneStatus>): Option<DoneStatus> {
    if SaidAt(s, action, who).Some? && SaidAt(s, action, who).value.Done? then
      Some(SaidAt(s, action, who).value.status)
    else if EndsTheRun(s, action) && known && status.None? then Some(RunInterrupted)
    else status
  }

  ghost predicate SubagentStepShows(s: SessionState, move: Move, r: SessionState, who: string) {
    var a, b := SubagentAt(s.subagents, who), SubagentAt(r.subagents, who);
    var t, t' := a.transcript, b.transcript;
    && (forall marks | RunsMatch(t, marks) :: RunsMatch(t', marks + SubagentMarksAt(s, move.action, who)))
    && (forall id :: ToolOf(t'.entries, id) == Told(ToolOf(t.entries, id), id, SubagentNewsAt(s, move.action, who, id)))
    && Blocks(t'.entries) == Blocks(t.entries) + SubagentBlocksAt(s, move, who)
    && Extends(Kept(t.entries), Kept(t'.entries))
    && (who in r.subagents <==> who in s.subagents || NamesSubagent(s, move.action, who))
    && b.status == StatusAt(s, move.action, who, who in s.subagents, a.status)
  }

  lemma SendMessageLeavesSubagents(s: SessionState, message: Prompt, env: Env)
    ensures SendMessage(s, message, env).subagents == s.subagents
  {
    hide Deliver, MustWait, PushUser, Prompt.Trimmed, Prompt.IsEmpty;
    var prompt := message.Trimmed();
    DeliverEffect(s, prompt, env);
    var queued := Enqueue(s.queue, prompt);
    if NextSendable(queued.items, queued.editing).Some? {
      var i := NextSendable(queued.items, queued.editing).value;
      DeliverEffect(s.(queue := Dequeue(queued, i)), queued.items[i].prompt, env);
    }
  }

  lemma SendNextLeavesSubagents(s: SessionState, env: Env)
    ensures SendNextQueued(s, env).subagents == s.subagents
  {
    hide Deliver, MustWait, PushUser;
    if !s.working && !s.deleted && NextSendable(s.queue.items, s.queue.editing).Some? {
      var i := NextSendable(s.queue.items, s.queue.editing).value;
      DeliverEffect(s.(queue := Dequeue(s.queue, i)), s.queue.items[i].prompt, env);
    }
  }

  lemma QueueStepLeavesSubagents(s: SessionState, action: Action, i: nat, env: Env)
    requires i < |s.queue.items|
    ensures QueueStep(s, action, i, env).subagents == s.subagents
  {
    hide Deliver, MustWait, PushUser, TakeQueued, Moved;
    var taken, prompt := TakeQueued(s.queue, i), s.queue.items[i].prompt;
    var cut := if s.working && s.run.Some? then Some(Run(true)) else s.run;
    if action.SteerQueued? {
      DeliverEffect(s.(queue := taken), prompt, env);
    } else if action.SendQueuedNow? {
      DeliverEffect(s.(queue := taken, run := cut), prompt, env);
    }
  }

  lemma RunEndedSettles(s: SessionState, env: Env)
    ensures RunEnded(s, env).subagents == SettleSubagents(s.subagents, RunInterrupted)
  {
    hide SendNextQueued, ForkAtStart, SettleSubagents, CancelRunning, IsCommand;
    SendNextLeavesSubagents(DropRun(s).(working := false, promptAfterStop := None), env);
  }

  /** Only events and the end of the run touch subagents. */
  lemma SubagentsAfter(s: SessionState, action: Action, env: Env)
    ensures Step(s, action, env).subagents ==
              if EndsTheRun(s, action) then SettleSubagents(s.subagents, RunInterrupted)
              else if s.run.Some? && action.Event? && !action.event.Done? then
                StreamedSubagents(s.subagents, action.event, env.now)
              else s.subagents
  {
    hide SendMessage, QueueStep, FinishQueuedEdit, DrainFailed, RunEnded, SettleSubagents, SendNextQueued, Fold,
      StreamedSubagents, UndeliverLast, PushNotice, StreamedOps, DoneOps, NamedBy, ReleasedBy, StreamedFork, CanRetry;
    if action.ByTheRun() {
      RunStepSubagents(s, action, env);
    } else if action.OnQueued() && QueueIndex(s.queue.items, action.id).Some? {
      QueueStepLeavesSubagents(s, action, QueueIndex(s.queue.items, action.id).value, env);
    } else if action.Send? {
      SendMessageLeavesSubagents(s, action.prompt, env);
    } else if action.RetryUndelivered? && CanRetry(s, action.index) {
      CanRetryIsThere(s, action.index);
      SendMessageLeavesSubagents(
        s.(transcript := DrainFailed(s.transcript, action.index)), s.transcript.entries[action.index].prompt, env);
    }
  }

  lemma CanRetryIsThere(s: SessionState, index: nat)
    requires CanRetry(s, index)
    ensures index < |s.transcript.entries| && s.transcript.entries[index].User?
  {
  }

  lemma EventLeavesSubagents(s: SessionState, event: AgentEvent, env: Env)
    ensures ApplyEvent(s, event, env).subagents ==
              if event.Done? then s.subagents else StreamedSubagents(s.subagents, event, env.now)
  {
    hide SendNextQueued, Fold, StreamedSubagents, StreamedOps, DoneOps, NamedBy, ReleasedBy, StreamedFork, Resumes,
      ShowsAutoNotice, FailsFork;
    if event.Done? && !FailsFork(s, event) {
      SendNextLeavesSubagents(EndTurn(s, event), env);
    }
  }

  lemma FailedRunSettles(s: SessionState, message: string, env: Env)
    ensures FailRun(s, message, env).subagents == SettleSubagents(s.subagents, RunInterrupted)
  {
    hide RunEnded, SettleSubagents, UndeliverLast, PushNotice;
    RunEndedSettles(s.(fork := s.fork.(failed := true)), env);
    RunEndedSettles(s.(transcript := PushNotice(UndeliverLast(s.transcript), message, true)), env);
  }

  lemma RunStepSubagents(s: SessionState, action: Action, env: Env)
    requires action.ByTheRun()
    ensures RunStep(s, action, env).subagents ==
              if EndsTheRun(s, action) then SettleSubagents(s.subagents, RunInterrupted)
              else if s.run.Some? && action.Event? && !action.event.Done? then
                StreamedSubagents(s.subagents, action.event, env.now)
              else s.subagents
  {
    hide RunEnded, FailRun, ApplyEvent, SettleSubagents, StreamedSubagents, PushNotice;
    if s.run.Some? {
      if action.Event? {
        EventLeavesSubagents(s, action.event, env);
      } else if action.RunOver? {
        RunEndedSettles(s, env);
      } else if action.RunStartFailed? {
        FailedRunSettles(s, action.message, env);
      }
    }
  }

  lemma TellsNothing(t: TranscriptState, id: string)
    ensures ToolOf(t.entries, id) == Told(ToolOf(t.entries, id), id, [])
    ensures Blocks(t.entries) + [] == Blocks(t.entries)
    ensures Extends(Kept(t.entries), Kept(t.entries))
  {
    NothingTold(ToolOf(t.entries, id), id);
    SameExtends(Kept(t.entries));
  }

  lemma SettledSubagent(subagents: map<string, Subagent>, who: string)
    ensures var a, b := SubagentAt(subagents, who), SubagentAt(SettleSubagents(subagents, RunInterrupted), who);
            && b.transcript == CancelRunning(a.transcript)
            && b.status == if who in subagents && a.status.None? then Some(RunInterrupted) else a.status
  {
    assert CancelEntries([]) == [];
  }

  lemma RunEndShows(s: SessionState, move: Move, r: SessionState, who: string)
    requires EndsTheRun(s, move.action) && r.subagents == SettleSubagents(s.subagents, RunInterrupted)
    ensures SubagentStepShows(s, move, r, who)
  {
    SettledSubagent(s.subagents, who);
    var t, t' := SubagentAt(s.subagents, who).transcript, SubagentAt(r.subagents, who).transcript;
    hide RunsMatch, ToolOf, Told, Picked, Kept, Extends, SubagentAt, CancelEntries;
    forall marks | RunsMatch(t, marks)
      ensures RunsMatch(t', marks + SubagentMarksAt(s, move.action, who))
    {
      CancelKeepsRuns(t, marks);
      assert marks + [] == marks;
    }
    forall id ensures ToolOf(t'.entries, id) == Told(ToolOf(t.entries, id), id, SubagentNewsAt(s, move.action, who, id)) {
      ToolOfCancel(t.entries, id);
    }
    PickedOfCancel(t.entries, EveryBlock);
    TellsNothing(t, []);
    KeptOfCancel(t.entries);
    CancelExtends(Kept(t.entries));
  }

  lemma SilenceShows(s: SessionState, move: Move, r: SessionState, who: string)
    requires SaidAt(s, move.action, who).None? && !EndsTheRun(s, move.action)
    requires SubagentAt(r.subagents, who) == SubagentAt(s.subagents, who)
    requires who in r.subagents <==> who in s.subagents || NamesSubagent(s, move.action, who)
    ensures SubagentStepShows(s, move, r, who)
  {
    var t := SubagentAt(s.subagents, who).transcript;
    hide RunsMatch, ToolOf, Told, Picked, Kept, Extends, SubagentAt, SaidAt, EndsTheRun, NamesSubagent;
    forall marks | RunsMatch(t, marks) ensures RunsMatch(t, marks + SubagentMarksAt(s, move.action, who)) {
      assert marks + [] == marks;
    }
    forall id ensures ToolOf(t.entries, id) == Told(ToolOf(t.entries, id), id, SubagentNewsAt(s, move.action, who, id)) {
      TellsNothing(t, id);
    }
    TellsNothing(t, []);
  }

  lemma SpeechShows(s: SessionState, move: Move, r: SessionState, who: string)
    requires s.run.Some? && move.action.Event? && move.action.event.SubagentEvent?
    requires var event := move.action.event;
             r.subagents == ApplySubagentEvent(s.subagents, event.parent, event.event, move.env.now)
    ensures SubagentStepShows(s, move, r, who)
  {
    var event := move.action.event;
    SubagentTakes(s.subagents, event.parent, event.event, move.env.now, who);
    hide RunsMatch, ToolOf, Told, Picked, Kept, Extends, SubagentAt, ApplySubagentEvent;
    if SpeakerOf(event.parent, event.event) != who {
      SilenceShows(s, move, r, who);
    }
  }

  lemma SubagentStep(s: SessionState, move: Move, who: string)
    ensures SubagentStepShows(s, move, Step(s, move.action, move.env), who)
  {
    var r := Step(s, move.action, move.env);
    SubagentsAfter(s, move.action, move.env);
    hide Step, SubagentStepShows, SettleSubagents, ApplySubagentEvent;
    if EndsTheRun(s, move.action) {
      RunEndShows(s, move, r, who);
    } else if s.run.Some? && move.action.Event? && move.action.event.SubagentEvent? {
      SpeechShows(s, move, r, who);
    } else {
      SilenceShows(s, move, r, who);
    }
  }

  // ---------------------------------------------------------------- every history

  function SubagentMarks(s: SessionState, moves: seq<Move>, who: string): seq<Mark> {
    if moves == [] then []
    else
      var init, last := moves[..|moves| - 1], moves[|moves| - 1];
      SubagentMarks(s, init, who) + SubagentMarksAt(Play(s, init), last.action, who)
  }

  function SubagentNews(s: SessionState, moves: seq<Move>, who: string, id: string): seq<News> {
    if moves == [] then []
    else
      var init, last := moves[..|moves| - 1], moves[|moves| - 1];
      SubagentNews(s, init, who, id) + SubagentNewsAt(Play(s, init), last.action, who, id)
  }

  function SubagentBlocks(s: SessionState, moves: seq<Move>, who: string): seq<Entry> {
    if moves == [] then []
    else
      var init, last := moves[..|moves| - 1], moves[|moves| - 1];
      SubagentBlocks(s, init, who) + SubagentBlocksAt(Play(s, init), last, who)
  }

  predicate WasNamed(s: SessionState, moves: seq<Move>, who: string) {
    if moves == [] then who in s.subagents
    else
      var init, last := moves[..|moves| - 1], moves[|moves| - 1];
      WasNamed(s, init, who) || NamesSubagent(Play(s, init), last.action, who)
  }

  function LastStatus(s: SessionState, moves: seq<Move>, who: string): Option<DoneStatus> {
    if moves == [] then SubagentAt(s.subagents, who).status
    else
      var init, last := moves[..|moves| - 1], moves[|moves| - 1];
      StatusAt(Play(s, init), last.action, who, WasNamed(s, init, who), LastStatus(s, init, who))
  }

  function SubagentTranscript(s: SessionState, who: string): TranscriptState {
    SubagentAt(s.subagents, who).transcript
  }

  lemma SubagentStepKeepsRuns(s: SessionState, move: Move, who: string, marks: seq<Mark>)
    requires RunsMatch(SubagentTranscript(s, who), marks)
    ensures RunsMatch(
              SubagentTranscript(Step(s, move.action, move.env), who), marks + SubagentMarksAt(s, move.action, who))
  {
    hide RunsMatch, Step, SubagentMarksAt, SubagentAt;
    SubagentStep(s, move, who);
  }

  lemma {:induction false} SubagentHistoryKeepsRuns(s: SessionState, moves: seq<Move>, who: string, marks: seq<Mark>)
    requires RunsMatch(SubagentTranscript(s, who), marks)
    ensures RunsMatch(SubagentTranscript(Play(s, moves), who), marks + SubagentMarks(s, moves, who))
  {
    hide RunsMatch, Step, SubagentMarksAt, SubagentTranscript;
    if moves == [] {
      assert marks + [] == marks;
    } else {
      var init, last := moves[..|moves| - 1], moves[|moves| - 1];
      SubagentHistoryKeepsRuns(s, init, who, marks);
      SubagentStepKeepsRuns(Play(s, init), last, who, marks + SubagentMarks(s, init, who));
      assert marks + SubagentMarks(s, init, who) + SubagentMarksAt(Play(s, init), last.action, who)
          == marks + SubagentMarks(s, moves, who);
    }
  }

  /** Over every history, a subagent's texts are the maximal runs of what its events say. */
  lemma SubagentAnswersAreShown(s: SessionState, moves: seq<Move>, who: string)
    requires !SubagentTranscript(s, who).blockOpen
    ensures TextEntries(SubagentTranscript(Play(s, moves), who).entries)
         == TextEntries(SubagentTranscript(s, who).entries) + TextRuns(SubagentMarks(s, moves, who))
  {
    hide RunsMatch, Play, SubagentMarks, PastMarks, SubagentAt;
    var t := SubagentTranscript(s, who);
    if RunsMatch(t, PastMarks(t.entries)) {
      SubagentHistoryKeepsRuns(s, moves, who, PastMarks(t.entries));
    }
    RunsAfterThePast(t, SubagentTranscript(Play(s, moves), who), SubagentMarks(s, moves, who));
  }

  /** And its tools, messages, errors and status are those its events name. */
  lemma {:induction false} SubagentsAreAsTold(s: SessionState, moves: seq<Move>, who: string, id: string)
    ensures var t, r := SubagentTranscript(s, who), SubagentTranscript(Play(s, moves), who);
            && ToolOf(r.entries, id) == Told(ToolOf(t.entries, id), id, SubagentNews(s, moves, who, id))
            && Blocks(r.entries) == Blocks(t.entries) + SubagentBlocks(s, moves, who)
            && Extends(Kept(t.entries), Kept(r.entries))
            && (who in Play(s, moves).subagents <==> WasNamed(s, moves, who))
            && SubagentAt(Play(s, moves).subagents, who).status == LastStatus(s, moves, who)
  {
    hide Step, ToolOf, Told, Blocks, Kept, Extends, SubagentNewsAt, SubagentBlocksAt, SubagentAt, NamesSubagent, StatusAt;
    var t := SubagentTranscript(s, who);
    if moves == [] {
      TellsNothing(t, id);
    } else {
      var init, last := moves[..|moves| - 1], moves[|moves| - 1];
      SubagentsAreAsTold(s, init, who, id);
      SubagentStep(Play(s, init), last, who);
      ToldJoins(
        ToolOf(t.entries, id), id, SubagentNews(s, init, who, id), SubagentNewsAt(Play(s, init), last.action, who, id));
      ExtendsOn(
        Kept(t.entries), Kept(SubagentTranscript(Play(s, init), who).entries),
        Kept(SubagentTranscript(Play(s, moves), who).entries));
    }
  }
}
