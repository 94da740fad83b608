/** What a chat shows of what its agent says and does, read off the events of its runs. */
module SessionShows {
  import opened Wrappers
  import opened Prompts
  import opened Transcripts
  import opened TranscriptFold
  import opened TranscriptReadings
  import opened Sessions
  import opened SessionInvariants

  // ---------------------------------------------------------------- read off the steps

  function PieceOf(thinking: bool, text: string): seq<Mark> {
    if text == [] then [] else [Piece(thinking, text)]
  }

  /** A failed turn that is kept for another try. */
  predicate IsHeldBack(s: SessionState, event: AgentEvent) {
    event.Done? && event.status == RunErrored && s.fork.prompt.Some? && s.fork.nativeSessionId.None?
  }

  /** What the agent says itself ends the text it has been writing. */
  predicate EndsItsText(s: SessionState, event: AgentEvent) {
    || event.AssistantMessageCompleted? || event.SteerConfirmed? || event.ToolCallEvent?
    || (event.Done? && !IsHeldBack(s, event))
  }

  /** Answers and thoughts of the live run are pieces; they go on while they stand last and nothing ended them. */
  function MarksAt(s: SessionState, action: Action, r: SessionState): seq<Mark> {
    if s.run.Some? && action.Event? && action.event.TextDelta? then PieceOf(false, action.event.text)
    else if s.run.Some? && action.Event? && action.event.ReasoningDelta? then PieceOf(true, action.event.text)
    else if s.run.Some? && action.Event? && EndsItsText(s, action.event) then [Break]
    else BreakOf(r.transcript)
  }

  function NewsOfEvent(event: AgentEvent, id: string): seq<News> {
    match event
    case ToolCallEvent(called, call) => if called == id then [Called(call)] else []
    case ToolResultEvent(called, isError, output, diff) => if called == id then [Resulted(isError, output, diff)] else []
    case _ => []
  }

  /** A turn or a run that ends stops the tools. */
  function NewsAt(s: SessionState, action: Action, id: string): seq<News> {
    if s.run.None? then []
    else
      match action
      case Event(event) => if event.Done? && !IsHeldBack(s, event) then [Stopped] else NewsOfEvent(event, id)
      case RunOver => [Stopped]
      case RunStartFailed(_) => [Stopped]
      case _ => []
  }

  predicate ReportsNoAuto(s: SessionState, event: AgentEvent) {
    event.PermissionModeReported? && !event.isAuto && s.kind == Claude && s.asksForAuto
  }

  function SignsAt(s: SessionState, action: Action): seq<Entry> {
    if s.run.None? || !action.Event? then []
    else
      match action.event
      case GeneratedImage(path) => [Image(path)]
      case Compacted(_) => [Notice("Context compacted.", false)]
      case _ =>
        if ReportsNoAuto(s, action.event) && !s.noticedAutoUnavailable then [Notice(AUTO_UNAVAILABLE, false)] else []
  }

  function MarksOver(s: SessionState, moves: seq<Move>): seq<Mark> {
    if moves == [] then []
    else
      var init, last := moves[..|moves| - 1], moves[|moves| - 1];
      MarksOver(s, init) + MarksAt(Play(s, init), last.action, Play(s, moves))
  }

  function NewsOver(s: SessionState, moves: seq<Move>, id: string): seq<News> {
    if moves == [] then []
    else
      var init, last := moves[..|moves| - 1], moves[|moves| - 1];
      NewsOver(s, init, id) + NewsAt(Play(s, init), last.action, id)
  }

  function SignsOver(s: SessionState, moves: seq<Move>): seq<Entry> {
    if moves == [] then []
    else
      var init, last := moves[..|moves| - 1], moves[|moves| - 1];
      SignsOver(s, init) + SignsAt(Play(s, init), last.action)
  }

  // ---------------------------------------------------------------- messages and errors

  /** At most one message or error more. */
  predicate AddsOne(t: TranscriptState, t': TranscriptState) {
    t' == t || (t'.entries != [] && !IsKept(t'.entries[|t'.entries| - 1]) && t' == Push(t, t'.entries[|t'.entries| - 1]))
  }

  lemma AddedGoesOn(t: TranscriptState, t1: TranscriptState, t2: TranscriptState, stopped: bool)
    requires GoesOn(t, t1, stopped) && AddsOne(t1, t2)
    ensures GoesOn(t, t2, stopped)
  {
    if t2 != t1 {
      KeptAppends(t1.entries, t2.entries[|t2.entries| - 1]);
    }
    hide Kept, CancelEntries;
  }

  lemma StaysAsItIs(t: TranscriptState)
    requires OpenBlockIsText(t)
    ensures GoesOn(t, t, false)
  {
  }

  lemma StopGoesOn(t: TranscriptState)
    requires OpenBlockIsText(t)
    ensures GoesOn(t, CancelRunning(t), true)
  {
    KeptOfCancel(t.entries);
    if EndsInText(t) {
      assert CancelEntries(t.entries)[|t.entries| - 1] == CancelEntry(t.entries[|t.entries| - 1]);
    }
  }

  lemma UserIsAdded(t: TranscriptState, prompt: Prompt, now: int)
    ensures AddsOne(t, PushUser(t, prompt, now))
  {
  }

  lemma SendNextAdds(s: SessionState, env: Env)
    ensures AddsOne(s.transcript, SendNextQueued(s, env).transcript)
  {
    hide Deliver, MustWait, AddsOne, PushUser;
    StaysTheSame(s.transcript);
    if !s.working && !s.deleted && NextSendable(s.queue.items, s.queue.editing).Some? {
      var i := NextSendable(s.queue.items, s.queue.editing).value;
      DeliverEffect(s.(queue := Dequeue(s.queue, i)), s.queue.items[i].prompt, env);
      UserIsAdded(s.transcript, s.queue.items[i].prompt, env.now);
    }
  }

  lemma StaysTheSame(t: TranscriptState)
    ensures AddsOne(t, t)
  {
  }

  lemma SendMessageAdds(s: SessionState, message: Prompt, env: Env)
    ensures AddsOne(s.transcript, SendMessage(s, message, env).transcript)
  {
    hide Deliver, MustWait, AddsOne, PushUser, Prompt.Trimmed, Prompt.IsEmpty;
    StaysTheSame(s.transcript);
    var prompt := message.Trimmed();
    DeliverEffect(s, prompt, env);
    UserIsAdded(s.transcript, prompt, env.now);
    var queued := Enqueue(s.queue, prompt);
    if NextSendable(queued.items, queued.editing).Some? {
      var i := NextSendable(queued.items, queued.editing).value;
      DeliverEffect(s.(queue := Dequeue(queued, i)), queued.items[i].prompt, env);
      UserIsAdded(s.transcript, queued.items[i].prompt, env.now);
    }
  }

  lemma QueueStepAdds(s: SessionState, action: Action, i: nat, env: Env)
    requires i < |s.queue.items|
    ensures AddsOne(s.transcript, QueueStep(s, action, i, env).transcript)
  {
    hide Deliver, MustWait, AddsOne, PushUser, TakeQueued, Moved;
    StaysTheSame(s.transcript);
    var taken, prompt := TakeQueued(s.queue, i), s.queue.items[i].prompt;
    UserIsAdded(s.transcript, prompt, env.now);
    var cut := if s.working && s.run.Some? then Some(Run(true)) else s.run;
    if action.SteerQueued? {
      DeliverEffect(s.(queue := taken), prompt, env);
    } else if action.SendQueuedNow? {
      DeliverEffect(s.(queue := taken, run := cut), prompt, env);
    }
  }

  lemma RunEndedAdds(s: SessionState, env: Env)
    ensures AddsOne(CancelRunning(s.transcript), RunEnded(s, env).transcript)
  {
    hide SendNextQueued, ForkAtStart, AddsOne, SettleSubagents, CancelRunning, IsCommand;
    StaysTheSame(CancelRunning(s.transcript));
    SendNextAdds(DropRun(s).(working := false, promptAfterStop := None), env);
  }

  lemma RunEndedGoesOn(s: SessionState, env: Env)
    requires OpenBlockIsText(s.transcript)
    ensures GoesOn(s.transcript, RunEnded(s, env).transcript, true)
  {
    StopGoesOn(s.transcript);
    RunEndedAdds(s, env);
    hide GoesOn, AddsOne, CancelRunning, RunEnded;
    AddedGoesOn(s.transcript, CancelRunning(s.transcript), RunEnded(s, env).transcript, true);
  }

  lemma FailedRunGoesOn(s: SessionState, message: string, env: Env)
    requires OpenBlockIsText(s.transcript)
    ensures GoesOn(s.transcript, FailRun(s, message, env).transcript, true)
  {
    RunEndedGoesOn(s.(fork := s.fork.(failed := true)), env);
    var t := PushNotice(UndeliverLast(s.transcript), message, true);
    KeptOfUndelivered(s.transcript);
    KeptAppends(UndeliverLast(s.transcript).entries, Notice(message, true));
    KeptOfCancel(t.entries);
    RunEndedAdds(s.(transcript := t), env);
    assert !t.blockOpen && !EndsInText(t);
    assert GoesOn(s.transcript, CancelRunning(t), true) by {
      assert t.entries != [] && CancelEntries(t.entries)[|t.entries| - 1] == Notice(message, true);
    }
    hide GoesOn, AddsOne, CancelRunning, RunEnded, PushNotice, UndeliverLast;
    AddedGoesOn(s.transcript, CancelRunning(t), RunEnded(s.(transcript := t), env).transcript, true);
  }

  lemma RetryGoesOn(s: SessionState, index: nat, env: Env)
    requires OpenBlockIsText(s.transcript) && CanRetry(s, index)
    ensures GoesOn(s.transcript, RetryStep(s, index, env).transcript, false)
  {
    var drained := DrainFailed(s.transcript, index);
    KeptOfDrain(s.transcript, index);
    DrainKeepsOpenText(s.transcript, index);
    SendMessageAdds(s.(transcript := drained), s.transcript.entries[index].prompt, env);
    assert GoesOn(s.transcript, drained, false);
    hide GoesOn, AddsOne, SendMessage, DrainFailed;
    AddedGoesOn(
      s.transcript, drained,
      SendMessage(s.(transcript := drained), s.transcript.entries[index].prompt, env).transcript, false);
  }

  lemma DrainKeepsOpenText(t: TranscriptState, index: nat)
    requires index < |t.entries| && t.entries[index].User? && OpenBlockIsText(t)
    ensures DrainFailed(t, index).blockOpen == t.blockOpen
    ensures t.blockOpen ==> EndsInText(DrainFailed(t, index))
  {
    var rest := t.entries[index + 1..];
    if rest != [] {
      assert rest[|rest| - 1] == t.entries[|t.entries| - 1];
    }
  }

  lemma {:induction false} ErrorsGoOn(t: TranscriptState, errors: seq<string>)
    requires OpenBlockIsText(t)
    ensures GoesOn(t, PushErrors(t, errors), false)
  {
    hide GoesOn, OpenBlockIsText;
    if errors == [] {
      StaysAsItIs(t);
    } else {
      var before := PushErrors(t, errors[..|errors| - 1]);
      ErrorsGoOn(t, errors[..|errors| - 1]);
      assert AddsOne(before, PushErrors(t, errors));
      AddedGoesOn(t, before, PushErrors(t, errors), false);
    }
  }

  lemma ReleasedGoesOn(t: TranscriptState, fork: Fork, event: AgentEvent)
    requires OpenBlockIsText(t)
    ensures GoesOn(t, ReleasedBy(t, fork, event), false)
  {
    hide GoesOn, PushErrors, OpenBlockIsText;
    StaysAsItIs(t);
    ErrorsGoOn(t, fork.errors);
  }

  // ---------------------------------------------------------------- one step

  /** A step told by its readings; entries that are neither messages nor errors keep their places. */
  ghost predicate StepShows(s: SessionState, action: Action, r: SessionState) {
    && (forall marks | RunsMatch(s.transcript, marks) :: RunsMatch(r.transcript, marks + MarksAt(s, action, r)))
    && (forall id :: ToolOf(r.transcript.entries, id) == Told(ToolOf(s.transcript.entries, id), id, NewsAt(s, action, id)))
    && Signs(r.transcript.entries) == Signs(s.transcript.entries) + SignsAt(s, action)
    && Extends(Kept(s.transcript.entries), Kept(r.transcript.entries))
  }

  lemma QuietStepShows(s: SessionState, action: Action, r: SessionState, stopped: bool)
    requires GoesOn(s.transcript, r.transcript, stopped)
    requires MarksAt(s, action, r) == BreakOf(r.transcript) && SignsAt(s, action) == []
    requires forall id :: NewsAt(s, action, id) == if stopped then [Stopped] else []
    ensures StepShows(s, action, r)
  {
    hide RunsMatch, GoesOn, ToolOf, Told, Signs, MarksAt, NewsAt, SignsAt, Kept, Extends;
    forall marks | RunsMatch(s.transcript, marks) ensures RunsMatch(r.transcript, marks + MarksAt(s, action, r)) {
      GoesOnKeepsRuns(s.transcript, r.transcript, stopped, marks);
    }
    forall id ensures ToolOf(r.transcript.entries, id) == Told(ToolOf(s.transcript.entries, id), id, NewsAt(s, action, id)) {
      GoesOnTells(s.transcript, r.transcript, stopped, id);
    }
    GoesOnSigns(s.transcript, r.transcript, stopped);
    GoesOnExtends(s.transcript, r.transcript, stopped);
    assert Signs(s.transcript.entries) + [] == Signs(s.transcript.entries);
  }

  /** The marks of an event's own, before anything is shown besides. */
  function SpokenBy(s: SessionState, event: AgentEvent): seq<Mark> {
    match event
    case TextDelta(text) => PieceOf(false, text)
    case ReasoningDelta(text) => PieceOf(true, text)
    case _ => if EndsItsText(s, event) then [Break] else []
  }

  lemma OneOp(op: Op, id: string)
    ensures Marks([op]) == MarksOf(op) && NewsOfOps([op], id) == NewsOfOp(op, id) && PickedOfOps([op], SignsOnly) == PickedOfOp(op, SignsOnly)
    ensures Marks([]) == [] && NewsOfOps([], id) == [] && PickedOfOps([], SignsOnly) == []
  {
    assert [op][..0] == [];
  }

  /** What an event within a turn does to the transcript, told by the three readings. */
  lemma StreamedSaid(s: SessionState, event: AgentEvent, now: int, id: string)
    requires !event.Done?
    ensures var ops := StreamedOps(s, event, now);
            && (Marks(ops) == SpokenBy(s, event) || (|ops| == 1 && ops[0].Block? && Marks(ops) == [Break]))
            && NewsOfOps(ops, id) == NewsOfEvent(event, id)
            && (s.run.Some? ==> PickedOfOps(ops, SignsOnly) == SignsAt(s, Event(event)))
            && (ops != [] ==> CarriedId(event).None?)
  {
    var ops := StreamedOps(s, event, now);
    OneOp(if ops == [] then BlockClosed else ops[0], id);
    hide Marks, NewsOfOps, PickedOfOps;
    assert ops == [] || ops == [ops[0]];
  }

  lemma BlockEndsText(t: TranscriptState, ops: seq<Op>)
    requires AllValid(ops) && |ops| == 1 && ops[0].Block?
    ensures !EndsInText(Fold(t, ops))
  {
    assert ops[..0] == [];
  }

  lemma StreamedMarks(s: SessionState, event: AgentEvent, now: int, marks: seq<Mark>)
    requires s.run.Some? && !event.Done? && OpenBlockIsText(s.transcript) && RunsMatch(s.transcript, marks)
    ensures var r := ApplyStreamed(s, event, now);
            RunsMatch(r.transcript, marks + MarksAt(s, Event(event), r))
  {
    var ops := StreamedOps(s, event, now);
    StreamedSaid(s, event, now, []);
    OpsAreValid(s, event, now);
    var t := ReleasedBy(s.transcript, s.fork, event);
    var r := ApplyStreamed(s, event, now);
    hide RunsMatch, StreamedOps, OpenBlockIsText, EndsInText;
    if ops == [] {
      ReleasedGoesOn(s.transcript, s.fork, event);
      hide ReleasedBy, GoesOn;
      FoldOfNothing(t);
      GoesOnKeepsRuns(s.transcript, t, false, marks);
      assert SpokenBy(s, event) == [];
      NoTextMore(t, marks);
    } else {
      assert t == s.transcript;
      hide ReleasedBy, Marks;
      FoldKeepsRuns(t, marks, ops);
      if Marks(ops) == SpokenBy(s, event) {
        NoTextMore(r.transcript, marks);
      } else {
        BlockEndsText(t, ops);
      }
    }
  }

  lemma FoldOfNothing(t: TranscriptState)
    ensures Fold(t, []) == t && Marks([]) == []
  {
  }

  lemma NoTextMore(t: TranscriptState, marks: seq<Mark>)
    ensures RunsMatch(t, marks + []) ==> RunsMatch(t, marks + BreakOf(t))
  {
    hide RunsMatch;
    assert marks + [] == marks;
    if RunsMatch(t, marks) && !EndsInText(t) {
      NoTextNoRun(t, marks);
    }
  }

  lemma StreamedTells(s: SessionState, event: AgentEvent, now: int, id: string)
    requires s.run.Some? && !event.Done? && OpenBlockIsText(s.transcript)
    ensures var r := ApplyStreamed(s, event, now).transcript.entries;
            && ToolOf(r, id) == Told(ToolOf(s.transcript.entries, id), id, NewsOfEvent(event, id))
            && Signs(r) == Signs(s.transcript.entries) + SignsAt(s, Event(event))
            && Extends(Kept(s.transcript.entries), Kept(r))
  {
    var ops := StreamedOps(s, event, now);
    var t := ReleasedBy(s.transcript, s.fork, event);
    ReleasedGoesOn(s.transcript, s.fork, event);
    OpsAreValid(s, event, now);
    StreamedSaid(s, event, now, id);
    hide StreamedOps, ReleasedBy, GoesOn, ToolOf, Told, Picked, SignsAt, NewsOfEvent, Kept, Extends, SpokenBy, Fold;
    GoesOnTells(s.transcript, t, false, id);
    NothingTold(ToolOf(s.transcript.entries, id), id);
    FoldTells(t, ops, id);
    GoesOnSigns(s.transcript, t, false);
    FoldShows(t, ops, SignsOnly);
    GoesOnExtends(s.transcript, t, false);
    FoldExtends(t, ops);
    ExtendsOn(Kept(s.transcript.entries), Kept(t.entries), Kept(Fold(t, ops).entries));
  }

  lemma StreamedShows(s: SessionState, event: AgentEvent, now: int)
    requires s.run.Some? && !event.Done? && OpenBlockIsText(s.transcript)
    ensures StepShows(s, Event(event), ApplyStreamed(s, event, now))
  {
    var r := ApplyStreamed(s, event, now);
    assert forall id :: NewsAt(s, Event(event), id) == NewsOfEvent(event, id);
    hide RunsMatch, ApplyStreamed, MarksAt, ToolOf, Told, Signs, SignsAt, NewsOfEvent, NewsAt, Kept, Extends;
    forall marks | RunsMatch(s.transcript, marks) ensures RunsMatch(r.transcript, marks + MarksAt(s, Event(event), r)) {
      StreamedMarks(s, event, now, marks);
    }
    forall id
      ensures ToolOf(r.transcript.entries, id) == Told(ToolOf(s.transcript.entries, id), id, NewsAt(s, Event(event), id))
    {
      StreamedTells(s, event, now, id);
    }
    StreamedTells(s, event, now, []);
  }

  lemma TurnEndSaid(status: DoneStatus, error: Option<string>, id: string)
    ensures var ops := DoneOps(status, error);
            && (Marks(ops) == [Break] || Marks(ops) == [Break] + [Break])
            && NewsOfOps(ops, id) == [Stopped] && PickedOfOps(ops, SignsOnly) == []
  {
    var ops := DoneOps(status, error);
    var two := [BlockClosed, RunningCanceled];
    assert ops[..2] == two && two[..1] == [BlockClosed] && [BlockClosed][..0] == [];
    OneOp(BlockClosed, id);
    assert Marks(two) == [Break] && NewsOfOps(two, id) == [Stopped] && PickedOfOps(two, SignsOnly) == [];
  }

  /** Any number of breaks at one place is one. */
  lemma BreaksCollapse(t: TranscriptState, marks: seq<Mark>, first: seq<Mark>, more: seq<Mark>)
    requires first == [] || first == [Break]
    requires more == [Break] || more == [Break] + [Break]
    requires RunsMatch(t, marks + first + more)
    ensures RunsMatch(t, marks + [Break])
  {
    hide RunsMatch;
    var before := marks + first;
    assert before + ([Break] + [Break]) == before + [Break] + [Break];
    BreakTwice(t, before);
    assert marks + [] == marks;
    BreakTwice(t, marks);
  }

  lemma TurnEndMarks(s: SessionState, event: AgentEvent, marks: seq<Mark>)
    requires event.Done? && OpenBlockIsText(s.transcript) && RunsMatch(s.transcript, marks)
    ensures RunsMatch(EndTurn(s, event).transcript, marks + [Break])
  {
    var ops := DoneOps(event.status, event.error);
    var t := ReleasedBy(s.transcript, s.fork, event);
    TurnEndSaid(event.status, event.error, []);
    ReleasedGoesOn(s.transcript, s.fork, event);
    OpsAreValid(s, event, 0);
    hide RunsMatch, ReleasedBy, GoesOn, DoneOps, OpenBlockIsText, Marks, EndsInText, Fold;
    GoesOnKeepsRuns(s.transcript, t, false, marks);
    FoldKeepsRuns(t, marks + BreakOf(t), ops);
    BreaksCollapse(Fold(t, ops), marks, BreakOf(t), Marks(ops));
  }

  lemma BreaksMore(t: TranscriptState, t': TranscriptState, marks: seq<Mark>)
    requires RunsMatch(t, marks + [Break]) && GoesOn(t, t', false)
    ensures RunsMatch(t', marks + [Break])
  {
    GoesOnKeepsRuns(t, t', false, marks + [Break]);
    assert marks + [Break] + [] == marks + [Break];
    BreakTwice(t', marks);
    hide RunsMatch, GoesOn;
  }

  lemma TurnEndTells(s: SessionState, event: AgentEvent, t': TranscriptState, id: string)
    requires event.Done? && OpenBlockIsText(s.transcript) && GoesOn(EndTurn(s, event).transcript, t', false)
    ensures ToolOf(t'.entries, id) == Told(ToolOf(s.transcript.entries, id), id, [Stopped])
    ensures Signs(t'.entries) == Signs(s.transcript.entries)
    ensures Extends(Kept(s.transcript.entries), Kept(t'.entries))
  {
    var ops := DoneOps(event.status, event.error);
    var t, end := ReleasedBy(s.transcript, s.fork, event), EndTurn(s, event).transcript;
    ReleasedGoesOn(s.transcript, s.fork, event);
    OpsAreValid(s, event, 0);
    TurnEndSaid(event.status, event.error, id);
    hide ReleasedBy, GoesOn, DoneOps, OpenBlockIsText, ToolOf, Told, Signs, NewsOfOps, PickedOfOps, Fold, Kept, Extends;
    GoesOnTells(s.transcript, t, false, id);
    NothingTold(ToolOf(s.transcript.entries, id), id);
    FoldTells(t, ops, id);
    GoesOnTells(end, t', false, id);
    NothingTold(ToolOf(end.entries, id), id);
    GoesOnSigns(s.transcript, t, false);
    FoldShows(t, ops, SignsOnly);
    GoesOnSigns(end, t', false);
    GoesOnExtends(s.transcript, t, false);
    FoldExtends(t, ops);
    GoesOnExtends(end, t', false);
    ExtendsOn(Kept(s.transcript.entries), Kept(t.entries), Kept(end.entries));
    ExtendsOn(Kept(s.transcript.entries), Kept(end.entries), Kept(t'.entries));
  }

  /** What follows the end of a turn is the next queued message at most. */
  lemma TurnEndShows(s: SessionState, event: AgentEvent, r: SessionState)
    requires s.run.Some? && event.Done? && !FailsFork(s, event) && OpenBlockIsText(s.transcript)
    requires OpenBlockIsText(EndTurn(s, event).transcript) && AddsOne(EndTurn(s, event).transcript, r.transcript)
    ensures StepShows(s, Event(event), r)
  {
    var end := EndTurn(s, event).transcript;
    StaysAsItIs(end);
    AddedGoesOn(end, end, r.transcript, false);
    assert forall id :: NewsAt(s, Event(event), id) == [Stopped];
    assert SignsAt(s, Event(event)) == [] && MarksAt(s, Event(event), r) == [Break];
    hide RunsMatch, GoesOn, EndTurn, OpenBlockIsText, ToolOf, Told, Signs, AddsOne, NewsAt, MarksAt, SignsAt, Kept, Extends;
    forall marks | RunsMatch(s.transcript, marks) ensures RunsMatch(r.transcript, marks + MarksAt(s, Event(event), r)) {
      TurnEndMarks(s, event, marks);
      BreaksMore(end, r.transcript, marks);
    }
    forall id
      ensures ToolOf(r.transcript.entries, id) == Told(ToolOf(s.transcript.entries, id), id, NewsAt(s, Event(event), id))
    {
      TurnEndTells(s, event, r.transcript, id);
    }
    TurnEndTells(s, event, r.transcript, []);
    assert Signs(s.transcript.entries) + [] == Signs(s.transcript.entries);
  }

  lemma EventShows(s: SessionState, event: AgentEvent, env: Env)
    requires s.run.Some? && Consistent(s.transcript)
    ensures StepShows(s, Event(event), ApplyEvent(s, event, env))
  {
    if !event.Done? {
      hide Consistent, StepShows, ApplyStreamed;
      OpenIsText(s.transcript);
      StreamedShows(s, event, env.now);
    } else if FailsFork(s, event) {
      StaysAsItIs(s.transcript);
      hide GoesOn, StepShows;
      QuietStepShows(s, Event(event), s.(fork := s.fork.(failed := true)), false);
    } else {
      EndTurnKeepsConsistent(s, event);
      OpenIsText(s.transcript);
      OpenIsText(EndTurn(s, event).transcript);
      SendNextAdds(EndTurn(s, event), env);
      StaysTheSame(EndTurn(s, event).transcript);
      hide Consistent, StepShows, EndTurn, SendNextQueued, AddsOne, FailsFork, OpenBlockIsText;
      TurnEndShows(s, event, ApplyEvent(s, event, env));
    }
  }

  lemma OpenIsText(t: TranscriptState)
    ensures Consistent(t) ==> OpenBlockIsText(t)
  {
  }

  lemma EndTurnKeepsConsistent(s: SessionState, event: AgentEvent)
    requires event.Done? && Consistent(s.transcript)
    ensures Consistent(EndTurn(s, event).transcript)
  {
    hide Consistent, ReleasedBy, Fold, DoneOps;
    ReleasedKeepsConsistent(s.transcript, s.fork, event);
    OpsAreValid(s, event, 0);
    FoldKeepsConsistent(ReleasedBy(s.transcript, s.fork, event), DoneOps(event.status, event.error));
  }

  lemma RunStepShows(s: SessionState, action: Action, env: Env)
    requires action.ByTheRun() && Consistent(s.transcript)
    ensures StepShows(s, action, RunStep(s, action, env))
  {
    var r := RunStep(s, action, env);
    OpenIsText(s.transcript);
    StaysAsItIs(s.transcript);
    hide Consistent, StepShows, ApplyEvent, RunEnded, FailRun, GoesOn, OpenBlockIsText;
    if s.run.None? {
      QuietStepShows(s, action, s, false);
    } else if action.Event? {
      EventShows(s, action.event, env);
    } else if action.RunOver? {
      RunEndedGoesOn(s, env);
      QuietStepShows(s, action, r, true);
    } else if action.RunStartFailed? {
      FailedRunGoesOn(s, action.message, env);
      QuietStepShows(s, action, r, true);
    } else {
      AddedGoesOn(s.transcript, s.transcript, r.transcript, false);
      QuietStepShows(s, action, r, false);
    }
  }

  /** Every step shows exactly what its event says. */
  lemma EveryStepShows(s: SessionState, action: Action, env: Env)
    requires Consistent(s.transcript)
    ensures StepShows(s, action, Step(s, action, env))
  {
    var r := Step(s, action, env);
    OpenIsText(s.transcript);
    StaysAsItIs(s.transcript);
    hide Consistent, StepShows, RunStep, SendMessage, QueueStep, RetryStep, FinishQueuedEdit, GoesOn, AddsOne,
      OpenBlockIsText;
    if action.ByTheRun() {
      RunStepShows(s, action, env);
    } else {
      StaysTheSame(s.transcript);
      if action.OnQueued() && QueueIndex(s.queue.items, action.id).Some? {
        QueueStepAdds(s, action, QueueIndex(s.queue.items, action.id).value, env);
        AddedGoesOn(s.transcript, s.transcript, r.transcript, false);
      } else if action.Send? {
        SendMessageAdds(s, action.prompt, env);
        AddedGoesOn(s.transcript, s.transcript, r.transcript, false);
      } else if action.RetryUndelivered? && CanRetry(s, action.index) {
        RetryGoesOn(s, action.index, env);
      } else {
        UntouchedByCall(s, action, env);
      }
      QuietStepShows(s, action, r, false);
    }
  }

  lemma UntouchedByCall(s: SessionState, action: Action, env: Env)
    requires !action.ByTheRun() && !action.Send?
    requires action.OnQueued() ==> QueueIndex(s.queue.items, action.id).None?
    requires action.RetryUndelivered? ==> !CanRetry(s, action.index)
    ensures Step(s, action, env).transcript == s.transcript
  {
    hide FinishQueuedEdit, RunStep, QueueStep, SendMessage, DrainFailed, CanRetry;
  }

  // ---------------------------------------------------------------- every history

  /** Over every history, whatever was said before: the texts follow the marks read off the steps. */
  lemma {:induction false} HistoryKeepsRuns(s: SessionState, moves: seq<Move>, marks: seq<Mark>)
    requires Invariant(s) && RunsMatch(s.transcript, marks)
    ensures RunsMatch(Play(s, moves).transcript, marks + MarksOver(s, moves))
  {
    hide Invariant, RunsMatch, Step, MarksAt;
    if moves == [] {
      assert marks + [] == marks;
    } else {
      var init, last := moves[..|moves| - 1], moves[|moves| - 1];
      HistoryKeepsRuns(s, init, marks);
      EveryHistoryKeepsInvariant(s, init);
      OneMoreStep(s, moves);
      assert marks + MarksOver(s, init) + MarksAt(Play(s, init), last.action, Play(s, moves)) == marks + MarksOver(s, moves);
    }
  }

  lemma OneMoreStep(s: SessionState, moves: seq<Move>)
    requires moves != [] && Invariant(Play(s, moves[..|moves| - 1]))
    ensures StepShows(Play(s, moves[..|moves| - 1]), moves[|moves| - 1].action, Play(s, moves))
  {
    hide Step, StepShows, RunMatches, QueueIsSound, CommandsAreIsolated;
    EveryStepShows(Play(s, moves[..|moves| - 1]), moves[|moves| - 1].action, moves[|moves| - 1].env);
  }

  /**
   * Over every history: the texts of a chat are those it began with, and then the maximal runs of what its live runs
   * said, answers and thoughts apart, up to whatever ends a text or comes to stand behind it.
   */
  lemma AnswersAreShown(s: SessionState, moves: seq<Move>)
    requires Invariant(s) && !s.transcript.blockOpen
    ensures TextEntries(Play(s, moves).transcript.entries)
         == TextEntries(s.transcript.entries) + TextRuns(MarksOver(s, moves))
  {
    hide Invariant, RunsMatch, Play, MarksOver, PastMarks;
    if RunsMatch(s.transcript, PastMarks(s.transcript.entries)) {
      HistoryKeepsRuns(s, moves, PastMarks(s.transcript.entries));
    }
    RunsAfterThePast(s.transcript, Play(s, moves).transcript, MarksOver(s, moves));
  }

  /** Over every history: each tool is there from its first call on, with the last call, result and diff it was told. */
  lemma {:induction false} ToolsAreAsTold(s: SessionState, moves: seq<Move>, id: string)
    requires Invariant(s)
    ensures ToolOf(Play(s, moves).transcript.entries, id)
         == Told(ToolOf(s.transcript.entries, id), id, NewsOver(s, moves, id))
  {
    hide Invariant, Step, ToolOf, Told, NewsAt;
    if moves == [] {
      NothingTold(ToolOf(s.transcript.entries, id), id);
    } else {
      var init, last := moves[..|moves| - 1], moves[|moves| - 1];
      ToolsAreAsTold(s, init, id);
      EveryHistoryKeepsInvariant(s, init);
      OneMoreStep(s, moves);
      ToldJoins(ToolOf(s.transcript.entries, id), id, NewsOver(s, init, id), NewsAt(Play(s, init), last.action, id));
    }
  }

  /** Over every history: images and notices are those the events name, in order, and no entry leaves its place. */
  lemma {:induction false} SignsAreShown(s: SessionState, moves: seq<Move>)
    requires Invariant(s)
    ensures Signs(Play(s, moves).transcript.entries) == Signs(s.transcript.entries) + SignsOver(s, moves)
    ensures Extends(Kept(s.transcript.entries), Kept(Play(s, moves).transcript.entries))
  {
    hide Invariant, Step, Signs, SignsAt, Kept, Extends;
    if moves == [] {
      SameExtends(Kept(s.transcript.entries));
      assert Signs(s.transcript.entries) + [] == Signs(s.transcript.entries);
    } else {
      var init := moves[..|moves| - 1];
      SignsAreShown(s, init);
      EveryHistoryKeepsInvariant(s, init);
      OneMoreStep(s, moves);
      ExtendsOn(
        Kept(s.transcript.entries), Kept(Play(s, init).transcript.entries), Kept(Play(s, moves).transcript.entries));
    }
  }

  // ---------------------------------------------------------------- what events set besides

  /** The agent is at work again, with or without a message. */
  predicate BeginsWork(event: AgentEvent) {
    || event.TextDelta? || event.ReasoningDelta? || event.SteerConfirmed? || event.ToolCallEvent?
    || event == Compacting(true)
  }

  lemma NextSetsWork(s: SessionState, env: Env)
    requires s.working == s.promptAfterStop.Some?
    ensures var r := SendNextQueued(s, env);
            && (r.working <==> r.promptAfterStop.Some? || |r.handed| > |s.handed|)
            && (r.restartOnNextSend ==> s.restartOnNextSend)
            && r.noticedAutoUnavailable == s.noticedAutoUnavailable
  {
    hide IsCommand, Prompt.Merge, PushUser, ForkAtStart;
  }

  /**
   * While an event of the live run is handled: a turn that ends leaves the chat at work only if a message waits or one
   * was handed over, any other event never ends its work; and the notice about auto mode is given once at most.
   */
  lemma EventSetsFlags(s: SessionState, event: AgentEvent, env: Env)
    requires s.run.Some?
    ensures var r := Step(s, Event(event), env);
            && (if event.Done? && !IsHeldBack(s, event) then
                  (r.working <==> r.promptAfterStop.Some? || |r.handed| > |s.handed|)
                  && (r.restartOnNextSend ==> s.restartOnNextSend)
                else
                  (r.working <==> s.working || BeginsWork(event))
                  && (r.restartOnNextSend <==> s.restartOnNextSend || (event == Compacted(true) && s.kind == Claude)))
            && (r.noticedAutoUnavailable <==> s.noticedAutoUnavailable || ReportsNoAuto(s, event))
  {
    hide SendNextQueued, Fold, StreamedOps, DoneOps, StreamedSubagents, StreamedFork, NamedBy, ReleasedBy;
    if event.Done? && !FailsFork(s, event) {
      NextSetsWork(EndTurn(s, event), env);
    }
  }
}
