/** A forked chat: one native copy is tried, and if it fails the saved history goes along once as text. */
module SessionForks {
  import opened Wrappers
  import opened Text
  import opened Prompts
  import opened Transcripts
  import opened TranscriptFold
  import opened Sessions
  import opened SessionInvariants

  function IsRetry(handover: Handover): nat {
    if handover.Started? && handover.cause == ForkRetry then 1 else 0
  }

  function SendsHistory(handover: Handover): nat {
    if handover.Started? && handover.withHistory then 1 else 0
  }

  /** How many of the handovers are second tries of a failed native copy. */
  function Retries(handed: seq<Handover>): nat {
    if handed == [] then 0 else Retries(handed[..|handed| - 1]) + IsRetry(handed[|handed| - 1])
  }

  /** How many of the handovers carried the saved history. */
  function Histories(handed: seq<Handover>): nat {
    if handed == [] then 0 else Histories(handed[..|handed| - 1]) + SendsHistory(handed[|handed| - 1])
  }

  /** A native copy can still be tried or is being tried. */
  predicate MayCopy(fork: Fork) {
    fork.source.Some? || fork.prompt.Some?
  }

  /** What one step may do to the counts: only use up what is still there. */
  predicate UsesUp(s: SessionState, r: SessionState) {
    && Retries(s.handed) <= Retries(r.handed)
    && Histories(s.handed) <= Histories(r.handed)
    && Retries(r.handed) + (if MayCopy(r.fork) then 1 else 0) <= Retries(s.handed) + (if MayCopy(s.fork) then 1 else 0)
    && Histories(r.handed) + (if r.fork.context.Some? then 1 else 0)
       <= Histories(s.handed) + (if s.fork.context.Some? then 1 else 0)
  }

  lemma CountsOfOneMore(handed: seq<Handover>, handover: Handover)
    ensures Retries(handed + [handover]) == Retries(handed) + IsRetry(handover)
    ensures Histories(handed + [handover]) == Histories(handed) + SendsHistory(handover)
  {
    assert (handed + [handover])[..|handed|] == handed;
  }

  lemma StartUsesUp(s: SessionState, glued: Glued, cause: StartCause)
    requires cause != ForkRetry
    ensures UsesUp(s, StartRun(s, glued, cause))
  {
    hide Retries, Histories, IsCommand;
    var r := StartRun(s, glued, cause);
    CountsOfOneMore(s.handed, r.handed[|s.handed|]);
  }

  lemma DeliverUsesUp(s: SessionState, prompt: Prompt, env: Env)
    ensures UsesUp(s, Deliver(s, prompt, env))
  {
    hide Retries, Histories, StartRun, MustWait, IsCommand;
    if !MustWait(s, prompt) {
      var accepted := Accept(s, prompt, env.now);
      CountsOfOneMore(s.handed, Steered(prompt, s.working));
      StartUsesUp(accepted, Single(prompt), Direct);
      assert accepted.fork == s.fork && accepted.handed == s.handed;
    }
  }

  lemma SendNextUsesUp(s: SessionState, env: Env)
    ensures UsesUp(s, SendNextQueued(s, env))
  {
    hide Retries, Histories, Deliver;
    if !s.working && !s.deleted && NextSendable(s.queue.items, s.queue.editing).Some? {
      var i := NextSendable(s.queue.items, s.queue.editing).value;
      DeliverUsesUp(s.(queue := Dequeue(s.queue, i)), s.queue.items[i].prompt, env);
    }
  }

  lemma RunEndedUsesUp(s: SessionState, env: Env)
    ensures UsesUp(s, RunEnded(s, env))
  {
    hide Retries, Histories, SendNextQueued, IsCommand;
    var dropped := DropRun(s);
    if RetriesFork(s) {
      CountsOfOneMore(s.handed, RunEnded(s, env).handed[|s.handed|]);
    } else if s.promptAfterStop.Some? && !s.deleted {
      StartUsesUp(dropped.(working := true, promptAfterStop := None), s.promptAfterStop.value, AfterStop);
    } else {
      SendNextUsesUp(dropped.(working := false, promptAfterStop := None), env);
    }
  }

  lemma EventUsesUp(s: SessionState, event: AgentEvent, env: Env)
    ensures UsesUp(s, ApplyEvent(s, event, env))
  {
    hide Retries, Histories, SendNextQueued, Fold, StreamedOps, StreamedSubagents, ReleasedBy;
    if event.Done? {
      SendNextUsesUp(EndTurn(s, event), env);
    }
  }

  lemma SendMessageUsesUp(s: SessionState, message: Prompt, env: Env)
    ensures UsesUp(s, SendMessage(s, message, env))
  {
    hide Retries, Histories, Deliver;
    var prompt := message.Trimmed();
    DeliverUsesUp(s, prompt, env);
    var queued := Enqueue(s.queue, prompt);
    if NextSendable(queued.items, queued.editing).Some? {
      var i := NextSendable(queued.items, queued.editing).value;
      DeliverUsesUp(s.(queue := Dequeue(queued, i)), queued.items[i].prompt, env);
    }
  }

  lemma QueueStepUsesUp(s: SessionState, action: Action, i: nat, env: Env)
    requires i < |s.queue.items|
    ensures UsesUp(s, QueueStep(s, action, i, env))
  {
    hide Retries, Histories, Deliver, TakeQueued, Moved;
    var queue, prompt := TakeQueued(s.queue, i), s.queue.items[i].prompt;
    var cut := if s.working && s.run.Some? then Some(Run(true)) else s.run;
    if action.SteerQueued? {
      DeliverUsesUp(s.(queue := queue), prompt, env);
    } else if action.SendQueuedNow? {
      DeliverUsesUp(s.(queue := queue, run := cut), prompt, env);
    } else {
      assert QueueStep(s, action, i, env).fork == s.fork && QueueStep(s, action, i, env).handed == s.handed;
    }
  }

  lemma StepUsesUp(s: SessionState, action: Action, env: Env)
    ensures UsesUp(s, Step(s, action, env))
  {
    hide Retries, Histories, SendMessage, QueueStep, RunEnded, ApplyEvent, DrainFailed, UndeliverLast, PushNotice,
      FinishQueuedEdit;
    if action.OnQueued() {
      if QueueIndex(s.queue.items, action.id).Some? {
        QueueStepUsesUp(s, action, QueueIndex(s.queue.items, action.id).value, env);
      }
    } else if action.Send? {
      SendMessageUsesUp(s, action.prompt, env);
    } else if action.Event? {
      EventUsesUp(s, action.event, env);
    } else if action.RunOver? {
      RunEndedUsesUp(s, env);
    } else if action.RunStartFailed? {
      RunEndedUsesUp(s.(fork := s.fork.(failed := true)), env);
      RunEndedUsesUp(s.(transcript := PushNotice(UndeliverLast(s.transcript), action.message, true)), env);
    } else if action.RetryUndelivered? && CanRetry(s, action.index) {
      var drained := s.(transcript := DrainFailed(s.transcript, action.index));
      SendMessageUsesUp(drained, s.transcript.entries[action.index].prompt, env);
    }
  }

  lemma {:induction false} HistoriesUseUp(s: SessionState, moves: seq<Move>)
    ensures UsesUp(s, Play(s, moves))
  {
    if moves != [] {
      hide Step, Retries, Histories, MayCopy;
      var init, last := moves[..|moves| - 1], moves[|moves| - 1];
      HistoriesUseUp(s, init);
      StepUsesUp(Play(s, init), last.action, last.env);
    }
  }

  /** From any fork, over any history: one retry at most, and the saved history in one run prompt at most. */
  lemma ForkIsRetriedOnce(s: SessionState, moves: seq<Move>)
    requires s.handed == []
    ensures Retries(Play(s, moves).handed) <= (if MayCopy(s.fork) then 1 else 0)
    ensures Histories(Play(s, moves).handed) <= (if s.fork.context.Some? then 1 else 0)
  {
    hide Play;
    HistoriesUseUp(s, moves);
  }

  /** The agent has named its session while the native copy was being tried: the copy has worked. */
  predicate CopyWorks(s: SessionState, event: AgentEvent) {
    && s.run.Some?
    && s.fork.Pending()
    && CarriedId(event).Some?
    && !FailsFork(s, event)
  }

  lemma CopyClearsFork(s: SessionState, event: AgentEvent, env: Env)
    requires CopyWorks(s, event)
    ensures var copied := Step(s, Event(event), env);
            && copied.fork.context.None? && !MayCopy(copied.fork)
            && Retries(copied.handed) == Retries(s.handed)
            && Histories(copied.handed) == Histories(s.handed)
  {
    hide SendNextQueued, Retries, Histories, Fold, StreamedOps, StreamedSubagents, ReleasedBy;
    if event.Done? {
      SendNextUsesUp(EndTurn(s, event), env);
    }
  }

  /** Once a native copy has worked, no later prompt carries the saved history and nothing is retried. */
  lemma NoHistoryAfterCopy(s: SessionState, event: AgentEvent, env: Env, moves: seq<Move>)
    requires CopyWorks(s, event)
    ensures var copied := Step(s, Event(event), env);
            && Retries(Play(copied, moves).handed) == Retries(s.handed)
            && Histories(Play(copied, moves).handed) == Histories(s.handed)
  {
    hide Step, Retries, Histories, Play;
    CopyClearsFork(s, event, env);
    HistoriesUseUp(Step(s, Event(event), env), moves);
  }

  // ---------------------------------------------------------------- a prompt waiting beside the retried run

  predicate WaitsForAStop(s: SessionState) {
    s.promptAfterStop.Some? ==> s.Stopping()
  }

  /** The end of the failed copy is retried at once, and a prompt sent after a stop stays where it is. */
  predicate RetryLeavesPrompt(s: SessionState, action: Action) {
    RetriesNow(s, action) && s.promptAfterStop.Some?
  }

  lemma DeliverWaits(s: SessionState, prompt: Prompt, env: Env)
    requires RunMatches(s) && WaitsForAStop(s)
    ensures WaitsForAStop(Deliver(s, prompt, env))
  {
    hide IsCommand, ForkAtStart;
    if !MustWait(s, prompt) {
      var accepted := Accept(s, prompt, env.now);
      assert WaitsForAStop(accepted);
      if accepted.Stopping() {
        assert HandOver(accepted, prompt, s.working, env.steerFits).run == accepted.run;
      } else {
        assert accepted.promptAfterStop.None?;
      }
    }
  }

  lemma SendNextWaits(s: SessionState, env: Env)
    requires RunMatches(s) && WaitsForAStop(s)
    ensures WaitsForAStop(SendNextQueued(s, env))
  {
    hide Deliver;
    if !s.working && !s.deleted && NextSendable(s.queue.items, s.queue.editing).Some? {
      var i := NextSendable(s.queue.items, s.queue.editing).value;
      DeliverWaits(s.(queue := Dequeue(s.queue, i)), s.queue.items[i].prompt, env);
    }
  }

  lemma RunEndedWaits(s: SessionState, env: Env)
    ensures WaitsForAStop(RunEnded(s, env)) <==> !(RetriesFork(s) && s.promptAfterStop.Some?)
  {
    hide SendNextQueued, ForkAtStart;
    DropRunSettles(s);
    var idle := DropRun(s).(working := false, promptAfterStop := None);
    SendNextWaits(idle, env);
  }

  lemma SendMessageWaits(s: SessionState, message: Prompt, env: Env)
    requires RunMatches(s) && WaitsForAStop(s)
    ensures WaitsForAStop(SendMessage(s, message, env))
  {
    hide Deliver;
    var prompt := message.Trimmed();
    DeliverWaits(s, prompt, env);
    var queued := Enqueue(s.queue, prompt);
    if NextSendable(queued.items, queued.editing).Some? {
      var i := NextSendable(queued.items, queued.editing).value;
      DeliverWaits(s.(queue := Dequeue(queued, i)), queued.items[i].prompt, env);
    }
  }

  lemma QueueStepWaits(s: SessionState, action: Action, i: nat, env: Env)
    requires RunMatches(s) && WaitsForAStop(s) && i < |s.queue.items|
    ensures WaitsForAStop(QueueStep(s, action, i, env))
  {
    hide Deliver, TakeQueued, Moved;
    var queue, prompt := TakeQueued(s.queue, i), s.queue.items[i].prompt;
    var cut := if s.working && s.run.Some? then Some(Run(true)) else s.run;
    if action.SteerQueued? {
      DeliverWaits(s.(queue := queue), prompt, env);
    } else if action.SendQueuedNow? {
      DeliverWaits(s.(queue := queue, run := cut), prompt, env);
    }
  }

  /** A waiting prompt always waits for a cancelled run, except that one kind of step leaves it beside a fresh one. */
  lemma OnlyARetryBreaksTheWait(s: SessionState, action: Action, env: Env)
    requires RunMatches(s) && WaitsForAStop(s)
    ensures WaitsForAStop(Step(s, action, env)) <==> !RetryLeavesPrompt(s, action)
  {
    hide SendMessage, QueueStep, RunEnded, SendNextQueued, ApplyStreamed, DrainFailed, UndeliverLast, PushNotice,
      FinishQueuedEdit;
    if action.OnQueued() {
      if QueueIndex(s.queue.items, action.id).Some? {
        QueueStepWaits(s, action, QueueIndex(s.queue.items, action.id).value, env);
      }
    } else if action.Send? {
      SendMessageWaits(s, action.prompt, env);
    } else if action.Event? {
      if s.run.Some? {
        EventWaits(s, action.event, env);
      }
    } else if action.RunOver? {
      RunEndedWaits(s, env);
    } else if action.RunStartFailed? {
      RunEndedWaits(s.(fork := s.fork.(failed := true)), env);
      RunEndedWaits(s.(transcript := PushNotice(UndeliverLast(s.transcript), action.message, true)), env);
    } else if action.RetryUndelivered? && CanRetry(s, action.index) {
      RetryWaits(s, action.index, env);
    }
  }

  lemma EventWaits(s: SessionState, event: AgentEvent, env: Env)
    requires RunMatches(s) && WaitsForAStop(s) && s.run.Some?
    ensures WaitsForAStop(ApplyEvent(s, event, env))
  {
    hide SendNextQueued, Fold, StreamedOps, StreamedSubagents, StreamedFork, NamedBy, ReleasedBy;
    if event.Done? {
      SendNextWaits(EndTurn(s, event), env);
    }
  }

  lemma RetryWaits(s: SessionState, index: nat, env: Env)
    requires RunMatches(s) && WaitsForAStop(s) && CanRetry(s, index)
    ensures WaitsForAStop(RetryStep(s, index, env))
  {
    hide SendMessage, DrainFailed, AllSettled;
    if NoRunningTool(s.transcript) {
      DrainKeepsNoRunningTool(s.transcript, index);
    }
    SendMessageWaits(s.(transcript := DrainFailed(s.transcript, index)), s.transcript.entries[index].prompt, env);
  }

  /** A chat that was never forked always waits for a cancelled run. */
  lemma {:induction false} NeverForkedAlwaysWaits(s: SessionState, moves: seq<Move>)
    requires Invariant(s) && WaitsForAStop(s) && !MayCopy(s.fork)
    ensures WaitsForAStop(Play(s, moves)) && !MayCopy(Play(s, moves).fork)
  {
    if moves != [] {
      hide Step, QueueIsSound, TranscriptsAreConsistent, CommandsAreIsolated, RunMatches, Retries, Histories;
      var init, last := moves[..|moves| - 1], moves[|moves| - 1];
      NeverForkedAlwaysWaits(s, init);
      EveryHistoryKeepsInvariant(s, init);
      OnlyARetryBreaksTheWait(Play(s, init), last.action, last.env);
      StepUsesUp(Play(s, init), last.action, last.env);
    }
  }

  /** A fork that was stopped, was sent a message, and then failed its copy: the message waits beside a live run. */
  lemma RetryCanLeavePromptBesideLiveRun(s: SessionState, glued: Glued, later: Prompt, env: Env)
    requires s.run == Some(Run(false)) && s.working && !s.deleted && s.promptAfterStop.None?
    requires s.fork.Pending() && s.fork.prompt == Some(glued) && !later.Trimmed().IsEmpty()
    requires !IsCommand(later.Trimmed().text)
    ensures var stopped := Step(Step(s, Stop, env), Send(later), env);
            var failed := Step(stopped, Event(Done(RunErrored, None, None)), env);
            var retried := Step(failed, RunOver, env);
            && retried.promptAfterStop == Some(Single(later.Trimmed()))
            && retried.run == Some(Run(false))
            && retried.handed == s.handed + [Started(
                 glued, ForkRetry, false, s.fork.context.Some? && !IsCommand(glued.prompt.text))]
  {
    hide Step;
    MessageWaitsForStop(s, later, env);
    FailedCopyIsRetried(Step(Step(s, Stop, env), Send(later), env), glued, env);
  }

  lemma MessageWaitsForStop(s: SessionState, later: Prompt, env: Env)
    requires s.run == Some(Run(false)) && s.working && !s.deleted && s.promptAfterStop.None?
    requires !later.Trimmed().IsEmpty() && !IsCommand(later.Trimmed().text)
    ensures var stopped := Step(Step(s, Stop, env), Send(later), env);
            && stopped.promptAfterStop == Some(Single(later.Trimmed()))
            && stopped.run == Some(Run(true))
            && stopped.fork == s.fork && stopped.handed == s.handed && !stopped.deleted
  {
    hide IsBlank, Prompt.Trimmed, Prompt.IsEmpty, IsCommand, PushUser, StartRun;
    var stopping := Step(s, Stop, env);
    assert stopping == s.(promptAfterStop := None, userStopped := true, run := Some(Run(true)));
  }

  lemma FailedCopyIsRetried(s: SessionState, glued: Glued, env: Env)
    requires s.run.Some? && !s.deleted && s.fork.Pending() && s.fork.prompt == Some(glued)
    ensures var retried := Step(Step(s, Event(Done(RunErrored, None, None)), env), RunOver, env);
            && retried.promptAfterStop == s.promptAfterStop
            && retried.run == Some(Run(false))
            && retried.handed == s.handed + [Started(
                 glued, ForkRetry, false, s.fork.context.Some? && !IsCommand(glued.prompt.text))]
  {
    hide IsCommand, SettleSubagents, CancelRunning, SendNextQueued, EndTurn;
    var failed := Step(s, Event(Done(RunErrored, None, None)), env);
    assert failed == s.(fork := s.fork.(failed := true));
    assert RetriesFork(failed);
  }

  // ---------------------------------------------------------------- errors during the copy

  function ErrorTexts(entries: seq<Entry>): seq<string> {
    if entries == [] then []
    else
      ErrorTexts(entries[..|entries| - 1]) +
      if IsErrorNotice(entries[|entries| - 1]) then [entries[|entries| - 1].text] else []
  }

  lemma ErrorsOfPush(t: TranscriptState, entry: Entry)
    ensures ErrorTexts(Push(t, entry).entries) ==
            ErrorTexts(t.entries) + if IsErrorNotice(entry) then [entry.text] else []
  {
    assert Push(t, entry).entries[..|t.entries|] == t.entries;
  }

  lemma {:induction false} ErrorsOfUpdate(entries: seq<Entry>, i: nat, entry: Entry)
    requires i < |entries| && !entries[i].Notice? && !entry.Notice?
    ensures ErrorTexts(entries[i := entry]) == ErrorTexts(entries)
  {
    var n := |entries| - 1;
    if i == n {
      assert entries[i := entry][..n] == entries[..n];
    } else {
      assert entries[i := entry][..n] == entries[..n][i := entry];
      ErrorsOfUpdate(entries[..n], i, entry);
    }
  }

  lemma {:induction false} ErrorsOfCancel(entries: seq<Entry>)
    ensures ErrorTexts(CancelEntries(entries)) == ErrorTexts(entries)
  {
    if entries != [] {
      var n := |entries| - 1;
      assert CancelEntries(entries)[..n] == CancelEntries(entries[..n]);
      ErrorsOfCancel(entries[..n]);
    }
  }

  function ShownBy(op: Op): seq<string> {
    if op.Block? && IsErrorNotice(op.entry) then [op.entry.text] else []
  }

  lemma ErrorsOfOp(t: TranscriptState, op: Op)
    ensures ErrorTexts(Apply(t, op).entries) == ErrorTexts(t.entries) + ShownBy(op)
  {
    hide ErrorTexts;
    match op
    case Delta(text, thinking, now) =>
      var n := |t.entries|;
      var r := AppendText(t, text, thinking, now);
      if |r.entries| == n {
        if text != [] {
          ErrorsOfUpdate(t.entries, n - 1, r.entries[n - 1]);
        }
      } else {
        ErrorsOfPush(t, r.entries[n]);
      }
    case Block(entry) => ErrorsOfPush(t, entry);
    case BlockClosed =>
    case ToolCalled(id, call) =>
      if LastTool(t.entries, id).Some? {
        var i := LastTool(t.entries, id).value;
        ErrorsOfUpdate(t.entries, i, StartTool(t, id, call).entries[i]);
      } else {
        ErrorsOfPush(t, Tool(ToolEntry(id, call, Running, None, DiffForCall(call))));
      }
    case ToolFinished(id, isError, output, diff) =>
      if LastTool(t.entries, id).Some? {
        var i := LastTool(t.entries, id).value;
        ErrorsOfUpdate(t.entries, i, Tool(Finished(t.entries[i].tool, isError, output, diff)));
      }
    case RunningCanceled => ErrorsOfCancel(t.entries);
  }

  lemma {:induction false} ErrorsOfReleased(t: TranscriptState, errors: seq<string>)
    ensures ErrorTexts(PushErrors(t, errors).entries) == ErrorTexts(t.entries) + errors
  {
    hide ErrorTexts;
    if errors != [] {
      var init, last := errors[..|errors| - 1], errors[|errors| - 1];
      ErrorsOfReleased(t, init);
      ErrorsOfPush(PushErrors(t, init), Notice(last, true));
      assert errors == init + [last];
    }
  }

  function ShownByAll(ops: seq<Op>): seq<string> {
    if ops == [] then [] else ShownByAll(ops[..|ops| - 1]) + ShownBy(ops[|ops| - 1])
  }

  lemma {:induction false} ErrorsOfFold(t: TranscriptState, ops: seq<Op>)
    ensures ErrorTexts(Fold(t, ops).entries) == ErrorTexts(t.entries) + ShownByAll(ops)
  {
    if ops != [] {
      ErrorsOfFold(t, ops[..|ops| - 1]);
      ErrorsOfOp(Fold(t, ops[..|ops| - 1]), ops[|ops| - 1]);
    }
  }

  lemma ShownByOne(op: Op)
    ensures ShownByAll([op]) == ShownBy(op)
  {
    assert [op][..0] == [];
  }

  /** The error an event reports at once. */
  function ReportedNow(s: SessionState, event: AgentEvent): seq<string> {
    match event
    case ErrorEvent(message) => if s.fork.Pending() then [] else [message]
    case Done(RunErrored, error, _) => [error.GetOr(STOPPED_WITH_ERROR)]
    case _ => []
  }

  /** The held-back errors an event lets out: those of the copy it shows to have worked. */
  function LetOut(s: SessionState, event: AgentEvent): seq<string> {
    if CarriedId(event).Some? && s.fork.nativeSessionId != CarriedId(event) && s.fork.prompt.Some? then s.fork.errors
    else []
  }

  /** The error notices one step adds to the transcript. */
  function NewErrors(s: SessionState, action: Action): seq<string> {
    if s.run.None? then []
    else
      match action
      case Event(event) => if FailsFork(s, event) then [] else LetOut(s, event) + ReportedNow(s, event)
      case StreamError(message) => [message]
      case RunStartFailed(message) => if s.fork.Pending() then [] else [message]
      case _ => []
  }

  lemma EventErrors(s: SessionState, event: AgentEvent, env: Env)
    requires s.run.Some?
    ensures ErrorTexts(ApplyEvent(s, event, env).transcript.entries) ==
            ErrorTexts(s.transcript.entries) + NewErrors(s, Event(event))
  {
    hide SendNextQueued, StreamedSubagents, NamedBy, StreamedFork, ErrorTexts, Fold, PushErrors, ShownByAll,
      StreamedOps, DoneOps, Resumes, ShowsAutoNotice;
    if event.Done? {
      if !FailsFork(s, event) {
        hide LetOut, ReportedNow, ReleasedBy;
        EndTurnErrors(s, event);
        SendNextErrors(EndTurn(s, event), env);
      }
    } else {
      StreamedErrors(s, event, env.now);
    }
  }

  lemma ReleasedErrors(s: SessionState, event: AgentEvent)
    ensures ErrorTexts(ReleasedBy(s.transcript, s.fork, event).entries)
         == ErrorTexts(s.transcript.entries) + LetOut(s, event)
  {
    hide ErrorTexts, PushErrors;
    ErrorsOfReleased(s.transcript, s.fork.errors);
  }

  lemma EndTurnErrors(s: SessionState, event: AgentEvent)
    requires event.Done?
    ensures ErrorTexts(EndTurn(s, event).transcript.entries)
         == ErrorTexts(s.transcript.entries) + (LetOut(s, event) + ReportedNow(s, event))
  {
    hide ErrorTexts, Fold, ShownByAll, DoneOps, ReleasedBy, LetOut, NamedBy;
    ReleasedErrors(s, event);
    ErrorsOfFold(ReleasedBy(s.transcript, s.fork, event), DoneOps(event.status, event.error));
    DoneOpsShow(event.status, event.error);
  }

  lemma StreamedErrors(s: SessionState, event: AgentEvent, now: int)
    requires !event.Done?
    ensures ErrorTexts(ApplyStreamed(s, event, now).transcript.entries)
         == ErrorTexts(s.transcript.entries) + (LetOut(s, event) + ReportedNow(s, event))
  {
    hide ErrorTexts, Fold, ShownByAll, StreamedOps, ReleasedBy, LetOut, ReportedNow, StreamedSubagents, StreamedFork,
      Resumes, ShowsAutoNotice;
    ReleasedErrors(s, event);
    ErrorsOfFold(ReleasedBy(s.transcript, s.fork, event), StreamedOps(s, event, now));
    StreamedOpsShow(s, event, now);
  }

  lemma DoneOpsShow(status: DoneStatus, error: Option<string>)
    ensures ShownByAll(DoneOps(status, error)) ==
            if status == RunErrored then [error.GetOr(STOPPED_WITH_ERROR)] else []
  {
    var ops := DoneOps(status, error);
    assert [BlockClosed, RunningCanceled][..1] == [BlockClosed] && [BlockClosed][..0] == [];
    assert ShownByAll([BlockClosed]) == [];
    assert ShownByAll([BlockClosed, RunningCanceled]) == [];
    if status == RunErrored {
      assert ops[..2] == [BlockClosed, RunningCanceled];
    } else {
      assert ops == [BlockClosed, RunningCanceled];
    }
  }

  lemma StreamedOpsShow(s: SessionState, event: AgentEvent, now: int)
    requires !event.Done?
    ensures ShownByAll(StreamedOps(s, event, now)) == ReportedNow(s, event)
  {
    var ops := StreamedOps(s, event, now);
    if ops != [] {
      ShownByOne(ops[0]);
      assert ops == [ops[0]];
    }
  }

  lemma DeliverErrors(s: SessionState, prompt: Prompt, env: Env)
    ensures ErrorTexts(Deliver(s, prompt, env).transcript.entries) == ErrorTexts(s.transcript.entries)
  {
    hide Deliver, ErrorTexts, MustWait;
    DeliverEffect(s, prompt, env);
    ErrorsOfPush(s.transcript, User(prompt, env.now, false));
  }

  lemma SendNextErrors(s: SessionState, env: Env)
    ensures ErrorTexts(SendNextQueued(s, env).transcript.entries) == ErrorTexts(s.transcript.entries)
  {
    hide Deliver, ErrorTexts;
    if !s.working && !s.deleted && NextSendable(s.queue.items, s.queue.editing).Some? {
      var i := NextSendable(s.queue.items, s.queue.editing).value;
      DeliverErrors(s.(queue := Dequeue(s.queue, i)), s.queue.items[i].prompt, env);
    }
  }

  lemma RunEndedErrors(s: SessionState, env: Env)
    ensures ErrorTexts(RunEnded(s, env).transcript.entries) == ErrorTexts(s.transcript.entries)
  {
    hide SendNextQueued, ForkAtStart, ErrorTexts, SettleSubagents, IsCommand;
    ErrorsOfCancel(s.transcript.entries);
    SendNextErrors(DropRun(s).(working := false, promptAfterStop := None), env);
  }

  lemma SendMessageErrors(s: SessionState, message: Prompt, env: Env)
    ensures ErrorTexts(SendMessage(s, message, env).transcript.entries) == ErrorTexts(s.transcript.entries)
  {
    hide Deliver, ErrorTexts;
    var prompt := message.Trimmed();
    DeliverErrors(s, prompt, env);
    var queued := Enqueue(s.queue, prompt);
    if NextSendable(queued.items, queued.editing).Some? {
      var i := NextSendable(queued.items, queued.editing).value;
      DeliverErrors(s.(queue := Dequeue(queued, i)), queued.items[i].prompt, env);
    }
  }

  lemma QueueStepErrors(s: SessionState, action: Action, i: nat, env: Env)
    requires i < |s.queue.items|
    ensures ErrorTexts(QueueStep(s, action, i, env).transcript.entries) == ErrorTexts(s.transcript.entries)
  {
    hide Deliver, TakeQueued, Moved, ErrorTexts;
    var queue, prompt := TakeQueued(s.queue, i), s.queue.items[i].prompt;
    var cut := if s.working && s.run.Some? then Some(Run(true)) else s.run;
    if action.SteerQueued? {
      DeliverErrors(s.(queue := queue), prompt, env);
    } else if action.SendQueuedNow? {
      DeliverErrors(s.(queue := queue, run := cut), prompt, env);
    }
  }

  lemma UndeliveredErrors(t: TranscriptState)
    ensures ErrorTexts(UndeliverLast(t).entries) == ErrorTexts(t.entries)
  {
    hide ErrorTexts;
    var n := |t.entries|;
    if n > 0 && t.entries[n - 1].User? {
      ErrorsOfUpdate(t.entries, n - 1, UndeliverLast(t).entries[n - 1]);
    }
  }

  lemma FailedStartErrors(s: SessionState, message: string, env: Env)
    ensures ErrorTexts(FailRun(s, message, env).transcript.entries) ==
            ErrorTexts(s.transcript.entries) + if s.fork.Pending() then [] else [message]
  {
    hide RunEnded, ErrorTexts, UndeliverLast;
    UndeliveredErrors(s.transcript);
    RunEndedErrors(s.(fork := s.fork.(failed := true)), env);
    var t := UndeliverLast(s.transcript);
    ErrorsOfPush(t, Notice(message, true));
    RunEndedErrors(s.(transcript := PushNotice(t, message, true)), env);
  }

  /** Which error notices a step adds: held-back ones come out, in order, when the copy works, and at no other time. */
  lemma ErrorsShownByStep(s: SessionState, action: Action, env: Env)
    requires !action.RetryUndelivered?
    ensures ErrorTexts(Step(s, action, env).transcript.entries) ==
            ErrorTexts(s.transcript.entries) + NewErrors(s, action)
  {
    hide SendMessage, QueueStep, RunEnded, ApplyEvent, FailRun, FinishQueuedEdit, ErrorTexts, Push;
    if action.OnQueued() {
      if QueueIndex(s.queue.items, action.id).Some? {
        QueueStepErrors(s, action, QueueIndex(s.queue.items, action.id).value, env);
      }
    } else if action.Send? {
      SendMessageErrors(s, action.prompt, env);
    } else if action.Event? {
      if s.run.Some? {
        EventErrors(s, action.event, env);
      }
    } else if action.StreamError? {
      ErrorsOfPush(s.transcript, Notice(action.message, true));
    } else if action.RunOver? {
      RunEndedErrors(s, env);
    } else if action.RunStartFailed? {
      FailedStartErrors(s, action.message, env);
    }
  }

  // ---------------------------------------------------------------- errors while the copy is being tried

  /** How many runs were started. */
  function Starts(handed: seq<Handover>): nat {
    if handed == [] then 0
    else Starts(handed[..|handed| - 1]) + if handed[|handed| - 1].Started? then 1 else 0
  }

  /** A step either starts a run, which holds no errors yet, or leaves the fork alone and brings no run. */
  predicate StartsOrLeavesFork(s: SessionState, r: SessionState) {
    if Starts(r.handed) > Starts(s.handed) then r.fork.errors == []
    else Starts(r.handed) == Starts(s.handed) && r.fork == s.fork && (r.run.Some? ==> s.run.Some?)
  }

  lemma EveryRunStartsWithoutErrors(s: SessionState, glued: Glued, cause: StartCause)
    ensures StartRun(s, glued, cause).fork.errors == []
    ensures Starts(StartRun(s, glued, cause).handed) == Starts(s.handed) + 1
  {
    var r := StartRun(s, glued, cause);
    assert r.handed[..|s.handed|] == s.handed;
  }

  lemma DeliverStartsOrLeaves(s: SessionState, prompt: Prompt, env: Env)
    ensures StartsOrLeavesFork(s, Deliver(s, prompt, env))
  {
    hide StartRun, IsCommand, Starts, Prompt.Merge;
    if !MustWait(s, prompt) {
      var accepted := Accept(s, prompt, env.now);
      var r := HandOver(accepted, prompt, s.working, env.steerFits);
      EveryRunStartsWithoutErrors(accepted, Single(prompt), Direct);
      if !accepted.Stopping() && accepted.run.Some? && env.steerFits {
        SteeringStartsNothing(s.handed, Steered(prompt, s.working));
      }
    }
  }

  lemma SteeringStartsNothing(handed: seq<Handover>, steered: Handover)
    requires steered.Steered?
    ensures Starts(handed + [steered]) == Starts(handed)
  {
    assert (handed + [steered])[..|handed|] == handed;
  }

  lemma SendNextStartsOrLeaves(s: SessionState, env: Env)
    ensures StartsOrLeavesFork(s, SendNextQueued(s, env))
  {
    hide Deliver, Starts;
    if !s.working && !s.deleted && NextSendable(s.queue.items, s.queue.editing).Some? {
      var i := NextSendable(s.queue.items, s.queue.editing).value;
      DeliverStartsOrLeaves(s.(queue := Dequeue(s.queue, i)), s.queue.items[i].prompt, env);
    }
  }

  lemma SendMessageStartsOrLeaves(s: SessionState, message: Prompt, env: Env)
    ensures StartsOrLeavesFork(s, SendMessage(s, message, env))
  {
    hide Deliver, Starts, Prompt.Trimmed, Prompt.IsEmpty;
    var prompt := message.Trimmed();
    DeliverStartsOrLeaves(s, prompt, env);
    var queued := Enqueue(s.queue, prompt);
    if NextSendable(queued.items, queued.editing).Some? {
      var i := NextSendable(queued.items, queued.editing).value;
      DeliverStartsOrLeaves(s.(queue := Dequeue(queued, i)), queued.items[i].prompt, env);
    }
  }

  lemma QueueStepStartsOrLeaves(s: SessionState, action: Action, i: nat, env: Env)
    requires i < |s.queue.items|
    ensures StartsOrLeavesFork(s, QueueStep(s, action, i, env))
  {
    hide Deliver, TakeQueued, Moved, Starts;
    var queue, prompt := TakeQueued(s.queue, i), s.queue.items[i].prompt;
    var cut := if s.working && s.run.Some? then Some(Run(true)) else s.run;
    if action.SteerQueued? {
      DeliverStartsOrLeaves(s.(queue := queue), prompt, env);
    } else if action.SendQueuedNow? {
      DeliverStartsOrLeaves(s.(queue := queue, run := cut), prompt, env);
    }
  }

  /** The end of a run starts another one, without errors, or leaves what was held back where nothing reads it. */
  lemma RunEndedStartsOrStops(s: SessionState, env: Env)
    ensures var r := RunEnded(s, env);
            if Starts(r.handed) > Starts(s.handed) then r.fork.errors == []
            else Starts(r.handed) == Starts(s.handed) && r.run.None? && r.fork.errors == s.fork.errors
                 && r.fork.nativeSessionId == s.fork.nativeSessionId
  {
    hide SendNextQueued, StartRun, Starts, SettleSubagents, CancelRunning;
    var dropped := DropRun(s);
    if RetriesFork(s) {
      EveryRunStartsWithoutErrors(
        dropped.(working := true, fork := dropped.fork.(source := None, errors := [])), s.fork.prompt.value, ForkRetry);
    } else if s.promptAfterStop.Some? && !s.deleted {
      EveryRunStartsWithoutErrors(
        dropped.(working := true, promptAfterStop := None), s.promptAfterStop.value, AfterStop);
    } else {
      SendNextStartsOrLeaves(dropped.(working := false, promptAfterStop := None), env);
    }
  }

  /** The agent names its session; the end of a turn that fails the copy does not count. */
  predicate NamesSession(s: SessionState, action: Action) {
    s.run.Some? && action.Event? && CarriedId(action.event).Some? && !FailsFork(s, action.event)
  }

  predicate StartsARun(s: SessionState, action: Action, env: Env) {
    Starts(Step(s, action, env).handed) > Starts(s.handed)
  }

  /** The native copy has neither worked nor been given up for another run. */
  predicate Trying(s: SessionState) {
    s.fork.nativeSessionId.None? && (s.run.Some? ==> s.fork.prompt.Some?)
  }

  /** The error a step adds to those held back. */
  function HeldBack(s: SessionState, action: Action): seq<string> {
    if s.run.Some? && action.Event? && action.event.ErrorEvent? then [action.event.message] else []
  }

  /** The error a step shows at once: the stream of events itself broke. */
  function ShownAtOnce(s: SessionState, action: Action): seq<string> {
    if s.run.Some? && action.StreamError? then [action.message] else []
  }

  lemma EventKeepsTrying(s: SessionState, event: AgentEvent, env: Env)
    requires s.run.Some? && Trying(s) && !NamesSession(s, Event(event))
    ensures var r := ApplyEvent(s, event, env);
            && Starts(r.handed) >= Starts(s.handed)
            && (Starts(r.handed) == Starts(s.handed) ==>
                  Trying(r) && r.fork.errors == s.fork.errors + HeldBack(s, Event(event)))
            && NewErrors(s, Event(event)) == []
  {
    hide SendNextQueued, Starts, Fold, StreamedOps, DoneOps, StreamedSubagents, ReleasedBy, ShowsAutoNotice, Resumes;
    if event.Done? && !FailsFork(s, event) {
      SendNextStartsOrLeaves(EndTurn(s, event), env);
    }
  }

  lemma FailedStartKeepsTrying(s: SessionState, message: string, env: Env)
    requires s.run.Some? && Trying(s)
    ensures var r := FailRun(s, message, env);
            && Starts(r.handed) >= Starts(s.handed)
            && (Starts(r.handed) == Starts(s.handed) ==> Trying(r) && r.fork.errors == s.fork.errors)
  {
    hide RunEnded, Starts;
    RunEndedStartsOrStops(s.(fork := s.fork.(failed := true)), env);
  }

  lemma StepKeepsTrying(s: SessionState, action: Action, env: Env)
    requires Trying(s) && !NamesSession(s, action) && !StartsARun(s, action, env)
    ensures var r := Step(s, action, env);
            && Trying(r)
            && r.fork.errors == s.fork.errors + HeldBack(s, action)
            && NewErrors(s, action) == ShownAtOnce(s, action)
  {
    hide SendMessage, QueueStep, RunEnded, ApplyEvent, FailRun, FinishQueuedEdit, Starts, DrainFailed;
    if action.OnQueued() {
      if QueueIndex(s.queue.items, action.id).Some? {
        QueueStepStartsOrLeaves(s, action, QueueIndex(s.queue.items, action.id).value, env);
      }
    } else if action.Send? {
      SendMessageStartsOrLeaves(s, action.prompt, env);
    } else if action.RetryUndelivered? {
      if CanRetry(s, action.index) {
        SendMessageStartsOrLeaves(
          s.(transcript := DrainFailed(s.transcript, action.index)), s.transcript.entries[action.index].prompt, env);
      }
    } else if s.run.Some? {
      if action.Event? {
        EventKeepsTrying(s, action.event, env);
      } else if action.RunOver? {
        RunEndedStartsOrStops(s, env);
      } else if action.RunStartFailed? {
        FailedStartKeepsTrying(s, action.message, env);
      }
    }
  }

  predicate TriesAt(s: SessionState, moves: seq<Move>, n: nat)
    requires n < |moves|
  {
    var before := Play(s, moves[..n]);
    !NamesSession(before, moves[n].action) && !StartsARun(before, moves[n].action, moves[n].env)
  }

  function HeldBackOver(s: SessionState, moves: seq<Move>): seq<string> {
    if moves == [] then []
    else
      var init := moves[..|moves| - 1];
      HeldBackOver(s, init) + HeldBack(Play(s, init), moves[|moves| - 1].action)
  }

  /** The error notices before a step, without those a retried message takes with it. */
  function ErrorsBefore(s: SessionState, action: Action): seq<string> {
    if action.RetryUndelivered? && CanRetry(s, action.index) then ErrorTexts(DrainFailed(s.transcript, action.index).entries)
    else ErrorTexts(s.transcript.entries)
  }

  lemma ErrorsShownByAnyStep(s: SessionState, action: Action, env: Env)
    ensures ErrorTexts(Step(s, action, env).transcript.entries) == ErrorsBefore(s, action) + NewErrors(s, action)
  {
    hide SendMessage, ErrorTexts, DrainFailed;
    if action.RetryUndelivered? {
      if CanRetry(s, action.index) {
        SendMessageErrors(
          s.(transcript := DrainFailed(s.transcript, action.index)), s.transcript.entries[action.index].prompt, env);
      }
    } else {
      hide Step, NewErrors;
      ErrorsShownByStep(s, action, env);
    }
  }

  lemma AppendAgain(a: seq<string>, b: seq<string>, c: seq<string>)
    ensures (a + b) + c == a + (b + c)
    ensures a + [] == a
  {
  }

  /** While the copy is tried, whatever else is called, no step shows an error held back: only a broken stream is shown. */
  lemma CopyErrorsAreNotShown(s: SessionState, moves: seq<Move>, n: nat)
    requires Trying(s) && n < |moves| && forall i | 0 <= i < |moves| :: TriesAt(s, moves, i)
    ensures var before := Play(s, moves[..n]);
            ErrorTexts(Play(s, moves[..n + 1]).transcript.entries)
            == ErrorsBefore(before, moves[n].action) + ShownAtOnce(before, moves[n].action)
  {
    hide Step, ErrorTexts, ErrorsBefore, NewErrors, ShownAtOnce, Trying, NamesSession, StartsARun, HeldBack;
    var before, last := Play(s, moves[..n]), moves[n];
    PrefixTries(s, moves, n);
    CopyErrorsAreHeldBack(s, moves[..n]);
    assert moves[..n + 1][..n] == moves[..n];
    assert TriesAt(s, moves, n);
    StepKeepsTrying(before, last.action, last.env);
    ErrorsShownByAnyStep(before, last.action, last.env);
  }

  lemma PrefixTries(s: SessionState, moves: seq<Move>, n: nat)
    requires n <= |moves| && forall i | 0 <= i < |moves| :: TriesAt(s, moves, i)
    ensures forall i | 0 <= i < n :: TriesAt(s, moves[..n], i)
  {
    hide NamesSession, StartsARun, Play;
    forall i | 0 <= i < n ensures TriesAt(s, moves[..n], i) {
      assert moves[..n][..i] == moves[..i];
      assert TriesAt(s, moves, i);
    }
  }

  /** They are held back in the order they arrive. */
  lemma {:induction false} CopyErrorsAreHeldBack(s: SessionState, moves: seq<Move>)
    requires Trying(s) && forall n | 0 <= n < |moves| :: TriesAt(s, moves, n)
    ensures Trying(Play(s, moves))
    ensures Play(s, moves).fork.errors == s.fork.errors + HeldBackOver(s, moves)
  {
    hide Step, Trying, NamesSession, StartsARun, HeldBack;
    if moves != [] {
      var init, last := moves[..|moves| - 1], moves[|moves| - 1];
      PrefixTries(s, moves, |init|);
      CopyErrorsAreHeldBack(s, init);
      assert TriesAt(s, moves, |init|);
      StepKeepsTrying(Play(s, init), last.action, last.env);
      AppendAgain(s.fork.errors, HeldBackOver(s, init), HeldBack(Play(s, init), last.action));
    }
  }

  /** If the agent then names its session, they are all shown, in that order. */
  lemma CopyErrorsComeOutIfItWorks(s: SessionState, moves: seq<Move>, event: AgentEvent, env: Env)
    requires Trying(s) && forall n | 0 <= n < |moves| :: TriesAt(s, moves, n)
    requires NamesSession(Play(s, moves), Event(event))
    ensures var tried := Play(s, moves);
            ErrorTexts(Step(tried, Event(event), env).transcript.entries) ==
            ErrorTexts(tried.transcript.entries)
            + ((s.fork.errors + HeldBackOver(s, moves)) + ReportedNow(tried, event))
  {
    hide ErrorTexts, Play, Step, HeldBackOver, TriesAt, ReportedNow;
    CopyErrorsAreHeldBack(s, moves);
    ErrorsShownByStep(Play(s, moves), Event(event), env);
  }

  // ---------------------------------------------------------------- errors once the run is over

  function Forget(s: SessionState): SessionState {
    s.(fork := s.fork.(errors := []))
  }

  /** Two sessions that differ at most in errors held back for a run that is no more. */
  predicate SameButForgotten(a: SessionState, b: SessionState) {
    Forget(a) == Forget(b) && (a.run.Some? ==> a == b)
  }

  lemma StartForgets(s: SessionState, glued: Glued, cause: StartCause)
    ensures StartRun(s, glued, cause) == StartRun(Forget(s), glued, cause)
  {
    hide IsCommand;
  }

  lemma DeliverForgets(s: SessionState, prompt: Prompt, env: Env)
    requires s.run.None?
    ensures Deliver(s, prompt, env) == Deliver(Forget(s), prompt, env)
  {
    hide StartRun, IsCommand, PushUser;
    var accepted := Accept(s, prompt, env.now);
    assert Forget(accepted) == Accept(Forget(s), prompt, env.now);
    StartForgets(accepted, Single(prompt), Direct);
  }

  /** What `Forget` leaves alone. */
  lemma ForgetKeeps(s: SessionState)
    ensures var f := Forget(s);
            && f.queue == s.queue && f.transcript == s.transcript && f.run == s.run && f.working == s.working
            && f.deleted == s.deleted && f.Stopping() == s.Stopping()
    ensures SameButForgotten(s, s) && (s.run.None? ==> SameButForgotten(s, Forget(s)))
  {
  }

  lemma ForgetCommutes(s: SessionState, queue: Queue, transcript: TranscriptState)
    ensures Forget(s.(queue := queue)) == Forget(s).(queue := queue)
    ensures Forget(s.(transcript := transcript)) == Forget(s).(transcript := transcript)
    ensures s.run.None? ==> SameButForgotten(s.(queue := queue), Forget(s).(queue := queue))
  {
  }

  lemma SendMessageForgets(s: SessionState, message: Prompt, env: Env)
    requires s.run.None?
    ensures SameButForgotten(SendMessage(s, message, env), SendMessage(Forget(s), message, env))
  {
    hide Deliver, Prompt.Trimmed, Prompt.IsEmpty, Forget, SameButForgotten;
    var prompt := message.Trimmed();
    ForgetKeeps(s);
    var queued := Enqueue(s.queue, prompt);
    ForgetCommutes(s, queued, s.transcript);
    DeliverForgets(s, prompt, env);
    ForgetKeeps(Deliver(s, prompt, env));
    if NextSendable(queued.items, queued.editing).Some? {
      var i := NextSendable(queued.items, queued.editing).value;
      ForgetCommutes(s, Dequeue(queued, i), s.transcript);
      DeliverForgets(s.(queue := Dequeue(queued, i)), queued.items[i].prompt, env);
      ForgetKeeps(Deliver(s.(queue := Dequeue(queued, i)), queued.items[i].prompt, env));
    }
  }

  lemma QueueStepForgets(s: SessionState, action: Action, i: nat, env: Env)
    requires s.run.None? && i < |s.queue.items|
    ensures SameButForgotten(QueueStep(s, action, i, env), QueueStep(Forget(s), action, i, env))
  {
    hide Deliver, TakeQueued, Moved, Forget, SameButForgotten;
    var taken := TakeQueued(s.queue, i);
    ForgetKeeps(s);
    ForgetCommutes(s, taken, s.transcript);
    if action.SteerQueued? || action.SendQueuedNow? {
      var prompt := s.queue.items[i].prompt;
      DeliverForgets(s.(queue := taken), prompt, env);
      ForgetKeeps(Deliver(s.(queue := taken), prompt, env));
      assert s.(queue := taken, run := s.run) == s.(queue := taken);
      assert Forget(s).(queue := taken, run := s.run) == Forget(s).(queue := taken);
    } else if action.MoveQueued? {
      ForgetCommutes(s, s.queue.(items := Moved(s.queue.items, i, action.toIndex)), s.transcript);
    } else if action.BeginEdit? {
      ForgetCommutes(s, s.queue.(editing := Some(action.id)), s.transcript);
    }
  }

  lemma StopForgets(s: SessionState)
    requires s.run.None?
    ensures SameButForgotten(StopRun(s), StopRun(Forget(s)))
  {
    assert StopRun(s) == s.(promptAfterStop := None, userStopped := true, working := false);
  }

  lemma SettingsForget(s: SessionState)
    requires s.run.None?
    ensures SameButForgotten(s.(restartOnNextSend := false), Forget(s).(restartOnNextSend := false))
  {
  }

  lemma SourceForgets(s: SessionState)
    requires s.run.None?
    ensures SameButForgotten(
              s.(fork := s.fork.(source := None)), Forget(s).(fork := Forget(s).fork.(source := None)))
  {
  }

  lemma DeletionForgets(s: SessionState)
    ensures SameButForgotten(
              s.(deleted := true, run := None, promptAfterStop := None, working := false),
              Forget(s).(deleted := true, run := None, promptAfterStop := None, working := false))
  {
  }

  lemma StepForgets(s: SessionState, action: Action, env: Env)
    requires s.run.None?
    ensures SameButForgotten(Step(s, action, env), Step(Forget(s), action, env))
  {
    hide SendMessage, QueueStep, RunEnded, ApplyEvent, FailRun, FinishQueuedEdit, DrainFailed, Forget, SameButForgotten;
    ForgetKeeps(s);
    if action.OnQueued() {
      if QueueIndex(s.queue.items, action.id).Some? {
        QueueStepForgets(s, action, QueueIndex(s.queue.items, action.id).value, env);
      }
    } else if action.Send? {
      SendMessageForgets(s, action.prompt, env);
    } else if action.RetryUndelivered? {
      if CanRetry(s, action.index) {
        var t := DrainFailed(s.transcript, action.index);
        ForgetCommutes(s, s.queue, t);
        SendMessageForgets(s.(transcript := t), s.transcript.entries[action.index].prompt, env);
      }
    } else if action.FinishEdit? {
      ForgetCommutes(s, FinishQueuedEdit(s.queue, action.id, action.edited), s.transcript);
    } else {
      StopForgets(s);
      SettingsForget(s);
      SourceForgets(s);
      DeletionForgets(s);
    }
  }

  lemma {:induction false} PlayForgets(a: SessionState, b: SessionState, moves: seq<Move>)
    requires SameButForgotten(a, b)
    ensures SameButForgotten(Play(a, moves), Play(b, moves))
  {
    hide Step;
    if moves != [] {
      var init, last := moves[..|moves| - 1], moves[|moves| - 1];
      var x, y := Play(a, init), Play(b, init);
      PlayForgets(a, b, init);
      if x.run.None? {
        StepForgets(x, last.action, last.env);
        StepForgets(y, last.action, last.env);
      }
    }
  }

  lemma EventStartsOrGoesOn(s: SessionState, event: AgentEvent, env: Env)
    requires s.run.Some?
    ensures var r := ApplyEvent(s, event, env);
            if Starts(r.handed) > Starts(s.handed) then r.fork.errors == [] else r.run.Some?
  {
    hide SendNextQueued, Starts, Fold, StreamedOps, DoneOps, StreamedSubagents, StreamedFork, NamedBy, ReleasedBy,
      ShowsAutoNotice, Resumes;
    if event.Done? && !FailsFork(s, event) {
      SendNextStartsOrLeaves(EndTurn(s, event), env);
      SendNextKeepsARun(EndTurn(s, event), env);
    }
  }

  lemma SendNextKeepsARun(s: SessionState, env: Env)
    requires s.run.Some?
    ensures SendNextQueued(s, env).run.Some?
  {
    hide HandOver, MustWait;
  }

  lemma StartedRunHasNoErrors(s: SessionState, action: Action, env: Env)
    requires StartsARun(s, action, env)
    ensures Step(s, action, env).fork.errors == []
  {
    hide SendMessage, QueueStep, RunEnded, ApplyEvent, FinishQueuedEdit, Starts, DrainFailed, UndeliverLast, PushNotice;
    if action.OnQueued() {
      if QueueIndex(s.queue.items, action.id).Some? {
        QueueStepStartsOrLeaves(s, action, QueueIndex(s.queue.items, action.id).value, env);
      }
    } else if action.Send? {
      SendMessageStartsOrLeaves(s, action.prompt, env);
    } else if action.RetryUndelivered? {
      if CanRetry(s, action.index) {
        SendMessageStartsOrLeaves(
          s.(transcript := DrainFailed(s.transcript, action.index)), s.transcript.entries[action.index].prompt, env);
      }
    } else if action.Event? {
      if s.run.Some? {
        EventStartsOrGoesOn(s, action.event, env);
      }
    } else if action.RunOver? {
      RunEndedStartsOrStops(s, env);
    } else if action.RunStartFailed? {
      RunEndedStartsOrStops(s.(fork := s.fork.(failed := true)), env);
      RunEndedStartsOrStops(s.(transcript := PushNotice(UndeliverLast(s.transcript), action.message, true)), env);
    }
  }

  /**
   * Once a step has ended the run, or put another one in its place, the errors held back for it are gone for good:
   * every later history is the one it would be had there never been any.
   */
  lemma HeldErrorsEndWithTheRun(s: SessionState, action: Action, env: Env, moves: seq<Move>)
    requires Step(s, action, env).run.None? || StartsARun(s, action, env)
    ensures var r := Step(s, action, env);
            && Play(r, moves).transcript == Play(Forget(r), moves).transcript
            && Forget(Play(r, moves)) == Forget(Play(Forget(r), moves))
  {
    hide Step, Play, Starts;
    var r := Step(s, action, env);
    if StartsARun(s, action, env) {
      StartedRunHasNoErrors(s, action, env);
    }
    PlayForgets(r, Forget(r), moves);
    SameTranscript(Play(r, moves), Play(Forget(r), moves));
  }

  lemma SameTranscript(a: SessionState, b: SessionState)
    requires Forget(a) == Forget(b)
    ensures a.transcript == b.transcript
  {
    assert Forget(a).transcript == a.transcript && Forget(b).transcript == b.transcript;
  }
}
