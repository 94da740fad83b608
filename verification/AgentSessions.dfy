/** The session object: every method leaves the value its function in `Sessions` describes. */
module AgentSessions {
  import opened Wrappers
  import opened Text
  import opened Prompts
  import opened Transcripts
  import opened TranscriptFold
  import opened Sessions
  import opened SavedChats

  class AgentSession {
    const kind: AgentKind
    const asksForAuto: bool
    const transcript: Transcript
    var subagents: map<string, Subagent>
    var working: bool
    var run: Option<Run>
    var promptAfterStop: Option<Glued>
    var userStopped: bool
    var queue: Queue
    var restartOnNextSend: bool
    var deleted: bool
    var noticedAutoUnavailable: bool
    var fork: Fork

    /** What was handed to runs so far. */
    ghost var handed: seq<Handover>

    ghost function State(): SessionState
      reads this, transcript
    {
      SessionState(
        kind, transcript.State(), subagents, working, run, promptAfterStop, userStopped, queue,
        restartOnNextSend, deleted, asksForAuto, noticedAutoUnavailable, fork, handed)
    }

    constructor (saved: SavedTranscript, metadata: Metadata)
      ensures State() == Load(saved, metadata)
      ensures fresh(transcript)
    {
      kind, asksForAuto := metadata.kind, metadata.asksForAuto;
      transcript := new Transcript(LoadEntries(saved.entries));
      subagents := LoadSubagents(saved.Subagents());
      working, run, promptAfterStop, userStopped := false, None, None, false;
      queue := Queue(LoadQueue(saved.Queue()), FIRST_NEW_ID, None);
      restartOnNextSend, deleted, noticedAutoUnavailable := false, false, false;
      fork := Fork(metadata.nativeSessionId, metadata.forkSource, metadata.forkContext, None, false, []);
      handed := [];
    }

    /** What the debounced save writes. */
    method SavedTranscriptOf() returns (saved: SavedTranscript)
      ensures Saves(saved, State())
    {
      var agents := SaveSubagents(subagents);
      saved := Current(transcript.entries, agents, PromptsOf(queue.items));
    }

    predicate IsStopping()
      reads this
    {
      run.Some? && run.value.cancelled
    }

    predicate CanSteer(prompt: Prompt)
      reads this
    {
      working && !(kind == Claude && IsCommand(prompt.text))
    }

    // -------------------------------------------------------------- the queue

    method FindNext() returns (at: Option<nat>)
      ensures at == NextSendable(queue.items, queue.editing)
    {
      var editing := queue.editing;
      at := FirstWhere(queue.items, (q: Queued) => !BeingEdited(q, editing));
      FirstWhereIsNextSendable(queue.items, editing);
    }

    method FindQueued(id: nat) returns (at: Option<nat>)
      ensures at == QueueIndex(queue.items, id)
    {
      at := FirstWhere(queue.items, (q: Queued) => q.id == id);
      FirstWhereIsQueueIndex(queue.items, id);
    }

    method EnqueueMessage(prompt: Prompt)
      modifies this`queue
      ensures queue == Enqueue(old(queue), prompt)
    {
      queue := queue.(lastId := queue.lastId + 1);
      queue := queue.(items := queue.items + [Queued(queue.lastId, prompt)]);
    }

    method RemoveAt(i: nat) returns (queued: Queued)
      requires i < |queue.items|
      modifies this`queue
      ensures queued == old(queue).items[i]
      ensures queue == Dequeue(old(queue), i)
    {
      queued := queue.items[i];
      queue := queue.(items := Removed(queue.items, i));
    }

    method TakeQueued(id: nat) returns (taken: Option<Prompt>)
      modifies this`queue
      ensures var at := QueueIndex(old(queue).items, id);
              if at.None? then taken == None && queue == old(queue)
              else
                && taken == Some(old(queue).items[at.value].prompt)
                && queue == Sessions.TakeQueued(old(queue), at.value)
    {
      var at := FindQueued(id);
      if at.None? {
        return None;
      }
      if queue.editing == Some(id) {
        queue := queue.(editing := None);
      }
      var queued := RemoveAt(at.value);
      return Some(queued.prompt);
    }

    method RemoveQueued(id: nat)
      modifies this`queue
      ensures var at := QueueIndex(old(queue).items, id);
              queue == if at.None? then old(queue) else Sessions.TakeQueued(old(queue), at.value)
    {
      var taken := TakeQueued(id);
    }

    method MoveQueued(id: nat, toIndex: nat)
      modifies this`queue
      ensures var at := QueueIndex(old(queue).items, id);
              queue == if at.None? then old(queue)
                       else old(queue).(items := Moved(old(queue).items, at.value, toIndex))
    {
      var at := FindQueued(id);
      if at.None? {
        return;
      }
      var queued := RemoveAt(at.value);
      var to := if toIndex <= |queue.items| then toIndex else |queue.items|;
      queue := queue.(items := InsertAt(queue.items, to, queued));
    }

    method BeginQueuedEdit(id: nat) returns (prompt: Option<Prompt>)
      modifies this`queue
      ensures var at := QueueIndex(old(queue).items, id);
              if at.None? then prompt == None && queue == old(queue)
              else
                && prompt == Some(old(queue).items[at.value].prompt)
                && queue == old(queue).(editing := Some(id))
    {
      var at := FindQueued(id);
      if at.None? {
        return None;
      }
      prompt := Some(queue.items[at.value].prompt);
      queue := queue.(editing := Some(id));
    }

    method FinishQueuedEdit(id: nat, edited: Option<Prompt>)
      modifies this`queue
      ensures queue == Sessions.FinishQueuedEdit(old(queue), id, edited)
    {
      hide IsBlank, QueueIndex;
      if queue.editing == Some(id) {
        queue := queue.(editing := None);
      }
      if edited.Some? && !edited.value.IsEmpty() {
        var at := FindQueued(id);
        if at.Some? {
          queue := queue.(items := queue.items[at.value := queue.items[at.value].(prompt := edited.value)]);
        } else {
          EnqueueMessage(edited.value);
        }
      }
    }

    // -------------------------------------------------------------- sending

    method Send(message: Prompt, env: Env)
      modifies this, transcript
      ensures State() == SendMessage(old(State()), message, env)
    {
      hide Trim, IsBlank, Sessions.Deliver, NextSendable;
      var prompt := message.(text := Trim(message.text));
      if prompt.IsEmpty() || deleted {
        return;
      }
      var stopping := IsStopping();
      if working && run.Some? && !stopping {
        if env.steerWhileWorking {
          Deliver(prompt, env);
        } else {
          EnqueueMessage(prompt);
        }
        return;
      }
      var sendable := FindNext();
      if !stopping && sendable.Some? {
        EnqueueMessage(prompt);
        var next := FindNext();
        if next.Some? {
          var queued := RemoveAt(next.value);
          Deliver(queued.prompt, env);
        }
        return;
      }
      Deliver(prompt, env);
    }

    method SteerQueued(id: nat, env: Env)
      modifies this, transcript
      ensures var at := QueueIndex(old(queue).items, id);
              State() == if at.None? then old(State()) else QueueStep(old(State()), Action.SteerQueued(id), at.value, env)
    {
      hide Sessions.Deliver, Sessions.TakeQueued;
      var taken := TakeQueued(id);
      if taken.Some? {
        Deliver(taken.value, env);
      }
    }

    method SendQueuedNow(id: nat, env: Env)
      modifies this, transcript
      ensures var at := QueueIndex(old(queue).items, id);
              State() == if at.None? then old(State()) else SendNow(old(State()), at.value, env)
    {
      hide Sessions.Deliver, Sessions.TakeQueued;
      var taken := TakeQueued(id);
      if taken.None? {
        return;
      }
      if working && run.Some? {
        run := Some(Run(true));
      }
      Deliver(taken.value, env);
    }

    method RetryUndelivered(index: nat, env: Env)
      modifies this, transcript
      ensures State() == RetryStep(old(State()), index, env)
    {
      hide SendMessage, DrainFailed;
      var entries := transcript.entries;
      if index >= |entries| || !entries[index].User? || !entries[index].undelivered {
        return;
      }
      transcript.Drain(index);
      Send(entries[index].prompt, env);
    }

    method Deliver(prompt: Prompt, env: Env)
      modifies this, transcript
      ensures State() == Sessions.Deliver(old(State()), prompt, env)
    {
      hide IsCommand, Sessions.StartRun, Prompt.Merge;
      var stopping := IsStopping();
      var steeringCommand := run.Some? && !stopping && !CanSteer(prompt);
      var mergingCommand :=
        && stopping
        && promptAfterStop.Some?
        && (IsCommand(promptAfterStop.value.prompt.text) || IsCommand(prompt.text));
      ghost var before := State();
      assert MustWait(before, prompt) == (working && (steeringCommand || mergingCommand));
      if working && (steeringCommand || mergingCommand) {
        queue := queue.(lastId := queue.lastId + 1);
        queue := queue.(items := [Queued(queue.lastId, prompt)] + queue.items);
        return;
      }
      userStopped := false;
      if restartOnNextSend && !working {
        run := None;
        restartOnNextSend := false;
      }
      transcript.PushEntry(User(prompt, env.now, false));
      ghost var wasWorking := working;
      working := true;
      assert State() == Accept(before, prompt, env.now);
      HandPrompt(prompt, wasWorking, env.steerFits);
    }

    /** The rest of `deliver`: the accepted message reaches a run, or waits for one. */
    method HandPrompt(prompt: Prompt, ghost wasWorking: bool, steerFits: bool)
      modifies this
      ensures State() == HandOver(old(State()), prompt, wasWorking, steerFits)
    {
      hide Prompt.Merge, Sessions.StartRun;
      if run.Some? {
        if run.value.cancelled {
          if promptAfterStop.Some? {
            promptAfterStop := Some(promptAfterStop.value.And(prompt));
          } else {
            promptAfterStop := Some(Single(prompt));
          }
          return;
        }
        if steerFits {
          handed := handed + [Steered(prompt, wasWorking)];
          return;
        }
        ghost var before := State();
        run := None;
        StartIgnoresRun(before, prompt);
      }
      StartRun(Single(prompt), Direct);
    }

    method Stop()
      modifies this
      ensures State() == StopRun(old(State()))
    {
      promptAfterStop := None;
      userStopped := true;
      if run.Some? {
        run := Some(Run(true));
      } else {
        working := false;
      }
    }

    method ChangeSettings()
      modifies this
      ensures State() == old(State()).(restartOnNextSend := old(run).Some?)
    {
      restartOnNextSend := run.Some?;
    }

    method CloseForDeletion()
      modifies this
      ensures State() == old(State()).(deleted := true, run := None, promptAfterStop := None, working := false)
    {
      deleted := true;
      run := None;
      promptAfterStop := None;
      working := false;
    }

    // -------------------------------------------------------------- runs

    method StartRun(glued: Glued, ghost cause: StartCause)
      modifies this
      ensures State() == Sessions.StartRun(old(State()), glued, cause)
    {
      hide IsCommand;
      restartOnNextSend := false;
      var source := if fork.nativeSessionId.None? then fork.source else None;
      fork := fork.(prompt := if source.Some? then Some(glued) else None, errors := []);
      var withHistory := source.None? && fork.context.Some? && !IsCommand(glued.prompt.text);
      if withHistory {
        fork := fork.(context := None);
      }
      handed := handed + [Started(glued, cause, source.Some?, withHistory)];
      run := Some(Run(false));
    }

    predicate NativeForkPending()
      reads this
    {
      fork.prompt.Some? && fork.nativeSessionId.None?
    }

    method FailRun(message: string, env: Env)
      modifies this, transcript
      ensures State() == Sessions.FailRun(old(State()), message, env)
    {
      hide Sessions.RunEnded;
      if NativeForkPending() {
        fork := fork.(failed := true);
        RunEnded(env);
        return;
      }
      transcript.MarkLastUndelivered();
      transcript.PushEntry(Notice(message, true));
      RunEnded(env);
    }

    method SettleAll(status: DoneStatus)
      modifies this`subagents
      ensures subagents == SettleSubagents(old(subagents), status)
    {
      hide CancelRunning;
      var ids := subagents.Keys;
      while ids != {}
        invariant ids <= subagents.Keys == old(subagents).Keys
        invariant forall id | id in subagents ::
          subagents[id] == if id in ids then old(subagents)[id] else SettleSubagent(old(subagents)[id], status)
      {
        var id :| id in ids;
        var subagent := subagents[id];
        subagent := subagent.(transcript := CancelRunning(subagent.transcript));
        if subagent.status.None? {
          subagent := subagent.(status := Some(status));
        }
        subagents := subagents[id := subagent];
        ids := ids - {id};
      }
      assert subagents == SettleSubagents(old(subagents), status);
    }

    /** The first half of `run_ended`: nothing is left running. */
    method Settle() returns (forkPrompt: Option<Glued>)
      modifies this, transcript
      ensures State() == DropRun(old(State()))
      ensures forkPrompt == if old(fork).failed then old(fork).prompt else None
    {
      hide SettleSubagents, CancelRunning;
      run := None;
      transcript.CancelRunningTools();
      SettleAll(RunInterrupted);
      forkPrompt := None;
      if fork.failed {
        forkPrompt := fork.prompt;
        fork := fork.(failed := false, prompt := None);
      }
    }

    method RunEnded(env: Env)
      modifies this, transcript
      ensures State() == Sessions.RunEnded(old(State()), env)
    {
      hide Sessions.SendNextQueued, Sessions.StartRun, SettleSubagents, CancelRunning;
      var forkPrompt := Settle();
      if forkPrompt.Some? && !deleted {
        fork := fork.(errors := [], source := None);
        working := true;
        StartRun(forkPrompt.value, ForkRetry);
        return;
      }
      var waiting := promptAfterStop;
      promptAfterStop := None;
      if waiting.Some? && !deleted {
        working := true;
        StartRun(waiting.value, AfterStop);
        return;
      }
      working := false;
      if !userStopped {
        SendNextQueued(env);
      }
    }

    method SendNextQueued(env: Env)
      modifies this, transcript
      ensures State() == Sessions.SendNextQueued(old(State()), env)
    {
      hide Sessions.Deliver, NextSendable;
      if working || deleted {
        return;
      }
      var next := FindNext();
      if next.Some? {
        var queued := RemoveAt(next.value);
        Deliver(queued.prompt, env);
      }
    }

    // -------------------------------------------------------------- events

    method SetNativeSessionId(id: string)
      modifies this, transcript
      ensures State() == old(State()).(
                fork := Named(old(fork), id),
                transcript := Released(old(transcript.State()), old(fork), id))
    {
      if fork.nativeSessionId == Some(id) {
        return;
      }
      var pending := fork.prompt.Some?;
      fork := fork.(nativeSessionId := Some(id), prompt := None);
      if pending {
        var errors := fork.errors;
        fork := fork.(source := None, context := None, errors := []);
        PushAll(errors);
      }
    }

    method PushAll(errors: seq<string>)
      modifies transcript
      ensures transcript.State() == PushErrors(old(transcript.State()), errors)
    {
      for i := 0 to |errors|
        invariant transcript.State() == PushErrors(old(transcript.State()), errors[..i])
      {
        transcript.PushEntry(Notice(errors[i], true));
        assert errors[..i + 1][..i] == errors[..i];
      }
      assert errors[..|errors|] == errors;
    }

    method NameSession(event: AgentEvent)
      modifies this, transcript
      ensures State() == old(State()).(
                fork := NamedBy(old(fork), event),
                transcript := ReleasedBy(old(transcript.State()), old(fork), event))
    {
      hide Named, Released;
      var id := CarriedId(event);
      if id.Some? {
        SetNativeSessionId(id.value);
      }
    }

    method ResumeWorking()
      modifies this`working
      ensures working
    {
      working := true;
    }

    /** Every event but the end of a turn. */
    method Stream(event: AgentEvent, now: int)
      requires !event.Done?
      modifies this, transcript
      ensures State() == ApplyStreamed(old(State()), event, now)
    {
      hide ApplyStreamed;
      if event.TextDelta? || event.ReasoningDelta? || event.AssistantMessageCompleted? || event.SteerConfirmed? {
        StreamText(event, now);
      } else if event.ToolCallEvent? || event.ToolResultEvent? || event.SubagentEvent? {
        StreamTool(event, now);
      } else if event.ErrorEvent? || event.PermissionModeReported? || event.Compacted? {
        StreamNotice(event, now);
      } else {
        StreamRest(event, now);
      }
    }

    method StreamText(event: AgentEvent, now: int)
      requires event.TextDelta? || event.ReasoningDelta? || event.AssistantMessageCompleted? || event.SteerConfirmed?
      modifies this, transcript
      ensures State() == ApplyStreamed(old(State()), event, now)
    {
      hide Apply, Fold;
      if event.TextDelta? {
        ResumeWorking();
        Show(Delta(event.text, false, now));
      } else if event.ReasoningDelta? {
        ResumeWorking();
        Show(Delta(event.text, true, now));
      } else if event.AssistantMessageCompleted? {
        Show(BlockClosed);
      } else {
        Show(BlockClosed);
        ResumeWorking();
      }
    }

    method StreamTool(event: AgentEvent, now: int)
      requires event.ToolCallEvent? || event.ToolResultEvent? || event.SubagentEvent?
      modifies this, transcript
      ensures State() == ApplyStreamed(old(State()), event, now)
    {
      hide Apply, Fold, ApplySubagentEvent;
      if event.ToolCallEvent? {
        ResumeWorking();
        if event.call.IsSubagentSpawn() && event.id !in subagents {
          subagents := subagents[event.id := NEW_SUBAGENT];
        }
        Show(ToolCalled(event.id, event.call));
        assert subagents == StreamedSubagents(old(subagents), event, now);
      } else if event.ToolResultEvent? {
        Show(ToolFinished(event.id, event.isError, event.output, event.diff));
      } else {
        FoldOfNone(transcript.State());
        ApplyToSubagent(event.parent, event.event, now);
      }
    }

    method StreamNotice(event: AgentEvent, now: int)
      requires event.ErrorEvent? || event.PermissionModeReported? || event.Compacted?
      modifies this, transcript
      ensures State() == ApplyStreamed(old(State()), event, now)
    {
      hide Apply, Fold;
      FoldOfNone(transcript.State());
      if event.ErrorEvent? {
        if NativeForkPending() {
          fork := fork.(errors := fork.errors + [event.message]);
        } else {
          Show(Block(Notice(event.message, true)));
        }
      } else if event.PermissionModeReported? {
        if kind == Claude && asksForAuto && !event.isAuto && !noticedAutoUnavailable {
          noticedAutoUnavailable := true;
          Show(Block(Notice(AUTO_UNAVAILABLE, false)));
        }
      } else {
        if event.manual && kind == Claude {
          restartOnNextSend := true;
        }
        Show(Block(Notice(COMPACTED, false)));
      }
    }

    method StreamRest(event: AgentEvent, now: int)
      requires event.SessionStarted? || event.GeneratedImage? || event.Compacting? || event.UserMessage? || event.Ignored?
      modifies this, transcript
      ensures State() == ApplyStreamed(old(State()), event, now)
    {
      hide Apply, Fold, Named, Released;
      FoldOfNone(ReleasedBy(transcript.State(), fork, event));
      if event.GeneratedImage? {
        Show(Block(Image(event.path)));
      } else if event.Compacting? {
        if event.active {
          ResumeWorking();
        }
      } else {
        NameSession(event);
      }
    }

    /** One change to the chat's own transcript. */
    method Show(op: Op)
      modifies transcript
      ensures transcript.State() == Apply(old(transcript.State()), op)
      ensures transcript.State() == Fold(old(transcript.State()), [op])
    {
      match op {
        case Delta(text, thinking, now) => transcript.Append(text, thinking, now);
        case Block(entry) => transcript.PushEntry(entry);
        case BlockClosed => transcript.Close();
        case ToolCalled(id, call) => transcript.Start(id, call);
        case ToolFinished(id, isError, output, diff) => transcript.Finish(id, isError, output, diff);
        case RunningCanceled => transcript.CancelRunningTools();
      }
      FoldOfOne(old(transcript.State()), op);
    }

    /** A subagent's own event; one that names another subagent is passed on to that one. */
    method ApplyToSubagent(parent: string, event: AgentEvent, now: int)
      modifies this`subagents
      ensures subagents == ApplySubagentEvent(old(subagents), parent, event, now)
      decreases event
    {
      hide Fold;
      if parent !in subagents {
        subagents := subagents[parent := NEW_SUBAGENT];
      }
      if event.SubagentEvent? {
        assert subagents == old(subagents)[parent := SubagentAt(old(subagents), parent)];
        ApplyToSubagent(event.parent, event.event, now);
        return;
      }
      var subagent := subagents[parent];
      subagent := subagent.(transcript := Fold(subagent.transcript, SubagentOps(event, now)));
      if event.Done? {
        subagent := subagent.(status := Some(event.status));
      }
      subagents := subagents[parent := subagent];
    }

    method EndOfTurn(event: AgentEvent)
      requires event.Done?
      modifies this, transcript
      ensures State() == EndTurn(old(State()), event)
    {
      hide Apply, Fold, DoneOps, NamedBy, ReleasedBy;
      NameSession(event);
      ghost var released := transcript.State();
      working := promptAfterStop.Some?;
      Show(BlockClosed);
      Show(RunningCanceled);
      if event.status == RunErrored {
        Show(Block(Notice(event.error.GetOr(STOPPED_WITH_ERROR), true)));
      }
      DoneOpsInOrder(released, event.status, event.error);
    }

    method HandleEvent(event: AgentEvent, env: Env)
      modifies this, transcript
      ensures State() == ApplyEvent(old(State()), event, env)
    {
      hide ApplyStreamed, EndTurn, Sessions.SendNextQueued;
      if !event.Done? {
        Stream(event, env.now);
      } else if event.status == RunErrored && NativeForkPending() {
        fork := fork.(failed := true);
      } else {
        EndOfTurn(event);
        if event.status != RunInterrupted {
          SendNextQueued(env);
        }
      }
    }

    /** Fills a new chat with one the agent's own program saved. */
    method LoadExternalHistory(events: seq<AgentEvent>, context: Option<string>, notice: string, now: int)
      modifies this, transcript
      ensures State() == LoadHistory(old(State()), events, context, notice, now)
    {
      hide SubagentOps, HistoryOps, Fold, Apply, ApplySubagentEvent, SettleSubagents, CancelRunning;
      for i := 0 to |events|
        invariant State() == ReadHistory(old(State()), events[..i], now)
      {
        assert events[..i + 1][..i] == events[..i];
        if events[i].SubagentEvent? {
          ApplyToSubagent(events[i].parent, events[i].event, now);
        } else {
          ShowHistory(events[i], now);
        }
      }
      assert events[..|events|] == events;
      transcript.CancelRunningTools();
      SettleAll(RunCompleted);
      fork := fork.(context := context);
      transcript.PushEntry(Notice(notice, false));
    }

    method ShowHistory(event: AgentEvent, now: int)
      requires !event.SubagentEvent?
      modifies transcript
      ensures transcript.State() == Fold(old(transcript.State()), HistoryOps(event, now))
    {
      hide Fold, Apply;
      FoldOfNone(transcript.State());
      var ops := HistoryOps(event, now);
      if ops != [] {
        assert ops == [ops[0]];
        Show(ops[0]);
      }
    }

    // -------------------------------------------------------------- any call

    /** One call of any caller, or one step of the live run's task. */
    method Perform(action: Action, env: Env)
      modifies this, transcript
      ensures State() == Step(old(State()), action, env)
    {
      hide ApplyEvent, SendMessage, Sessions.RunEnded, Sessions.FailRun, QueueIndex, QueueStep, RetryStep,
        Sessions.FinishQueuedEdit, PushNotice;
      if action.ByTheRun() {
        if run.Some? {
          PerformForRun(action, env);
        }
      } else if action.OnQueued() {
        PerformOnQueue(action, env);
      } else {
        match action {
          case Send(prompt) => Send(prompt, env);
          case FinishEdit(id, edited) => FinishQueuedEdit(id, edited);
          case RetryUndelivered(index) => RetryUndelivered(index, env);
          case Stop => Stop();
          case ChangeSettings => ChangeSettings();
          case ForkWentStale => fork := fork.(source := None);
          case Delete => CloseForDeletion();
        }
      }
    }

    method PerformForRun(action: Action, env: Env)
      requires action.ByTheRun() && run.Some?
      modifies this, transcript
      ensures State() == RunStep(old(State()), action, env)
    {
      hide ApplyEvent, Sessions.RunEnded, Sessions.FailRun;
      match action {
        case Event(event) => HandleEvent(event, env);
        case StreamError(message) => transcript.PushEntry(Notice(message, true));
        case RunStartFailed(message) => FailRun(message, env);
        case RunOver => RunEnded(env);
      }
    }

    method PerformOnQueue(action: Action, env: Env)
      requires action.OnQueued()
      modifies this, transcript
      ensures var at := QueueIndex(old(queue).items, action.id);
              State() == if at.None? then old(State()) else QueueStep(old(State()), action, at.value, env)
    {
      hide Sessions.Deliver, SendNow, QueueIndex, Moved, Sessions.TakeQueued;
      match action {
        case SteerQueued(id) => SteerQueued(id, env);
        case SendQueuedNow(id) => SendQueuedNow(id, env);
        case RemoveQueued(id) => RemoveQueued(id);
        case MoveQueued(id, toIndex) => MoveQueued(id, toIndex);
        case BeginEdit(id) => var prompt := BeginQueuedEdit(id);
      }
    }
  }

  function First<T>(s: seq<T>, p: T -> bool): (r: Option<nat>)
    ensures r.Some? ==> r.value < |s| && p(s[r.value])
  {
    if s == [] then None
    else if p(s[0]) then Some(0)
    else
      var rest := First(s[1..], p);
      if rest.Some? then Some(rest.value + 1) else None
  }

  /** Rust's `position`. */
  method FirstWhere<T>(s: seq<T>, p: T -> bool) returns (at: Option<nat>)
    ensures at == First(s, p)
  {
    assert s[0..] == s;
    for i := 0 to |s|
      invariant First(s, p) == if First(s[i..], p).Some? then Some(First(s[i..], p).value + i) else None
    {
      assert s[i..][1..] == s[i + 1..];
      if p(s[i]) {
        return Some(i);
      }
    }
    at := None;
  }

  lemma {:induction false} FirstWhereIsNextSendable(items: seq<Queued>, editing: Option<nat>)
    ensures First(items, (q: Queued) => !BeingEdited(q, editing)) == NextSendable(items, editing)
  {
    if items != [] {
      FirstWhereIsNextSendable(items[1..], editing);
    }
  }

  lemma {:induction false} FirstWhereIsQueueIndex(items: seq<Queued>, id: nat)
    ensures First(items, (q: Queued) => q.id == id) == QueueIndex(items, id)
  {
    if items != [] {
      FirstWhereIsQueueIndex(items[1..], id);
    }
  }

  lemma FoldOfNone(t: TranscriptState)
    ensures Fold(t, []) == t
  {
  }

  lemma FoldOfOne(t: TranscriptState, op: Op)
    ensures Fold(t, [op]) == Apply(t, op)
  {
    assert [op][..0] == [];
  }

  lemma DoneOpsInOrder(t: TranscriptState, status: DoneStatus, error: Option<string>)
    ensures var done := Apply(Apply(t, BlockClosed), RunningCanceled);
            Fold(t, DoneOps(status, error)) ==
            if status == RunErrored then Apply(done, Block(Notice(error.GetOr(STOPPED_WITH_ERROR), true))) else done
  {
    hide Apply;
    var start := [BlockClosed, RunningCanceled];
    assert start[..1] == [BlockClosed];
    FoldOfOne(t, BlockClosed);
    if status == RunErrored {
      assert DoneOps(status, error)[..2] == start;
    }
  }

  /** Starting a run replaces whatever run there was. */
  lemma StartIgnoresRun(s: SessionState, prompt: Prompt)
    ensures Sessions.StartRun(s.(run := None), Single(prompt), Direct)
         == Sessions.StartRun(s, Single(prompt), Direct)
  {
  }
}
