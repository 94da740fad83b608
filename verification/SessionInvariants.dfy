/** What holds of a session between any two calls. */
module SessionInvariants {
  import opened Wrappers
  import opened Prompts
  import opened Transcripts
  import opened TranscriptFold
  import opened Sessions

  predicate AllSettled(subagents: map<string, Subagent>) {
    forall id | id in subagents :: subagents[id].status.Some? && NoRunningTool(subagents[id].transcript)
  }

  /** A session at work has a run; a prompt waits only for one; with no run, nothing is left running. */
  predicate RunMatches(s: SessionState) {
    && (s.working ==> s.run.Some?)
    && (s.promptAfterStop.Some? ==> s.working)
    && (s.run.None? && !s.deleted ==> NoRunningTool(s.transcript) && AllSettled(s.subagents))
  }

  predicate DistinctIds(queue: seq<Queued>, last: nat) {
    && (forall i | 0 <= i < |queue| :: queue[i].id <= last)
    && (forall i, j | 0 <= i < j < |queue| :: queue[i].id != queue[j].id)
  }

  predicate QueueIsSound(s: SessionState) {
    DistinctIds(s.queue.items, s.queue.lastId)
  }

  predicate TranscriptsAreConsistent(s: SessionState) {
    && Consistent(s.transcript)
    && (forall id | id in s.subagents :: Consistent(s.subagents[id].transcript))
  }

  // ---------------------------------------------------------------- runs

  lemma DrainKeepsNoRunningTool(t: TranscriptState, index: nat)
    requires NoRunningTool(t) && index < |t.entries|
    ensures NoRunningTool(DrainFailed(t, index))
  {
  }

  lemma DeliverKeepsRun(s: SessionState, prompt: Prompt, env: Env)
    requires RunMatches(s)
    ensures RunMatches(Deliver(s, prompt, env))
    ensures Deliver(s, prompt, env).run.Some?
  {
    hide HandOver;
    if !MustWait(s, prompt) {
      assert HandOver(Accept(s, prompt, env.now), prompt, s.working, env.steerFits).working;
    }
  }

  lemma SendNextKeepsRun(s: SessionState, env: Env)
    requires RunMatches(s)
    ensures RunMatches(SendNextQueued(s, env))
  {
    hide Deliver;
    if !s.working && !s.deleted && NextSendable(s.queue.items, s.queue.editing).Some? {
      var i := NextSendable(s.queue.items, s.queue.editing).value;
      DeliverKeepsRun(s.(queue := Dequeue(s.queue, i)), s.queue.items[i].prompt, env);
    }
  }

  lemma DropRunSettles(s: SessionState)
    ensures NoRunningTool(DropRun(s).transcript) && AllSettled(DropRun(s).subagents)
  {
  }

  lemma RunEndedKeepsRun(s: SessionState, env: Env)
    ensures RunMatches(RunEnded(s, env))
  {
    hide SendNextQueued, ForkAtStart;
    DropRunSettles(s);
    var idle := DropRun(s).(working := false, promptAfterStop := None);
    if RetriesFork(s) {
      assert RunEnded(s, env).run.Some? && RunEnded(s, env).working;
    } else if s.promptAfterStop.Some? && !s.deleted {
      assert RunEnded(s, env).run.Some?;
    } else {
      SendNextKeepsRun(idle, env);
      assert RunEnded(s, env) == if s.userStopped then idle else SendNextQueued(idle, env);
    }
  }

  lemma SendMessageKeepsRun(s: SessionState, message: Prompt, env: Env)
    requires RunMatches(s)
    ensures RunMatches(SendMessage(s, message, env))
  {
    hide Deliver;
    DeliverKeepsRun(s, message.Trimmed(), env);
    var queued := Enqueue(s.queue, message.Trimmed());
    if NextSendable(queued.items, queued.editing).Some? {
      var i := NextSendable(queued.items, queued.editing).value;
      DeliverKeepsRun(s.(queue := Dequeue(queued, i)), queued.items[i].prompt, env);
    }
  }

  lemma ApplyEventKeepsRun(s: SessionState, event: AgentEvent, env: Env)
    requires RunMatches(s) && s.run.Some?
    ensures RunMatches(ApplyEvent(s, event, env))
  {
    hide SendNextQueued, Fold, StreamedOps, StreamedSubagents, StreamedFork, NamedBy, ReleasedBy;
    if event.Done? {
      SendNextKeepsRun(EndTurn(s, event), env);
    }
  }

  lemma QueueStepKeepsRun(s: SessionState, action: Action, i: nat, env: Env)
    requires RunMatches(s) && i < |s.queue.items|
    ensures RunMatches(QueueStep(s, action, i, env))
  {
    hide Deliver;
    var queue := TakeQueued(s.queue, i);
    var prompt := s.queue.items[i].prompt;
    if action.SendQueuedNow? {
      var cut := if s.working && s.run.Some? then Some(Run(true)) else s.run;
      DeliverKeepsRun(s.(queue := queue, run := cut), prompt, env);
    } else {
      DeliverKeepsRun(s.(queue := queue), prompt, env);
    }
  }

  lemma StepKeepsRun(s: SessionState, action: Action, env: Env)
    requires RunMatches(s)
    ensures RunMatches(Step(s, action, env))
  {
    hide SendMessage, QueueStep, RunEnded, ApplyEvent, FailRun;
    if action.ByTheRun() {
      if s.run.Some? {
        RunStepKeepsRun(s, action, env);
      }
    } else if action.OnQueued() {
      if QueueIndex(s.queue.items, action.id).Some? {
        QueueStepKeepsRun(s, action, QueueIndex(s.queue.items, action.id).value, env);
      }
    } else if action.RetryUndelivered? {
      if CanRetry(s, action.index) {
        var t := DrainFailed(s.transcript, action.index);
        if NoRunningTool(s.transcript) {
          DrainKeepsNoRunningTool(s.transcript, action.index);
        }
        SendMessageKeepsRun(s.(transcript := t), s.transcript.entries[action.index].prompt, env);
      }
    } else if action.Send? {
      SendMessageKeepsRun(s, action.prompt, env);
    }
  }

  lemma RunStepKeepsRun(s: SessionState, action: Action, env: Env)
    requires RunMatches(s) && s.run.Some? && action.ByTheRun()
    ensures RunMatches(RunStep(s, action, env))
  {
    hide RunEnded, ApplyEvent;
    match action
    case Event(event) => ApplyEventKeepsRun(s, event, env);
    case StreamError(message) =>
    case RunStartFailed(message) =>
      RunEndedKeepsRun(s.(fork := s.fork.(failed := true)), env);
      RunEndedKeepsRun(s.(transcript := PushNotice(UndeliverLast(s.transcript), message, true)), env);
    case RunOver => RunEndedKeepsRun(s, env);
  }

  // ---------------------------------------------------------------- what a delivery changes

  /** A delivered message is shown once, or goes back to the front of the queue once. */
  lemma DeliverEffect(s: SessionState, prompt: Prompt, env: Env)
    ensures var r := Deliver(s, prompt, env);
            && r.queue == (if MustWait(s, prompt) then EnqueueFirst(s.queue, prompt) else s.queue)
            && r.transcript == (if MustWait(s, prompt) then s.transcript else PushUser(s.transcript, prompt, env.now))
            && r.subagents == s.subagents
            && r.kind == s.kind
            && r.deleted == s.deleted
  {
    hide HandOver;
    if !MustWait(s, prompt) {
      var accepted := Accept(s, prompt, env.now);
      assert HandOver(accepted, prompt, s.working, env.steerFits).queue == accepted.queue;
    }
  }

  // ---------------------------------------------------------------- queue ids

  lemma DeliverKeepsQueue(s: SessionState, prompt: Prompt, env: Env)
    requires QueueIsSound(s)
    ensures QueueIsSound(Deliver(s, prompt, env))
  {
    hide Deliver;
    DeliverEffect(s, prompt, env);
  }

  lemma DequeueKeepsIds(q: Queue, i: nat)
    requires DistinctIds(q.items, q.lastId) && i < |q.items|
    ensures DistinctIds(Dequeue(q, i).items, q.lastId)
  {
  }

  lemma RemovedIdIsGone(items: seq<Queued>, i: nat, last: nat)
    requires DistinctIds(items, last) && i < |items|
    ensures forall k | 0 <= k < |Removed(items, i)| :: Removed(items, i)[k].id != items[i].id
  {
  }

  lemma MovedKeepsIds(q: Queue, i: nat, toIndex: nat)
    requires DistinctIds(q.items, q.lastId) && i < |q.items|
    ensures DistinctIds(Moved(q.items, i, toIndex), q.lastId)
  {
    var rest := Removed(q.items, i);
    DequeueKeepsIds(q, i);
    RemovedIdIsGone(q.items, i, q.lastId);
    hide Removed;
  }

  lemma EnqueueKeepsIds(q: Queue, prompt: Prompt)
    requires DistinctIds(q.items, q.lastId)
    ensures DistinctIds(Enqueue(q, prompt).items, q.lastId + 1)
    ensures DistinctIds(EnqueueFirst(q, prompt).items, q.lastId + 1)
  {
  }

  lemma SendNextKeepsQueue(s: SessionState, env: Env)
    requires QueueIsSound(s)
    ensures QueueIsSound(SendNextQueued(s, env))
  {
    hide Deliver;
    if !s.working && !s.deleted && NextSendable(s.queue.items, s.queue.editing).Some? {
      var i := NextSendable(s.queue.items, s.queue.editing).value;
      DequeueKeepsIds(s.queue, i);
      DeliverKeepsQueue(s.(queue := Dequeue(s.queue, i)), s.queue.items[i].prompt, env);
    }
  }

  lemma RunEndedKeepsQueue(s: SessionState, env: Env)
    requires QueueIsSound(s)
    ensures QueueIsSound(RunEnded(s, env))
  {
    hide SendNextQueued, ForkAtStart;
    SendNextKeepsQueue(DropRun(s).(working := false, promptAfterStop := None), env);
  }

  lemma SendMessageKeepsQueue(s: SessionState, message: Prompt, env: Env)
    requires QueueIsSound(s)
    ensures QueueIsSound(SendMessage(s, message, env))
  {
    hide Deliver;
    DeliverKeepsQueue(s, message.Trimmed(), env);
    var queued := Enqueue(s.queue, message.Trimmed());
    EnqueueKeepsIds(s.queue, message.Trimmed());
    if NextSendable(queued.items, queued.editing).Some? {
      var i := NextSendable(queued.items, queued.editing).value;
      DequeueKeepsIds(queued, i);
      DeliverKeepsQueue(s.(queue := Dequeue(queued, i)), queued.items[i].prompt, env);
    }
  }

  lemma TakeKeepsIds(q: Queue, i: nat)
    requires DistinctIds(q.items, q.lastId) && i < |q.items|
    ensures DistinctIds(TakeQueued(q, i).items, TakeQueued(q, i).lastId)
  {
    hide DistinctIds, Removed;
    DequeueKeepsIds(q, i);
  }

  lemma QueueStepKeepsQueue(s: SessionState, action: Action, i: nat, env: Env)
    requires QueueIsSound(s) && i < |s.queue.items|
    ensures QueueIsSound(QueueStep(s, action, i, env))
  {
    hide Deliver, Moved, Removed, DistinctIds, Dequeue;
    DequeueKeepsIds(s.queue, i);
    TakeKeepsIds(s.queue, i);
    hide TakeQueued;
    var queue := TakeQueued(s.queue, i);
    var prompt := s.queue.items[i].prompt;
    if action.SendQueuedNow? {
      var cut := if s.working && s.run.Some? then Some(Run(true)) else s.run;
      DeliverKeepsQueue(s.(queue := queue, run := cut), prompt, env);
    } else if action.MoveQueued? {
      MovedKeepsIds(s.queue, i, action.toIndex);
    } else if action.SteerQueued? {
      DeliverKeepsQueue(s.(queue := queue), prompt, env);
    }
  }

  lemma FinishEditKeepsIds(q: Queue, id: nat, edited: Option<Prompt>)
    requires DistinctIds(q.items, q.lastId)
    ensures DistinctIds(FinishQueuedEdit(q, id, edited).items, FinishQueuedEdit(q, id, edited).lastId)
  {
    hide Prompt.IsEmpty;
    if edited.Some? {
      EnqueueKeepsIds(if q.editing == Some(id) then q.(editing := None) else q, edited.value);
    }
  }

  lemma StepKeepsQueue(s: SessionState, action: Action, env: Env)
    requires QueueIsSound(s)
    ensures QueueIsSound(Step(s, action, env))
  {
    hide SendMessage, QueueStep, RunStep, FinishQueuedEdit, DistinctIds, DrainFailed;
    if action.ByTheRun() {
      RunStepKeepsQueue(s, action, env);
    } else if action.OnQueued() {
      if QueueIndex(s.queue.items, action.id).Some? {
        QueueStepKeepsQueue(s, action, QueueIndex(s.queue.items, action.id).value, env);
      }
    } else if action.RetryUndelivered? {
      if CanRetry(s, action.index) {
        var t := DrainFailed(s.transcript, action.index);
        SendMessageKeepsQueue(s.(transcript := t), s.transcript.entries[action.index].prompt, env);
      }
    } else if action.Send? {
      SendMessageKeepsQueue(s, action.prompt, env);
    } else if action.FinishEdit? {
      FinishEditKeepsIds(s.queue, action.id, action.edited);
    }
  }

  lemma RunStepKeepsQueue(s: SessionState, action: Action, env: Env)
    requires QueueIsSound(s) && action.ByTheRun()
    ensures QueueIsSound(RunStep(s, action, env))
  {
    hide RunEnded, SendNextQueued, Fold, DistinctIds;
    match action
    case Event(event) =>
      if event.Done? {
        SendNextKeepsQueue(EndTurn(s, event), env);
      }
    case StreamError(message) =>
    case RunStartFailed(message) =>
      RunEndedKeepsQueue(s.(fork := s.fork.(failed := true)), env);
      RunEndedKeepsQueue(s.(transcript := PushNotice(UndeliverLast(s.transcript), message, true)), env);
    case RunOver => RunEndedKeepsQueue(s, env);
  }

  // ---------------------------------------------------------------- transcripts

  lemma {:induction false} ErrorsKeepConsistent(t: TranscriptState, errors: seq<string>)
    requires Consistent(t)
    ensures Consistent(PushErrors(t, errors))
  {
    if errors != [] {
      ErrorsKeepConsistent(t, errors[..|errors| - 1]);
      OpKeepsConsistent(PushErrors(t, errors[..|errors| - 1]), Block(Notice(errors[|errors| - 1], true)));
    }
  }

  lemma DrainKeepsConsistent(t: TranscriptState, index: nat)
    requires Consistent(t) && index < |t.entries| && t.entries[index].User?
    ensures Consistent(DrainFailed(t, index))
  {
    var n := ErrorNotices(t.entries[index + 1..]);
    var r := DrainFailed(t, index);
    assert forall k | index < k < index + 1 + n :: IsErrorNotice(t.entries[k]) by {
      forall k | index < k < index + 1 + n ensures IsErrorNotice(t.entries[k]) {
        assert t.entries[k] == t.entries[index + 1..][k - index - 1];
      }
    }
    if t.blockOpen {
      assert index + 1 + n < |t.entries|;
      assert r.entries[|r.entries| - 1] == t.entries[|t.entries| - 1];
    }
  }

  lemma {:induction false} SubagentEventKeepsConsistent(
    subagents: map<string, Subagent>, parent: string, event: AgentEvent, now: int)
    requires forall id | id in subagents :: Consistent(subagents[id].transcript)
    ensures forall id | id in ApplySubagentEvent(subagents, parent, event, now) ::
              Consistent(ApplySubagentEvent(subagents, parent, event, now)[id].transcript)
    decreases event
  {
    assert Consistent(EMPTY);
    hide Consistent, Fold;
    var subagent := SubagentAt(subagents, parent);
    if event.SubagentEvent? {
      SubagentEventKeepsConsistent(subagents[parent := subagent], event.parent, event.event, now);
    } else {
      FoldKeepsConsistent(subagent.transcript, SubagentOps(event, now));
    }
  }

  lemma OpsAreValid(s: SessionState, event: AgentEvent, now: int)
    ensures AllValid(StreamedOps(s, event, now))
    ensures event.Done? ==> AllValid(DoneOps(event.status, event.error))
    ensures AllValid(SubagentOps(event, now))
  {
  }

  lemma ReleasedKeepsConsistent(t: TranscriptState, fork: Fork, event: AgentEvent)
    requires Consistent(t)
    ensures Consistent(ReleasedBy(t, fork, event))
  {
    hide Consistent;
    ErrorsKeepConsistent(t, fork.errors);
  }

  lemma DeliverKeepsTranscripts(s: SessionState, prompt: Prompt, env: Env)
    requires TranscriptsAreConsistent(s)
    ensures TranscriptsAreConsistent(Deliver(s, prompt, env))
  {
    hide Deliver, Consistent;
    DeliverEffect(s, prompt, env);
    OpKeepsConsistent(s.transcript, Block(User(prompt, env.now, false)));
  }

  lemma SendNextKeepsTranscripts(s: SessionState, env: Env)
    requires TranscriptsAreConsistent(s)
    ensures TranscriptsAreConsistent(SendNextQueued(s, env))
  {
    hide Deliver, Consistent;
    if !s.working && !s.deleted && NextSendable(s.queue.items, s.queue.editing).Some? {
      var i := NextSendable(s.queue.items, s.queue.editing).value;
      DeliverKeepsTranscripts(s.(queue := Dequeue(s.queue, i)), s.queue.items[i].prompt, env);
    }
  }

  lemma DropRunKeepsTranscripts(s: SessionState)
    requires TranscriptsAreConsistent(s)
    ensures TranscriptsAreConsistent(DropRun(s))
  {
    hide Consistent, CancelRunning;
    OpKeepsConsistent(s.transcript, RunningCanceled);
    forall id | id in s.subagents ensures Consistent(CancelRunning(s.subagents[id].transcript)) {
      OpKeepsConsistent(s.subagents[id].transcript, RunningCanceled);
    }
  }

  lemma StartKeepsTranscripts(s: SessionState)
    ensures forall t: SessionState, glued, cause :: StartRun(t, glued, cause).transcript == t.transcript
    ensures forall t: SessionState, glued, cause :: StartRun(t, glued, cause).subagents == t.subagents
  {
  }

  lemma RunEndedKeepsTranscripts(s: SessionState, env: Env)
    requires TranscriptsAreConsistent(s)
    ensures TranscriptsAreConsistent(RunEnded(s, env))
  {
    hide SendNextQueued, StartRun, Consistent, DropRun;
    DropRunKeepsTranscripts(s);
    StartKeepsTranscripts(s);
    SendNextKeepsTranscripts(DropRun(s).(working := false, promptAfterStop := None), env);
  }

  lemma SendMessageKeepsTranscripts(s: SessionState, message: Prompt, env: Env)
    requires TranscriptsAreConsistent(s)
    ensures TranscriptsAreConsistent(SendMessage(s, message, env))
  {
    hide Deliver, Consistent;
    DeliverKeepsTranscripts(s, message.Trimmed(), env);
    var queued := Enqueue(s.queue, message.Trimmed());
    if NextSendable(queued.items, queued.editing).Some? {
      var i := NextSendable(queued.items, queued.editing).value;
      DeliverKeepsTranscripts(s.(queue := Dequeue(queued, i)), queued.items[i].prompt, env);
    }
  }

  lemma StreamedKeepsTranscripts(s: SessionState, event: AgentEvent, now: int)
    requires TranscriptsAreConsistent(s)
    ensures TranscriptsAreConsistent(ApplyStreamed(s, event, now))
  {
    assert Consistent(EMPTY);
    hide Consistent, Fold, StreamedOps, StreamedFork, ApplySubagentEvent, ReleasedBy;
    OpsAreValid(s, event, now);
    ReleasedKeepsConsistent(s.transcript, s.fork, event);
    FoldKeepsConsistent(ReleasedBy(s.transcript, s.fork, event), StreamedOps(s, event, now));
    if event.SubagentEvent? {
      SubagentEventKeepsConsistent(s.subagents, event.parent, event.event, now);
    }
  }

  lemma EventKeepsTranscripts(s: SessionState, event: AgentEvent, env: Env)
    requires TranscriptsAreConsistent(s)
    ensures TranscriptsAreConsistent(ApplyEvent(s, event, env))
  {
    hide Consistent, Fold, ApplyStreamed, SendNextQueued, DoneOps, ReleasedBy, NamedBy;
    if event.Done? {
      OpsAreValid(s, event, env.now);
      ReleasedKeepsConsistent(s.transcript, s.fork, event);
      FoldKeepsConsistent(ReleasedBy(s.transcript, s.fork, event), DoneOps(event.status, event.error));
      SendNextKeepsTranscripts(EndTurn(s, event), env);
    } else {
      StreamedKeepsTranscripts(s, event, env.now);
    }
  }

  lemma UndeliverKeepsConsistent(t: TranscriptState, message: string)
    requires Consistent(t)
    ensures Consistent(PushNotice(t, message, true))
    ensures Consistent(PushNotice(UndeliverLast(t), message, true))
  {
    assert Consistent(UndeliverLast(t));
  }

  lemma RunStepKeepsTranscripts(s: SessionState, action: Action, env: Env)
    requires TranscriptsAreConsistent(s)
    ensures TranscriptsAreConsistent(RunStep(s, action, env))
  {
    hide RunEnded, ApplyEvent, UndeliverLast, PushNotice, Consistent;
    if action.Event? {
      EventKeepsTranscripts(s, action.event, env);
    } else if action.StreamError? {
      UndeliverKeepsConsistent(s.transcript, action.message);
    } else if action.RunStartFailed? {
      UndeliverKeepsConsistent(s.transcript, action.message);
      RunEndedKeepsTranscripts(s.(fork := s.fork.(failed := true)), env);
      RunEndedKeepsTranscripts(s.(transcript := PushNotice(UndeliverLast(s.transcript), action.message, true)), env);
    } else if action.RunOver? {
      RunEndedKeepsTranscripts(s, env);
    }
  }

  lemma StepKeepsTranscripts(s: SessionState, action: Action, env: Env)
    requires TranscriptsAreConsistent(s)
    ensures TranscriptsAreConsistent(Step(s, action, env))
  {
    hide SendMessage, RunStep, QueueStep, DrainFailed, FinishQueuedEdit, Consistent;
    if action.ByTheRun() {
      RunStepKeepsTranscripts(s, action, env);
    } else if action.OnQueued() {
      if QueueIndex(s.queue.items, action.id).Some? {
        QueueStepKeepsTranscripts(s, action, QueueIndex(s.queue.items, action.id).value, env);
      }
    } else if action.Send? {
      SendMessageKeepsTranscripts(s, action.prompt, env);
    } else if action.RetryUndelivered? && CanRetry(s, action.index) {
      DrainKeepsConsistent(s.transcript, action.index);
      SendMessageKeepsTranscripts(
        s.(transcript := DrainFailed(s.transcript, action.index)), s.transcript.entries[action.index].prompt, env);
    }
  }

  lemma QueueStepKeepsTranscripts(s: SessionState, action: Action, i: nat, env: Env)
    requires TranscriptsAreConsistent(s) && i < |s.queue.items|
    ensures TranscriptsAreConsistent(QueueStep(s, action, i, env))
  {
    hide Deliver, Consistent, Moved, TakeQueued;
    var queue := TakeQueued(s.queue, i);
    var cut := if s.working && s.run.Some? then Some(Run(true)) else s.run;
    DeliverKeepsTranscripts(s.(queue := queue), s.queue.items[i].prompt, env);
    DeliverKeepsTranscripts(s.(queue := queue, run := cut), s.queue.items[i].prompt, env);
  }

  // ---------------------------------------------------------------- commands

  /** Glued from user messages in order; one that reads as a command is a single message. */
  predicate GluedWell(glued: Glued) {
    && glued.parts != []
    && glued.prompt == MergeAll(glued.parts)
    && (IsCommand(glued.prompt.text) ==> |glued.parts| == 1)
  }

  predicate HandedWell(kind: AgentKind, handover: Handover) {
    match handover
    case Started(glued, _, fork, withHistory) =>
      GluedWell(glued) && !(fork && withHistory) && (withHistory ==> !IsCommand(glued.prompt.text))
    case Steered(prompt, whileWorking) =>
      !(whileWorking && kind == Claude && IsCommand(prompt.text))
  }

  predicate AllHandedWell(s: SessionState) {
    forall i | 0 <= i < |s.handed| :: HandedWell(s.kind, s.handed[i])
  }

  /** No command is glued to anything, none was, and none was steered into a turn Claude was still working on. */
  predicate CommandsAreIsolated(s: SessionState) {
    && (s.promptAfterStop.Some? ==> GluedWell(s.promptAfterStop.value))
    && (s.fork.prompt.Some? ==> GluedWell(s.fork.prompt.value))
    && AllHandedWell(s)
  }

  lemma SingleIsGluedWell(prompt: Prompt)
    ensures GluedWell(Single(prompt))
  {
  }

  lemma GluingKeepsWell(glued: Glued, prompt: Prompt)
    requires GluedWell(glued) && !IsCommand(glued.prompt.text) && !IsCommand(prompt.text)
    ensures GluedWell(glued.And(prompt))
  {
    hide IsCommand;
    MergeMakesNoCommand(glued.prompt, prompt);
    MergeAllAppends(glued.parts, prompt);
  }

  lemma StartKeepsCommands(s: SessionState, glued: Glued, cause: StartCause)
    requires CommandsAreIsolated(s) && GluedWell(glued)
    ensures CommandsAreIsolated(StartRun(s, glued, cause))
  {
    hide IsCommand, GluedWell;
    var r := StartRun(s, glued, cause);
    assert HandedWell(r.kind, r.handed[|s.handed|]);
    assert forall i | 0 <= i < |s.handed| :: r.handed[i] == s.handed[i];
  }

  lemma HandOverKeepsCommands(s: SessionState, prompt: Prompt, wasWorking: bool, steerFits: bool)
    requires CommandsAreIsolated(s)
    requires s.Stopping() && s.promptAfterStop.Some? ==> !IsGluedCommand(s.promptAfterStop) && !IsCommand(prompt.text)
    requires s.run.Some? && !s.Stopping() ==> !(wasWorking && s.kind == Claude && IsCommand(prompt.text))
    ensures CommandsAreIsolated(HandOver(s, prompt, wasWorking, steerFits))
  {
    hide IsCommand, GluedWell, StartRun;
    SingleIsGluedWell(prompt);
    if s.Stopping() {
      if s.promptAfterStop.Some? {
        GluingKeepsWell(s.promptAfterStop.value, prompt);
      }
    } else if s.run.Some? && steerFits {
      var r := HandOver(s, prompt, wasWorking, steerFits);
      assert forall i | 0 <= i < |s.handed| :: r.handed[i] == s.handed[i];
      assert HandedWell(r.kind, r.handed[|s.handed|]);
    } else {
      StartKeepsCommands(s, Single(prompt), Direct);
    }
  }

  lemma DeliverKeepsCommands(s: SessionState, prompt: Prompt, env: Env)
    requires CommandsAreIsolated(s) && RunMatches(s)
    ensures CommandsAreIsolated(Deliver(s, prompt, env))
  {
    hide IsCommand, GluedWell, HandOver, AllHandedWell;
    var accepted := Accept(s, prompt, env.now);
    assert AllHandedWell(accepted) by {
      assert accepted.handed == s.handed;
      AllHandedWellDependsOnHanded(s, accepted);
    }
    if !MustWait(s, prompt) {
      HandOverKeepsCommands(accepted, prompt, s.working, env.steerFits);
    } else {
      AllHandedWellDependsOnHanded(s, Deliver(s, prompt, env));
    }
  }

  lemma AllHandedWellDependsOnHanded(s: SessionState, r: SessionState)
    requires AllHandedWell(s) && r.handed == s.handed && r.kind == s.kind
    ensures AllHandedWell(r)
  {
  }

  /** Taking a message from the queue, moving on in the transcript, or ending the run leaves the prompts alone. */
  lemma CommandsDependOnPrompts(s: SessionState, r: SessionState)
    requires CommandsAreIsolated(s)
    requires r.promptAfterStop.None? || r.promptAfterStop == s.promptAfterStop
    requires r.fork.prompt.None? || r.fork.prompt == s.fork.prompt
    requires r.handed == s.handed && r.kind == s.kind
    ensures CommandsAreIsolated(r)
  {
  }

  lemma SendNextKeepsCommands(s: SessionState, env: Env)
    requires CommandsAreIsolated(s) && RunMatches(s)
    ensures CommandsAreIsolated(SendNextQueued(s, env))
  {
    hide Deliver, CommandsAreIsolated;
    if !s.working && !s.deleted && NextSendable(s.queue.items, s.queue.editing).Some? {
      var i := NextSendable(s.queue.items, s.queue.editing).value;
      var taken := s.(queue := Dequeue(s.queue, i));
      CommandsDependOnPrompts(s, taken);
      DeliverKeepsCommands(taken, s.queue.items[i].prompt, env);
    }
  }

  lemma RunEndedKeepsCommands(s: SessionState, env: Env)
    requires CommandsAreIsolated(s)
    ensures CommandsAreIsolated(RunEnded(s, env))
  {
    DropRunSettles(s);
    assert s.fork.prompt.Some? ==> GluedWell(s.fork.prompt.value);
    assert s.promptAfterStop.Some? ==> GluedWell(s.promptAfterStop.value);
    hide SendNextQueued, StartRun, CommandsAreIsolated, GluedWell;
    var dropped := DropRun(s);
    if RetriesFork(s) {
      var retried := dropped.(working := true, fork := dropped.fork.(source := None, errors := []));
      CommandsDependOnPrompts(s, retried);
      StartKeepsCommands(retried, s.fork.prompt.value, ForkRetry);
    } else if s.promptAfterStop.Some? && !s.deleted {
      var taken := dropped.(working := true, promptAfterStop := None);
      CommandsDependOnPrompts(s, taken);
      StartKeepsCommands(taken, s.promptAfterStop.value, AfterStop);
    } else {
      var idle := dropped.(working := false, promptAfterStop := None);
      CommandsDependOnPrompts(s, idle);
      SendNextKeepsCommands(idle, env);
    }
  }

  lemma SendMessageKeepsCommands(s: SessionState, message: Prompt, env: Env)
    requires CommandsAreIsolated(s) && RunMatches(s)
    ensures CommandsAreIsolated(SendMessage(s, message, env))
  {
    hide Deliver, CommandsAreIsolated;
    var prompt := message.Trimmed();
    DeliverKeepsCommands(s, prompt, env);
    var queued := Enqueue(s.queue, prompt);
    CommandsDependOnPrompts(s, s.(queue := queued));
    if NextSendable(queued.items, queued.editing).Some? {
      var i := NextSendable(queued.items, queued.editing).value;
      var taken := s.(queue := Dequeue(queued, i));
      CommandsDependOnPrompts(s, taken);
      DeliverKeepsCommands(taken, queued.items[i].prompt, env);
    }
  }

  lemma QueueStepKeepsCommands(s: SessionState, action: Action, i: nat, env: Env)
    requires CommandsAreIsolated(s) && RunMatches(s) && i < |s.queue.items|
    ensures CommandsAreIsolated(QueueStep(s, action, i, env))
  {
    hide Deliver, CommandsAreIsolated, Moved, TakeQueued;
    var queue := TakeQueued(s.queue, i);
    var prompt := s.queue.items[i].prompt;
    var cut := if s.working && s.run.Some? then Some(Run(true)) else s.run;
    if action.SteerQueued? {
      CommandsDependOnPrompts(s, s.(queue := queue));
      DeliverKeepsCommands(s.(queue := queue), prompt, env);
    } else if action.SendQueuedNow? {
      CommandsDependOnPrompts(s, s.(queue := queue, run := cut));
      DeliverKeepsCommands(s.(queue := queue, run := cut), prompt, env);
    } else {
      CommandsDependOnPrompts(s, QueueStep(s, action, i, env));
    }
  }

  lemma EventKeepsCommands(s: SessionState, event: AgentEvent, env: Env)
    requires CommandsAreIsolated(s) && RunMatches(s) && s.run.Some?
    ensures CommandsAreIsolated(ApplyEvent(s, event, env))
  {
    hide SendNextQueued, Fold, CommandsAreIsolated, StreamedOps, StreamedSubagents, ReleasedBy;
    if event.Done? {
      CommandsDependOnPrompts(s, EndTurn(s, event));
      SendNextKeepsCommands(EndTurn(s, event), env);
      CommandsDependOnPrompts(s, s.(fork := s.fork.(failed := true)));
    } else {
      CommandsDependOnPrompts(s, ApplyStreamed(s, event, env.now));
    }
  }

  lemma StepKeepsCommands(s: SessionState, action: Action, env: Env)
    requires CommandsAreIsolated(s) && RunMatches(s)
    ensures CommandsAreIsolated(Step(s, action, env))
  {
    hide SendMessage, QueueStep, RunEnded, ApplyEvent, DrainFailed, UndeliverLast, PushNotice, CommandsAreIsolated,
      FinishQueuedEdit, AllSettled;
    if action.OnQueued() {
      if QueueIndex(s.queue.items, action.id).Some? {
        QueueStepKeepsCommands(s, action, QueueIndex(s.queue.items, action.id).value, env);
      }
    } else if action.Send? {
      SendMessageKeepsCommands(s, action.prompt, env);
    } else if action.Event? {
      if s.run.Some? {
        EventKeepsCommands(s, action.event, env);
      }
    } else if action.RunStartFailed? {
      FailedStartKeepsCommands(s, action.message, env);
    } else if action.RunOver? {
      RunEndedKeepsCommands(s, env);
    } else if action.RetryUndelivered? {
      if CanRetry(s, action.index) {
        RetryKeepsCommands(s, action.index, env);
      }
    } else {
      CommandsDependOnPrompts(s, Step(s, action, env));
    }
  }

  lemma RetryKeepsCommands(s: SessionState, index: nat, env: Env)
    requires CommandsAreIsolated(s) && RunMatches(s) && CanRetry(s, index)
    ensures CommandsAreIsolated(RetryStep(s, index, env))
  {
    hide SendMessage, DrainFailed, CommandsAreIsolated, AllSettled;
    var drained := s.(transcript := DrainFailed(s.transcript, index));
    if NoRunningTool(s.transcript) {
      DrainKeepsNoRunningTool(s.transcript, index);
    }
    CommandsDependOnPrompts(s, drained);
    SendMessageKeepsCommands(drained, s.transcript.entries[index].prompt, env);
  }

  lemma FailedStartKeepsCommands(s: SessionState, message: string, env: Env)
    requires CommandsAreIsolated(s)
    ensures CommandsAreIsolated(FailRun(s, message, env))
  {
    hide RunEnded, CommandsAreIsolated;
    var failed := s.(fork := s.fork.(failed := true));
    var noticed := s.(transcript := PushNotice(UndeliverLast(s.transcript), message, true));
    CommandsDependOnPrompts(s, failed);
    CommandsDependOnPrompts(s, noticed);
    RunEndedKeepsCommands(failed, env);
    RunEndedKeepsCommands(noticed, env);
  }

  // ---------------------------------------------------------------- every history

  predicate Invariant(s: SessionState) {
    RunMatches(s) && QueueIsSound(s) && TranscriptsAreConsistent(s) && CommandsAreIsolated(s)
  }

  /** Whatever is called and whatever the runs report, in any order, the session stays in order. */
  lemma {:induction false} EveryHistoryKeepsInvariant(s: SessionState, moves: seq<Move>)
    requires Invariant(s)
    ensures Invariant(Play(s, moves))
  {
    hide RunMatches, QueueIsSound, TranscriptsAreConsistent, CommandsAreIsolated, Step;
    if moves != [] {
      var last := moves[|moves| - 1];
      var before := Play(s, moves[..|moves| - 1]);
      EveryHistoryKeepsInvariant(s, moves[..|moves| - 1]);
      StepKeepsRun(before, last.action, last.env);
      StepKeepsQueue(before, last.action, last.env);
      StepKeepsTranscripts(before, last.action, last.env);
      StepKeepsCommands(before, last.action, last.env);
    }
  }
}
