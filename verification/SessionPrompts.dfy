/** What the prompts handed to runs consist of: every message they were glued from, in the order it was shown. */
module SessionPrompts {
  import opened Wrappers
  import opened Prompts
  import opened Transcripts
  import opened TranscriptFold
  import opened Sessions
  import opened SessionInvariants

  // ---------------------------------------------------------------- spelled in full

  predicate IsSpelled(glued: Glued) {
    glued.parts != [] && Spells(glued.prompt, glued.parts)
  }

  predicate HandedIsSpelled(handover: Handover) {
    handover.Started? ==> IsSpelled(handover.glued)
  }

  /** Over every history: whatever waits, is kept for another try or was handed over spells all of its messages. */
  lemma EveryPromptSpellsItsMessages(s: SessionState, moves: seq<Move>)
    requires Invariant(s)
    ensures var r := Play(s, moves);
            && (r.promptAfterStop.Some? ==> IsSpelled(r.promptAfterStop.value))
            && (r.fork.prompt.Some? ==> IsSpelled(r.fork.prompt.value))
            && forall i | 0 <= i < |r.handed| :: HandedIsSpelled(r.handed[i])
  {
    hide Play, IsSpelled, RunMatches, QueueIsSound, TranscriptsAreConsistent, GluedWell;
    EveryHistoryKeepsInvariant(s, moves);
    var r := Play(s, moves);
    forall glued | GluedWell(glued) ensures IsSpelled(glued) {
      WellGluedIsSpelled(glued);
    }
    forall i | 0 <= i < |r.handed| ensures HandedIsSpelled(r.handed[i]) {
      assert HandedWell(r.kind, r.handed[i]);
    }
  }

  lemma WellGluedIsSpelled(glued: Glued)
    requires GluedWell(glued)
    ensures IsSpelled(glued)
  {
    hide IsCommand;
    MergeAllSpells(glued.parts);
  }

  // ---------------------------------------------------------------- in the order shown

  /** The message in the last place of a transcript. */
  function ShownLast(t: TranscriptState): Option<Prompt> {
    var n := |t.entries|;
    if n > 0 && t.entries[n - 1].User? then Some(t.entries[n - 1].prompt) else None
  }

  function WaitingSeq(waiting: Option<Glued>): seq<Prompt> {
    if waiting.Some? then waiting.value.parts else []
  }

  /** What waits is dropped, stays, or gets the message shown last behind all the others. */
  predicate WaitsInOrder(s: SessionState, r: SessionState) {
    || r.promptAfterStop.None?
    || r.promptAfterStop == s.promptAfterStop
    || (&& ShownLast(r.transcript).Some?
        && r.promptAfterStop.value.parts == WaitingSeq(s.promptAfterStop) + [ShownLast(r.transcript).value])
  }

  /** What is handed over is the message shown last, what waited, or the copy that failed. */
  predicate HandsWhatIsDue(s: SessionState, r: SessionState, added: Handover) {
    match added
    case Steered(prompt, _) => ShownLast(r.transcript) == Some(prompt)
    case Started(glued, Direct, _, _) => |glued.parts| == 1 && ShownLast(r.transcript) == Some(glued.parts[0])
    case Started(glued, AfterStop, _, _) => s.promptAfterStop == Some(glued)
    case Started(glued, ForkRetry, _, _) => s.fork.prompt == Some(glued)
  }

  /** What a fork can still draw on never grows back: its source, the saved history, and a session not yet named. */
  predicate DrawsOn(a: Fork, b: Fork) {
    && (b.source.Some? ==> b.source == a.source)
    && (b.context.Some? ==> b.context == a.context)
    && (b.nativeSessionId.None? ==> a.nativeSessionId.None?)
  }

  predicate IsCovered(fork: Fork, added: Handover) {
    added.Started? ==>
      (added.fork ==> fork.source.Some? && fork.nativeSessionId.None?) && (added.withHistory ==> fork.context.Some?)
  }

  predicate GoesInOrder(s: SessionState, r: SessionState) {
    && WaitsInOrder(s, r)
    && DrawsOn(s.fork, r.fork)
    && (|| r.handed == s.handed
        || (&& |r.handed| == |s.handed| + 1 && r.handed[..|s.handed|] == s.handed
            && HandsWhatIsDue(s, r, r.handed[|s.handed|]) && IsCovered(s.fork, r.handed[|s.handed|])))
  }

  lemma DeliverGoesInOrder(s: SessionState, prompt: Prompt, env: Env)
    ensures GoesInOrder(s, Deliver(s, prompt, env))
  {
    hide IsCommand, Prompt.Merge;
    if !MustWait(s, prompt) {
      var t := PushUser(s.transcript, prompt, env.now);
      assert ShownLast(t) == Some(prompt);
    }
  }

  lemma SendMessageGoesInOrder(s: SessionState, message: Prompt, env: Env)
    ensures GoesInOrder(s, SendMessage(s, message, env))
  {
    hide Deliver, Prompt.Trimmed, Prompt.IsEmpty, HandsWhatIsDue;
    var prompt := message.Trimmed();
    DeliverGoesInOrder(s, prompt, env);
    var queued := Enqueue(s.queue, prompt);
    if NextSendable(queued.items, queued.editing).Some? {
      var i := NextSendable(queued.items, queued.editing).value;
      var taken := s.(queue := Dequeue(queued, i));
      DeliverGoesInOrder(taken, queued.items[i].prompt, env);
      OrderDependsOnPrompts(s, taken, Deliver(taken, queued.items[i].prompt, env));
    }
  }

  lemma OrderDependsOnPrompts(s: SessionState, t: SessionState, r: SessionState)
    requires GoesInOrder(t, r)
    requires s.promptAfterStop == t.promptAfterStop && s.fork.(failed := t.fork.failed) == t.fork && s.handed == t.handed
    ensures GoesInOrder(s, r)
  {
  }

  lemma QueueStepGoesInOrder(s: SessionState, action: Action, i: nat, env: Env)
    requires i < |s.queue.items|
    ensures GoesInOrder(s, QueueStep(s, action, i, env))
  {
    hide Deliver, TakeQueued, Moved, HandsWhatIsDue;
    var cut := if s.working && s.run.Some? then Some(Run(true)) else s.run;
    if action.SteerQueued? {
      var taken := s.(queue := TakeQueued(s.queue, i));
      DeliverGoesInOrder(taken, s.queue.items[i].prompt, env);
      OrderDependsOnPrompts(s, taken, Deliver(taken, s.queue.items[i].prompt, env));
    } else if action.SendQueuedNow? {
      var taken := s.(queue := TakeQueued(s.queue, i), run := cut);
      DeliverGoesInOrder(taken, s.queue.items[i].prompt, env);
      OrderDependsOnPrompts(s, taken, Deliver(taken, s.queue.items[i].prompt, env));
    }
  }

  /** With nothing waiting and no run, a delivered message starts one. */
  lemma IdleSendGoesInOrder(s: SessionState, t: SessionState, env: Env)
    requires t.promptAfterStop.None? && t.run.None? && t.handed == s.handed && DrawsOn(s.fork, t.fork)
    ensures GoesInOrder(s, SendNextQueued(t, env))
  {
    hide IsCommand, Prompt.Merge, PushUser;
    if !t.working && !t.deleted && NextSendable(t.queue.items, t.queue.editing).Some? {
      var i := NextSendable(t.queue.items, t.queue.editing).value;
      ShownIsLast(t.transcript, t.queue.items[i].prompt, env.now);
    }
  }

  lemma ShownIsLast(t: TranscriptState, prompt: Prompt, now: int)
    ensures ShownLast(PushUser(t, prompt, now)) == Some(prompt)
  {
  }

  lemma RunEndedGoesInOrder(s: SessionState, env: Env)
    ensures GoesInOrder(s, RunEnded(s, env))
  {
    hide SendNextQueued, SettleSubagents, CancelRunning, IsCommand;
    IdleSendGoesInOrder(s, DropRun(s).(working := false, promptAfterStop := None), env);
  }

  lemma EventGoesInOrder(s: SessionState, event: AgentEvent, env: Env)
    ensures GoesInOrder(s, ApplyEvent(s, event, env))
  {
    NamingDrawsOn(s.fork, event);
    hide SendNextQueued, Fold, StreamedOps, DoneOps, StreamedSubagents, StreamedFork, NamedBy, ReleasedBy,
      ShowsAutoNotice, Resumes, HandsWhatIsDue, DrawsOn;
    if event.Done? && !FailsFork(s, event) {
      hide FailsFork;
      EndedTurnGoesInOrder(s, EndTurn(s, event), env);
    }
  }

  lemma NamingDrawsOn(fork: Fork, event: AgentEvent)
    ensures DrawsOn(fork, NamedBy(fork, event)) && DrawsOn(fork, StreamedFork(fork, event))
    ensures DrawsOn(fork, fork.(failed := true))
  {
  }

  /** The end of a turn starts nothing but the next queued message. */
  lemma EndedTurnGoesInOrder(s: SessionState, t: SessionState, env: Env)
    requires t.promptAfterStop == s.promptAfterStop && t.handed == s.handed && DrawsOn(s.fork, t.fork)
    ensures GoesInOrder(s, SendNextQueued(t, env))
    ensures GoesInOrder(s, t)
  {
    hide IsCommand, Prompt.Merge, PushUser;
    if !t.working && !t.deleted && NextSendable(t.queue.items, t.queue.editing).Some? {
      var i := NextSendable(t.queue.items, t.queue.editing).value;
      ShownIsLast(t.transcript, t.queue.items[i].prompt, env.now);
    }
  }

  lemma FailRunGoesInOrder(s: SessionState, message: string, env: Env)
    ensures GoesInOrder(s, FailRun(s, message, env))
  {
    hide RunEnded, UndeliverLast, PushNotice, HandsWhatIsDue;
    var failed := s.(fork := s.fork.(failed := true));
    RunEndedGoesInOrder(failed, env);
    OrderDependsOnPrompts(s, failed, RunEnded(failed, env));
    var noticed := s.(transcript := PushNotice(UndeliverLast(s.transcript), message, true));
    RunEndedGoesInOrder(noticed, env);
    OrderDependsOnPrompts(s, noticed, RunEnded(noticed, env));
  }

  lemma RunStepGoesInOrder(s: SessionState, action: Action, env: Env)
    ensures GoesInOrder(s, RunStep(s, action, env))
  {
    hide ApplyEvent, RunEnded, FailRun, PushNotice, HandsWhatIsDue;
    if s.run.Some? {
      if action.Event? {
        EventGoesInOrder(s, action.event, env);
      } else if action.RunOver? {
        RunEndedGoesInOrder(s, env);
      } else if action.RunStartFailed? {
        FailRunGoesInOrder(s, action.message, env);
      }
    }
  }

  /**
   * Every step hands over what it should: the message it shows, all that waited for a stop, or the failed copy; and a
   * message that has to wait comes behind those that wait already.
   */
  lemma StepGoesInOrder(s: SessionState, action: Action, env: Env)
    ensures GoesInOrder(s, Step(s, action, env))
  {
    hide SendMessage, QueueStep, RunStep, FinishQueuedEdit, DrainFailed, HandsWhatIsDue;
    if action.ByTheRun() {
      RunStepGoesInOrder(s, action, env);
    } else if action.OnQueued() {
      if QueueIndex(s.queue.items, action.id).Some? {
        QueueStepGoesInOrder(s, action, QueueIndex(s.queue.items, action.id).value, env);
      }
    } else if action.Send? {
      SendMessageGoesInOrder(s, action.prompt, env);
    } else if action.RetryUndelivered? && CanRetry(s, action.index) {
      var drained := s.(transcript := DrainFailed(s.transcript, action.index));
      SendMessageGoesInOrder(drained, s.transcript.entries[action.index].prompt, env);
      OrderDependsOnPrompts(s, drained, SendMessage(drained, s.transcript.entries[action.index].prompt, env));
    }
  }

  // ---------------------------------------------------------------- copies and histories

  /** A fork that has gone stale, or whose session is named, is not copied in any history; nor is a lost history sent. */
  lemma {:induction false} NothingIsCopiedWithoutSource(s: SessionState, moves: seq<Move>)
    ensures var r := Play(s, moves);
            && DrawsOn(s.fork, r.fork) && |r.handed| >= |s.handed|
            && forall i | |s.handed| <= i < |r.handed| :: IsCovered(s.fork, r.handed[i])
  {
    hide Step, HandsWhatIsDue, WaitsInOrder;
    if moves != [] {
      var before, last := Play(s, moves[..|moves| - 1]), moves[|moves| - 1];
      NothingIsCopiedWithoutSource(s, moves[..|moves| - 1]);
      StepGoesInOrder(before, last.action, last.env);
      var r := Step(before, last.action, last.env);
      if r.handed != before.handed {
        assert forall i | 0 <= i < |before.handed| :: r.handed[i] == r.handed[..|before.handed|][i];
      }
    }
  }

  /** So once its source has gone, a chat starts no copy any more. */
  lemma StaleForkIsNeverCopied(s: SessionState, stale: Env, moves: seq<Move>, i: nat)
    requires var r := Play(Step(s, ForkWentStale, stale), moves); |s.handed| <= i < |r.handed| && r.handed[i].Started?
    ensures !Play(Step(s, ForkWentStale, stale), moves).handed[i].fork
  {
    assert Step(s, ForkWentStale, stale) == s.(fork := s.fork.(source := None));
    hide Play, Step;
    NothingIsCopiedWithoutSource(s.(fork := s.fork.(source := None)), moves);
    assert IsCovered(s.fork.(source := None), Play(Step(s, ForkWentStale, stale), moves).handed[i]);
  }
}
