/** Where a message goes: into the live turn, into a new run, behind a stop, or into the queue. */
module SessionDelivery {
  import opened Wrappers
  import opened Prompts
  import opened Transcripts
  import opened Sessions
  import opened SessionInvariants
  import opened SessionCopies

  // ---------------------------------------------------------------- one message

  /** A live run that is neither being stopped nor due to be started again. */
  predicate TakesMessages(s: SessionState) {
    s.run.Some? && !s.run.value.cancelled && (s.restartOnNextSend ==> s.working)
  }

  /** A command would become text inside a turn Claude is working on, or be glued to another message behind a stop. */
  predicate WouldBeMisread(s: SessionState, prompt: Prompt) {
    && s.working
    && (|| (TakesMessages(s) && s.kind == Claude && IsCommand(prompt.text))
        || (s.run.Some? && s.run.value.cancelled && s.promptAfterStop.Some?
            && (IsCommand(s.promptAfterStop.value.prompt.text) || IsCommand(prompt.text))))
  }

  /** A stopped run the message has to wait for. */
  predicate WaitsForRun(s: SessionState) {
    s.run.Some? && s.run.value.cancelled && (s.restartOnNextSend ==> s.working)
  }

  predicate GoesIntoTheTurn(s: SessionState, r: SessionState, prompt: Prompt) {
    r.handed == s.handed + [Steered(prompt, s.working)] && r.run == s.run && r.promptAfterStop == s.promptAfterStop
  }

  predicate GoesIntoANewRun(s: SessionState, r: SessionState, prompt: Prompt) {
    && |r.handed| == |s.handed| + 1 && r.handed[..|s.handed|] == s.handed
    && r.handed[|s.handed|].Started? && r.handed[|s.handed|].glued == Glued(prompt, [prompt])
    && r.run == Some(Run(false)) && r.promptAfterStop == s.promptAfterStop && !r.restartOnNextSend
  }

  predicate GoesBehindTheStop(s: SessionState, r: SessionState, prompt: Prompt) {
    && r.handed == s.handed && r.run == s.run && r.promptAfterStop.Some?
    && r.promptAfterStop.value.parts
         == (if s.promptAfterStop.Some? then s.promptAfterStop.value.parts else []) + [prompt]
  }

  predicate GoesBackToTheQueue(s: SessionState, r: SessionState, prompt: Prompt) {
    && r.handed == s.handed && r.run == s.run && r.promptAfterStop == s.promptAfterStop
    && r.queue.items == [Queued(s.queue.lastId + 1, prompt)] + s.queue.items
  }

  /** What becomes of a delivered message, in every state. */
  lemma DeliveredExactly(s: SessionState, prompt: Prompt, env: Env)
    ensures var r := Deliver(s, prompt, env);
            if WouldBeMisread(s, prompt) then GoesBackToTheQueue(s, r, prompt)
            else if WaitsForRun(s) then GoesBehindTheStop(s, r, prompt)
            else if TakesMessages(s) && env.steerFits then GoesIntoTheTurn(s, r, prompt)
            else GoesIntoANewRun(s, r, prompt)
    ensures Deliver(s, prompt, env).working || WouldBeMisread(s, prompt)
  {
    hide IsCommand, Prompt.Merge, PushUser, ForkAtStart;
  }

  // ---------------------------------------------------------------- calls

  predicate NothingSendable(s: SessionState) {
    NextSendable(s.queue.items, s.queue.editing).None?
  }

  /**
   * A message the user sends, with nothing sendable queued: into the turn or a new run, or behind a stop, and into the
   * queue only where the program is set to wait for the turn or the message would be misread.
   */
  lemma SentMessageGoesExactly(s: SessionState, message: Prompt, env: Env)
    requires !s.deleted && !message.Trimmed().IsEmpty() && NothingSendable(s)
    ensures var r := Step(s, Send(message), env);
            var prompt := message.Trimmed();
            if s.working && s.run.Some? && !s.run.value.cancelled && !env.steerWhileWorking then
              r == s.(queue := Enqueue(s.queue, prompt))
            else if WouldBeMisread(s, prompt) then GoesBackToTheQueue(s, r, prompt)
            else if WaitsForRun(s) then GoesBehindTheStop(s, r, prompt)
            else if TakesMessages(s) && env.steerFits then GoesIntoTheTurn(s, r, prompt)
            else GoesIntoANewRun(s, r, prompt)
  {
    hide Prompt.Trimmed, Prompt.IsEmpty, Deliver, GoesBackToTheQueue, GoesBehindTheStop, GoesIntoTheTurn,
      GoesIntoANewRun, WouldBeMisread, WaitsForRun, TakesMessages, NextSendable;
    DeliveredExactly(s, message.Trimmed(), env);
  }

  /** With queued messages before it, a message sent to an idle chat takes its turn: the first sendable one goes. */
  lemma QueuedMessagesGoFirst(s: SessionState, message: Prompt, env: Env)
    requires !s.deleted && !message.Trimmed().IsEmpty() && !NothingSendable(s)
    requires !s.working && !s.Stopping()
    ensures var r := Step(s, Send(message), env);
            var i := NextSendable(s.queue.items, s.queue.editing).value;
            var queued := s.queue.items[i].prompt;
            && r.queue.items == Removed(s.queue.items, i) + [Queued(s.queue.lastId + 1, message.Trimmed())]
            && r.transcript == PushUser(s.transcript, queued, env.now)
            && (if TakesMessages(s) && env.steerFits then GoesIntoTheTurn(s, r, queued) else GoesIntoANewRun(s, r, queued))
  {
    hide Prompt.Trimmed, Prompt.IsEmpty, Deliver, PushUser, NextSendable;
    var i := NextSendable(s.queue.items, s.queue.editing).value;
    var grown := Enqueue(s.queue, message.Trimmed());
    NextIsTheSame(s.queue.items, s.queue.editing, grown.items[|s.queue.items|]);
    var taken := s.(queue := Dequeue(grown, i));
    DeliveredExactly(taken, s.queue.items[i].prompt, env);
    DeliverEffect(taken, s.queue.items[i].prompt, env);
  }

  lemma {:induction false} NextIsTheSame(items: seq<Queued>, editing: Option<nat>, last: Queued)
    requires NextSendable(items, editing).Some?
    ensures NextSendable(items + [last], editing) == NextSendable(items, editing)
  {
    assert (items + [last])[0] == items[0] && (items + [last])[1..] == items[1..] + [last];
    if BeingEdited(items[0], editing) {
      NextIsTheSame(items[1..], editing, last);
    }
  }

  /** Sending a queued message now cuts a working run short and puts the message behind it. */
  lemma SendNowCutsTheRun(s: SessionState, id: nat, env: Env)
    requires s.working && s.run.Some? && QueueIndex(s.queue.items, id).Some?
    ensures var r := Step(s, SendQueuedNow(id), env);
            var i := QueueIndex(s.queue.items, id).value;
            var prompt := s.queue.items[i].prompt;
            var cut := s.(queue := TakeQueued(s.queue, i), run := Some(Run(true)));
            && r.run == Some(Run(true)) && r.handed == s.handed
            && (if WouldBeMisread(cut, prompt) then GoesBackToTheQueue(cut, r, prompt)
                else GoesBehindTheStop(cut, r, prompt))
  {
    hide Deliver, TakeQueued, QueueIndex, IsCommand;
    var i := QueueIndex(s.queue.items, id).value;
    DeliveredExactly(s.(queue := TakeQueued(s.queue, i), run := Some(Run(true))), s.queue.items[i].prompt, env);
  }

  /** Changed settings reach the agent with the next message: it gets a run of its own. */
  lemma ChangedSettingsStartANewRun(s: SessionState, message: Prompt, changed: Env, env: Env)
    requires !s.deleted && !s.working && s.run.Some? && !s.run.value.cancelled
    requires !message.Trimmed().IsEmpty() && NothingSendable(s)
    ensures var r := Step(Step(s, ChangeSettings, changed), Send(message), env);
            GoesIntoANewRun(s, r, message.Trimmed())
  {
    hide Prompt.Trimmed, Prompt.IsEmpty, Deliver, NextSendable;
    var t := s.(restartOnNextSend := true);
    assert Step(s, ChangeSettings, changed) == t;
    hide Step;
    SentMessageGoesExactly(t, message, env);
  }

  // ---------------------------------------------------------------- deleted chats

  lemma DeletedStays(s: SessionState, action: Action, env: Env)
    requires s.deleted && s.run.None? && !action.SteerQueued? && !action.SendQueuedNow?
    ensures Step(s, action, env).deleted && Step(s, action, env).run.None?
  {
    hide TakeQueued, Moved, FinishQueuedEdit, DrainFailed, Deliver, QueueIndex;
  }

  predicate LeavesQueueAlone(moves: seq<Move>) {
    forall n | 0 <= n < |moves| :: !moves[n].action.SteerQueued? && !moves[n].action.SendQueuedNow?
  }

  /** Deleting a chat ends it: unless a queued message is steered or sent by its id, nothing is handed over any more. */
  lemma {:induction false} DeletedChatStaysQuiet(s: SessionState, deletion: Env, moves: seq<Move>)
    requires LeavesQueueAlone(moves)
    ensures var r := Play(Step(s, Delete, deletion), moves);
            r.deleted && r.handed == s.handed && r.run.None?
  {
    hide Step;
    var deleted := Step(s, Delete, deletion);
    DeletionEnds(s, deletion);
    if moves != [] {
      var init, last := moves[..|moves| - 1], moves[|moves| - 1];
      assert forall n | 0 <= n < |init| :: init[n] == moves[n];
      DeletedChatStaysQuiet(s, deletion, init);
      assert !moves[|init|].action.SteerQueued? && !moves[|init|].action.SendQueuedNow?;
      DeletedStays(Play(deleted, init), last.action, last.env);
      DeletedChatHandsOverExactly(Play(deleted, init), last.action, last.env);
    }
  }

  lemma DeletionEnds(s: SessionState, env: Env)
    ensures var r := Step(s, Delete, env);
            r.deleted && r.run.None? && r.promptAfterStop.None? && !r.working && r.handed == s.handed
  {
  }
}
