/** Every message the transcript shows was handed to a run once, waits for a stop, or was dropped by a stop or a deletion. */
module SessionHandovers {
  import opened Wrappers
  import opened Prompts
  import opened Transcripts
  import opened TranscriptFold
  import opened Sessions
  import opened SessionLedger
  import opened SessionStops

  /** The messages of one handover; the second try of a failed copy brings no new ones. */
  function PartsOf(handover: Handover): multiset<Prompt> {
    match handover
    case Started(glued, cause, _, _) => if cause == ForkRetry then multiset{} else multiset(glued.parts)
    case Steered(prompt, _) => multiset{prompt}
  }

  function HandedPrompts(handed: seq<Handover>): multiset<Prompt> {
    if handed == [] then multiset{} else HandedPrompts(handed[..|handed| - 1]) + PartsOf(handed[|handed| - 1])
  }

  function WaitingParts(waiting: Option<Glued>): multiset<Prompt> {
    if waiting.Some? then multiset(waiting.value.parts) else multiset{}
  }

  /** The messages a session has handed to runs, or will hand to one after the stop. */
  function Passed(s: SessionState): multiset<Prompt> {
    HandedPrompts(s.handed) + WaitingParts(s.promptAfterStop)
  }

  /** The shown message a retry takes back out of the transcript. */
  function TakenBack(s: SessionState, action: Action): multiset<Prompt> {
    if action.RetryUndelivered? && CanRetry(s, action.index) then multiset{s.transcript.entries[action.index].prompt}
    else multiset{}
  }

  /** The shown messages that were waiting when the user stopped again, or the chat was deleted. */
  function Dropped(s: SessionState, action: Action): multiset<Prompt> {
    if action.Stop? || action.Delete? || (s.deleted && s.run.Some? && (action.RunOver? || action.RunStartFailed?)) then
      WaitingParts(s.promptAfterStop)
    else multiset{}
  }

  /** As many messages were newly shown as were passed on, apart from those taken back and those dropped. */
  predicate Accounts(s: SessionState, r: SessionState, back: multiset<Prompt>, dropped: multiset<Prompt>) {
    Users(r.transcript.entries) + back + Passed(s) == Users(s.transcript.entries) + Passed(r) + dropped
  }

  predicate Balanced(s: SessionState, r: SessionState) {
    Accounts(s, r, multiset{}, multiset{})
  }

  lemma OneMoreHandover(handed: seq<Handover>, handover: Handover)
    ensures HandedPrompts(handed + [handover]) == HandedPrompts(handed) + PartsOf(handover)
  {
    assert (handed + [handover])[..|handed|] == handed;
  }

  lemma Chained(
    u0: multiset<Prompt>, p0: multiset<Prompt>, u1: multiset<Prompt>, p1: multiset<Prompt>,
    u2: multiset<Prompt>, p2: multiset<Prompt>,
    back: multiset<Prompt>, dropped: multiset<Prompt>, moreBack: multiset<Prompt>, moreDropped: multiset<Prompt>)
    requires u1 + back + p0 == u0 + p1 + dropped
    requires u2 + moreBack + p1 == u1 + p2 + moreDropped
    ensures u2 + (back + moreBack) + p0 == u0 + p2 + (dropped + moreDropped)
  {
    forall x
      ensures (u2 + (back + moreBack) + p0)[x] == (u0 + p2 + (dropped + moreDropped))[x]
    {
      assert (u1 + back + p0)[x] == (u0 + p1 + dropped)[x];
      assert (u2 + moreBack + p1)[x] == (u1 + p2 + moreDropped)[x];
    }
  }

  lemma AccountsChain(
    s: SessionState, t: SessionState, r: SessionState,
    back: multiset<Prompt>, dropped: multiset<Prompt>, moreBack: multiset<Prompt>, moreDropped: multiset<Prompt>)
    requires Accounts(s, t, back, dropped) && Accounts(t, r, moreBack, moreDropped)
    ensures Accounts(s, r, back + moreBack, dropped + moreDropped)
  {
    hide Users, Passed;
    Chained(
      Users(s.transcript.entries), Passed(s), Users(t.transcript.entries), Passed(t), Users(r.transcript.entries), Passed(r),
      back, dropped, moreBack, moreDropped);
  }

  lemma NothingAdds(a: multiset<Prompt>)
    ensures a + multiset{} == a && multiset{} + a == a
  {
  }

  /** What neither shows nor passes on a message. */
  lemma AccountsDependsOn(s: SessionState, t: SessionState, r: SessionState, back: multiset<Prompt>, dropped: multiset<Prompt>)
    requires Accounts(s, r, back, dropped)
    requires Users(t.transcript.entries) == Users(s.transcript.entries)
    requires t.handed == s.handed && t.promptAfterStop == s.promptAfterStop
    ensures Accounts(t, r, back, dropped)
  {
    hide Users, HandedPrompts, WaitingParts;
  }

  lemma SameIsBalanced(s: SessionState, r: SessionState)
    requires Users(r.transcript.entries) == Users(s.transcript.entries)
    requires r.handed == s.handed && r.promptAfterStop == s.promptAfterStop
    ensures Balanced(s, r)
  {
    hide Users, HandedPrompts, WaitingParts;
    NothingAdds(Users(s.transcript.entries));
    NothingAdds(Users(s.transcript.entries) + Passed(s));
  }

  lemma StartPasses(s: SessionState, glued: Glued, cause: StartCause)
    ensures var r := StartRun(s, glued, cause);
            Passed(r) == Passed(s) + (if cause == ForkRetry then multiset{} else multiset(glued.parts))
  {
    hide HandedPrompts, WaitingParts, IsCommand;
    var r := StartRun(s, glued, cause);
    OneMoreHandover(s.handed, r.handed[|s.handed|]);
    var parts := if cause == ForkRetry then multiset{} else multiset(glued.parts);
    Regroup(HandedPrompts(s.handed), parts, WaitingParts(s.promptAfterStop));
    Regroup(HandedPrompts(s.handed), WaitingParts(s.promptAfterStop), parts);
  }

  lemma HandOverPasses(s: SessionState, prompt: Prompt, wasWorking: bool, steerFits: bool)
    ensures Passed(HandOver(s, prompt, wasWorking, steerFits)) == Passed(s) + multiset{prompt}
  {
    hide HandedPrompts, StartRun, Prompt.Merge;
    if s.Stopping() {
      Regroup(HandedPrompts(s.handed), WaitingParts(s.promptAfterStop), multiset{prompt});
      WaitingGrows(s.promptAfterStop, prompt);
    } else if s.run.Some? && steerFits {
      OneMoreHandover(s.handed, Steered(prompt, wasWorking));
      Regroup(HandedPrompts(s.handed), multiset{prompt}, WaitingParts(s.promptAfterStop));
      Regroup(HandedPrompts(s.handed), WaitingParts(s.promptAfterStop), multiset{prompt});
    } else {
      StartPasses(s, Single(prompt), Direct);
    }
  }

  lemma WaitingGrows(waiting: Option<Glued>, prompt: Prompt)
    ensures WaitingParts(Some(Waiting(waiting, prompt))) == WaitingParts(waiting) + multiset{prompt}
  {
  }

  lemma DeliverIsBalanced(s: SessionState, prompt: Prompt, env: Env)
    ensures Balanced(s, Deliver(s, prompt, env))
  {
    hide Users, HandOver, Passed;
    if MustWait(s, prompt) {
      SamePassed(s, Deliver(s, prompt, env));
    } else {
      var accepted := Accept(s, prompt, env.now);
      var r := HandOver(accepted, prompt, s.working, env.steerFits);
      SamePassed(s, accepted);
      HandOverPasses(accepted, prompt, s.working, env.steerFits);
      UsersOfPush(s.transcript, User(prompt, env.now, false));
      OneShownOnePassed(Users(s.transcript.entries), Passed(s), multiset{prompt});
    }
  }

  lemma SamePassed(s: SessionState, r: SessionState)
    requires r.handed == s.handed && r.promptAfterStop == s.promptAfterStop
    ensures Passed(r) == Passed(s)
    ensures r.transcript == s.transcript ==> Balanced(s, r)
  {
    hide Users, HandedPrompts, WaitingParts;
  }

  lemma OneShownOnePassed(users: multiset<Prompt>, passed: multiset<Prompt>, one: multiset<Prompt>)
    ensures users + one + multiset{} + passed == users + (passed + one) + multiset{}
  {
  }

  lemma SendNextIsBalanced(s: SessionState, env: Env)
    ensures Balanced(s, SendNextQueued(s, env))
  {
    hide Deliver, Users, Passed, Accounts;
    SameStays(s, s);
    if !s.working && !s.deleted && NextSendable(s.queue.items, s.queue.editing).Some? {
      var i := NextSendable(s.queue.items, s.queue.editing).value;
      var taken := s.(queue := Dequeue(s.queue, i));
      DeliverIsBalanced(taken, s.queue.items[i].prompt, env);
      SameStays(s, taken);
      BalancedChain(s, taken, SendNextQueued(s, env));
    }
  }

  lemma SameStays(s: SessionState, r: SessionState)
    requires r.handed == s.handed && r.promptAfterStop == s.promptAfterStop && r.transcript == s.transcript
    ensures Balanced(s, r)
  {
    SamePassed(s, r);
  }

  lemma BalancedChain(s: SessionState, t: SessionState, r: SessionState)
    requires Balanced(s, t) && Balanced(t, r)
    ensures Balanced(s, r)
  {
    hide Accounts;
    AccountsChain(s, t, r, multiset{}, multiset{}, multiset{}, multiset{});
    NothingAdds(multiset{});
  }

  lemma SendMessageIsBalanced(s: SessionState, message: Prompt, env: Env)
    ensures Balanced(s, SendMessage(s, message, env))
  {
    hide Deliver, Accounts, Prompt.Trimmed, Prompt.IsEmpty;
    var prompt := message.Trimmed();
    SameStays(s, s);
    DeliverIsBalanced(s, prompt, env);
    var queued := Enqueue(s.queue, prompt);
    SameStays(s, s.(queue := queued));
    if NextSendable(queued.items, queued.editing).Some? {
      var i := NextSendable(queued.items, queued.editing).value;
      var taken := s.(queue := Dequeue(queued, i));
      DeliverIsBalanced(taken, queued.items[i].prompt, env);
      SameStays(s, taken);
      BalancedChain(s, taken, Deliver(taken, queued.items[i].prompt, env));
    }
  }

  lemma QueueStepIsBalanced(s: SessionState, action: Action, i: nat, env: Env)
    requires i < |s.queue.items|
    ensures Balanced(s, QueueStep(s, action, i, env))
  {
    hide Deliver, Accounts, TakeQueued, Moved;
    var taken, prompt := TakeQueued(s.queue, i), s.queue.items[i].prompt;
    var cut := if s.working && s.run.Some? then Some(Run(true)) else s.run;
    if action.SteerQueued? {
      DeliverIsBalanced(s.(queue := taken), prompt, env);
      SameStays(s, s.(queue := taken));
      BalancedChain(s, s.(queue := taken), QueueStep(s, action, i, env));
    } else if action.SendQueuedNow? {
      DeliverIsBalanced(s.(queue := taken, run := cut), prompt, env);
      SameStays(s, s.(queue := taken, run := cut));
      BalancedChain(s, s.(queue := taken, run := cut), QueueStep(s, action, i, env));
    } else {
      SameStays(s, QueueStep(s, action, i, env));
    }
  }

  /** Ending a run on a deleted chat drops what was waiting. */
  lemma RunEndedAccounts(s: SessionState, env: Env)
    ensures Accounts(
              s, RunEnded(s, env), multiset{}, if s.deleted then WaitingParts(s.promptAfterStop) else multiset{})
  {
    hide SendNextQueued, StartRun, Users, HandedPrompts, Accounts, SettleSubagents, CancelRunning;
    var dropped := DropRun(s);
    UsersOfCanceled(s.transcript);
    if RetriesFork(s) {
      var retried := dropped.(working := true, fork := dropped.fork.(source := None, errors := []));
      StartAccounts(retried, s.fork.prompt.value, ForkRetry);
      AccountsDependsOn(retried, s, RunEnded(s, env), multiset{}, multiset{});
    } else if s.promptAfterStop.Some? && !s.deleted {
      var taken := dropped.(working := true, promptAfterStop := None);
      WaitingStarts(s, taken);
    } else {
      var idle := dropped.(working := false, promptAfterStop := None);
      WaitingIsDropped(s, idle);
      SendNextIsBalanced(idle, env);
      if !s.userStopped {
        AccountsChain(
          s, idle, RunEnded(s, env),
          multiset{}, if s.deleted then WaitingParts(s.promptAfterStop) else multiset{}, multiset{}, multiset{});
        NothingAdds(multiset{});
        NothingAdds(if s.deleted then WaitingParts(s.promptAfterStop) else multiset{});
      }
    }
  }

  lemma UsersOfCanceled(t: TranscriptState)
    ensures Users(CancelRunning(t).entries) == Users(t.entries)
  {
    hide Users;
    UsersOfCancel(t.entries);
  }

  lemma StartAccounts(s: SessionState, glued: Glued, cause: StartCause)
    requires cause == ForkRetry
    ensures Balanced(s, StartRun(s, glued, cause))
  {
    hide Users, Passed, IsCommand;
    StartPasses(s, glued, cause);
    NothingAdds(Passed(s));
  }

  lemma WaitingStarts(s: SessionState, taken: SessionState)
    requires s.promptAfterStop.Some? && taken.promptAfterStop.None? && taken.handed == s.handed
    requires Users(taken.transcript.entries) == Users(s.transcript.entries)
    ensures Balanced(s, StartRun(taken, s.promptAfterStop.value, AfterStop))
  {
    hide Users, HandedPrompts, IsCommand;
    StartPasses(taken, s.promptAfterStop.value, AfterStop);
    NothingAdds(HandedPrompts(s.handed));
  }

  lemma WaitingIsDropped(s: SessionState, idle: SessionState)
    requires idle.promptAfterStop.None? && idle.handed == s.handed
    requires Users(idle.transcript.entries) == Users(s.transcript.entries)
    ensures Accounts(s, idle, multiset{}, WaitingParts(s.promptAfterStop))
  {
    hide Users, HandedPrompts;
    NothingAdds(HandedPrompts(s.handed));
    NothingAdds(Users(s.transcript.entries));
    Regroup(Users(s.transcript.entries), HandedPrompts(s.handed), WaitingParts(s.promptAfterStop));
  }

  lemma EventIsBalanced(s: SessionState, event: AgentEvent, env: Env)
    ensures Balanced(s, ApplyEvent(s, event, env))
  {
    hide SendNextQueued, Accounts, Users, Fold, StreamedOps, DoneOps, StreamedSubagents, StreamedFork, NamedBy, ReleasedBy,
      ShowsAutoNotice, Resumes;
    EventShowsNoUser(s, event, env.now);
    if !event.Done? {
      SameIsBalanced(s, ApplyStreamed(s, event, env.now));
    } else if FailsFork(s, event) {
      SameIsBalanced(s, ApplyEvent(s, event, env));
    } else {
      SameIsBalanced(s, EndTurn(s, event));
      SendNextIsBalanced(EndTurn(s, event), env);
      BalancedChain(s, EndTurn(s, event), SendNextQueued(EndTurn(s, event), env));
    }
  }

  lemma FailRunAccounts(s: SessionState, message: string, env: Env)
    ensures Accounts(
              s, FailRun(s, message, env), multiset{}, if s.deleted then WaitingParts(s.promptAfterStop) else multiset{})
  {
    hide RunEnded, Accounts, Users, UndeliverLast, PushNotice, WaitingParts;
    NoticeShowsNoUser(s.transcript, message);
    var dropped := if s.deleted then WaitingParts(s.promptAfterStop) else multiset{};
    var failed := s.(fork := s.fork.(failed := true));
    var noticed := s.(transcript := PushNotice(UndeliverLast(s.transcript), message, true));
    RunEndedAccounts(failed, env);
    RunEndedAccounts(noticed, env);
    AccountsDependsOn(failed, s, RunEnded(failed, env), multiset{}, dropped);
    AccountsDependsOn(noticed, s, RunEnded(noticed, env), multiset{}, dropped);
  }

  lemma RetryAccounts(s: SessionState, index: nat, env: Env)
    ensures Accounts(s, RetryStep(s, index, env), TakenBack(s, RetryUndelivered(index)), multiset{})
  {
    hide SendMessage, DrainFailed, Accounts, Users;
    if CanRetry(s, index) {
      var drained := s.(transcript := DrainFailed(s.transcript, index));
      var back := multiset{s.transcript.entries[index].prompt};
      DrainedAccounts(s, index);
      SendMessageIsBalanced(drained, s.transcript.entries[index].prompt, env);
      AccountsChain(s, drained, RetryStep(s, index, env), back, multiset{}, multiset{}, multiset{});
      NothingAdds(back);
      NothingAdds(multiset{});
    } else {
      SameStays(s, s);
    }
  }

  lemma DrainedAccounts(s: SessionState, index: nat)
    requires CanRetry(s, index)
    ensures Accounts(
              s, s.(transcript := DrainFailed(s.transcript, index)), multiset{s.transcript.entries[index].prompt}, multiset{})
  {
    hide Users, DrainFailed, Passed;
    UsersOfDrain(s.transcript, index);
    SamePassed(s, s.(transcript := DrainFailed(s.transcript, index)));
    NothingAdds(Users(s.transcript.entries) + Passed(s));
  }

  lemma StopAccounts(s: SessionState, r: SessionState)
    requires r.handed == s.handed && r.transcript == s.transcript && r.promptAfterStop.None?
    ensures Accounts(s, r, multiset{}, WaitingParts(s.promptAfterStop))
  {
    WaitingIsDropped(s, r);
  }

  /** In every step, newly shown messages are those newly handed to a run or waiting, apart from what is taken back or dropped. */
  lemma StepAccounts(s: SessionState, action: Action, env: Env)
    ensures Accounts(s, Step(s, action, env), TakenBack(s, action), Dropped(s, action))
  {
    hide SendMessage, QueueStep, RunEnded, ApplyEvent, FailRun, FinishQueuedEdit, RetryStep, Accounts, Users, WaitingParts,
      PushNotice;
    SameStays(s, s);
    if action.OnQueued() {
      if QueueIndex(s.queue.items, action.id).Some? {
        QueueStepIsBalanced(s, action, QueueIndex(s.queue.items, action.id).value, env);
      }
    } else if action.Send? {
      SendMessageIsBalanced(s, action.prompt, env);
    } else if action.RetryUndelivered? {
      RetryAccounts(s, action.index, env);
    } else if action.Stop? || action.Delete? {
      StopAccounts(s, Step(s, action, env));
    } else if action.ByTheRun() {
      RunStepAccounts(s, action, env);
    } else {
      SameStays(s, Step(s, action, env));
    }
  }

  lemma RunStepAccounts(s: SessionState, action: Action, env: Env)
    requires action.ByTheRun()
    ensures Accounts(s, RunStep(s, action, env), multiset{}, Dropped(s, action))
  {
    hide RunEnded, ApplyEvent, FailRun, Accounts, Users, WaitingParts, PushNotice;
    SameStays(s, s);
    if s.run.Some? {
      if action.Event? {
        EventIsBalanced(s, action.event, env);
      } else if action.RunOver? {
        RunEndedAccounts(s, env);
      } else if action.RunStartFailed? {
        FailRunAccounts(s, action.message, env);
      } else {
        NoticeShowsNoUser(s.transcript, action.message);
        SameIsBalanced(s, RunStep(s, action, env));
      }
    }
  }

  function TotalTakenBack(s: SessionState, moves: seq<Move>): multiset<Prompt> {
    if moves == [] then multiset{}
    else
      var init := moves[..|moves| - 1];
      TotalTakenBack(s, init) + TakenBack(Play(s, init), moves[|moves| - 1].action)
  }

  function TotalDropped(s: SessionState, moves: seq<Move>): multiset<Prompt> {
    if moves == [] then multiset{}
    else
      var init := moves[..|moves| - 1];
      TotalDropped(s, init) + Dropped(Play(s, init), moves[|moves| - 1].action)
  }

  lemma {:induction false} HistoriesAccount(s: SessionState, moves: seq<Move>)
    ensures Accounts(s, Play(s, moves), TotalTakenBack(s, moves), TotalDropped(s, moves))
  {
    hide Step, Accounts, TakenBack, Dropped;
    if moves == [] {
      SameStays(s, s);
    } else {
      var init, last := moves[..|moves| - 1], moves[|moves| - 1];
      HistoriesAccount(s, init);
      StepAccounts(Play(s, init), last.action, last.env);
      AccountsChain(
        s, Play(s, init), Play(s, moves),
        TotalTakenBack(s, init), TotalDropped(s, init),
        TakenBack(Play(s, init), last.action), Dropped(Play(s, init), last.action));
    }
  }

  /**
   * Over every history of a chat that begins empty, the messages ever shown are exactly those steered into a run,
   * started with one (second tries of a copy aside), still waiting, or dropped by a stop or a deletion: none is sent twice.
   */
  lemma ShownMessagesAreSentOnce(s: SessionState, moves: seq<Move>)
    requires Users(s.transcript.entries) == multiset{} && s.handed == [] && s.promptAfterStop.None?
    ensures var r := Play(s, moves);
            Users(r.transcript.entries) + TotalTakenBack(s, moves)
            == HandedPrompts(r.handed) + WaitingParts(r.promptAfterStop) + TotalDropped(s, moves)
  {
    assert HandedPrompts(s.handed) == multiset{};
    hide Users, Play, HandedPrompts, TotalTakenBack, TotalDropped;
    HistoriesAccount(s, moves);
    NothingAdds(Users(Play(s, moves).transcript.entries) + TotalTakenBack(s, moves));
    NothingAdds(Passed(Play(s, moves)));
  }
}
