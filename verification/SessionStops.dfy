/** When the queue moves on by itself: after a turn or a run, but not after the user pressed stop. */
module SessionStops {
  import opened Wrappers
  import opened Prompts
  import opened Transcripts
  import opened TranscriptFold
  import opened Sessions
  import opened SessionInvariants
  import opened SessionLedger

  /** The user has stopped, and has sent nothing since. */
  predicate Stopped(s: SessionState) {
    s.userStopped && s.promptAfterStop.None?
  }

  /** Anything but a user sending a message, or a turn that reports its own end and is not kept for another try. */
  predicate SendsNothing(s: SessionState, action: Action) {
    && !action.Send? && !action.SteerQueued? && !action.SendQueuedNow? && !action.RetryUndelivered?
    && (action.Event? && action.event.Done? ==> action.event.status == RunInterrupted || FailsFork(s, action.event))
  }

  /** No run is left, or only one that is being cut short. */
  predicate Winding(s: SessionState) {
    s.run.Some? ==> s.run.value.cancelled
  }

  /** The failed copy's prompt, on its way to a run of its own. */
  predicate HandedAgain(s: SessionState, r: SessionState) {
    && |r.handed| == |s.handed| + 1
    && r.run == Some(Run(false))
  }

  lemma RunEndsQuietly(s: SessionState, env: Env)
    requires Stopped(s)
    ensures var r := RunEnded(s, env);
            && Stopped(r)
            && r.queue == s.queue
            && Users(r.transcript.entries) == Users(s.transcript.entries)
            && (if RetriesFork(s) then HandedAgain(s, r) else r.run.None? && r.handed == s.handed)
  {
    hide ForkAtStart, SendNextQueued, Users, SettleSubagents, IsCommand;
    UsersOfCancel(s.transcript.entries);
  }

  lemma EventSendsNothing(s: SessionState, event: AgentEvent, env: Env)
    requires Stopped(s) && SendsNothing(s, Event(event))
    ensures var r := ApplyEvent(s, event, env);
            && Stopped(r)
            && r.queue == s.queue && r.run == s.run && r.handed == s.handed
            && Users(r.transcript.entries) == Users(s.transcript.entries)
  {
    hide StreamedSubagents, StreamedFork, NamedBy, ReleasedBy, Fold, Users, StreamedOps, DoneOps, Resumes, FailsFork;
    EventShowsNoUser(s, event, env.now);
  }

  lemma EventShowsNoUser(s: SessionState, event: AgentEvent, now: int)
    ensures event.Done? ==>
              Users(Fold(ReleasedBy(s.transcript, s.fork, event), DoneOps(event.status, event.error)).entries)
              == Users(s.transcript.entries)
    ensures !event.Done? ==>
              Users(Fold(ReleasedBy(s.transcript, s.fork, event), StreamedOps(s, event, now)).entries)
              == Users(s.transcript.entries)
  {
    hide Fold, Users, PushErrors, ShowsAutoNotice;
    UsersOfErrors(s.transcript, s.fork.errors);
    var released := ReleasedBy(s.transcript, s.fork, event);
    if event.Done? {
      UsersOfFold(released, DoneOps(event.status, event.error));
    } else {
      UsersOfFold(released, StreamedOps(s, event, now));
    }
  }

  lemma RunStepSendsNothing(s: SessionState, action: Action, env: Env)
    requires Stopped(s) && SendsNothing(s, action) && action.ByTheRun()
    ensures var r := RunStep(s, action, env);
            && Stopped(r)
            && Users(r.transcript.entries) == Users(s.transcript.entries)
            && r.queue == s.queue
            && (if RetriesNow(s, action) then HandedAgain(s, r)
                else r.handed == s.handed && (Winding(s) ==> Winding(r)))
  {
    hide RunEnded, FailRun, ApplyEvent, UndeliverLast, PushNotice, Users, FailsFork;
    if s.run.Some? {
      if action.Event? {
        EventSendsNothing(s, action.event, env);
      } else if action.RunOver? {
        RunEndsQuietly(s, env);
      } else if action.StreamError? {
        NoticeShowsNoUser(s.transcript, action.message);
      } else {
        FailedStartEndsQuietly(s, action.message, env);
      }
    }
  }

  lemma StepSendsNothing(s: SessionState, action: Action, env: Env)
    requires Stopped(s) && SendsNothing(s, action)
    ensures var r := Step(s, action, env);
            && Stopped(r)
            && Users(r.transcript.entries) == Users(s.transcript.entries)
            && (action.ByTheRun() ==> r.queue == s.queue)
            && (if RetriesNow(s, action) then HandedAgain(s, r)
                else r.handed == s.handed && (Winding(s) ==> Winding(r)))
  {
    hide RunStep, Moved, TakeQueued, FinishQueuedEdit, Users, FailsFork, Deliver;
    if action.ByTheRun() {
      RunStepSendsNothing(s, action, env);
    }
  }

  lemma FailedStartEndsQuietly(s: SessionState, message: string, env: Env)
    requires Stopped(s)
    ensures var r := FailRun(s, message, env);
            && Stopped(r)
            && r.queue == s.queue
            && Users(r.transcript.entries) == Users(s.transcript.entries)
            && (if !s.deleted && (RetriesFork(s) || s.fork.Pending()) then HandedAgain(s, r)
                else r.run.None? && r.handed == s.handed)
  {
    hide RunEnded, UndeliverLast, PushNotice, Users;
    NoticeShowsNoUser(s.transcript, message);
    RunEndsQuietly(s.(fork := s.fork.(failed := true)), env);
    RunEndsQuietly(s.(transcript := PushNotice(UndeliverLast(s.transcript), message, true)), env);
  }

  lemma NoticeShowsNoUser(t: TranscriptState, message: string)
    ensures Users(PushNotice(t, message, true).entries) == Users(t.entries)
    ensures Users(PushNotice(UndeliverLast(t), message, true).entries) == Users(t.entries)
  {
    hide Users;
    UsersOfPush(t, Notice(message, true));
    UsersOfPush(UndeliverLast(t), Notice(message, true));
    var n := |t.entries|;
    if n > 0 && t.entries[n - 1].User? {
      UsersOfUpdate(t.entries, n - 1, t.entries[n - 1].(undelivered := true));
    }
  }

  predicate QuietAt(s: SessionState, moves: seq<Move>, n: nat)
    requires n < |moves|
  {
    SendsNothing(Play(s, moves[..n]), moves[n].action)
  }

  predicate RetriesAt(s: SessionState, moves: seq<Move>, n: nat)
    requires n < |moves|
  {
    RetriesNow(Play(s, moves[..n]), moves[n].action)
  }

  lemma PrefixOfPrefix(s: SessionState, moves: seq<Move>)
    requires moves != []
    ensures var init := moves[..|moves| - 1];
            forall n | 0 <= n < |init| ::
              QuietAt(s, init, n) == QuietAt(s, moves, n) && RetriesAt(s, init, n) == RetriesAt(s, moves, n)
  {
    hide SendsNothing, RetriesNow, Play;
    assert forall n | 0 <= n < |moves| :: moves[..|moves| - 1][..n] == moves[..n];
  }

  /**
   * After a stop, until the user sends again, the transcript gains no message and the run takes none from the queue.
   * No prompt reaches a run and no uncancelled run exists, exactly as long as no failed copy is tried again.
   */
  lemma {:induction false} NothingIsSentAfterStop(s: SessionState, stop: Env, moves: seq<Move>)
    requires forall n | 0 <= n < |moves| :: QuietAt(Step(s, Stop, stop), moves, n)
    ensures var stopped := Step(s, Stop, stop);
            var r := Play(stopped, moves);
            && Stopped(r)
            && Users(r.transcript.entries) == Users(s.transcript.entries)
            && ((forall i | 0 <= i < |moves| :: moves[i].action.ByTheRun()) ==> r.queue == s.queue)
            && (if forall n | 0 <= n < |moves| :: !RetriesAt(stopped, moves, n) then r.handed == s.handed && Winding(r)
                else |r.handed| > |s.handed|)
  {
    hide Step, Users, Stopped, SendsNothing, RetriesNow, QuietAt, RetriesAt, Winding;
    var stopped := Step(s, Stop, stop);
    StopSendsNothing(s, stop);
    if moves != [] {
      var init, last := moves[..|moves| - 1], moves[|moves| - 1];
      assert forall i | 0 <= i < |init| :: init[i] == moves[i];
      PrefixOfPrefix(stopped, moves);
      NothingIsSentAfterStop(s, stop, init);
      LastMoveIsQuiet(stopped, moves);
      OneMoreMove(stopped, moves);
    }
  }

  lemma LastMoveIsQuiet(stopped: SessionState, moves: seq<Move>)
    requires moves != [] && QuietAt(stopped, moves, |moves| - 1)
    ensures SendsNothing(Play(stopped, moves[..|moves| - 1]), moves[|moves| - 1].action)
  {
  }

  lemma OneMoreMove(stopped: SessionState, moves: seq<Move>)
    requires moves != []
    requires var before := Play(stopped, moves[..|moves| - 1]);
             && Stopped(before)
             && SendsNothing(before, moves[|moves| - 1].action)
    ensures var before, last := Play(stopped, moves[..|moves| - 1]), moves[|moves| - 1];
            var r := Play(stopped, moves);
            && Stopped(r)
            && Users(r.transcript.entries) == Users(before.transcript.entries)
            && (last.action.ByTheRun() ==> r.queue == before.queue)
            && (if RetriesAt(stopped, moves, |moves| - 1) then |r.handed| > |before.handed|
                else r.handed == before.handed && (Winding(before) ==> Winding(r)))
  {
    hide Step, Users, Stopped, SendsNothing, RetriesNow, Winding;
    StepSendsNothing(Play(stopped, moves[..|moves| - 1]), moves[|moves| - 1].action, moves[|moves| - 1].env);
  }

  lemma StopSendsNothing(s: SessionState, env: Env)
    ensures var stopped := Step(s, Stop, env);
            && Stopped(stopped)
            && stopped.transcript == s.transcript && stopped.queue == s.queue
            && stopped.handed == s.handed && Winding(stopped)
            && CopyIsOpen(stopped) == CopyIsOpen(s)
  {
  }

  /** A copy that would be tried again if the run failed now. */
  predicate CopyIsOpen(s: SessionState) {
    s.run.Some? && !s.deleted && s.fork.prompt.Some? && (s.fork.failed || s.fork.nativeSessionId.None?)
  }

  lemma StepOpensNoCopy(s: SessionState, action: Action, env: Env)
    requires Stopped(s) && SendsNothing(s, action) && !CopyIsOpen(s)
    ensures !RetriesNow(s, action) && !CopyIsOpen(Step(s, action, env))
  {
    hide RunEnded, ApplyEvent, FailRun, PushNotice, Moved, TakeQueued, FinishQueuedEdit, Users, FailsFork, Deliver;
    if action.Event? {
      EventOpensNoCopy(s, action.event, env);
    } else if action.RunOver? && s.run.Some? {
      RunEndsQuietly(s, env);
    } else if action.RunStartFailed? && s.run.Some? {
      FailedStartEndsQuietly(s, action.message, env);
    }
  }

  lemma EventOpensNoCopy(s: SessionState, event: AgentEvent, env: Env)
    requires SendsNothing(s, Event(event)) && !CopyIsOpen(s)
    ensures !CopyIsOpen(ApplyEvent(s, event, env))
  {
    hide StreamedSubagents, ReleasedBy, Fold, StreamedOps, DoneOps, Resumes, CarriedId, SendNextQueued, ShowsAutoNotice;
  }

  lemma {:induction false} NoCopyIsTriedAgain(stopped: SessionState, moves: seq<Move>)
    requires Stopped(stopped) && !CopyIsOpen(stopped)
    requires forall n | 0 <= n < |moves| :: QuietAt(stopped, moves, n)
    ensures Stopped(Play(stopped, moves)) && !CopyIsOpen(Play(stopped, moves))
    ensures forall n | 0 <= n < |moves| :: !RetriesAt(stopped, moves, n)
  {
    hide Step, Users, Stopped, SendsNothing, RetriesNow, QuietAt, RetriesAt, CopyIsOpen;
    if moves != [] {
      var init, last := moves[..|moves| - 1], moves[|moves| - 1];
      PrefixOfPrefix(stopped, moves);
      NoCopyIsTriedAgain(stopped, init);
      LastMoveIsQuiet(stopped, moves);
      StepSendsNothing(Play(stopped, init), last.action, last.env);
      StepOpensNoCopy(Play(stopped, init), last.action, last.env);
      LastMoveRetries(stopped, moves);
    }
  }

  lemma LastMoveRetries(stopped: SessionState, moves: seq<Move>)
    requires moves != []
    ensures RetriesAt(stopped, moves, |moves| - 1)
            == RetriesNow(Play(stopped, moves[..|moves| - 1]), moves[|moves| - 1].action)
  {
  }

  predicate IsQuiet(stopped: SessionState, moves: seq<Move>) {
    forall n | 0 <= n < |moves| :: QuietAt(stopped, moves, n)
  }

  /**
   * A stop is final, in that no later step hands anything over or leaves a run that is not cancelled until the user
   * sends again, exactly if no copy is open when it comes.
   */
  lemma StopIsFinalExactly(s: SessionState, stop: Env)
    ensures var stopped := Step(s, Stop, stop);
            (forall moves: seq<Move> | IsQuiet(stopped, moves) ::
               Play(stopped, moves).handed == s.handed && Winding(Play(stopped, moves)))
            <==> !CopyIsOpen(s)
  {
    hide Step, Users, SendsNothing, RetriesNow, QuietAt, RetriesAt, Winding;
    var stopped := Step(s, Stop, stop);
    StopSendsNothing(s, stop);
    if CopyIsOpen(s) {
      var failed := Move(RunStartFailed([]), stop);
      StoppedCopyIsSentAgain(s, [], stop);
      FailedStartIsQuiet(stopped, failed);
      assert Play(stopped, [failed]).handed != s.handed;
    } else {
      forall moves: seq<Move> | IsQuiet(stopped, moves)
        ensures Play(stopped, moves).handed == s.handed && Winding(Play(stopped, moves))
      {
        NoCopyIsTriedAgain(stopped, moves);
        NothingIsSentAfterStop(s, stop, moves);
      }
    }
  }

  lemma FailedStartIsQuiet(stopped: SessionState, failed: Move)
    requires failed.action.RunStartFailed?
    ensures IsQuiet(stopped, [failed]) && Play(stopped, [failed]) == Step(stopped, failed.action, failed.env)
  {
    hide Step;
    assert [failed][..0] == [];
  }

  lemma RetryHandsOverTheCopy(s: SessionState, env: Env)
    requires RetriesFork(s)
    ensures var r := RunEnded(s, env);
            var glued := s.fork.prompt.value;
            && r.run == Some(Run(false)) && r.working
            && r.handed == s.handed + [Started(
                 glued, ForkRetry, false, s.fork.context.Some? && !IsCommand(glued.prompt.text))]
  {
    hide IsCommand, SettleSubagents, CancelRunning, SendNextQueued;
  }

  /** Such a history: the start of a copy fails after the user has stopped it, and its prompt goes out again. */
  lemma StoppedCopyIsSentAgain(s: SessionState, message: string, env: Env)
    requires CopyIsOpen(s)
    ensures var r := Step(Step(s, Stop, env), RunStartFailed(message), env);
            var glued := s.fork.prompt.value;
            && r.run == Some(Run(false)) && r.working
            && r.handed == s.handed + [Started(
                 glued, ForkRetry, false, s.fork.context.Some? && !IsCommand(glued.prompt.text))]
  {
    hide IsCommand, RunEnded, UndeliverLast, PushNotice;
    var stopped := Step(s, Stop, env);
    assert stopped == s.(promptAfterStop := None, userStopped := true, run := Some(Run(true)));
    RetryHandsOverTheCopy(stopped.(fork := stopped.fork.(failed := true)), env);
    if !stopped.fork.Pending() {
      RetryHandsOverTheCopy(
        stopped.(transcript := PushNotice(UndeliverLast(stopped.transcript), message, true)), env);
    }
  }

  /** A turn or a run is over and nothing else claims the next turn. */
  predicate FreesTheSession(s: SessionState, action: Action) {
    && s.run.Some? && !s.deleted && s.promptAfterStop.None?
    && match action
       case Event(Done(status, error, id)) => status != RunInterrupted && !FailsFork(s, action.event)
       case RunOver => !s.userStopped && !RetriesFork(s)
       case RunStartFailed(_) => !s.userStopped && !s.fork.Pending() && !RetriesFork(s)
       case _ => false
  }

  /** The first queued message that is not being edited is shown, and only it leaves the queue. */
  predicate DeliversNext(s: SessionState, r: SessionState, now: int) {
    match NextSendable(s.queue.items, s.queue.editing)
    case Some(i) =>
      && r.queue.items == Removed(s.queue.items, i)
      && |r.transcript.entries| > 0
      && r.transcript.entries[|r.transcript.entries| - 1] == User(s.queue.items[i].prompt, now, false)
      && Users(r.transcript.entries) == Users(s.transcript.entries) + multiset{s.queue.items[i].prompt}
    case None => r.queue == s.queue && Users(r.transcript.entries) == Users(s.transcript.entries)
  }

  lemma SendNextDelivers(s: SessionState, env: Env)
    requires !s.working && !s.deleted
    ensures DeliversNext(s, SendNextQueued(s, env), env.now)
  {
    hide Deliver, Users, Removed;
    if NextSendable(s.queue.items, s.queue.editing).Some? {
      var i := NextSendable(s.queue.items, s.queue.editing).value;
      var taken := s.(queue := Dequeue(s.queue, i));
      var prompt := s.queue.items[i].prompt;
      DeliverEffect(taken, prompt, env);
      assert !MustWait(taken, prompt);
      UsersOfPush(s.transcript, User(prompt, env.now, false));
    }
  }

  lemma DeliversNextDependsOnUsers(s: SessionState, t: SessionState, r: SessionState, now: int)
    requires DeliversNext(t, r, now)
    requires t.queue == s.queue && Users(t.transcript.entries) == Users(s.transcript.entries)
    ensures DeliversNext(s, r, now)
  {
    hide Users, Removed;
  }

  lemma RunEndDelivers(s: SessionState, env: Env)
    requires !s.deleted && s.promptAfterStop.None? && !s.userStopped && !RetriesFork(s)
    ensures DeliversNext(s, RunEnded(s, env), env.now)
  {
    hide SendNextQueued, DeliversNext, Users, SettleSubagents;
    UsersOfCancel(s.transcript.entries);
    var idle := DropRun(s).(working := false, promptAfterStop := None);
    SendNextDelivers(idle, env);
    DeliversNextDependsOnUsers(s, idle, SendNextQueued(idle, env), env.now);
  }

  /** A finished or failed turn, a run that ends, or one that cannot start, sends exactly the next queued message. */
  lemma QueueMovesOn(s: SessionState, action: Action, env: Env)
    requires FreesTheSession(s, action)
    ensures DeliversNext(s, Step(s, action, env), env.now)
  {
    hide RunEnded, SendNextQueued, DeliversNext, Users, Fold, PushErrors, NamedBy, UndeliverLast, PushNotice;
    match action
    case Event(event) =>
      var released := ReleasedBy(s.transcript, s.fork, event);
      UsersOfErrors(s.transcript, s.fork.errors);
      UsersOfFold(released, DoneOps(event.status, event.error));
      SendNextDelivers(EndTurn(s, event), env);
      DeliversNextDependsOnUsers(s, EndTurn(s, event), Step(s, action, env), env.now);
    case RunOver => RunEndDelivers(s, env);
    case RunStartFailed(message) =>
      NoticeShowsNoUser(s.transcript, message);
      var noticed := s.(transcript := PushNotice(UndeliverLast(s.transcript), message, true));
      RunEndDelivers(noticed, env);
      DeliversNextDependsOnUsers(s, noticed, Step(s, action, env), env.now);
  }
}
