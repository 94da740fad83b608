/** What a second try of a failed native copy hands over again, and what it leaves behind. */
module SessionCopies {
  import opened Wrappers
  import opened Text
  import opened Prompts
  import opened Transcripts
  import opened TranscriptFold
  import opened Sessions
  import opened SessionInvariants
  import opened SessionLedger
  import opened SessionHandovers
  import SessionForks

  // ---------------------------------------------------------------- one handover at a time

  function LastStart(handed: seq<Handover>): Option<Handover> {
    if handed == [] then None
    else if handed[|handed| - 1].Started? then Some(handed[|handed| - 1])
    else LastStart(handed[..|handed| - 1])
  }

  /** The run started last is the copy whose prompt is kept for another try. */
  predicate IsCopyOf(start: Option<Handover>, glued: Glued) {
    start.Some? && start.value.Started? && start.value.fork && start.value.glued == glued
  }

  predicate CopyIsLast(s: SessionState) {
    s.fork.prompt.Some? ==> IsCopyOf(LastStart(s.handed), s.fork.prompt.value)
  }

  predicate IsSecondTry(handover: Handover) {
    handover.Started? && handover.cause == ForkRetry
  }

  /** A second try hands over exactly what the copy before it did. */
  predicate RetriesRepeat(handed: seq<Handover>) {
    handed != [] ==>
      var init, last := handed[..|handed| - 1], handed[|handed| - 1];
      RetriesRepeat(init) && (IsSecondTry(last) ==> IsCopyOf(LastStart(init), last.glued))
  }

  /** A step adds one handover at most; `retries` says that it is the second try of the copy kept so far. */
  predicate HandsInOrder(s: SessionState, r: SessionState, retries: bool) {
    if r.handed == s.handed then !retries && (r.fork.prompt.None? || r.fork.prompt == s.fork.prompt)
    else
      && |r.handed| == |s.handed| + 1 && r.handed[..|s.handed|] == s.handed
      && AddsInOrder(s, r, r.handed[|s.handed|], retries)
  }

  predicate AddsInOrder(s: SessionState, r: SessionState, added: Handover, retries: bool) {
    if added.Steered? then !retries && (r.fork.prompt.None? || r.fork.prompt == s.fork.prompt)
    else
      && r.fork.prompt == (if added.fork then Some(added.glued) else None)
      && (IsSecondTry(added) <==> retries)
      && (retries ==> s.fork.prompt == Some(added.glued) && !added.fork)
  }

  lemma StartHandsInOrder(s: SessionState, glued: Glued, cause: StartCause)
    ensures var r := StartRun(s, glued, cause);
            && |r.handed| == |s.handed| + 1 && r.handed[..|s.handed|] == s.handed
            && var added := r.handed[|s.handed|];
               added.Started? && added.glued == glued && added.cause == cause && added.fork == s.fork.Copies()
               && r.fork.prompt == (if s.fork.Copies() then Some(glued) else None)
  {
    hide IsCommand;
  }

  lemma DeliverHandsInOrder(s: SessionState, prompt: Prompt, env: Env)
    ensures HandsInOrder(s, Deliver(s, prompt, env), false)
  {
    hide StartRun, IsCommand, Prompt.Merge, PushUser;
    if !MustWait(s, prompt) {
      StartHandsInOrder(Accept(s, prompt, env.now), Single(prompt), Direct);
    }
  }

  lemma SendNextHandsInOrder(s: SessionState, env: Env)
    ensures HandsInOrder(s, SendNextQueued(s, env), false)
  {
    hide Deliver;
    if !s.working && !s.deleted && NextSendable(s.queue.items, s.queue.editing).Some? {
      var i := NextSendable(s.queue.items, s.queue.editing).value;
      DeliverHandsInOrder(s.(queue := Dequeue(s.queue, i)), s.queue.items[i].prompt, env);
    }
  }

  lemma SendMessageHandsInOrder(s: SessionState, message: Prompt, env: Env)
    ensures HandsInOrder(s, SendMessage(s, message, env), false)
  {
    hide Deliver, Prompt.Trimmed, Prompt.IsEmpty;
    var prompt := message.Trimmed();
    DeliverHandsInOrder(s, prompt, env);
    var queued := Enqueue(s.queue, prompt);
    if NextSendable(queued.items, queued.editing).Some? {
      var i := NextSendable(queued.items, queued.editing).value;
      DeliverHandsInOrder(s.(queue := Dequeue(queued, i)), queued.items[i].prompt, env);
    }
  }

  lemma QueueStepHandsInOrder(s: SessionState, action: Action, i: nat, env: Env)
    requires i < |s.queue.items|
    ensures HandsInOrder(s, QueueStep(s, action, i, env), false)
  {
    hide Deliver, TakeQueued, Moved;
    var queue, prompt := TakeQueued(s.queue, i), s.queue.items[i].prompt;
    var cut := if s.working && s.run.Some? then Some(Run(true)) else s.run;
    if action.SteerQueued? {
      DeliverHandsInOrder(s.(queue := queue), prompt, env);
    } else if action.SendQueuedNow? {
      DeliverHandsInOrder(s.(queue := queue, run := cut), prompt, env);
    }
  }

  lemma RunEndedHandsInOrder(s: SessionState, env: Env)
    ensures HandsInOrder(s, RunEnded(s, env), RetriesFork(s))
  {
    hide SendNextQueued, StartRun, SettleSubagents, CancelRunning;
    var dropped := DropRun(s);
    if RetriesFork(s) {
      var retried := dropped.(working := true, fork := dropped.fork.(source := None, errors := []));
      StartHandsInOrder(retried, s.fork.prompt.value, ForkRetry);
    } else if s.promptAfterStop.Some? && !s.deleted {
      StartHandsInOrder(dropped.(working := true, promptAfterStop := None), s.promptAfterStop.value, AfterStop);
    } else {
      SendNextHandsInOrder(dropped.(working := false, promptAfterStop := None), env);
    }
  }

  lemma EventHandsInOrder(s: SessionState, event: AgentEvent, env: Env)
    ensures HandsInOrder(s, ApplyEvent(s, event, env), false)
  {
    hide SendNextQueued, Fold, StreamedOps, DoneOps, StreamedSubagents, ReleasedBy, ShowsAutoNotice, Resumes;
    if event.Done? && !FailsFork(s, event) {
      SendNextHandsInOrder(EndTurn(s, event), env);
    }
  }

  lemma FailRunHandsInOrder(s: SessionState, message: string, env: Env)
    ensures HandsInOrder(s, FailRun(s, message, env), !s.deleted && (RetriesFork(s) || s.fork.Pending()))
  {
    hide RunEnded, UndeliverLast, PushNotice;
    RunEndedHandsInOrder(s.(fork := s.fork.(failed := true)), env);
    RunEndedHandsInOrder(s.(transcript := PushNotice(UndeliverLast(s.transcript), message, true)), env);
  }

  lemma RunStepHandsInOrder(s: SessionState, action: Action, env: Env)
    requires action.ByTheRun()
    ensures HandsInOrder(s, RunStep(s, action, env), RetriesNow(s, action))
  {
    hide ApplyEvent, RunEnded, FailRun, PushNotice;
    if s.run.Some? {
      if action.Event? {
        EventHandsInOrder(s, action.event, env);
      } else if action.RunOver? {
        RunEndedHandsInOrder(s, env);
      } else if action.RunStartFailed? {
        FailRunHandsInOrder(s, action.message, env);
      }
    }
  }

  lemma StepHandsInOrder(s: SessionState, action: Action, env: Env)
    ensures HandsInOrder(s, Step(s, action, env), RetriesNow(s, action))
  {
    hide SendMessage, QueueStep, RunStep, FinishQueuedEdit, DrainFailed;
    if action.ByTheRun() {
      RunStepHandsInOrder(s, action, env);
    } else if action.OnQueued() {
      if QueueIndex(s.queue.items, action.id).Some? {
        QueueStepHandsInOrder(s, action, QueueIndex(s.queue.items, action.id).value, env);
      }
    } else if action.Send? {
      SendMessageHandsInOrder(s, action.prompt, env);
    } else if action.RetryUndelivered? && CanRetry(s, action.index) {
      SendMessageHandsInOrder(
        s.(transcript := DrainFailed(s.transcript, action.index)), s.transcript.entries[action.index].prompt, env);
    }
  }

  // ---------------------------------------------------------------- what is handed over twice

  lemma InOrderRepeats(s: SessionState, r: SessionState, retries: bool)
    requires HandsInOrder(s, r, retries) && CopyIsLast(s) && RetriesRepeat(s.handed)
    ensures CopyIsLast(r) && RetriesRepeat(r.handed)
  {
    if r.handed != s.handed {
      assert r.handed[..|r.handed| - 1] == s.handed;
    }
  }

  /** Over every history, a second try hands over again exactly what its copy did. */
  lemma {:induction false} SecondTriesRepeatTheirCopies(s: SessionState, moves: seq<Move>)
    requires CopyIsLast(s) && RetriesRepeat(s.handed)
    ensures CopyIsLast(Play(s, moves)) && RetriesRepeat(Play(s, moves).handed)
  {
    hide Step, CopyIsLast, RetriesRepeat, RetriesNow, HandsInOrder;
    if moves != [] {
      var before, last := Play(s, moves[..|moves| - 1]), moves[|moves| - 1];
      SecondTriesRepeatTheirCopies(s, moves[..|moves| - 1]);
      StepHandsInOrder(before, last.action, last.env);
      InOrderRepeats(before, Step(before, last.action, last.env), RetriesNow(before, last.action));
    }
  }

  /** Every message of every handover. */
  function AllParts(handed: seq<Handover>): multiset<Prompt> {
    if handed == [] then multiset{}
    else
      var last := handed[|handed| - 1];
      AllParts(handed[..|handed| - 1]) + if last.Started? then multiset(last.glued.parts) else multiset{last.prompt}
  }

  /** The messages of the copies that were tried again. */
  function Repeated(handed: seq<Handover>): multiset<Prompt> {
    if handed == [] then multiset{}
    else
      var init, last := handed[..|handed| - 1], handed[|handed| - 1];
      Repeated(init) +
      if IsSecondTry(last) && LastStart(init).Some? && LastStart(init).value.Started? then
        multiset(LastStart(init).value.glued.parts)
      else multiset{}
  }

  lemma Grouped(a: multiset<Prompt>, b: multiset<Prompt>, c: multiset<Prompt>, d: multiset<Prompt>)
    ensures (a + b) + (c + d) == (a + c) + (b + d)
  {
  }

  /** What is handed over is what was shown for the first time, and the messages of copies tried again a second time. */
  lemma {:induction false} TwiceIsOnlyWhatCopiesRepeat(handed: seq<Handover>)
    requires RetriesRepeat(handed)
    ensures AllParts(handed) == HandedPrompts(handed) + Repeated(handed)
  {
    if handed != [] {
      var init, last := handed[..|handed| - 1], handed[|handed| - 1];
      TwiceIsOnlyWhatCopiesRepeat(init);
      var again := if IsSecondTry(last) then multiset(last.glued.parts) else multiset{};
      hide HandedPrompts, Repeated, AllParts;
      PartsOfLast(handed);
      Grouped(HandedPrompts(init), Repeated(init), PartsOf(last), again);
    }
  }

  lemma PartsOfLast(handed: seq<Handover>)
    requires handed != [] && RetriesRepeat(handed)
    ensures var init, last := handed[..|handed| - 1], handed[|handed| - 1];
            var again := if IsSecondTry(last) then multiset(last.glued.parts) else multiset{};
            && HandedPrompts(handed) == HandedPrompts(init) + PartsOf(last)
            && Repeated(handed) == Repeated(init) + again
            && AllParts(handed) == AllParts(init) + (PartsOf(last) + again)
  {
  }

  /**
   * Over every history of a new chat: whatever runs were handed, waits, or was dropped is what was shown, and again the
   * messages of a copy that was tried again.
   */
  lemma MessagesAreSentAgainOnlyWithTheirCopy(s: SessionState, moves: seq<Move>)
    requires Users(s.transcript.entries) == multiset{} && s.handed == [] && s.promptAfterStop.None? && s.fork.prompt.None?
    ensures var r := Play(s, moves);
            && RetriesRepeat(r.handed)
            && Users(r.transcript.entries) + TotalTakenBack(s, moves) + Repeated(r.handed)
               == AllParts(r.handed) + WaitingParts(r.promptAfterStop) + TotalDropped(s, moves)
  {
    assert CopyIsLast(s) && RetriesRepeat(s.handed);
    hide Users, Play, HandedPrompts, TotalTakenBack, TotalDropped, Repeated, AllParts, RetriesRepeat, CopyIsLast;
    SecondTriesRepeatTheirCopies(s, moves);
    ShownMessagesAreSentOnce(s, moves);
    var r := Play(s, moves);
    TwiceIsOnlyWhatCopiesRepeat(r.handed);
    Rearranged(
      Users(r.transcript.entries) + TotalTakenBack(s, moves), HandedPrompts(r.handed), Repeated(r.handed),
      WaitingParts(r.promptAfterStop), TotalDropped(s, moves));
  }

  lemma Rearranged(
    shown: multiset<Prompt>, handed: multiset<Prompt>, again: multiset<Prompt>, waiting: multiset<Prompt>,
    dropped: multiset<Prompt>)
    requires shown == handed + waiting + dropped
    ensures shown + again == handed + again + waiting + dropped
  {
  }

  // ---------------------------------------------------------------- what is left behind

  /** The messages steered into the run started last. */
  function SteeredSince(handed: seq<Handover>): multiset<Prompt> {
    if handed == [] || handed[|handed| - 1].Started? then multiset{}
    else SteeredSince(handed[..|handed| - 1]) + multiset{handed[|handed| - 1].prompt}
  }

  /** The messages steered into copies that were then tried again without them. */
  function LeftBehind(handed: seq<Handover>): multiset<Prompt> {
    if handed == [] then multiset{}
    else
      var init, last := handed[..|handed| - 1], handed[|handed| - 1];
      LeftBehind(init) + if IsSecondTry(last) then SteeredSince(init) else multiset{}
  }

  /** The messages handed to runs that were not given up for a second try without them. */
  function Carried(handed: seq<Handover>): multiset<Prompt> {
    if handed == [] then multiset{}
    else
      var init, last := handed[..|handed| - 1], handed[|handed| - 1];
      if IsSecondTry(last) then Carried(init) - SteeredSince(init) else Carried(init) + PartsOf(last)
  }

  lemma {:induction false} SteeredIsCarried(handed: seq<Handover>)
    ensures SteeredSince(handed) <= Carried(handed)
  {
    if handed != [] {
      SteeredIsCarried(handed[..|handed| - 1]);
    }
  }

  lemma {:induction false} CarriedOrLeftBehind(handed: seq<Handover>)
    ensures HandedPrompts(handed) == Carried(handed) + LeftBehind(handed)
  {
    if handed != [] {
      var init, last := handed[..|handed| - 1], handed[|handed| - 1];
      CarriedOrLeftBehind(init);
      SteeredIsCarried(init);
      hide SteeredSince;
      if IsSecondTry(last) {
        Shifted(Carried(init), LeftBehind(init), SteeredSince(init));
      } else {
        Regroup(Carried(init), LeftBehind(init), PartsOf(last));
      }
    }
  }

  lemma Shifted(carried: multiset<Prompt>, left: multiset<Prompt>, steered: multiset<Prompt>)
    requires steered <= carried
    ensures carried + left + multiset{} == (carried - steered) + (left + steered)
  {
  }

  /** A step leaves messages behind exactly if it tries a copy again: those steered into the copy, and no others. */
  lemma RetryLeavesSteeredBehind(s: SessionState, action: Action, env: Env)
    ensures var r := Step(s, action, env);
            && LeftBehind(r.handed)
               == LeftBehind(s.handed) + (if RetriesNow(s, action) then SteeredSince(s.handed) else multiset{})
            && (RetriesNow(s, action) ==>
                  |r.handed| == |s.handed| + 1 && r.handed[|s.handed|].Started?
                  && s.fork.prompt == Some(r.handed[|s.handed|].glued))
  {
    hide Step, RetriesNow, SteeredSince;
    StepHandsInOrder(s, action, env);
    var r := Step(s, action, env);
    if r.handed != s.handed {
      assert r.handed[..|r.handed| - 1] == s.handed;
    }
    assert LeftBehind(s.handed) + multiset{} == LeftBehind(s.handed);
  }

  /** A message shown reaches a run that goes on, waits, was dropped, or was steered into a copy that was tried again. */
  lemma ShownMessagesReachARun(s: SessionState, moves: seq<Move>)
    requires Users(s.transcript.entries) == multiset{} && s.handed == [] && s.promptAfterStop.None?
    ensures var r := Play(s, moves);
            Users(r.transcript.entries) + TotalTakenBack(s, moves)
            == Carried(r.handed) + LeftBehind(r.handed) + WaitingParts(r.promptAfterStop) + TotalDropped(s, moves)
  {
    hide Users, Play, HandedPrompts, TotalTakenBack, TotalDropped, Carried, LeftBehind;
    ShownMessagesAreSentOnce(s, moves);
    CarriedOrLeftBehind(Play(s, moves).handed);
  }

  /** Such a run: a message steered into a copy that then fails is in the transcript and in no later prompt. */
  lemma SteeredMessageIsLeftBehind(s: SessionState, glued: Glued, message: Prompt, env: Env)
    requires s.run == Some(Run(false)) && s.working && !s.deleted && s.fork.Pending() && s.fork.prompt == Some(glued)
    requires !message.Trimmed().IsEmpty() && !IsCommand(message.Trimmed().text)
    requires env.steerWhileWorking && env.steerFits
    ensures var sent := Step(s, Send(message), env);
            var r := Step(Step(sent, Event(Done(RunErrored, None, None)), env), RunOver, env);
            && sent.transcript == PushUser(s.transcript, message.Trimmed(), env.now)
            && r.handed == s.handed + [Steered(message.Trimmed(), true)] + [Started(
                 glued, ForkRetry, false, s.fork.context.Some? && !IsCommand(glued.prompt.text))]
            && message.Trimmed() in LeftBehind(r.handed)
  {
    hide Step;
    MessageIsSteered(s, message, env);
    var sent := Step(s, Send(message), env);
    SessionForks.FailedCopyIsRetried(sent, glued, env);
    var steered := s.handed + [Steered(message.Trimmed(), true)];
    var r := Step(Step(sent, Event(Done(RunErrored, None, None)), env), RunOver, env);
    assert steered[..|s.handed|] == s.handed && r.handed[..|steered|] == steered;
    assert message.Trimmed() in SteeredSince(steered);
  }

  lemma MessageIsSteered(s: SessionState, message: Prompt, env: Env)
    requires s.run == Some(Run(false)) && s.working && !s.deleted
    requires !message.Trimmed().IsEmpty() && !IsCommand(message.Trimmed().text)
    requires env.steerWhileWorking && env.steerFits
    ensures var sent := Step(s, Send(message), env);
            && sent.transcript == PushUser(s.transcript, message.Trimmed(), env.now)
            && sent.handed == s.handed + [Steered(message.Trimmed(), true)]
            && sent.run.Some? && !sent.deleted && sent.fork == s.fork
  {
    hide IsBlank, Prompt.Trimmed, Prompt.IsEmpty, IsCommand, PushUser, StartRun;
  }

  // ---------------------------------------------------------------- a run that does not start

  function Undelivered(entries: seq<Entry>): nat {
    if entries == [] then 0
    else
      var last := entries[|entries| - 1];
      Undelivered(entries[..|entries| - 1]) + if last.User? && last.undelivered then 1 else 0
  }

  lemma UndeliveredOfPush(t: TranscriptState, entry: Entry)
    requires entry.User? ==> !entry.undelivered
    ensures Undelivered(Push(t, entry).entries) == Undelivered(t.entries)
  {
    assert Push(t, entry).entries[..|t.entries|] == t.entries;
  }

  lemma {:induction false} UndeliveredOfCancel(entries: seq<Entry>)
    ensures Undelivered(CancelEntries(entries)) == Undelivered(entries)
  {
    if entries != [] {
      var n := |entries| - 1;
      assert CancelEntries(entries)[..n] == CancelEntries(entries[..n]);
      UndeliveredOfCancel(entries[..n]);
    }
  }

  lemma SendNextMarksNone(s: SessionState, env: Env)
    ensures Undelivered(SendNextQueued(s, env).transcript.entries) == Undelivered(s.transcript.entries)
  {
    hide Deliver, MustWait, Undelivered;
    if !s.working && !s.deleted && NextSendable(s.queue.items, s.queue.editing).Some? {
      var i := NextSendable(s.queue.items, s.queue.editing).value;
      DeliverEffect(s.(queue := Dequeue(s.queue, i)), s.queue.items[i].prompt, env);
      UndeliveredOfPush(s.transcript, User(s.queue.items[i].prompt, env.now, false));
    }
  }

  lemma RunEndedMarksNone(s: SessionState, env: Env)
    ensures Undelivered(RunEnded(s, env).transcript.entries) == Undelivered(s.transcript.entries)
  {
    hide SendNextQueued, ForkAtStart, Undelivered, SettleSubagents, IsCommand;
    UndeliveredOfCancel(s.transcript.entries);
    SendNextMarksNone(DropRun(s).(working := false, promptAfterStop := None), env);
  }

  /** The message in the last place, not marked yet. */
  predicate EndsWithDelivered(entries: seq<Entry>) {
    entries != [] && entries[|entries| - 1].User? && !entries[|entries| - 1].undelivered
  }

  lemma MarkedLast(t: TranscriptState)
    ensures Undelivered(UndeliverLast(t).entries) == Undelivered(t.entries) + if EndsWithDelivered(t.entries) then 1 else 0
  {
    if t.entries != [] {
      assert UndeliverLast(t).entries[..|t.entries| - 1] == t.entries[..|t.entries| - 1];
    }
  }

  /**
   * A run that does not start marks the message in the last place and no other, however many it was handed; one that
   * was to copy a session marks none.
   */
  lemma FailedStartMarksOneAtMost(s: SessionState, message: string, env: Env)
    ensures Undelivered(FailRun(s, message, env).transcript.entries) ==
              Undelivered(s.transcript.entries)
              + if !s.fork.Pending() && EndsWithDelivered(s.transcript.entries) then 1 else 0
  {
    hide RunEnded, Undelivered, UndeliverLast;
    RunEndedMarksNone(s.(fork := s.fork.(failed := true)), env);
    var t := UndeliverLast(s.transcript);
    MarkedLast(s.transcript);
    UndeliveredOfPush(t, Notice(message, true));
    RunEndedMarksNone(s.(transcript := PushNotice(t, message, true)), env);
  }

  // ---------------------------------------------------------------- deleted chats

  /** A delivered message reaches a run at once. */
  predicate ReachesARun(s: SessionState, prompt: Prompt) {
    !MustWait(s, prompt) && (s.Stopping() ==> s.restartOnNextSend && !s.working)
  }

  lemma HandOverReachesExactly(s: SessionState, prompt: Prompt, wasWorking: bool, steerFits: bool)
    ensures HandOver(s, prompt, wasWorking, steerFits).handed != s.handed <==> !s.Stopping()
  {
    hide IsCommand, Prompt.Merge, ForkAtStart;
  }

  lemma DeliverReachesExactly(s: SessionState, prompt: Prompt, env: Env)
    ensures Deliver(s, prompt, env).handed != s.handed <==> ReachesARun(s, prompt)
  {
    hide IsCommand, HandOver, PushUser, MustWait;
    HandOverReachesExactly(Accept(s, prompt, env.now), prompt, s.working, env.steerFits);
  }

  /** The queued message a step delivers, from the state it delivers it in, reaches a run. */
  predicate QueuedReachesARun(s: SessionState, action: Action) {
    && (action.SteerQueued? || action.SendQueuedNow?)
    && QueueIndex(s.queue.items, action.id).Some?
    && var i := QueueIndex(s.queue.items, action.id).value;
       var cut := if action.SendQueuedNow? && s.working && s.run.Some? then Some(Run(true)) else s.run;
       ReachesARun(s.(queue := TakeQueued(s.queue, i), run := cut), s.queue.items[i].prompt)
  }

  /** On a deleted chat only steering or sending a queued message hands anything to a run. */
  lemma DeletedChatHandsOverExactly(s: SessionState, action: Action, env: Env)
    requires s.deleted
    ensures Step(s, action, env).handed != s.handed <==> QueuedReachesARun(s, action)
  {
    hide QueueStep, RunStep, FinishQueuedEdit, DrainFailed, ReachesARun;
    if action.ByTheRun() {
      DeletedRunHandsNothing(s, action, env);
    } else if action.OnQueued() && QueueIndex(s.queue.items, action.id).Some? {
      DeletedQueueStep(s, action, QueueIndex(s.queue.items, action.id).value, env);
    }
  }

  lemma DeletedQueueStep(s: SessionState, action: Action, i: nat, env: Env)
    requires action.OnQueued() && QueueIndex(s.queue.items, action.id) == Some(i)
    ensures QueueStep(s, action, i, env).handed != s.handed <==> QueuedReachesARun(s, action)
  {
    hide Deliver, TakeQueued, Moved, ReachesARun, QueueIndex;
    var taken, prompt := TakeQueued(s.queue, i), s.queue.items[i].prompt;
    if action.SteerQueued? {
      DeliverReachesExactly(s.(queue := taken), prompt, env);
      assert s.(queue := taken, run := s.run) == s.(queue := taken);
    } else if action.SendQueuedNow? {
      var cut := if s.working && s.run.Some? then Some(Run(true)) else s.run;
      DeliverReachesExactly(s.(queue := taken, run := cut), prompt, env);
    }
  }

  lemma DeletedEndHandsNothing(s: SessionState, env: Env)
    requires s.deleted
    ensures RunEnded(s, env).handed == s.handed
  {
    hide SettleSubagents, CancelRunning, StartRun, Deliver;
  }

  lemma DeletedEventHandsNothing(s: SessionState, event: AgentEvent, env: Env)
    requires s.deleted
    ensures ApplyEvent(s, event, env).handed == s.handed
  {
    hide Fold, StreamedOps, DoneOps, StreamedSubagents, StreamedFork, NamedBy, ReleasedBy, ShowsAutoNotice, Resumes,
      Deliver;
  }

  lemma DeletedFailureHandsNothing(s: SessionState, message: string, env: Env)
    requires s.deleted
    ensures FailRun(s, message, env).handed == s.handed
  {
    hide RunEnded, UndeliverLast, PushNotice;
    DeletedEndHandsNothing(s.(fork := s.fork.(failed := true)), env);
    DeletedEndHandsNothing(s.(transcript := PushNotice(UndeliverLast(s.transcript), message, true)), env);
  }

  lemma DeletedRunHandsNothing(s: SessionState, action: Action, env: Env)
    requires s.deleted && action.ByTheRun()
    ensures RunStep(s, action, env).handed == s.handed
  {
    hide ApplyEvent, RunEnded, FailRun, PushNotice;
    if s.run.Some? {
      if action.Event? {
        DeletedEventHandsNothing(s, action.event, env);
      } else if action.RunOver? {
        DeletedEndHandsNothing(s, env);
      } else if action.RunStartFailed? {
        DeletedFailureHandsNothing(s, action.message, env);
      }
    }
  }

  /** Such a step: on a deleted chat with no run, steering a queued message starts one. */
  lemma DeletedChatStartsARun(s: SessionState, i: nat, env: Env)
    requires s.deleted && s.run.None? && !s.working && i < |s.queue.items|
    requires QueueIndex(s.queue.items, s.queue.items[i].id) == Some(i)
    ensures var r := Step(s, SteerQueued(s.queue.items[i].id), env);
            r.run == Some(Run(false)) && |r.handed| == |s.handed| + 1
  {
    hide IsCommand, PushUser, ForkAtStart, TakeQueued;
  }

  /** And one that drops a message: retrying it on a deleted chat takes it back and sends nothing. */
  lemma DeletedChatDropsARetriedMessage(s: SessionState, index: nat, env: Env)
    requires NothingEmpty(s) && s.deleted && CanRetry(s, index)
    ensures |Held(Step(s, RetryUndelivered(index), env))| < |Held(s)|
    ensures Step(s, RetryUndelivered(index), env).queue == s.queue
  {
    hide Held;
    OnlyRemovalDropsAMessage(s, RetryUndelivered(index), env);
  }
}
