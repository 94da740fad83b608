/** Where every accepted message is: in the queue or in the transcript, once, until a caller removes it. */
module SessionLedger {
  import opened Wrappers
  import opened Text
  import opened Prompts
  import opened Transcripts
  import opened TranscriptFold
  import opened Sessions
  import opened SessionInvariants

  function UserOf(entry: Entry): multiset<Prompt> {
    if entry.User? then multiset{entry.prompt} else multiset{}
  }

  function Users(entries: seq<Entry>): multiset<Prompt> {
    if entries == [] then multiset{} else Users(entries[..|entries| - 1]) + UserOf(entries[|entries| - 1])
  }

  function QueuedPrompts(items: seq<Queued>): multiset<Prompt> {
    if items == [] then multiset{}
    else QueuedPrompts(items[..|items| - 1]) + multiset{items[|items| - 1].prompt}
  }

  /** The messages a session holds. */
  function Held(s: SessionState): multiset<Prompt> {
    Users(s.transcript.entries) + QueuedPrompts(s.queue.items)
  }

  // ---------------------------------------------------------------- the two bags

  lemma Regroup(a: multiset<Prompt>, b: multiset<Prompt>, c: multiset<Prompt>)
    ensures a + b + c == a + (b + c)
    ensures a + b + c == a + c + b
  {
  }

  lemma {:induction false} UsersOfJoin(a: seq<Entry>, b: seq<Entry>)
    ensures Users(a + b) == Users(a) + Users(b)
  {
    if b == [] {
      assert a + b == a;
    } else {
      var init, last := b[..|b| - 1], b[|b| - 1];
      UsersOfJoin(a, init);
      assert (a + b)[..|a + b| - 1] == a + init;
      Regroup(Users(a), Users(init), UserOf(last));
    }
  }

  lemma UsersOfOne(entry: Entry)
    ensures Users([entry]) == UserOf(entry)
  {
    assert [entry][..0] == [];
  }

  lemma UsersOfUpdate(entries: seq<Entry>, i: nat, entry: Entry)
    requires i < |entries| && UserOf(entry) == UserOf(entries[i])
    ensures Users(entries[i := entry]) == Users(entries)
  {
    assert entries[i := entry] == entries[..i] + [entry] + entries[i + 1..];
    assert entries == entries[..i] + [entries[i]] + entries[i + 1..];
    UsersOfOne(entry);
    UsersOfOne(entries[i]);
    UsersOfJoin(entries[..i] + [entry], entries[i + 1..]);
    UsersOfJoin(entries[..i] + [entries[i]], entries[i + 1..]);
    UsersOfJoin(entries[..i], [entry]);
    UsersOfJoin(entries[..i], [entries[i]]);
  }

  lemma {:induction false} UsersOfCancel(entries: seq<Entry>)
    ensures Users(CancelEntries(entries)) == Users(entries)
  {
    if entries != [] {
      var n := |entries| - 1;
      assert CancelEntries(entries)[..n] == CancelEntries(entries[..n]);
      UsersOfCancel(entries[..n]);
    }
  }

  lemma UsersOfPush(t: TranscriptState, entry: Entry)
    ensures Users(Push(t, entry).entries) == Users(t.entries) + UserOf(entry)
  {
    UsersOfJoin(t.entries, [entry]);
    UsersOfOne(entry);
  }

  lemma UsersOfOp(t: TranscriptState, op: Op)
    ensures Users(Apply(t, op).entries) == Users(t.entries) + (if op.Block? then UserOf(op.entry) else multiset{})
  {
    hide Users;
    match op
    case Delta(text, thinking, now) =>
      var n := |t.entries|;
      var r := AppendText(t, text, thinking, now);
      if |r.entries| == n {
        if text != [] {
          UsersOfUpdate(t.entries, n - 1, r.entries[n - 1]);
        }
      } else {
        UsersOfPush(t, r.entries[n]);
      }
    case Block(entry) => UsersOfPush(t, entry);
    case BlockClosed =>
    case ToolCalled(id, call) =>
      if LastTool(t.entries, id).Some? {
        var i := LastTool(t.entries, id).value;
        UsersOfUpdate(t.entries, i, StartTool(t, id, call).entries[i]);
      } else {
        UsersOfPush(t, Tool(ToolEntry(id, call, Running, None, DiffForCall(call))));
      }
    case ToolFinished(id, isError, output, diff) =>
      if LastTool(t.entries, id).Some? {
        var i := LastTool(t.entries, id).value;
        UsersOfUpdate(t.entries, i, Tool(Finished(t.entries[i].tool, isError, output, diff)));
      }
    case RunningCanceled => UsersOfCancel(t.entries);
  }

  predicate ShowsNoUser(ops: seq<Op>) {
    forall i | 0 <= i < |ops| :: ops[i].Block? ==> !ops[i].entry.User?
  }

  lemma {:induction false} UsersOfFold(t: TranscriptState, ops: seq<Op>)
    requires ShowsNoUser(ops)
    ensures Users(Fold(t, ops).entries) == Users(t.entries)
  {
    if ops != [] {
      UsersOfFold(t, ops[..|ops| - 1]);
      UsersOfOp(Fold(t, ops[..|ops| - 1]), ops[|ops| - 1]);
    }
  }

  lemma {:induction false} UsersOfErrors(t: TranscriptState, errors: seq<string>)
    ensures Users(PushErrors(t, errors).entries) == Users(t.entries)
  {
    if errors != [] {
      UsersOfErrors(t, errors[..|errors| - 1]);
      UsersOfPush(PushErrors(t, errors[..|errors| - 1]), Notice(errors[|errors| - 1], true));
    }
  }

  lemma {:induction false} UsersOfNotices(entries: seq<Entry>)
    requires forall i | 0 <= i < |entries| :: IsErrorNotice(entries[i])
    ensures Users(entries) == multiset{}
  {
    if entries != [] {
      UsersOfNotices(entries[..|entries| - 1]);
    }
  }

  lemma UsersOfRemove(front: seq<Entry>, entry: Entry, rest: seq<Entry>)
    ensures Users(front + [entry] + rest) == Users(front + rest) + UserOf(entry)
  {
    UsersOfOne(entry);
    hide Users;
    UsersOfJoin(front + [entry], rest);
    UsersOfJoin(front, [entry]);
    UsersOfJoin(front, rest);
    Regroup(Users(front), UserOf(entry), Users(rest));
  }

  lemma UsersWithoutNotices(front: seq<Entry>, notices: seq<Entry>, rest: seq<Entry>)
    requires forall i | 0 <= i < |notices| :: IsErrorNotice(notices[i])
    ensures Users(front + (notices + rest)) == Users(front + rest)
  {
    hide Users;
    UsersOfNotices(notices);
    UsersOfJoin(front, notices + rest);
    UsersOfJoin(notices, rest);
    UsersOfJoin(front, rest);
  }

  /** Only the message itself is drained: what follows it are error notices. */
  lemma UsersOfDrain(t: TranscriptState, index: nat)
    requires index < |t.entries| && t.entries[index].User?
    ensures Users(t.entries) == Users(DrainFailed(t, index).entries) + multiset{t.entries[index].prompt}
  {
    var rest := t.entries[index + 1..];
    var n := ErrorNotices(rest);
    hide Users, ErrorNotices;
    DrainShape(t.entries, index, n);
    var front, notices, tail := t.entries[..index], rest[..n], rest[n..];
    assert DrainFailed(t, index).entries == front + tail;
    assert forall i | 0 <= i < |notices| :: notices[i] == rest[i];
    UsersOfDrained(front, t.entries[index], notices, tail);
  }

  lemma UsersOfDrained(front: seq<Entry>, user: Entry, notices: seq<Entry>, rest: seq<Entry>)
    requires user.User? && forall i | 0 <= i < |notices| :: IsErrorNotice(notices[i])
    ensures Users(front + [user] + (notices + rest)) == Users(front + rest) + multiset{user.prompt}
  {
    hide Users;
    UsersWithoutNotices(front, notices, rest);
    UsersOfRemove(front, user, notices + rest);
  }

  lemma DrainShape(entries: seq<Entry>, index: nat, n: nat)
    requires index + 1 + n <= |entries|
    ensures var rest := entries[index + 1..];
            && entries == entries[..index] + [entries[index]] + (rest[..n] + rest[n..])
            && entries[index + 1 + n..] == rest[n..]
  {
  }

  lemma {:induction false} QueuedOfJoin(a: seq<Queued>, b: seq<Queued>)
    ensures QueuedPrompts(a + b) == QueuedPrompts(a) + QueuedPrompts(b)
  {
    if b == [] {
      assert a + b == a;
    } else {
      var init, last := b[..|b| - 1], b[|b| - 1];
      QueuedOfJoin(a, init);
      assert (a + b)[..|a + b| - 1] == a + init && (a + b)[|a + b| - 1] == last;
      Regroup(QueuedPrompts(a), QueuedPrompts(init), multiset{last.prompt});
    }
  }

  lemma QueuedOfOne(queued: Queued)
    ensures QueuedPrompts([queued]) == multiset{queued.prompt}
  {
    assert [queued][..0] == [];
  }

  lemma QueuedOfInsert(items: seq<Queued>, i: nat, queued: Queued)
    requires i <= |items|
    ensures QueuedPrompts(InsertAt(items, i, queued)) == QueuedPrompts(items) + multiset{queued.prompt}
  {
    QueuedOfOne(queued);
    hide QueuedPrompts;
    Regroup(QueuedPrompts(items[..i]), multiset{queued.prompt}, QueuedPrompts(items[i..]));
    assert items == items[..i] + items[i..];
    QueuedOfJoin(items[..i], items[i..]);
    QueuedOfJoin(items[..i] + [queued], items[i..]);
    QueuedOfJoin(items[..i], [queued]);
  }

  lemma QueuedOfRemove(items: seq<Queued>, i: nat)
    requires i < |items|
    ensures QueuedPrompts(items) == QueuedPrompts(Removed(items, i)) + multiset{items[i].prompt}
  {
    hide QueuedPrompts;
    QueuedOfInsert(Removed(items, i), i, items[i]);
    assert InsertAt(Removed(items, i), i, items[i]) == items;
  }

  lemma QueuedOfEnqueue(q: Queue, prompt: Prompt)
    ensures QueuedPrompts(Enqueue(q, prompt).items) == QueuedPrompts(q.items) + multiset{prompt}
    ensures QueuedPrompts(EnqueueFirst(q, prompt).items) == QueuedPrompts(q.items) + multiset{prompt}
  {
    hide QueuedPrompts;
    var queued := Queued(q.lastId + 1, prompt);
    QueuedOfInsert(q.items, |q.items|, queued);
    assert InsertAt(q.items, |q.items|, queued) == q.items + [queued];
    QueuedOfInsert(q.items, 0, queued);
    assert InsertAt(q.items, 0, queued) == [queued] + q.items;
  }

  lemma QueuedOfEdit(items: seq<Queued>, i: nat, prompt: Prompt)
    requires i < |items|
    ensures QueuedPrompts(items[i := items[i].(prompt := prompt)]) + multiset{items[i].prompt} ==
            QueuedPrompts(items) + multiset{prompt}
  {
    var edited := items[i := items[i].(prompt := prompt)];
    QueuedOfRemove(items, i);
    QueuedOfRemove(edited, i);
    assert Removed(edited, i) == Removed(items, i);
  }

  // ---------------------------------------------------------------- deliveries

  /** Delivering shows a message or queues it, and does nothing to any other. */
  lemma DeliverHolds(s: SessionState, prompt: Prompt, env: Env)
    ensures Held(Deliver(s, prompt, env)) == Held(s) + multiset{prompt}
  {
    hide Deliver, Users, QueuedPrompts, MustWait;
    DeliverEffect(s, prompt, env);
    QueuedOfEnqueue(s.queue, prompt);
    UsersOfPush(s.transcript, User(prompt, env.now, false));
  }

  lemma DeliverQueuedHolds(s: SessionState, q: Queue, i: nat, run: Option<Run>, env: Env)
    requires i < |s.queue.items| && q.items == Removed(s.queue.items, i)
    ensures Held(Deliver(s.(queue := q, run := run), s.queue.items[i].prompt, env)) == Held(s)
  {
    hide Deliver, Users, QueuedPrompts, Removed;
    QueuedOfRemove(s.queue.items, i);
    DeliverHolds(s.(queue := q, run := run), s.queue.items[i].prompt, env);
  }

  lemma SendNextHolds(s: SessionState, env: Env)
    ensures Held(SendNextQueued(s, env)) == Held(s)
  {
    hide Deliver, Held, Removed;
    if !s.working && !s.deleted && NextSendable(s.queue.items, s.queue.editing).Some? {
      var i := NextSendable(s.queue.items, s.queue.editing).value;
      DeliverQueuedHolds(s, Dequeue(s.queue, i), i, s.run, env);
      assert s.(queue := Dequeue(s.queue, i), run := s.run) == s.(queue := Dequeue(s.queue, i));
    }
  }

  lemma HeldDependsOnBags(s: SessionState, r: SessionState)
    requires Users(r.transcript.entries) == Users(s.transcript.entries)
    requires r.queue.items == s.queue.items
    ensures Held(r) == Held(s)
  {
  }

  lemma RunEndedHolds(s: SessionState, env: Env)
    ensures Held(RunEnded(s, env)) == Held(s)
  {
    hide SendNextQueued, StartRun, Users, QueuedPrompts, SettleSubagents;
    UsersOfCancel(s.transcript.entries);
    var dropped := DropRun(s);
    var idle := dropped.(working := false, promptAfterStop := None);
    SendNextHolds(idle, env);
    HeldDependsOnBags(s, idle);
    if RetriesFork(s) {
      StartHolds(
        dropped.(working := true, fork := dropped.fork.(source := None, errors := [])),
        s.fork.prompt.value, ForkRetry);
    } else if s.promptAfterStop.Some? && !s.deleted {
      StartHolds(dropped.(working := true, promptAfterStop := None), s.promptAfterStop.value, AfterStop);
    }
  }

  lemma StartHolds(s: SessionState, glued: Glued, cause: StartCause)
    ensures Held(StartRun(s, glued, cause)) == Held(s)
  {
    hide ForkAtStart, IsCommand, Users, QueuedPrompts;
  }

  lemma EventHolds(s: SessionState, event: AgentEvent, env: Env)
    ensures Held(ApplyEvent(s, event, env)) == Held(s)
  {
    hide SendNextQueued, StreamedSubagents, StreamedFork, NamedBy, Fold, Users, QueuedPrompts, PushErrors;
    UsersOfErrors(s.transcript, s.fork.errors);
    var released := ReleasedBy(s.transcript, s.fork, event);
    assert Users(released.entries) == Users(s.transcript.entries);
    if event.Done? {
      UsersOfFold(released, DoneOps(event.status, event.error));
      HeldDependsOnBags(s, EndTurn(s, event));
      SendNextHolds(EndTurn(s, event), env);
    } else {
      UsersOfFold(released, StreamedOps(s, event, env.now));
    }
  }

  // ---------------------------------------------------------------- the ledger

  predicate Accepts(s: SessionState, message: Prompt) {
    !s.deleted && !message.Trimmed().IsEmpty()
  }

  /** The messages a call brings in. */
  function Gained(s: SessionState, action: Action): multiset<Prompt> {
    match action
    case Send(prompt) => if Accepts(s, prompt) then multiset{prompt.Trimmed()} else multiset{}
    case FinishEdit(_, Some(prompt)) => if prompt.IsEmpty() then multiset{} else multiset{prompt}
    case RetryUndelivered(index) =>
      if CanRetry(s, index) && Accepts(s, s.transcript.entries[index].prompt) then
        multiset{s.transcript.entries[index].prompt.Trimmed()}
      else multiset{}
    case _ => multiset{}
  }

  function QueuedAt(s: SessionState, id: nat): multiset<Prompt> {
    match QueueIndex(s.queue.items, id)
    case Some(i) => multiset{s.queue.items[i].prompt}
    case None => multiset{}
  }

  /** The messages a call takes away: removed, replaced by an edit, or taken back to be sent again. */
  function Lost(s: SessionState, action: Action): multiset<Prompt> {
    match action
    case RemoveQueued(id) => QueuedAt(s, id)
    case FinishEdit(id, Some(prompt)) => if prompt.IsEmpty() then multiset{} else QueuedAt(s, id)
    case RetryUndelivered(index) =>
      if CanRetry(s, index) then multiset{s.transcript.entries[index].prompt} else multiset{}
    case _ => multiset{}
  }

  lemma SendMessageHolds(s: SessionState, message: Prompt, env: Env)
    ensures Held(SendMessage(s, message, env)) ==
            Held(s) + (if Accepts(s, message) then multiset{message.Trimmed()} else multiset{})
  {
    hide Deliver, Users, QueuedPrompts, Removed, Prompt.IsEmpty, Prompt.Trimmed, MustWait;
    var prompt := message.Trimmed();
    DeliverHolds(s, prompt, env);
    QueuedOfEnqueue(s.queue, prompt);
    var queued := Enqueue(s.queue, prompt);
    if NextSendable(queued.items, queued.editing).Some? {
      var i := NextSendable(queued.items, queued.editing).value;
      DeliverQueuedHolds(s.(queue := queued), Dequeue(queued, i), i, s.run, env);
      assert s.(queue := queued).(queue := Dequeue(queued, i), run := s.run) == s.(queue := Dequeue(queued, i));
    }
  }

  lemma MovedHolds(items: seq<Queued>, i: nat, toIndex: nat)
    requires i < |items|
    ensures QueuedPrompts(Moved(items, i, toIndex)) == QueuedPrompts(items)
  {
    hide QueuedPrompts, Removed;
    var rest := Removed(items, i);
    QueuedOfRemove(items, i);
    QueuedOfInsert(rest, if toIndex <= |rest| then toIndex else |rest|, items[i]);
  }

  lemma QueueStepHolds(s: SessionState, action: Action, i: nat, env: Env)
    requires i < |s.queue.items|
    ensures Held(QueueStep(s, action, i, env)) +
            (if action.RemoveQueued? then multiset{s.queue.items[i].prompt} else multiset{}) == Held(s)
  {
    hide Deliver, Users, QueuedPrompts, Removed, Moved;
    if action.SteerQueued? {
      DeliverQueuedHolds(s, TakeQueued(s.queue, i), i, s.run, env);
      assert s.(queue := TakeQueued(s.queue, i), run := s.run) == s.(queue := TakeQueued(s.queue, i));
    } else if action.SendQueuedNow? {
      DeliverQueuedHolds(
        s, TakeQueued(s.queue, i), i, if s.working && s.run.Some? then Some(Run(true)) else s.run, env);
    } else if action.RemoveQueued? {
      QueuedOfRemove(s.queue.items, i);
    } else if action.MoveQueued? {
      MovedHolds(s.queue.items, i, action.toIndex);
    }
  }

  lemma FinishEditHolds(s: SessionState, id: nat, edited: Option<Prompt>)
    ensures var action := FinishEdit(id, edited);
            Held(s.(queue := FinishQueuedEdit(s.queue, id, edited))) + Lost(s, action) == Held(s) + Gained(s, action)
  {
    hide Users, QueuedPrompts, Prompt.IsEmpty;
    if edited.Some? && !edited.value.IsEmpty() {
      var unlocked := if s.queue.editing == Some(id) then s.queue.(editing := None) else s.queue;
      match QueueIndex(s.queue.items, id) {
        case Some(i) => QueuedOfEdit(s.queue.items, i, edited.value);
        case None => QueuedOfEnqueue(unlocked, edited.value);
      }
    }
  }

  lemma RunStepHolds(s: SessionState, action: Action, env: Env)
    requires action.ByTheRun()
    ensures Held(RunStep(s, action, env)) == Held(s)
  {
    hide RunEnded, ApplyEvent, Users, QueuedPrompts, PushNotice;
    match action
    case Event(event) => EventHolds(s, event, env);
    case StreamError(message) => NoticeHolds(s, message);
    case RunStartFailed(message) =>
      NoticeHolds(s, message);
      RunEndedHolds(s.(fork := s.fork.(failed := true)), env);
      RunEndedHolds(s.(transcript := PushNotice(UndeliverLast(s.transcript), message, true)), env);
    case RunOver => RunEndedHolds(s, env);
  }

  lemma NoticeHolds(s: SessionState, message: string)
    ensures Held(s.(transcript := PushNotice(s.transcript, message, true))) == Held(s)
    ensures Held(s.(transcript := PushNotice(UndeliverLast(s.transcript), message, true))) == Held(s)
  {
    hide Users, QueuedPrompts;
    UsersOfPush(s.transcript, Notice(message, true));
    UsersOfPush(UndeliverLast(s.transcript), Notice(message, true));
    var n := |s.transcript.entries|;
    if n > 0 && s.transcript.entries[n - 1].User? {
      UsersOfUpdate(s.transcript.entries, n - 1, s.transcript.entries[n - 1].(undelivered := true));
    }
  }

  lemma QueueCallHolds(s: SessionState, action: Action, env: Env)
    requires action.OnQueued()
    ensures Held(Step(s, action, env)) + Lost(s, action) == Held(s) + Gained(s, action)
  {
    hide QueueStep, Held;
    var found := QueueIndex(s.queue.items, action.id);
    if found.Some? {
      QueueStepHolds(s, action, found.value, env);
    }
  }

  lemma OtherCallHolds(s: SessionState, action: Action, env: Env)
    requires !action.ByTheRun() && !action.OnQueued()
    requires !action.Send? && !action.FinishEdit? && !action.RetryUndelivered?
    ensures Held(Step(s, action, env)) + Lost(s, action) == Held(s) + Gained(s, action)
  {
    hide Users, QueuedPrompts;
  }

  /** Every call and every event keeps all messages, each exactly as often, but for those it gains and loses. */
  lemma MessagesAreConserved(s: SessionState, action: Action, env: Env)
    ensures Held(Step(s, action, env)) + Lost(s, action) == Held(s) + Gained(s, action)
  {
    hide SendMessage, RunStep, QueueStep, RetryStep, FinishQueuedEdit, Held, Accepts, QueueIndex;
    if action.ByTheRun() {
      RunStepHolds(s, action, env);
    } else if action.OnQueued() {
      QueueCallHolds(s, action, env);
    } else if action.Send? {
      SendMessageHolds(s, action.prompt, env);
    } else if action.FinishEdit? {
      FinishEditHolds(s, action.id, action.edited);
    } else if action.RetryUndelivered? {
      RetryHolds(s, action.index, env);
    } else {
      OtherCallHolds(s, action, env);
    }
  }

  lemma RetryHolds(s: SessionState, index: nat, env: Env)
    ensures Held(RetryStep(s, index, env)) + Lost(s, RetryUndelivered(index)) ==
            Held(s) + Gained(s, RetryUndelivered(index))
  {
    hide SendMessage, DrainFailed, Users, QueuedPrompts, Prompt.IsEmpty, Prompt.Trimmed;
    if CanRetry(s, index) {
      var drained := s.(transcript := DrainFailed(s.transcript, index));
      var message := s.transcript.entries[index].prompt;
      UsersOfDrain(s.transcript, index);
      SendMessageHolds(drained, message, env);
      Regroup(Users(drained.transcript.entries), multiset{message}, QueuedPrompts(s.queue.items));
      assert Held(drained) + multiset{message} == Held(s);
    }
  }

  /** Over a whole history: what was gained and what was lost along the way. */
  function TotalGained(s: SessionState, moves: seq<Move>): multiset<Prompt> {
    if moves == [] then multiset{}
    else
      var init := moves[..|moves| - 1];
      TotalGained(s, init) + Gained(Play(s, init), moves[|moves| - 1].action)
  }

  function TotalLost(s: SessionState, moves: seq<Move>): multiset<Prompt> {
    if moves == [] then multiset{}
    else
      var init := moves[..|moves| - 1];
      TotalLost(s, init) + Lost(Play(s, init), moves[|moves| - 1].action)
  }

  lemma Balance(
    held: multiset<Prompt>, lost: multiset<Prompt>, gained: multiset<Prompt>, start: multiset<Prompt>,
    held': multiset<Prompt>, lost': multiset<Prompt>, gained': multiset<Prompt>)
    requires held + lost == start + gained
    requires held' + lost' == held + gained'
    ensures held' + (lost + lost') == start + (gained + gained')
  {
    forall p: Prompt
      ensures (held' + (lost + lost'))[p] == (start + (gained + gained'))[p]
    {
      assert (held + lost)[p] == (start + gained)[p];
      assert (held' + lost')[p] == (held + gained')[p];
    }
  }

  /** However calls, events and run ends are interleaved, each message is held once for each time it was accepted. */
  lemma {:induction false} HistoriesConserveMessages(s: SessionState, moves: seq<Move>)
    ensures Held(Play(s, moves)) + TotalLost(s, moves) == Held(s) + TotalGained(s, moves)
  {
    hide Held, Step, Gained, Lost;
    if moves != [] {
      var init, last := moves[..|moves| - 1], moves[|moves| - 1];
      var before := Play(s, init);
      HistoriesConserveMessages(s, init);
      MessagesAreConserved(before, last.action, last.env);
      Balance(Held(before), TotalLost(s, init), TotalGained(s, init), Held(s),
              Held(Play(s, moves)), Lost(before, last.action), Gained(before, last.action));
    }
  }

  // ---------------------------------------------------------------- only removal drops a message

  /** Every message held has text or an attachment. */
  predicate NothingEmpty(s: SessionState) {
    forall prompt | prompt in Held(s) :: !prompt.IsEmpty()
  }

  lemma TrimmedIsEmpty(prompt: Prompt)
    ensures prompt.Trimmed().IsEmpty() <==> prompt.IsEmpty()
  {
    TrimKeepsContent(prompt.text);
  }

  lemma GainedIsNotEmpty(s: SessionState, action: Action)
    ensures forall prompt | prompt in Gained(s, action) :: !prompt.IsEmpty()
  {
    hide IsBlank;
  }

  lemma StepKeepsNothingEmpty(s: SessionState, action: Action, env: Env)
    requires NothingEmpty(s)
    ensures NothingEmpty(Step(s, action, env))
  {
    hide Held, Step, Gained, Lost, Prompt.IsEmpty;
    MessagesAreConserved(s, action, env);
    GainedIsNotEmpty(s, action);
    forall prompt | prompt in Held(Step(s, action, env)) ensures !prompt.IsEmpty() {
      assert prompt in Held(Step(s, action, env)) + Lost(s, action);
      assert prompt in Held(s) || prompt in Gained(s, action);
    }
  }

  lemma {:induction false} UserIsHeld(entries: seq<Entry>, index: nat)
    requires index < |entries| && entries[index].User?
    ensures entries[index].prompt in Users(entries)
  {
    if index < |entries| - 1 {
      UserIsHeld(entries[..|entries| - 1], index);
    }
  }

  /** The calls that leave one message fewer: removing one, and retrying one on a deleted chat. */
  predicate DropsAMessage(s: SessionState, action: Action) {
    || (action.RemoveQueued? && QueueIndex(s.queue.items, action.id).Some?)
    || (action.RetryUndelivered? && CanRetry(s, action.index) && s.deleted)
  }

  /** A chat holds fewer messages after a step exactly if the step removes one, or retries one on a deleted chat. */
  lemma OnlyRemovalDropsAMessage(s: SessionState, action: Action, env: Env)
    requires NothingEmpty(s)
    ensures |Held(Step(s, action, env))| < |Held(s)| <==> DropsAMessage(s, action)
  {
    hide Held, Step, Prompt.IsEmpty, Prompt.Trimmed, DrainFailed;
    MessagesAreConserved(s, action, env);
    if action.RetryUndelivered? && CanRetry(s, action.index) {
      var message := s.transcript.entries[action.index].prompt;
      UserIsHeld(s.transcript.entries, action.index);
      HoldsUsers(s, message);
      TrimmedIsEmpty(message);
    }
    assert |Lost(s, action)| > |Gained(s, action)| <==> DropsAMessage(s, action);
    assert |Held(Step(s, action, env)) + Lost(s, action)| == |Held(Step(s, action, env))| + |Lost(s, action)|;
    assert |Held(s) + Gained(s, action)| == |Held(s)| + |Gained(s, action)|;
  }

  lemma HoldsUsers(s: SessionState, message: Prompt)
    requires message in Users(s.transcript.entries)
    ensures message in Held(s)
  {
  }

  // ---------------------------------------------------------------- the message being edited

  predicate LockedInQueue(s: SessionState, queued: Queued) {
    s.queue.editing == Some(queued.id) && queued in s.queue.items
  }

  /** The calls that name this queued message. */
  predicate Names(action: Action, id: nat) {
    (action.OnQueued() || action.FinishEdit?) && action.id == id
  }

  /** The user turns to editing another queued message. */
  predicate EditsAnother(s: SessionState, action: Action, id: nat) {
    action.BeginEdit? && action.id != id && QueueIndex(s.queue.items, action.id).Some?
  }

  lemma DeliverKeepsLock(s: SessionState, prompt: Prompt, env: Env, queued: Queued)
    requires LockedInQueue(s, queued)
    ensures LockedInQueue(Deliver(s, prompt, env), queued)
  {
    hide Deliver, MustWait;
    DeliverEffect(s, prompt, env);
  }

  lemma DequeueKeepsLock(s: SessionState, q: Queue, i: nat, queued: Queued)
    requires i < |q.items| && queued in q.items && q.editing == Some(queued.id)
    requires !BeingEdited(q.items[i], q.editing)
    ensures LockedInQueue(s.(queue := Dequeue(q, i)), queued)
  {
    var k :| 0 <= k < |q.items| && q.items[k] == queued;
    assert k != i;
    assert queued == Removed(q.items, i)[if k < i then k else k - 1];
  }

  lemma SendNextKeepsLock(s: SessionState, env: Env, queued: Queued)
    requires LockedInQueue(s, queued)
    ensures LockedInQueue(SendNextQueued(s, env), queued)
  {
    hide Deliver;
    if !s.working && !s.deleted && NextSendable(s.queue.items, s.queue.editing).Some? {
      var i := NextSendable(s.queue.items, s.queue.editing).value;
      DequeueKeepsLock(s, s.queue, i, queued);
      DeliverKeepsLock(s.(queue := Dequeue(s.queue, i)), s.queue.items[i].prompt, env, queued);
    }
  }

  lemma SendMessageKeepsLock(s: SessionState, message: Prompt, env: Env, queued: Queued)
    requires LockedInQueue(s, queued)
    ensures LockedInQueue(SendMessage(s, message, env), queued)
  {
    hide Deliver, Prompt.Trimmed, Prompt.IsEmpty;
    var prompt := message.Trimmed();
    DeliverKeepsLock(s, prompt, env, queued);
    var q := Enqueue(s.queue, prompt);
    if NextSendable(q.items, q.editing).Some? {
      var i := NextSendable(q.items, q.editing).value;
      DequeueKeepsLock(s, q, i, queued);
      DeliverKeepsLock(s.(queue := Dequeue(q, i)), q.items[i].prompt, env, queued);
    }
  }

  lemma RunEndedKeepsLock(s: SessionState, env: Env, queued: Queued)
    requires LockedInQueue(s, queued)
    ensures LockedInQueue(RunEnded(s, env), queued)
  {
    hide SendNextQueued, ForkAtStart;
    SendNextKeepsLock(DropRun(s).(working := false, promptAfterStop := None), env, queued);
  }

  lemma EventKeepsLock(s: SessionState, event: AgentEvent, env: Env, queued: Queued)
    requires LockedInQueue(s, queued)
    ensures LockedInQueue(ApplyEvent(s, event, env), queued)
  {
    hide SendNextQueued, Fold, StreamedOps, StreamedSubagents, ReleasedBy;
    if event.Done? {
      SendNextKeepsLock(EndTurn(s, event), env, queued);
    }
  }

  lemma RemovedKeepsOthers(items: seq<Queued>, i: nat, queued: Queued)
    requires i < |items| && queued in items && items[i] != queued
    ensures queued in Removed(items, i)
  {
    var k :| 0 <= k < |items| && items[k] == queued;
    assert queued == Removed(items, i)[if k < i then k else k - 1];
  }

  lemma MovedKeepsAll(items: seq<Queued>, i: nat, toIndex: nat, queued: Queued)
    requires i < |items| && queued in items
    ensures queued in Moved(items, i, toIndex)
  {
    hide Removed;
    if items[i] != queued {
      RemovedKeepsOthers(items, i, queued);
    }
  }

  lemma QueueStepKeepsLock(s: SessionState, action: Action, i: nat, env: Env, queued: Queued)
    requires LockedInQueue(s, queued) && action.OnQueued()
    requires i < |s.queue.items| && s.queue.items[i].id == action.id && action.id != queued.id
    ensures var r := QueueStep(s, action, i, env);
            queued in r.queue.items && (LockedInQueue(r, queued) <==> !action.BeginEdit?)
  {
    hide Deliver, Removed, Moved;
    RemovedKeepsOthers(s.queue.items, i, queued);
    var taken, prompt := TakeQueued(s.queue, i), s.queue.items[i].prompt;
    var cut := if s.working && s.run.Some? then Some(Run(true)) else s.run;
    assert LockedInQueue(s.(queue := taken), queued);
    if action.SteerQueued? {
      DeliverKeepsLock(s.(queue := taken), prompt, env, queued);
    } else if action.SendQueuedNow? {
      DeliverKeepsLock(s.(queue := taken, run := cut), prompt, env, queued);
    } else if action.MoveQueued? {
      MovedKeepsAll(s.queue.items, i, action.toIndex, queued);
    }
  }

  lemma FinishEditKeepsLock(q: Queue, id: nat, edited: Option<Prompt>, queued: Queued)
    requires q.editing == Some(queued.id) && queued in q.items && id != queued.id
    ensures var r := FinishQueuedEdit(q, id, edited); r.editing == Some(queued.id) && queued in r.items
  {
    hide Prompt.IsEmpty;
    var k :| 0 <= k < |q.items| && q.items[k] == queued;
    var r := FinishQueuedEdit(q, id, edited);
    assert r.items[k] == queued;
  }

  lemma RunStepKeepsLock(s: SessionState, action: Action, env: Env, queued: Queued)
    requires LockedInQueue(s, queued) && action.ByTheRun()
    ensures LockedInQueue(RunStep(s, action, env), queued)
  {
    hide RunEnded, ApplyEvent, UndeliverLast, PushNotice;
    if action.Event? {
      EventKeepsLock(s, action.event, env, queued);
    } else if action.RunOver? {
      RunEndedKeepsLock(s, env, queued);
    } else if action.RunStartFailed? {
      RunEndedKeepsLock(s.(fork := s.fork.(failed := true)), env, queued);
      RunEndedKeepsLock(
        s.(transcript := PushNotice(UndeliverLast(s.transcript), action.message, true)), env, queued);
    }
  }

  /**
   * The message being edited stays queued as it is through every step that does not name it, and it stays locked
   * unless the step begins to edit another one.
   */
  lemma EditedMessageIsNeverSentByItself(s: SessionState, action: Action, env: Env, queued: Queued)
    requires LockedInQueue(s, queued) && !Names(action, queued.id)
    ensures queued in Step(s, action, env).queue.items
    ensures LockedInQueue(Step(s, action, env), queued) <==> !EditsAnother(s, action, queued.id)
  {
    hide SendMessage, RunStep, DrainFailed, QueueStep, FinishQueuedEdit;
    if action.OnQueued() {
      if QueueIndex(s.queue.items, action.id).Some? {
        QueueStepKeepsLock(s, action, QueueIndex(s.queue.items, action.id).value, env, queued);
      }
    } else if action.FinishEdit? {
      FinishEditKeepsLock(s.queue, action.id, action.edited, queued);
    } else if action.Send? {
      SendMessageKeepsLock(s, action.prompt, env, queued);
    } else if action.RetryUndelivered? {
      if CanRetry(s, action.index) {
        var drained := s.(transcript := DrainFailed(s.transcript, action.index));
        SendMessageKeepsLock(drained, s.transcript.entries[action.index].prompt, env, queued);
      }
    } else if action.ByTheRun() {
      RunStepKeepsLock(s, action, env, queued);
    }
  }

  predicate LeavesEditAt(s: SessionState, moves: seq<Move>, n: nat, id: nat)
    requires n < |moves|
  {
    !Names(moves[n].action, id) && !EditsAnother(Play(s, moves[..n]), moves[n].action, id)
  }

  /** Over every history in which nobody names it or edits another one, the message being edited waits where it is. */
  lemma {:induction false} EditedMessageWaits(s: SessionState, moves: seq<Move>, queued: Queued)
    requires LockedInQueue(s, queued) && forall n | 0 <= n < |moves| :: LeavesEditAt(s, moves, n, queued.id)
    ensures LockedInQueue(Play(s, moves), queued)
  {
    hide Step, LockedInQueue, Names, EditsAnother;
    if moves != [] {
      var init, last := moves[..|moves| - 1], moves[|moves| - 1];
      forall n | 0 <= n < |init| ensures LeavesEditAt(s, init, n, queued.id) {
        assert init[..n] == moves[..n];
        assert LeavesEditAt(s, moves, n, queued.id);
      }
      EditedMessageWaits(s, init, queued);
      assert LeavesEditAt(s, moves, |init|, queued.id);
      EditedMessageIsNeverSentByItself(Play(s, init), last.action, last.env, queued);
    }
  }

  // ---------------------------------------------------------------- the order of the queue

  /** A moved message stands where it was put, or last, and the others stay in order. */
  lemma MovedMessageStandsThere(s: SessionState, id: nat, toIndex: nat, env: Env)
    requires QueueIndex(s.queue.items, id).Some?
    ensures var items := s.queue.items;
            var i := QueueIndex(items, id).value;
            var queue := Step(s, MoveQueued(id, toIndex), env).queue;
            var to := if toIndex < |items| then toIndex else |items| - 1;
            && |queue.items| == |items| && queue.items[to] == items[i]
            && queue.items[..to] + queue.items[to + 1..] == items[..i] + items[i + 1..]
            && queue == s.queue.(items := queue.items)
  {
    hide QueueIndex;
  }

  /** An edited message keeps its place; one that has gone meanwhile comes last. Only its own lock is lifted. */
  lemma EditedMessageKeepsItsPlace(s: SessionState, id: nat, edited: Prompt, env: Env)
    requires !edited.IsEmpty()
    ensures var items, i := s.queue.items, QueueIndex(s.queue.items, id);
            var queue := Step(s, FinishEdit(id, Some(edited)), env).queue;
            && (if i.Some? then
                  |queue.items| == |items| && queue.items[i.value] == Queued(id, edited)
                  && forall k | 0 <= k < |items| && k != i.value :: queue.items[k] == items[k]
                else
                  |queue.items| == |items| + 1 && queue.items[..|items|] == items
                  && queue.items[|items|].prompt == edited)
            && queue.editing == if s.queue.editing == Some(id) then None else s.queue.editing
  {
    hide QueueIndex, Prompt.IsEmpty;
  }
}
