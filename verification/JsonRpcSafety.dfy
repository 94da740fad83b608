/** What callers of the JSON-RPC client can rely on, in every order of their steps and the reader's. */
module JsonRpcSafety {
  import opened Wrappers
  import opened JsonRpc

  // ---------------------------------------------------------------- the invariant

  predicate IdsAreKnown(calls: map<int, Phase>, nextId: nat) {
    forall id | id in calls :: 1 <= id <= nextId
  }

  predicate PendingIsOpen(calls: map<int, Phase>, pending: set<int>, delivered: map<int, Reply>) {
    && (forall id | id in pending ::
          id !in delivered && id in calls && (calls[id].Registered? || calls[id].Withdrawing? || calls[id].Waiting?))
    && (forall id | id in delivered :: id in calls && !calls[id].Fetched?)
  }

  /** The client itself only ever turns a request away. */
  predicate NoReplyMadeUp(calls: map<int, Phase>) {
    forall id | id in calls && calls[id].Settled? :: !calls[id].outcome.Replied?
  }

  predicate CleanupMatches(w: World) {
    && (w.closed <==> w.reader.Flagged? || w.reader.Cleaned?)
    && (w.reader.Cleaned? ==> w.pending == {})
  }

  predicate Answers(line: ServerLine, id: int, reply: Reply) {
    line.Response? && ResponseId(line.id) == Some(id) && line.reply == reply
  }

  predicate WasReplied(seen: seq<ServerLine>, id: int, reply: Reply) {
    exists k | 0 <= k < |seen| :: Answers(seen[k], id, reply)
  }

  predicate DeliveriesWereRead(seen: seq<ServerLine>, delivered: map<int, Reply>) {
    forall id | id in delivered :: WasReplied(seen, id, delivered[id])
  }

  predicate IsQueued(queue: seq<QueuedLine>, id: int) {
    exists i | 0 <= i < |queue| :: queue[i] == RequestLine(id)
  }

  /** Requests are queued once each, and exactly those still expected to be answered. */
  predicate RequestsAreQueued(queue: seq<QueuedLine>, calls: map<int, Phase>) {
    && (forall i | 0 <= i < |queue| && queue[i].RequestLine? :: queue[i].id in calls && calls[queue[i].id].Waiting?)
    && (forall i, j | 0 <= i < j < |queue| && queue[i].RequestLine? && queue[j].RequestLine? ::
          queue[i].id != queue[j].id)
    && (forall id | id in calls && calls[id].Waiting? :: IsQueued(queue, id))
  }

  /** A notification stands behind the request its caller made before it, unless that one was turned away. */
  predicate NotificationsFollow(queue: seq<QueuedLine>, calls: map<int, Phase>) {
    forall j | 0 <= j < |queue| && queue[j].NotificationLine? ::
      queue[j].after in calls && (calls[queue[j].after].Settled? || IsQueued(queue[..j], queue[j].after))
  }

  predicate Sound(w: World) {
    && IdsAreKnown(w.calls, w.nextId)
    && PendingIsOpen(w.calls, w.pending, w.delivered)
    && NoReplyMadeUp(w.calls)
    && CleanupMatches(w)
    && DeliveriesWereRead(w.seen, w.delivered)
    && RequestsAreQueued(w.queue, w.calls)
    && NotificationsFollow(w.queue, w.calls)
  }

  lemma QueuedStaysQueued(queue: seq<QueuedLine>, line: QueuedLine, id: int)
    requires IsQueued(queue, id)
    ensures IsQueued(queue + [line], id)
  {
    var i :| 0 <= i < |queue| && queue[i] == RequestLine(id);
    assert (queue + [line])[i] == RequestLine(id);
  }

  lemma RequestJoinsQueue(queue: seq<QueuedLine>, calls: map<int, Phase>, id: int)
    requires RequestsAreQueued(queue, calls) && NotificationsFollow(queue, calls)
    requires id in calls && calls[id].Registered?
    ensures RequestsAreQueued(queue + [RequestLine(id)], calls[id := Waiting])
    ensures NotificationsFollow(queue + [RequestLine(id)], calls[id := Waiting])
  {
    var longer := queue + [RequestLine(id)];
    assert longer[|queue|] == RequestLine(id);
    forall other | other in calls[id := Waiting] && calls[id := Waiting][other].Waiting?
      ensures IsQueued(longer, other)
    {
      if other != id {
        QueuedStaysQueued(queue, RequestLine(id), other);
      }
    }
    forall j | 0 <= j < |longer| && longer[j].NotificationLine?
      ensures longer[j].after in calls && (calls[id := Waiting][longer[j].after].Settled?
                                           || IsQueued(longer[..j], longer[j].after))
    {
      assert queue[j].NotificationLine? && longer[..j] == queue[..j];
      NotQueuedYet(queue, calls, j, id);
    }
  }

  lemma NotQueuedYet(queue: seq<QueuedLine>, calls: map<int, Phase>, j: nat, id: int)
    requires RequestsAreQueued(queue, calls) && NotificationsFollow(queue, calls)
    requires j < |queue| && queue[j].NotificationLine? && id in calls && !calls[id].Waiting? && !calls[id].Settled?
    ensures queue[j].after != id
  {
    assert forall i | 0 <= i < j :: queue[..j][i] == queue[i] && queue[i] != RequestLine(id);
  }

  lemma NotificationJoinsQueue(queue: seq<QueuedLine>, calls: map<int, Phase>, after: int)
    requires RequestsAreQueued(queue, calls) && NotificationsFollow(queue, calls)
    requires after in calls && (calls[after].Waiting? || calls[after].Settled?)
    ensures RequestsAreQueued(queue + [NotificationLine(after)], calls)
    ensures NotificationsFollow(queue + [NotificationLine(after)], calls)
  {
    var longer := queue + [NotificationLine(after)];
    forall id | id in calls && calls[id].Waiting? ensures IsQueued(longer, id) {
      QueuedStaysQueued(queue, NotificationLine(after), id);
    }
    forall j | 0 <= j < |longer| && longer[j].NotificationLine?
      ensures longer[j].after in calls && (calls[longer[j].after].Settled? || IsQueued(longer[..j], longer[j].after))
    {
      assert longer[..j] == queue[..j];
      assert longer[..|queue|] == queue;
    }
  }

  /** A call that moves on without a line in the queue leaves the queue in order. */
  lemma QueueIgnores(queue: seq<QueuedLine>, calls: map<int, Phase>, id: int, phase: Phase)
    requires RequestsAreQueued(queue, calls) && NotificationsFollow(queue, calls)
    requires !phase.Waiting?
    requires id in calls ==> !calls[id].Waiting? && !calls[id].Settled?
    ensures RequestsAreQueued(queue, calls[id := phase])
    ensures NotificationsFollow(queue, calls[id := phase])
  {
    forall j | 0 <= j < |queue| && queue[j].NotificationLine?
      ensures queue[j].after in calls[id := phase]
           && (calls[id := phase][queue[j].after].Settled? || IsQueued(queue[..j], queue[j].after))
    {
      if id in calls {
        NotQueuedYet(queue, calls, j, id);
      }
    }
  }

  lemma ReadIsSound(w: World, line: ServerLine)
    requires Sound(w) && w.reader.Reading?
    ensures Sound(ReadLine(w, line))
  {
    hide ResponseId, RequestsAreQueued, NotificationsFollow;
    var r := ReadLine(w, line);
    assert r.seen == w.seen + [line];
    forall id | id in r.delivered ensures WasReplied(r.seen, id, r.delivered[id]) {
      if id in w.delivered && r.delivered[id] == w.delivered[id] {
        var k :| 0 <= k < |w.seen| && Answers(w.seen[k], id, w.delivered[id]);
        assert Answers(r.seen[k], id, r.delivered[id]);
      } else {
        assert Answers(r.seen[|w.seen|], id, r.delivered[id]);
      }
    }
  }

  lemma CallStepIsSound(w: World, step: Step)
    requires Sound(w) && Enabled(w, step)
    requires step.Fetch? || step.Register? || step.Withdraw? || step.QueueRequest? || step.Notify?
    ensures Sound(Take(w, step))
  {
    hide RequestsAreQueued, NotificationsFollow, DeliveriesWereRead;
    match step
    case Fetch =>
      assert w.nextId + 1 !in w.calls;
      QueueIgnores(w.queue, w.calls, w.nextId + 1, Fetched);
    case Register(id) =>
      QueueIgnores(w.queue, w.calls, id, Registered);
      QueueIgnores(w.queue, w.calls, id, Settled(Exited));
    case Withdraw(id) => QueueIgnores(w.queue, w.calls, id, Settled(StdinClosed));
    case QueueRequest(id) =>
      QueueIgnores(w.queue, w.calls, id, Withdrawing);
      RequestJoinsQueue(w.queue, w.calls, id);
    case Notify(after) => NotificationJoinsQueue(w.queue, w.calls, after);
  }

  lemma StepIsSound(w: World, step: Step)
    requires Sound(w)
    ensures Sound(Advance(w, step))
  {
    hide RequestsAreQueued, NotificationsFollow, DeliveriesWereRead, ReadLine, RegisterCall, QueueCall;
    if Enabled(w, step) {
      if step.Read? {
        ReadIsSound(w, step.line);
      } else if step.Fetch? || step.Register? || step.Withdraw? || step.QueueRequest? || step.Notify? {
        CallStepIsSound(w, step);
      }
    }
  }

  lemma {:induction false} EveryRunIsSound(steps: seq<Step>)
    ensures Sound(Run(START, steps))
  {
    if steps != [] {
      hide Sound, Advance;
      EveryRunIsSound(steps[..|steps| - 1]);
      StepIsSound(Run(START, steps[..|steps| - 1]), steps[|steps| - 1]);
    }
  }

  // ---------------------------------------------------------------- what callers see

  /** Once the reader has cleaned up, nothing is pending and nobody who asked, or asks later, waits. */
  lemma NobodyIsStrandedAtEof(steps: seq<Step>)
    requires Run(START, steps).reader.Cleaned?
    ensures var w := Run(START, steps);
            w.pending == {} && forall id | Returned(w, id) :: ResultOf(w, id).Some?
  {
    EveryRunIsSound(steps);
    hide Run;
  }

  /** A reply reaches the request whose id it carries and no other. */
  lemma RepliesCarryTheRequestsId(steps: seq<Step>, id: int, reply: Reply)
    requires var w := Run(START, steps); Returned(w, id) && ResultOf(w, id) == Some(Replied(reply))
    ensures WasReplied(Run(START, steps).seen, id, reply)
  {
    EveryRunIsSound(steps);
    hide Run;
  }

  lemma StepKeepsResult(w: World, step: Step, id: int)
    requires Sound(w) && Returned(w, id) && ResultOf(w, id).Some?
    ensures Returned(Advance(w, step), id) && ResultOf(Advance(w, step), id) == ResultOf(w, id)
  {
    hide RequestsAreQueued, NotificationsFollow, DeliveriesWereRead, ResponseId;
  }

  /** A request is resolved once: whatever happens later, its result stays. */
  lemma {:induction false} ResultsNeverChange(w: World, steps: seq<Step>, id: int)
    requires Sound(w) && Returned(w, id) && ResultOf(w, id).Some?
    ensures Sound(Run(w, steps)) && Returned(Run(w, steps), id) && ResultOf(Run(w, steps), id) == ResultOf(w, id)
  {
    if steps != [] {
      hide Sound, Advance;
      ResultsNeverChange(w, steps[..|steps| - 1], id);
      StepIsSound(Run(w, steps[..|steps| - 1]), steps[|steps| - 1]);
      StepKeepsResult(Run(w, steps[..|steps| - 1]), steps[|steps| - 1], id);
    }
  }

  /** No id is handed out twice, and no request's line is queued twice. */
  lemma IdsNeverRepeat(steps: seq<Step>)
    ensures var w := Run(START, steps);
            && w.nextId + 1 !in w.calls
            && (forall i, j | 0 <= i < j < |w.queue| && w.queue[i].RequestLine? && w.queue[j].RequestLine? ::
                  w.queue[i].id != w.queue[j].id)
  {
    EveryRunIsSound(steps);
    hide Run;
  }

  /** What a caller sends after a request follows that request on the wire. */
  lemma NotificationsNeverOvertake(steps: seq<Step>, j: nat)
    requires var w := Run(START, steps); j < |w.queue| && w.queue[j].NotificationLine?
    ensures var w := Run(START, steps);
            var after := w.queue[j].after;
            Returned(w, after) && (w.calls[after].Waiting? ==> exists i | 0 <= i < j :: w.queue[i] == RequestLine(after))
  {
    EveryRunIsSound(steps);
    hide Run;
    var w := Run(START, steps);
    var after := w.queue[j].after;
    if !w.calls[after].Settled? {
      var i :| 0 <= i < j && w.queue[..j][i] == RequestLine(after);
      assert w.queue[i] == RequestLine(after);
    }
  }

  // ---------------------------------------------------------------- a reader that gives up

  lemma StepStrands(w: World, step: Step, id: int)
    requires Sound(w) && w.reader.Abandoned? && Returned(w, id) && ResultOf(w, id).None?
    ensures var v := Advance(w, step); v.reader.Abandoned? && Returned(v, id) && ResultOf(v, id).None?
  {
    hide RequestsAreQueued, NotificationsFollow, DeliveriesWereRead, ResponseId;
  }

  /** A reader that returned because nobody takes the server's calls never wakes its waiting callers. */
  lemma {:induction false} AbandonedCallersWaitForever(w: World, steps: seq<Step>, id: int)
    requires Sound(w) && w.reader.Abandoned? && Returned(w, id) && ResultOf(w, id).None?
    ensures var v := Run(w, steps);
            Sound(v) && v.reader.Abandoned? && Returned(v, id) && ResultOf(v, id).None?
  {
    if steps != [] {
      hide Sound, Advance;
      AbandonedCallersWaitForever(w, steps[..|steps| - 1], id);
      StepIsSound(Run(w, steps[..|steps| - 1]), steps[|steps| - 1]);
      StepStrands(Run(w, steps[..|steps| - 1]), steps[|steps| - 1], id);
    }
  }

  /** The server calls while nobody takes its calls any more. */
  predicate GivesUpAt(steps: seq<Step>, i: nat) {
    && i < |steps|
    && steps[i].Read? && steps[i].line.ServerCall?
    && Run(START, steps[..i]).receiverGone
    && Run(START, steps[..i]).reader.Reading?
  }

  lemma AbandonsExactlyOn(w: World, step: Step)
    ensures Advance(w, step).reader.Abandoned? <==>
            w.reader.Abandoned? || (w.reader.Reading? && w.receiverGone && step.Read? && step.line.ServerCall?)
  {
    hide ResponseId;
  }

  /** When the reader gives up. */
  lemma {:induction false} ReaderIsAbandonedExactly(steps: seq<Step>)
    ensures Run(START, steps).reader.Abandoned? <==> exists i: nat :: GivesUpAt(steps, i)
  {
    if steps != [] {
      hide Advance;
      var n := |steps| - 1;
      ReaderIsAbandonedExactly(steps[..n]);
      AbandonsExactlyOn(Run(START, steps[..n]), steps[n]);
      assert forall i | 0 <= i <= n :: steps[..n][..i] == steps[..i];
      if Run(START, steps[..n]).reader.Abandoned? {
        var i: nat :| GivesUpAt(steps[..n], i);
        assert GivesUpAt(steps, i);
      } else if Run(START, steps).reader.Abandoned? {
        assert GivesUpAt(steps, n);
      }
      if i: nat :| GivesUpAt(steps, i) {
        if i < n {
          assert GivesUpAt(steps[..n], i);
        }
      }
    }
  }

  /** The step enters the request in the table. */
  predicate Registers(w: World, step: Step, id: int) {
    step == Register(id) && InPhase(w, id, Fetched) && !w.closed
  }

  /** The step puts the request's line on its way. */
  predicate Queues(w: World, step: Step, id: int) {
    step == QueueRequest(id) && InPhase(w, id, Registered) && !w.writerGone
  }

  /** The reader reads a response with the request's id. */
  predicate Replies(w: World, step: Step, id: int) {
    step.Read? && step.line.Response? && ResponseId(step.line.id) == Some(id) && w.reader.Reading?
  }

  predicate RegistersAt(steps: seq<Step>, id: int, a: nat) {
    a < |steps| && Registers(Run(START, steps[..a]), steps[a], id)
  }

  predicate QueuesAt(steps: seq<Step>, id: int, b: nat) {
    b < |steps| && Queues(Run(START, steps[..b]), steps[b], id)
  }

  predicate RepliesAt(steps: seq<Step>, id: int, c: nat) {
    c < |steps| && Replies(Run(START, steps[..c]), steps[c], id)
  }

  /** The request is in the table, and no response to it has been read since. */
  predicate AwaitsReply(steps: seq<Step>, id: int) {
    exists a: nat | a < |steps| :: RegistersAt(steps, id, a) && NoReplyAfter(steps, id, a)
  }

  predicate NoReplyAfter(steps: seq<Step>, id: int, a: nat) {
    forall c: nat | a < c < |steps| :: !RepliesAt(steps, id, c)
  }

  lemma PrefixSteps(steps: seq<Step>, id: int, n: nat, i: nat)
    requires i < n <= |steps|
    ensures RegistersAt(steps[..n], id, i) == RegistersAt(steps, id, i)
    ensures QueuesAt(steps[..n], id, i) == QueuesAt(steps, id, i)
    ensures RepliesAt(steps[..n], id, i) == RepliesAt(steps, id, i)
  {
    hide Run, Registers, Queues, Replies;
    assert steps[..n][..i] == steps[..i];
  }

  /** What one more step does to the wait for a reply. */
  lemma AwaitsOneMore(steps: seq<Step>, id: int)
    requires steps != []
    ensures var n := |steps| - 1;
            AwaitsReply(steps, id) <==>
              (AwaitsReply(steps[..n], id) && !RepliesAt(steps, id, n)) || RegistersAt(steps, id, n)
  {
    hide RegistersAt, RepliesAt;
    var n := |steps| - 1;
    forall i: nat | i < n
      ensures RegistersAt(steps[..n], id, i) == RegistersAt(steps, id, i)
      ensures RepliesAt(steps[..n], id, i) == RepliesAt(steps, id, i)
    {
      PrefixSteps(steps, id, n, i);
    }
    if a: nat :| a < |steps| && RegistersAt(steps, id, a) && NoReplyAfter(steps, id, a) {
      if a < n {
        assert RegistersAt(steps[..n], id, a) && NoReplyAfter(steps[..n], id, a);
        assert !RepliesAt(steps, id, n);
      }
    }
    if AwaitsReply(steps[..n], id) && !RepliesAt(steps, id, n) {
      var a: nat :| a < n && RegistersAt(steps[..n], id, a) && NoReplyAfter(steps[..n], id, a);
      assert RegistersAt(steps, id, a) && NoReplyAfter(steps, id, a);
    }
    if RegistersAt(steps, id, n) {
      assert NoReplyAfter(steps, id, n);
    }
  }

  predicate IsQueuedIn(steps: seq<Step>, id: int) {
    exists b: nat | b < |steps| :: QueuesAt(steps, id, b)
  }

  lemma QueuedOneMore(steps: seq<Step>, id: int)
    requires steps != []
    ensures var n := |steps| - 1;
            IsQueuedIn(steps, id) <==> IsQueuedIn(steps[..n], id) || QueuesAt(steps, id, n)
  {
    hide Run, Queues;
    var n := |steps| - 1;
    if b: nat :| b < |steps| && QueuesAt(steps, id, b) {
      if b < n {
        PrefixSteps(steps, id, n, b);
      }
    }
    if b: nat :| b < n && QueuesAt(steps[..n], id, b) {
      PrefixSteps(steps, id, n, b);
    }
  }

  predicate IsOpen(phase: Phase) {
    phase.Registered? || phase.Withdrawing? || phase.Waiting?
  }

  /** How far a call has come: until a cleanup or a withdrawal, pending is awaiting a reply. */
  predicate Tells(w: World, id: int, queued: bool, awaits: bool) {
    && (id in w.calls && w.calls[id].Waiting? <==> queued)
    && (id !in w.calls || w.calls[id].Fetched? ==> !awaits)
    && (id in w.calls && IsOpen(w.calls[id]) && !w.reader.Cleaned? ==> (id in w.pending <==> awaits))
  }

  lemma StepTells(w: World, step: Step, id: int, queued: bool, awaits: bool)
    requires Tells(w, id, queued, awaits)
    requires IdsAreKnown(w.calls, w.nextId) && PendingIsOpen(w.calls, w.pending, w.delivered) && CleanupMatches(w)
    ensures Tells(
              Advance(w, step), id, queued || Queues(w, step, id),
              (awaits && !Replies(w, step, id)) || Registers(w, step, id))
  {
    hide ResponseId;
  }

  predicate StepsTell(steps: seq<Step>, id: int) {
    Tells(Run(START, steps), id, IsQueuedIn(steps, id), AwaitsReply(steps, id))
  }

  /** The steps taken tell which calls are queued and which are still pending. */
  lemma {:induction false} EveryRunTells(steps: seq<Step>, id: int)
    ensures StepsTell(steps, id)
  {
    if steps != [] {
      var init, last := steps[..|steps| - 1], steps[|steps| - 1];
      EveryRunTells(init, id);
      EveryRunIsSound(init);
      AwaitsOneMore(steps, id);
      QueuedOneMore(steps, id);
      hide Tells, Advance, AwaitsReply, IsQueuedIn, Queues, Replies, Registers, RequestsAreQueued, NotificationsFollow,
        DeliveriesWereRead;
      StepTells(Run(START, init), last, id, IsQueuedIn(init, id), AwaitsReply(init, id));
    }
  }

  /**
   * Once the reader has stopped, a caller waits in vain exactly if its request was queued, no response to it was read
   * after it was registered, and the reader gave up.
   */
  lemma StrandedExactly(steps: seq<Step>, id: int)
    requires var w := Run(START, steps); (w.reader.Cleaned? || w.reader.Abandoned?) && Returned(w, id)
    ensures ResultOf(Run(START, steps), id).None? <==>
            (exists i: nat :: GivesUpAt(steps, i)) && IsQueuedIn(steps, id) && AwaitsReply(steps, id)
  {
    ReaderIsAbandonedExactly(steps);
    EveryRunIsSound(steps);
    EveryRunTells(steps, id);
    hide Run, GivesUpAt, IsQueuedIn, AwaitsReply, RequestsAreQueued, NotificationsFollow, DeliveriesWereRead;
  }

  /** One such run: a request, a consumer that leaves, and a call of the server's before its reply. */
  lemma SomeCallerIsStranded()
    ensures var steps := [Fetch, Register(1), QueueRequest(1), ReceiverLeaves, Read(ServerCall("session/update"))];
            var w := Run(START, steps);
            w.reader.Abandoned? && Returned(w, 1) && ResultOf(w, 1).None?
  {
    hide ResponseId;
    var a, b := [Fetch, Register(1)], [QueueRequest(1), ReceiverLeaves];
    var last := Read(ServerCall("session/update"));
    assert [Fetch, Register(1), QueueRequest(1), ReceiverLeaves, last] == a + (b + [last]);
    RunJoins(START, a, b + [last]);
    RunOfTwo(START, Fetch, Register(1));
    RunJoins(Run(START, a), b, [last]);
    RunOfTwo(Run(START, a), QueueRequest(1), ReceiverLeaves);
    RunOfOne(Run(Run(START, a), b), last);
  }

  // ---------------------------------------------------------------- echoed ids

  lemma {:induction false} RenderFacts(n: nat)
    ensures |Render(n)| > 0 && IsDigit(Render(n)[0])
    ensures DigitsValue(Render(n)) == Some(n)
  {
    if n < 10 {
      assert Render(n)[..0] == [];
    } else {
      RenderFacts(n / 10);
      var high := Render(n / 10);
      assert Render(n)[..|high|] == high;
      assert Render(n)[|high|] == ('0' as int + n % 10) as char;
    }
  }

  /** The distance between neighbouring double-precision floats at this size. */
  function Ulp(n: nat): (u: nat)
    ensures u >= 1
  {
    if n < EXACT_IDS then 1 else 2 * Ulp(n / 2)
  }

  const EXACT_IDS := 0x20_0000_0000_0000

  /** The double-precision float a number becomes: the nearest, and of two the even one. */
  function Rounded(n: nat): nat {
    var u := Ulp(n);
    var q, r := n / u, n % u;
    if 2 * r < u || (2 * r == u && q % 2 == 0) then q * u else (q + 1) * u
  }

  lemma RoundedIsExact(n: nat)
    ensures Rounded(n) == n <==> n % Ulp(n) == 0
  {
    var u := Ulp(n);
    var q, r := n / u, n % u;
    assert n == q * u + r;
    assert (q + 1) * u == q * u + u;
  }

  lemma UlpOfMax()
    ensures Ulp(I64_MAX) == 1024
  {
    assert Ulp(0x1F_FFFF_FFFF_FFFF) == 1;
    assert Ulp(0x3F_FFFF_FFFF_FFFF) == 2;
    assert Ulp(0x7F_FFFF_FFFF_FFFF) == 4;
    assert Ulp(0xFF_FFFF_FFFF_FFFF) == 8;
    assert Ulp(0x1FF_FFFF_FFFF_FFFF) == 16;
    assert Ulp(0x3FF_FFFF_FFFF_FFFF) == 32;
    assert Ulp(0x7FF_FFFF_FFFF_FFFF) == 64;
    assert Ulp(0xFFF_FFFF_FFFF_FFFF) == 128;
    assert Ulp(0x1FFF_FFFF_FFFF_FFFF) == 256;
    assert Ulp(0x3FFF_FFFF_FFFF_FFFF) == 512;
  }

  /** An id echoed as a float finds its request exactly if a float can hold it, or if it is the last id of all. */
  lemma EchoedFloatIsRecognisedExactly(n: nat)
    requires n <= I64_MAX
    ensures ResponseId(Float(Rounded(n) as real)) == Some(n) <==> n % Ulp(n) == 0 || n == I64_MAX
  {
    assert (Rounded(n) as real).Floor == Rounded(n);
    RoundedIsExact(n);
    hide Rounded;
    if n == I64_MAX {
      UlpOfMax();
      assert Rounded(n) == I64_MAX + 1 by { RoundedMax(); }
    }
  }

  /** The first id a float cannot hold comes back as the one before it, and finds the wrong request. */
  lemma SomeEchoedFloatIsMistaken()
    ensures ResponseId(Float(Rounded(EXACT_IDS + 1) as real)) == Some(EXACT_IDS)
  {
    assert Ulp((EXACT_IDS + 1) / 2) == 1;
    assert Ulp(EXACT_IDS + 1) == 2;
  }

  lemma RoundedMax()
    ensures Rounded(I64_MAX) == I64_MAX + 1
  {
    UlpOfMax();
    hide Ulp;
    assert I64_MAX / 1024 == EXACT_IDS * 0x400 / 0x400 - 1;
    assert I64_MAX % 1024 == 1023;
  }

  /** Whether the server writes a request's number back as a number, a string or a float, the reply finds its request. */
  lemma EchoedIdsAreRecognised(n: nat)
    requires n <= I64_MAX
    ensures ResponseId(Int(n)) == Some(n)
    ensures ResponseId(Str(Render(n))) == Some(n)
    ensures n <= EXACT_IDS ==> ResponseId(Float(Rounded(n) as real)) == Some(n)
  {
    hide Ulp, Rounded, Render;
    RenderFacts(n);
    EchoedFloatIsRecognisedExactly(n);
    if n <= EXACT_IDS {
      SmallIdsAreExact(n);
    }
  }

  lemma SmallIdsAreExact(n: nat)
    requires n <= EXACT_IDS
    ensures n % Ulp(n) == 0
  {
    if n == EXACT_IDS {
      assert Ulp(n / 2) == 1;
    }
  }
}
