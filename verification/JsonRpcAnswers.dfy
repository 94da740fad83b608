/** Which result each request ends with, told by the steps taken. */
module JsonRpcAnswers {
  import opened Wrappers
  import opened JsonRpc
  import opened JsonRpcSafety

  /** The response that answers the request: the first one with its id since it was registered. */
  predicate AnsweredAt(steps: seq<Step>, id: int, reply: Reply, c: nat) {
    && RepliesAt(steps, id, c)
    && steps[c].line.reply == reply
    && AwaitsReply(steps[..c], id)
  }

  ghost predicate IsAnswered(steps: seq<Step>, id: int, reply: Reply) {
    exists c: nat :: AnsweredAt(steps, id, reply, c)
  }

  /** The cleanup has begun before the request could be registered. */
  predicate ComesTooLate(w: World, step: Step, id: int) {
    step == Register(id) && InPhase(w, id, Fetched) && w.closed
  }

  /** The request is registered, and its line finds nobody writing. */
  predicate IsTurnedAway(w: World, step: Step, id: int) {
    step == QueueRequest(id) && InPhase(w, id, Registered) && w.writerGone
  }

  predicate ComesTooLateAt(steps: seq<Step>, id: int, i: nat) {
    i < |steps| && ComesTooLate(Run(START, steps[..i]), steps[i], id)
  }

  predicate IsTurnedAwayAt(steps: seq<Step>, id: int, i: nat) {
    i < |steps| && IsTurnedAway(Run(START, steps[..i]), steps[i], id)
  }

  ghost predicate CameTooLate(steps: seq<Step>, id: int) {
    exists i: nat :: ComesTooLateAt(steps, id, i)
  }

  ghost predicate WasTurnedAway(steps: seq<Step>, id: int) {
    exists i: nat :: IsTurnedAwayAt(steps, id, i)
  }

  // ---------------------------------------------------------------- one more step

  lemma AnsweredOneMore(steps: seq<Step>, id: int, reply: Reply)
    requires steps != []
    ensures var n := |steps| - 1;
            IsAnswered(steps, id, reply) <==>
              IsAnswered(steps[..n], id, reply)
              || (RepliesAt(steps, id, n) && steps[n].line.reply == reply && AwaitsReply(steps[..n], id))
  {
    hide RepliesAt, AwaitsReply;
    var n := |steps| - 1;
    forall c: nat | c < n ensures AnsweredAt(steps[..n], id, reply, c) == AnsweredAt(steps, id, reply, c) {
      PrefixSteps(steps, id, n, c);
      assert steps[..n][..c] == steps[..c];
    }
    if c: nat :| AnsweredAt(steps, id, reply, c) {
      RepliesInside(steps, id, c);
      if c < n {
        assert AnsweredAt(steps[..n], id, reply, c);
      }
    }
    if c: nat :| AnsweredAt(steps[..n], id, reply, c) {
      RepliesInside(steps[..n], id, c);
      assert AnsweredAt(steps, id, reply, c);
    }
    RepliesInside(steps, id, n);
    if RepliesAt(steps, id, n) && steps[n].line.reply == reply && AwaitsReply(steps[..n], id) {
      assert AnsweredAt(steps, id, reply, n);
    }
  }

  lemma RepliesInside(steps: seq<Step>, id: int, c: nat)
    ensures RepliesAt(steps, id, c) ==> c < |steps| && steps[c].Read? && steps[c].line.Response?
  {
  }

  lemma RefusedOneMore(steps: seq<Step>, id: int)
    requires steps != []
    ensures var n := |steps| - 1;
            && (CameTooLate(steps, id) <==> CameTooLate(steps[..n], id) || ComesTooLateAt(steps, id, n))
            && (WasTurnedAway(steps, id) <==> WasTurnedAway(steps[..n], id) || IsTurnedAwayAt(steps, id, n))
  {
    hide Run, ComesTooLate, IsTurnedAway;
    var n := |steps| - 1;
    forall i: nat | i < n
      ensures ComesTooLateAt(steps[..n], id, i) == ComesTooLateAt(steps, id, i)
      ensures IsTurnedAwayAt(steps[..n], id, i) == IsTurnedAwayAt(steps, id, i)
    {
      assert steps[..n][..i] == steps[..i];
    }
    if i: nat :| ComesTooLateAt(steps, id, i) {
      assert i == n || ComesTooLateAt(steps[..n], id, i);
    }
    if i: nat :| ComesTooLateAt(steps[..n], id, i) {
      assert ComesTooLateAt(steps, id, i);
    }
    if i: nat :| IsTurnedAwayAt(steps, id, i) {
      assert i == n || IsTurnedAwayAt(steps[..n], id, i);
    }
    if i: nat :| IsTurnedAwayAt(steps[..n], id, i) {
      assert IsTurnedAwayAt(steps, id, i);
    }
  }

  // ---------------------------------------------------------------- every run

  /** A reply stands ready for an open request exactly if it was answered with it, and none while it awaits one. */
  predicate TellsReply(w: World, id: int, reply: Reply, awaits: bool, answered: bool) {
    && (id !in w.calls || w.calls[id].Fetched? ==> !answered)
    && (id in w.calls && IsOpen(w.calls[id]) ==> (id in w.delivered <==> !awaits))
    && (id in w.calls && IsOpen(w.calls[id]) ==> (id in w.delivered && w.delivered[id] == reply <==> answered))
  }

  /** What has become of a request that was turned away. */
  predicate TellsRefusal(w: World, id: int, late: bool, away: bool) {
    && (id in w.calls && w.calls[id] == Settled(Exited) <==> late)
    && (id in w.calls && (w.calls[id].Withdrawing? || w.calls[id] == Settled(StdinClosed)) <==> away)
  }

  lemma StepTellsReply(w: World, step: Step, id: int, reply: Reply, queued: bool, awaits: bool, answered: bool)
    requires Tells(w, id, queued, awaits) && TellsReply(w, id, reply, awaits, answered)
    requires IdsAreKnown(w.calls, w.nextId) && PendingIsOpen(w.calls, w.pending, w.delivered) && CleanupMatches(w)
    ensures TellsReply(
              Advance(w, step), id, reply, (awaits && !Replies(w, step, id)) || Registers(w, step, id),
              answered || (Replies(w, step, id) && step.line.reply == reply && awaits))
  {
    hide ResponseId;
  }

  lemma StepTellsRefusal(w: World, step: Step, id: int, late: bool, away: bool)
    requires TellsRefusal(w, id, late, away) && IdsAreKnown(w.calls, w.nextId)
    ensures TellsRefusal(Advance(w, step), id, late || ComesTooLate(w, step, id), away || IsTurnedAway(w, step, id))
  {
    hide ResponseId;
  }

  lemma {:induction false} EveryRunTellsReply(steps: seq<Step>, id: int, reply: Reply)
    ensures TellsReply(Run(START, steps), id, reply, AwaitsReply(steps, id), IsAnswered(steps, id, reply))
  {
    if steps != [] {
      var init, last := steps[..|steps| - 1], steps[|steps| - 1];
      EveryRunTellsReply(init, id, reply);
      EveryRunIsSound(init);
      EveryRunTells(init, id);
      AnsweredOneMore(steps, id, reply);
      AwaitsOneMore(steps, id);
      hide Tells, TellsReply, Advance, AwaitsReply, IsAnswered, IsQueuedIn, Replies, Registers, RequestsAreQueued,
        NotificationsFollow, DeliveriesWereRead;
      StepTellsReply(
        Run(START, init), last, id, reply, IsQueuedIn(init, id), AwaitsReply(init, id), IsAnswered(init, id, reply));
    }
  }

  lemma {:induction false} EveryRunTellsRefusal(steps: seq<Step>, id: int)
    ensures TellsRefusal(Run(START, steps), id, CameTooLate(steps, id), WasTurnedAway(steps, id))
  {
    if steps != [] {
      var init, last := steps[..|steps| - 1], steps[|steps| - 1];
      EveryRunTellsRefusal(init, id);
      EveryRunIsSound(init);
      RefusedOneMore(steps, id);
      hide TellsRefusal, Advance, CameTooLate, WasTurnedAway, ComesTooLate, IsTurnedAway, RequestsAreQueued,
        NotificationsFollow, DeliveriesWereRead, PendingIsOpen;
      StepTellsRefusal(Run(START, init), last, id, CameTooLate(init, id), WasTurnedAway(init, id));
    }
  }

  /**
   * What a returned request ends with, over every run: the reply of the first response with its id read since it was
   * registered, if its line was queued; the closed stdin, if its line found nobody writing; the server's exit, if it was
   * registered after the cleanup began, or was queued and had no reply when the table was emptied.
   */
  lemma ResultsExactly(steps: seq<Step>, id: int, reply: Reply)
    requires Returned(Run(START, steps), id)
    ensures var w := Run(START, steps);
            var result := ResultOf(w, id);
            && (result == Some(Replied(reply)) <==> IsQueuedIn(steps, id) && IsAnswered(steps, id, reply))
            && (result == Some(StdinClosed) <==> WasTurnedAway(steps, id))
            && (result == Some(Exited) <==>
                  CameTooLate(steps, id) || (IsQueuedIn(steps, id) && AwaitsReply(steps, id) && w.reader.Cleaned?))
  {
    EveryRunIsSound(steps);
    EveryRunTells(steps, id);
    EveryRunTellsReply(steps, id, reply);
    EveryRunTellsRefusal(steps, id);
    hide Run, IsQueuedIn, AwaitsReply, IsAnswered, CameTooLate, WasTurnedAway, RequestsAreQueued, NotificationsFollow,
      DeliveriesWereRead;
  }

  // ---------------------------------------------------------------- the server's own calls

  /** The server's calls that find somebody to take them, read off the steps. */
  function TakenCalls(steps: seq<Step>): seq<string> {
    if steps == [] then []
    else
      var init, last := steps[..|steps| - 1], steps[|steps| - 1];
      TakenCalls(init) +
      if last.Read? && last.line.ServerCall? && Run(START, init).reader.Reading? && !WasLeft(init) then [last.line.what]
      else []
  }

  predicate WasLeft(steps: seq<Step>) {
    exists i | 0 <= i < |steps| :: steps[i].ReceiverLeaves?
  }

  lemma StepTakesCalls(w: World, step: Step, left: bool)
    requires w.receiverGone == left
    ensures var r := Advance(w, step);
            && r.receiverGone == (left || step.ReceiverLeaves?)
            && r.incoming == w.incoming +
                 if step.Read? && step.line.ServerCall? && w.reader.Reading? && !left then [step.line.what] else []
  {
    hide ResponseId;
  }

  /** The server's calls arrive once each and in order, up to the moment their consumer leaves or the reader stops. */
  lemma {:induction false} ServerCallsArriveInOrder(steps: seq<Step>)
    ensures Run(START, steps).incoming == TakenCalls(steps)
    ensures Run(START, steps).receiverGone <==> WasLeft(steps)
  {
    if steps != [] {
      hide Advance;
      var init := steps[..|steps| - 1];
      ServerCallsArriveInOrder(init);
      StepTakesCalls(Run(START, init), steps[|steps| - 1], WasLeft(init));
    }
  }
}
