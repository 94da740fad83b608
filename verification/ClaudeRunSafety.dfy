/** What every run of Claude keeps, whatever the agent prints and whenever it is steered, interrupted or cut off. */
module ClaudeRunSafety {
  import opened Wrappers
  import opened Sessions
  import opened ClaudeRun

  // ---------------------------------------------------------------- what a log says

  /** The steers confirmed so far, in the order of their confirmations. */
  function Confirmed(out: seq<Sent>): seq<string> {
    if out == [] then []
    else
      var last := out[|out| - 1];
      Confirmed(out[..|out| - 1]) + if last.origin.Confirms? then [last.origin.id] else []
  }

  /** The end of a turn the agent reported, and not one the loop made up. */
  predicate IsAgentEnd(sent: Sent) {
    sent.event.Done? && !sent.origin.Fallback? && !sent.origin.Crash?
  }

  /** The ends of turns sent so far. */
  function AgentEnds(out: seq<Sent>): seq<AgentEvent> {
    if out == [] then []
    else
      var last := out[|out| - 1];
      AgentEnds(out[..|out| - 1]) + if IsAgentEnd(last) then [last.event] else []
  }

  function HeldDone(held: Option<Held>): seq<AgentEvent> {
    if held.Some? then [held.value.done] else []
  }

  predicate Subsequence<T(==)>(a: seq<T>, b: seq<T>) {
    || a == []
    || (b != [] && (|| Subsequence(a, b[..|b| - 1])
                    || (a[|a| - 1] == b[|b| - 1] && Subsequence(a[..|a| - 1], b[..|b| - 1]))))
  }

  /** Some of the reported ends in their order, the latest of them always included. */
  predicate KeepsLatest(ends: seq<AgentEvent>, reported: seq<AgentEvent>) {
    && Subsequence(ends, reported)
    && (reported != [] ==> ends != [] && ends[|ends| - 1] == reported[|reported| - 1])
  }

  // ---------------------------------------------------------------- the invariant

  /** While nobody refused an event, each steer is confirmed or pending, in the order of arrival. */
  predicate SteersAccounted(s: RunState, arriving: seq<string>) {
    s.refused || s.received == Confirmed(s.out) + s.pending + arriving
  }

  /** A turn's end is sent with a steer unconfirmed only in an interrupted run. */
  predicate EndsAreConfirmed(out: seq<Sent>) {
    forall i | 0 <= i < |out| :: EndIsConfirmed(out[i])
  }

  predicate EndIsConfirmed(sent: Sent) {
    sent.event.Done? && sent.unconfirmed > 0 ==> sent.interrupted
  }

  predicate EndsAreKept(s: RunState) {
    s.refused || KeepsLatest(AgentEnds(s.out) + HeldDone(s.held), s.produced)
  }

  predicate EndsWithDone(out: seq<Sent>) {
    out != [] && out[|out| - 1].event.Done?
  }

  predicate FlagsMatch(s: RunState) {
    && s.interrupted == s.interruptSent
    && (s.refused ==> s.over && s.capacity.Some?)
    && (s.held.Some? ==> s.held.value.done.Done?)
    && (!s.refused ==> (s.anyDone <==> AgentEnds(s.out) != []))
    && (s.doneAfterInterrupt ==> s.interrupted && s.over && s.held.None? && EndsWithDone(s.out))
  }

  /** At most one line asks to interrupt, and no steer follows it. */
  predicate InterruptIsLast(stdin: seq<StdinLine>) {
    forall i, j | 0 <= i < j < |stdin| :: stdin[i].InterruptLine? ==> !stdin[j].InterruptLine? && !stdin[j].SteerLine?
  }

  predicate StdinIsSound(stdin: seq<StdinLine>, interruptSent: bool) {
    && InterruptIsLast(stdin)
    && (!interruptSent ==> forall i | 0 <= i < |stdin| :: !stdin[i].InterruptLine?)
  }

  predicate FromTheLoop(origin: Origin) {
    !origin.Late? && !origin.Fallback? && !origin.Crash?
  }

  predicate AllFromTheLoop(out: seq<Sent>) {
    forall i | 0 <= i < |out| :: FromTheLoop(out[i].origin)
  }

  predicate Sound(s: RunState, arriving: seq<string>) {
    && SteersAccounted(s, arriving)
    && EndsAreConfirmed(s.out)
    && EndsAreKept(s)
    && FlagsMatch(s)
    && StdinIsSound(s.stdin, s.interruptSent)
    && AllFromTheLoop(s.out)
  }

  // ---------------------------------------------------------------- subsequences

  lemma {:induction false} SubsequenceDropsLast<T>(a: seq<T>, x: T, b: seq<T>)
    requires Subsequence(a + [x], b)
    ensures Subsequence(a, b)
  {
    assert (a + [x])[..|a|] == a;
    if a != [] {
      var init := b[..|b| - 1];
      if Subsequence(a + [x], init) {
        SubsequenceDropsLast(a, x, init);
      } else {
        assert Subsequence(a, init);
      }
    }
  }

  lemma SubsequenceGrows<T>(a: seq<T>, b: seq<T>, x: T)
    requires Subsequence(a, b)
    ensures Subsequence(a + [x], b + [x])
  {
    assert (a + [x])[..|a|] == a && (b + [x])[..|b|] == b;
  }

  /** A newer end may take the place of the held one. */
  lemma NewEndIsKept(ends: seq<AgentEvent>, held: Option<Held>, reported: seq<AgentEvent>, done: AgentEvent)
    requires KeepsLatest(ends + HeldDone(held), reported)
    ensures KeepsLatest(ends + [done], reported + [done])
  {
    if held.Some? {
      SubsequenceDropsLast(ends, held.value.done, reported);
    } else {
      assert ends + [] == ends;
    }
    SubsequenceGrows(ends, reported, done);
  }

  // ---------------------------------------------------------------- one event

  lemma LogAppends(out: seq<Sent>, sent: Sent)
    ensures Confirmed(out + [sent]) == Confirmed(out) + (if sent.origin.Confirms? then [sent.origin.id] else [])
    ensures AgentEnds(out + [sent]) == AgentEnds(out) + (if IsAgentEnd(sent) then [sent.event] else [])
    ensures EndsAreConfirmed(out) && EndIsConfirmed(sent) ==> EndsAreConfirmed(out + [sent])
    ensures AllFromTheLoop(out) && FromTheLoop(sent.origin) ==> AllFromTheLoop(out + [sent])
  {
    assert (out + [sent])[..|out|] == out;
  }

  lemma EmitOtherIsSound(s: RunState, event: AgentEvent, origin: Origin, arriving: seq<string>)
    requires Sound(s, arriving) && !s.over
    requires !event.Done? && !origin.Confirms? && FromTheLoop(origin)
    ensures Sound(Emit(s, event, origin), arriving)
  {
    hide EndsAreConfirmed, AllFromTheLoop, StdinIsSound, KeepsLatest, Subsequence, AgentEnds, Confirmed;
    LogAppends(s.out, Sent(event, origin, |s.pending|, s.interrupted));
    assert Confirmed(s.out) + [] == Confirmed(s.out);
    assert AgentEnds(s.out) + [] == AgentEnds(s.out);
  }

  lemma ConfirmFirstIsSound(s: RunState)
    requires Sound(s, []) && !s.over && s.pending != []
    ensures Sound(ConfirmFirst(s), [])
    ensures ConfirmFirst(s).produced == s.produced
    ensures ConfirmFirst(s).anyDone == s.anyDone
  {
    hide EndsAreConfirmed, AllFromTheLoop, StdinIsSound, KeepsLatest, Subsequence, AgentEnds, Confirmed;
    LogAppends(s.out, Sent(SteerConfirmed, Confirms(s.pending[0]), |s.pending| - 1, s.interrupted));
    assert AgentEnds(s.out) + [] == AgentEnds(s.out);
    assert Confirmed(s.out) + s.pending + [] == Confirmed(s.out) + [s.pending[0]] + s.pending[1..] + [];
  }

  lemma {:induction false} ConfirmIsSound(s: RunState, n: nat)
    requires Sound(s, []) && n <= |s.pending|
    ensures Sound(Confirm(s, n), [])
    ensures Confirm(s, n).produced == s.produced
    ensures !Confirm(s, n).over ==> Confirm(s, n).pending == s.pending[n..] && Confirm(s, n).anyDone == s.anyDone
    decreases n
  {
    hide Sound, ConfirmFirst;
    if n > 0 && !s.over {
      ConfirmFirstIsSound(s);
      ConfirmIsSound(ConfirmFirst(s), n - 1);
    }
  }

  /** Sending the end that is held, or one just reported. */
  lemma EmitDoneIsSound(s: RunState, done: AgentEvent, arriving: seq<string>)
    requires SteersAccounted(s, arriving) && EndsAreConfirmed(s.out) && FlagsMatch(s) && StdinIsSound(s.stdin, s.interruptSent) && AllFromTheLoop(s.out)
    requires done.Done? && s.held.None? && !s.over && !s.refused
    requires s.interrupted || s.pending == []
    requires KeepsLatest(AgentEnds(s.out) + [done], s.produced)
    ensures Sound(Ended(Emit(s, done, FromAgent)), arriving)
    ensures !s.interrupted ==> Sound(Emit(s, done, FromAgent).(anyDone := !Emit(s, done, FromAgent).over), arriving)
  {
    hide EndsAreConfirmed, AllFromTheLoop, StdinIsSound, KeepsLatest, Subsequence, AgentEnds, Confirmed;
    LogAppends(s.out, Sent(done, FromAgent, |s.pending|, s.interrupted));
    assert Confirmed(s.out) + [] == Confirmed(s.out);
    assert AgentEnds(s.out) + [done] + [] == AgentEnds(s.out) + [done];
  }

  lemma ForwardIsSound(s: RunState, event: AgentEvent, now: int)
    requires Sound(s, []) && !s.over
    ensures Sound(Forward(s, event, now), [])
  {
    hide KeepsLatest, InterruptIsLast, Ended;
    if !event.Done? {
      EmitOtherIsSound(s.(openTools := ToolsAfter(s.openTools, event)), event, FromAgent, []);
    } else {
      NewEndIsKept(AgentEnds(s.out), s.held, s.produced, event);
      if s.interrupted || s.pending == [] {
        EmitDoneIsSound(
          s.(openTools := ToolsAfter(s.openTools, event), produced := s.produced + [event], held := None), event, []);
      }
    }
  }

  lemma {:induction false} ForwardAllIsSound(s: RunState, events: seq<AgentEvent>, now: int)
    requires Sound(s, [])
    ensures Sound(ForwardAll(s, events, now), [])
    decreases |events|
  {
    hide Sound, Forward;
    if events != [] && !s.over {
      ForwardIsSound(s, events[0], now);
      ForwardAllIsSound(Forward(s, events[0], now), events[1..], now);
    }
  }

  lemma {:induction false} ReportIsSound(s: RunState, problems: seq<string>, arriving: seq<string>)
    requires Sound(s, arriving)
    ensures Sound(Report(s, problems), arriving)
    ensures Report(s, problems).interruptSent == s.interruptSent
    decreases |problems|
  {
    hide Sound;
    if problems != [] && !s.over {
      EmitOtherIsSound(s, ErrorEvent(problems[0]), Problem, arriving);
      ReportIsSound(Emit(s, ErrorEvent(problems[0]), Problem), problems[1..], arriving);
    }
  }

  // ---------------------------------------------------------------- one turn of the loop

  lemma StdoutIsSound(s: RunState, line: StdoutLine, now: int)
    requires Sound(s, []) && !s.over
    ensures Sound(OnStdout(s, line, now), [])
  {
    hide KeepsLatest, ForwardAll, Confirm;
    var t := s.(held := Postponed(s.held, now));
    assert HeldDone(t.held) == HeldDone(s.held);
    assert Sound(t, []);
    if line.Frame? {
      StdoutFrameIsSound(t, line.user, line.events, now);
    }
  }

  lemma StdoutFrameIsSound(s: RunState, user: Option<string>, events: seq<AgentEvent>, now: int)
    requires Sound(s, [])
    ensures Sound(ForwardAll(ConfirmReplayed(s, user), events, now), [])
  {
    hide Sound, ForwardAll, Confirm;
    if user.Some? && Position(s.pending, user.value).Some? {
      ConfirmIsSound(s, Position(s.pending, user.value).value + 1);
    }
    ForwardAllIsSound(ConfirmReplayed(s, user), events, now);
  }

  lemma SteerIsSound(s: RunState, id: string, problems: seq<string>, written: bool)
    requires Sound(s, []) && !s.over && !s.interrupted
    ensures Sound(OnSteer(s, id, problems, written), [])
  {
    hide KeepsLatest, Report;
    var t := s.(received := s.received + [id]);
    assert Confirmed(s.out) + s.pending + [] + [id] == Confirmed(s.out) + s.pending + [id];
    ReportIsSound(t, problems, [id]);
    var reported := Report(t, problems);
    if reported.over {
      assert OnSteer(s, id, problems, written) == reported;
      OverKeepsSound(s, id, problems);
    } else {
      assert Confirmed(reported.out) + reported.pending + [id] == Confirmed(reported.out) + (reported.pending + [id]) + [];
    }
  }

  /** Reporting a problem ends the run only if nobody takes it. */
  lemma {:induction false} ReportEndsRefused(s: RunState, problems: seq<string>)
    requires !s.over
    ensures Report(s, problems).over ==> Report(s, problems).refused
    decreases |problems|
  {
    if problems != [] && !Emit(s, ErrorEvent(problems[0]), Problem).over {
      ReportEndsRefused(Emit(s, ErrorEvent(problems[0]), Problem), problems[1..]);
    } else if problems != [] {
      assert Report(s, problems) == Emit(s, ErrorEvent(problems[0]), Problem);
    }
  }

  lemma OverKeepsSound(s: RunState, id: string, problems: seq<string>)
    requires Sound(s, []) && !s.over
    requires Report(s.(received := s.received + [id]), problems).over
    requires Sound(Report(s.(received := s.received + [id]), problems), [id])
    ensures Sound(Report(s.(received := s.received + [id]), problems), [])
  {
    ReportEndsRefused(s.(received := s.received + [id]), problems);
  }

  lemma HoldElapsedIsSound(s: RunState)
    requires Sound(s, []) && !s.over && s.held.Some?
    ensures Sound(OnHoldElapsed(s), [])
  {
    hide Confirm, KeepsLatest;
    var t := Confirm(s, |s.pending|);
    ConfirmIsSound(s, |s.pending|);
    if !t.over {
      assert t.pending == [];
      HeldGoesOut(t);
    }
  }

  lemma HeldGoesOut(t: RunState)
    requires Sound(t, []) && !t.over && t.held.Some? && t.pending == []
    ensures var sent := Emit(t.(held := None), t.held.value.done, FromAgent);
            Sound(sent.(anyDone := sent.anyDone || !sent.over), [])
  {
    hide EndsAreConfirmed, AllFromTheLoop, StdinIsSound, KeepsLatest, Subsequence, AgentEnds, Confirmed;
    LogAppends(t.out, Sent(t.held.value.done, FromAgent, 0, t.interrupted));
    assert Confirmed(t.out) + [] == Confirmed(t.out);
    assert AgentEnds(t.out) + [t.held.value.done] + [] == AgentEnds(t.out) + [t.held.value.done];
  }

  lemma TurnIsSound(s: RunState, input: Input)
    requires Sound(s, [])
    ensures Sound(Turn(s, input), [])
  {
    hide KeepsLatest, OnStdout, OnSteer, OnHoldElapsed, Emit;
    if !s.over && Enabled(s, input) {
      match input
      case Stdout(line, now) => StdoutIsSound(s, line, now);
      case StdoutEnded =>
      case StdoutBroke(message) => EmitOtherIsSound(s, ErrorEvent(message), StdoutFailed, []);
      case Steer(id, problems, written) => SteerIsSound(s, id, problems, written);
      case SteerClosed(_) =>
      case Interrupt(_) =>
      case HoldElapsed(_) => HoldElapsedIsSound(s);
      case ConsumerLeft =>
    }
  }

  lemma {:induction false} EveryRunIsSound(capacity: Option<nat>, inputs: seq<Input>)
    ensures Sound(Loop(Begin(capacity), inputs), [])
  {
    if inputs == [] {
    } else {
      hide Sound;
      EveryRunIsSound(capacity, inputs[..|inputs| - 1]);
      TurnIsSound(Loop(Begin(capacity), inputs[..|inputs| - 1]), inputs[|inputs| - 1]);
    }
  }

  // ---------------------------------------------------------------- what a consumer that stays sees

  /** Steers are confirmed in the order they were sent, and none is forgotten. */
  lemma SteersAreConfirmedInOrder(inputs: seq<Input>)
    ensures var s := Loop(Begin(None), inputs); s.received == Confirmed(s.out) + s.pending
  {
    EveryRunIsSound(None, inputs);
    var s := Loop(Begin(None), inputs);
    assert Confirmed(s.out) + s.pending + [] == Confirmed(s.out) + s.pending;
  }

  /** Inside the loop of a run nobody interrupts, no turn ends with a steer unconfirmed. */
  lemma NoTurnEndsUnconfirmed(capacity: Option<nat>, inputs: seq<Input>, i: nat)
    requires var s := Loop(Begin(capacity), inputs); i < |s.out| && s.out[i].event.Done? && !s.out[i].interrupted
    ensures Loop(Begin(capacity), inputs).out[i].unconfirmed == 0
  {
    EveryRunIsSound(capacity, inputs);
    assert EndIsConfirmed(Loop(Begin(capacity), inputs).out[i]);
  }

  lemma SendHeldKeepsLatest(s: RunState)
    requires Sound(s, []) && s.over && s.capacity.None?
    ensures var t := SendHeld(s);
            && KeepsLatest(AgentEnds(t.out), s.produced)
            && (t.anyDone <==> AgentEnds(t.out) != [])
            && (t.doneAfterInterrupt ==> EndsWithDone(t.out))
            && !Gone(t)
  {
    hide KeepsLatest;
    if s.held.Some? {
      LogAppends(s.out, Sent(s.held.value.done, Late, |s.pending|, s.interrupted));
    } else {
      assert AgentEnds(s.out) + [] == AgentEnds(s.out);
    }
  }

  /** The latest turn end the agent reported always arrives: a held one is dropped only for a later one. */
  lemma LatestEndArrives(inputs: seq<Input>, exit: Exit)
    requires Loop(Begin(None), inputs).over
    ensures var s := Loop(Begin(None), inputs);
            KeepsLatest(AgentEnds(Finish(s, exit).out), s.produced)
  {
    var s := Loop(Begin(None), inputs);
    EveryRunIsSound(None, inputs);
    hide KeepsLatest, Loop, Sound;
    SendHeldKeepsLatest(s);
    var t := SendHeld(s);
    LogAppends(t.out, Sent(Done(RunInterrupted, None, exit.sessionId), Fallback, |t.pending|, t.interrupted));
    LogAppends(t.out, Sent(Done(RunErrored, Some(exit.crashMessage), exit.sessionId), Crash, |t.pending|, t.interrupted));
    assert AgentEnds(t.out) + [] == AgentEnds(t.out);
  }

  predicate Crashed(out: seq<Sent>) {
    exists i | 0 <= i < |out| :: out[i].origin.Crash?
  }

  predicate HasDone(out: seq<Sent>) {
    exists i | 0 <= i < |out| :: out[i].event.Done?
  }

  lemma {:induction false} AgentEndsAreDone(out: seq<Sent>)
    ensures AgentEnds(out) != [] ==> HasDone(out)
  {
    if out != [] {
      AgentEndsAreDone(out[..|out| - 1]);
      if AgentEnds(out[..|out| - 1]) != [] {
        var i :| 0 <= i < |out| - 1 && out[..|out| - 1][i].event.Done?;
        assert out[i].event.Done?;
      } else if IsAgentEnd(out[|out| - 1]) {
        assert out[|out| - 1].event.Done?;
      }
    }
  }

  lemma SendEndEnds(t: RunState, exit: Exit)
    requires !Gone(t)
    requires t.anyDone <==> AgentEnds(t.out) != []
    requires t.doneAfterInterrupt ==> EndsWithDone(t.out)
    requires !Crashed(t.out)
    ensures var f := SendEnd(t, exit);
            && HasDone(f.out)
            && (f.interrupted ==> EndsWithDone(f.out))
            && (Crashed(f.out) <==> !t.interrupted && AgentEnds(t.out) == [])
  {
    AgentEndsAreDone(t.out);
    var f := SendEnd(t, exit);
    if t.interrupted && !t.doneAfterInterrupt {
      assert f.out[|t.out|].event.Done?;
    } else if !t.interrupted && !t.anyDone {
      assert f.out[|t.out|].event.Done? && f.out[|t.out|].origin.Crash?;
    } else if t.interrupted {
      assert f.out[|t.out| - 1].event.Done?;
    }
  }

  /**
   * Every finished run ends at least one turn; the last event of an interrupted one is a turn's end; and the
   * message about a crash appears exactly if nobody interrupted and the agent never ended a turn itself.
   */
  lemma EveryRunEndsWithDone(inputs: seq<Input>, exit: Exit)
    requires Loop(Begin(None), inputs).over
    ensures var s := Loop(Begin(None), inputs);
            var f := Finish(s, exit);
            && HasDone(f.out)
            && (f.interrupted ==> EndsWithDone(f.out))
            && (Crashed(f.out) <==> !s.interrupted && s.produced == [])
  {
    hide Loop, Finish, Sound;
    EveryRunIsSound(None, inputs);
    FinishEnds(Loop(Begin(None), inputs), exit);
  }

  lemma FinishEnds(s: RunState, exit: Exit)
    requires Sound(s, []) && s.over && s.capacity.None?
    ensures var f := Finish(s, exit);
            && HasDone(f.out)
            && (f.interrupted ==> EndsWithDone(f.out))
            && (Crashed(f.out) <==> !s.interrupted && s.produced == [])
  {
    assert AllFromTheLoop(s.out);
    hide Sound, Subsequence, AgentEnds;
    SendHeldKeepsLatest(s);
    var t := SendHeld(s);
    assert !Crashed(t.out);
    EmptyKeepsEmpty(AgentEnds(t.out), s.produced);
    SendEndEnds(t, exit);
  }

  lemma EmptyKeepsEmpty(ends: seq<AgentEvent>, reported: seq<AgentEvent>)
    requires KeepsLatest(ends, reported)
    ensures ends == [] <==> reported == []
  {
  }

  /** An interrupt is asked for at most once, and nothing is steered into the run after it. */
  lemma NothingIsSteeredAfterAnInterrupt(capacity: Option<nat>, inputs: seq<Input>, exit: Exit)
    ensures InterruptIsLast(Finish(Loop(Begin(capacity), inputs), exit).stdin)
  {
    EveryRunIsSound(capacity, inputs);
    hide Loop, Finish, InterruptIsLast;
  }

  // ---------------------------------------------------------------- how long a turn's end is held

  predicate HeldUntil(held: Option<Held>, lastOutput: int) {
    held.Some? ==> held.value.deadline == lastOutput + HELD_DONE_SETTLE
  }

  /** When the loop last read a line that was not blank. */
  function LastOutput(capacity: Option<nat>, inputs: seq<Input>): int {
    if inputs == [] then 0
    else
      var init, last := inputs[..|inputs| - 1], inputs[|inputs| - 1];
      if last.Stdout? && !last.line.BlankLine? && !Loop(Begin(capacity), init).over then last.now
      else LastOutput(capacity, init)
  }

  lemma {:induction false} ForwardAllHolds(s: RunState, events: seq<AgentEvent>, now: int)
    requires HeldUntil(s.held, now)
    ensures HeldUntil(ForwardAll(s, events, now).held, now)
    decreases |events|
  {
    hide Emit;
    if events != [] && !s.over {
      ForwardAllHolds(Forward(s, events[0], now), events[1..], now);
    }
  }

  lemma TurnHolds(s: RunState, input: Input, lastOutput: int)
    requires HeldUntil(s.held, lastOutput)
    ensures HeldUntil(
              Turn(s, input).held,
              if input.Stdout? && !input.line.BlankLine? && !s.over then input.now else lastOutput)
  {
    hide Emit, Confirm, ForwardAll, Report;
    if input.Stdout? && input.line.Frame? {
      var t := s.(held := Postponed(s.held, input.now));
      ForwardAllHolds(ConfirmReplayed(t, input.line.user), input.line.events, input.now);
    }
  }

  lemma {:induction false} DeadlineFollowsOutput(capacity: Option<nat>, inputs: seq<Input>)
    ensures HeldUntil(Loop(Begin(capacity), inputs).held, LastOutput(capacity, inputs))
  {
    hide Turn;
    if inputs != [] {
      var init := inputs[..|inputs| - 1];
      DeadlineFollowsOutput(capacity, init);
      TurnHolds(Loop(Begin(capacity), init), inputs[|inputs| - 1], LastOutput(capacity, init));
    }
  }

  /** The timer can give a held turn end up exactly when one is held and the agent has printed nothing for five seconds. */
  lemma HeldEndWaitsForSilence(capacity: Option<nat>, inputs: seq<Input>, now: int)
    ensures var s := Loop(Begin(capacity), inputs);
            Enabled(s, HoldElapsed(now)) <==>
              s.held.Some? && now >= LastOutput(capacity, inputs) + HELD_DONE_SETTLE
  {
    hide Loop, LastOutput;
    DeadlineFollowsOutput(capacity, inputs);
  }
}
