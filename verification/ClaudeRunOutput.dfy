/** What a Claude run sends and writes, told by what its loop was given. */
module ClaudeRunOutput {
  import opened Wrappers
  import opened Sessions
  import opened ClaudeRun
  import opened ClaudeRunSafety

  // ---------------------------------------------------------------- told by the inputs

  predicate HoldsDone(events: seq<AgentEvent>) {
    exists i | 0 <= i < |events| :: events[i].Done?
  }

  /** The inputs that end the loop of a consumer that stays. */
  predicate IsOver(inputs: seq<Input>)
    decreases |inputs|, 0
  {
    inputs != [] &&
    var init, last := inputs[..|inputs| - 1], inputs[|inputs| - 1];
    || IsOver(init)
    || last.StdoutEnded? || last.StdoutBroke?
    || (last.Steer? && !last.written && TakesSteers(init))
    || (last.Stdout? && last.line.Frame? && HoldsDone(last.line.events) && IsInterrupted(init))
  }

  predicate IsInterrupted(inputs: seq<Input>)
    decreases |inputs|, 0
  {
    inputs != [] &&
    var init, last := inputs[..|inputs| - 1], inputs[|inputs| - 1];
    IsInterrupted(init) || (last.Interrupt? && !IsOver(init))
  }

  /** Nobody has interrupted, and the user can still send. */
  predicate TakesSteers(inputs: seq<Input>)
    decreases |inputs|, 1
  {
    !IsInterrupted(inputs) && !IsClosed(inputs)
  }

  predicate IsClosed(inputs: seq<Input>)
    decreases |inputs|, 0
  {
    inputs != [] &&
    var init, last := inputs[..|inputs| - 1], inputs[|inputs| - 1];
    IsClosed(init) || (last.SteerClosed? && !IsOver(init) && !IsInterrupted(init))
  }

  function UpToDone(events: seq<AgentEvent>): seq<AgentEvent> {
    if events == [] || events[0].Done? then events[..if events == [] then 0 else 1]
    else [events[0]] + UpToDone(events[1..])
  }

  /** The events of the frame an input brings; once interrupted, those up to the end of the turn. */
  function HeardAt(init: seq<Input>, last: Input): seq<AgentEvent> {
    if IsOver(init) || !last.Stdout? || !last.line.Frame? then []
    else Taken(last.line.events, IsInterrupted(init))
  }

  function Heard(inputs: seq<Input>): seq<AgentEvent> {
    if inputs == [] then []
    else Heard(inputs[..|inputs| - 1]) + HeardAt(inputs[..|inputs| - 1], inputs[|inputs| - 1])
  }

  function WithoutDone(events: seq<AgentEvent>): seq<AgentEvent> {
    if events == [] then []
    else (if events[0].Done? then [] else [events[0]]) + WithoutDone(events[1..])
  }

  function Errors(messages: seq<string>): seq<AgentEvent> {
    seq(|messages|, i requires 0 <= i < |messages| => ErrorEvent(messages[i]))
  }

  /** Everything the agent says but the ends of turns, and what went wrong with steers or with reading, in order. */
  function Told(inputs: seq<Input>): seq<AgentEvent> {
    if inputs == [] then []
    else
      var init, last := inputs[..|inputs| - 1], inputs[|inputs| - 1];
      Told(init) +
      if IsOver(init) then []
      else
        match last
        case Stdout(_, _) => WithoutDone(HeardAt(init, last))
        case Steer(_, problems, _) => if TakesSteers(init) then Errors(problems) else []
        case StdoutBroke(message) => [ErrorEvent(message)]
        case _ => []
  }

  /** The tool was called, and neither its result nor the end of a turn was heard since. */
  predicate IsOpenTool(heard: seq<AgentEvent>, id: string) {
    heard != [] &&
    var last := heard[|heard| - 1];
    if last.Done? then false
    else if last.ToolCallEvent? && last.id == id then true
    else if last.ToolResultEvent? && last.id == id then false
    else IsOpenTool(heard[..|heard| - 1], id)
  }

  ghost predicate NoToolIsOpen(heard: seq<AgentEvent>) {
    forall id :: !IsOpenTool(heard, id)
  }

  /** What is written to the agent: answers, steers, the interrupt, and the end of its input. */
  ghost function Written(inputs: seq<Input>): seq<StdinLine> {
    if inputs == [] then []
    else
      var init, last := inputs[..|inputs| - 1], inputs[|inputs| - 1];
      Written(init) +
      if IsOver(init) then []
      else
        match last
        case Stdout(Control(Some(text)), _) => [Reply(text)]
        case Steer(id, _, true) => if TakesSteers(init) then [SteerLine(id, NoToolIsOpen(Heard(init)))] else []
        case SteerClosed(true) => if TakesSteers(init) then [StdinClosed] else []
        case Interrupt(true) => if IsInterrupted(init) then [] else [InterruptLine]
        case _ => []
  }

  /** The sent events that neither end a turn nor confirm a steer. */
  function Others(out: seq<Sent>): seq<AgentEvent> {
    if out == [] then []
    else
      var last := out[|out| - 1];
      Others(out[..|out| - 1]) + if last.event.Done? || last.origin.Confirms? then [] else [last.event]
  }

  // ---------------------------------------------------------------- a consumer that stays

  lemma OthersAppend(out: seq<Sent>, sent: Sent)
    ensures Others(out + [sent]) ==
            Others(out) + if sent.event.Done? || sent.origin.Confirms? then [] else [sent.event]
  {
    assert (out + [sent])[..|out|] == out;
  }

  lemma EmitTells(s: RunState, event: AgentEvent, origin: Origin)
    requires s.capacity.None?
    ensures var r := Emit(s, event, origin);
            && r == s.(out := r.out)
            && Others(r.out) == Others(s.out) + if event.Done? || origin.Confirms? then [] else [event]
  {
    OthersAppend(s.out, Sent(event, origin, |s.pending|, s.interrupted));
  }

  lemma {:induction false} ConfirmTells(s: RunState, n: nat)
    requires s.capacity.None? && n <= |s.pending|
    ensures var r := Confirm(s, n); r == s.(out := r.out, pending := r.pending) && Others(r.out) == Others(s.out)
    decreases n
  {
    if n > 0 && !s.over {
      EmitTells(s.(pending := s.pending[1..]), SteerConfirmed, Confirms(s.pending[0]));
      hide Emit;
      ConfirmTells(ConfirmFirst(s), n - 1);
    }
  }

  lemma {:induction false} ReportTells(s: RunState, problems: seq<string>)
    requires s.capacity.None? && !s.over
    ensures var r := Report(s, problems); r == s.(out := r.out) && Others(r.out) == Others(s.out) + Errors(problems)
    decreases |problems|
  {
    if problems != [] {
      EmitTells(s, ErrorEvent(problems[0]), Problem);
      hide Emit;
      ReportTells(Emit(s, ErrorEvent(problems[0]), Problem), problems[1..]);
      assert Errors(problems) == [ErrorEvent(problems[0])] + Errors(problems[1..]);
    }
  }

  /** A run and what it has heard agree on the open tools. */
  ghost predicate ToolsMatch(open: set<string>, heard: seq<AgentEvent>) {
    forall id :: id in open <==> IsOpenTool(heard, id)
  }

  lemma ToolsStillMatch(open: set<string>, heard: seq<AgentEvent>, event: AgentEvent)
    requires ToolsMatch(open, heard)
    ensures ToolsMatch(ToolsAfter(open, event), heard + [event])
  {
    assert (heard + [event])[..|heard|] == heard;
  }

  /** What handling events of a frame may change. */
  predicate SameFlags(s: RunState, r: RunState) {
    && r.interrupted == s.interrupted && r.steeringOpen == s.steeringOpen && r.interruptSent == s.interruptSent
    && r.stdin == s.stdin && r.capacity == s.capacity
  }

  lemma ForwardDoneTells(s: RunState, event: AgentEvent, now: int)
    requires s.capacity.None? && !s.over && event.Done?
    ensures var r := ForwardDone(s, event, now);
            && SameFlags(s, r) && r.openTools == s.openTools
            && r.over == s.interrupted && Others(r.out) == Others(s.out)
  {
    hide Emit, Others;
    EmitTells(s.(held := None), event, FromAgent);
  }

  lemma ForwardTells(s: RunState, event: AgentEvent, now: int)
    requires s.capacity.None? && !s.over
    ensures var r := Forward(s, event, now);
            && SameFlags(s, r) && r.openTools == ToolsAfter(s.openTools, event)
            && r.over == (s.interrupted && event.Done?)
            && Others(r.out) == Others(s.out) + if event.Done? then [] else [event]
  {
    hide Emit, Others, ForwardDone, ToolsAfter;
    var t := s.(openTools := ToolsAfter(s.openTools, event));
    if event.Done? {
      ForwardDoneTells(t.(produced := t.produced + [event]), event, now);
    } else {
      EmitTells(t, event, FromAgent);
    }
  }

  /** Once interrupted, a frame is read up to the end of its turn. */
  function Taken(events: seq<AgentEvent>, interrupted: bool): seq<AgentEvent> {
    if interrupted then UpToDone(events) else events
  }

  lemma TakenByHead(events: seq<AgentEvent>, interrupted: bool)
    requires events != []
    ensures var ends := interrupted && events[0].Done?;
            && Taken(events, interrupted) == [events[0]] + (if ends then [] else Taken(events[1..], interrupted))
            && (interrupted && HoldsDone(events) <==> ends || (interrupted && HoldsDone(events[1..])))
            && WithoutDone(Taken(events, interrupted)) ==
                 (if events[0].Done? then [] else [events[0]])
                 + (if ends then [] else WithoutDone(Taken(events[1..], interrupted)))
  {
    if HoldsDone(events[1..]) {
      var i :| 0 <= i < |events[1..]| && events[1..][i].Done?;
      assert events[i + 1].Done?;
    }
    if events[0].Done? {
      assert events[..1] == [events[0]] && [events[0]][1..] == [];
    }
    var rest := Taken(events[1..], interrupted);
    assert ([events[0]] + rest)[1..] == rest;
  }

  lemma {:induction false} ForwardAllTells(s: RunState, events: seq<AgentEvent>, now: int, heard: seq<AgentEvent>)
    requires s.capacity.None? && !s.over && ToolsMatch(s.openTools, heard)
    ensures var r := ForwardAll(s, events, now);
            var taken := Taken(events, s.interrupted);
            && SameFlags(s, r) && ToolsMatch(r.openTools, heard + taken)
            && r.over == (s.interrupted && HoldsDone(events))
            && Others(r.out) == Others(s.out) + WithoutDone(taken)
    decreases |events|
  {
    hide Forward, Others, ToolsMatch, ToolsAfter;
    if events == [] {
      assert heard + [] == heard && Others(s.out) + [] == Others(s.out);
    } else {
      hide UpToDone, WithoutDone, HoldsDone, Taken;
      TakenByHead(events, s.interrupted);
      ForwardTells(s, events[0], now);
      ToolsStillMatch(s.openTools, heard, events[0]);
      var r := Forward(s, events[0], now);
      if r.over {
        assert Taken(events, s.interrupted) == [events[0]];
        assert ForwardAll(r, events[1..], now) == r;
      } else {
        ForwardAllTells(r, events[1..], now, heard + [events[0]]);
        var rest := Taken(events[1..], s.interrupted);
        assert heard + ([events[0]] + rest) == heard + [events[0]] + rest;
        JoinsThree(Others(s.out), if events[0].Done? then [] else [events[0]], WithoutDone(rest));
      }
    }
  }

  lemma JoinsThree(a: seq<AgentEvent>, b: seq<AgentEvent>, c: seq<AgentEvent>)
    ensures a + b + c == a + (b + c)
  {
  }

  /** The loop's flags and logs are those the inputs tell. */
  ghost predicate Matches(s: RunState, inputs: seq<Input>) {
    && s.capacity.None?
    && s.over == IsOver(inputs) && s.interrupted == IsInterrupted(inputs) && s.interruptSent == IsInterrupted(inputs)
    && (s.steeringOpen <==> !IsClosed(inputs))
    && ToolsMatch(s.openTools, Heard(inputs))
    && Others(s.out) == Told(inputs)
    && s.stdin == Written(inputs)
  }

  lemma NothingTold(inputs: seq<Input>)
    ensures Told(inputs) + [] == Told(inputs) && Written(inputs) + [] == Written(inputs)
    ensures Heard(inputs) + [] == Heard(inputs)
  {
  }

  lemma OtherLineHandled(s: RunState, line: StdoutLine, now: int)
    requires !line.Frame?
    ensures var r := OnStdout(s, line, now);
            r == s.(held := r.held, stdin := s.stdin +
                    if line.Control? && line.reply.Some? then [Reply(line.reply.value)] else [])
  {
  }

  lemma OtherLineMatches(s: RunState, inputs: seq<Input>)
    requires inputs != []
    requires var init := inputs[..|inputs| - 1];
             Matches(s, init) && !IsOver(init) && inputs[|inputs| - 1].Stdout? && !inputs[|inputs| - 1].line.Frame?
    ensures Matches(OnStdout(s, inputs[|inputs| - 1].line, inputs[|inputs| - 1].now), inputs)
  {
    var init, last := inputs[..|inputs| - 1], inputs[|inputs| - 1];
    NothingTold(init);
    assert WithoutDone([]) == [];
    OtherLineHandled(s, last.line, last.now);
    hide Others, OnStdout, ToolsMatch, WithoutDone, Taken, HoldsDone;
  }

  lemma FrameHandled(s: RunState, user: Option<string>, events: seq<AgentEvent>, now: int, heard: seq<AgentEvent>)
    requires s.capacity.None? && !s.over && ToolsMatch(s.openTools, heard)
    ensures var r := OnStdout(s, Frame(user, events), now);
            var taken := Taken(events, s.interrupted);
            && SameFlags(s, r) && ToolsMatch(r.openTools, heard + taken)
            && r.over == (s.interrupted && HoldsDone(events))
            && Others(r.out) == Others(s.out) + WithoutDone(taken)
  {
    hide Others, ForwardAll, Confirm, Position, ToolsMatch, WithoutDone, Taken, HoldsDone;
    var t := s.(held := Postponed(s.held, now));
    if user.Some? && Position(t.pending, user.value).Some? {
      ConfirmTells(t, Position(t.pending, user.value).value + 1);
    }
    ForwardAllTells(ConfirmReplayed(t, user), events, now, heard);
  }

  lemma FrameMatches(s: RunState, inputs: seq<Input>)
    requires inputs != []
    requires var init := inputs[..|inputs| - 1];
             Matches(s, init) && !IsOver(init) && inputs[|inputs| - 1].Stdout? && inputs[|inputs| - 1].line.Frame?
    ensures Matches(OnStdout(s, inputs[|inputs| - 1].line, inputs[|inputs| - 1].now), inputs)
  {
    var init, last := inputs[..|inputs| - 1], inputs[|inputs| - 1];
    NothingTold(init);
    FrameHandled(s, last.line.user, last.line.events, last.now, Heard(init));
    hide Others, OnStdout, ToolsMatch, WithoutDone, Taken, HoldsDone;
  }

  lemma SteerHandled(s: RunState, id: string, problems: seq<string>, written: bool)
    requires s.capacity.None? && !s.over
    ensures var r := OnSteer(s, id, problems, written);
            && r == s.(received := r.received, pending := r.pending, out := r.out, stdin := r.stdin, over := !written)
            && Others(r.out) == Others(s.out) + Errors(problems)
            && r.stdin == s.stdin + if written then [SteerLine(id, s.openTools == {})] else []
  {
    hide Others, Report, Errors;
    ReportTells(s.(received := s.received + [id]), problems);
  }

  lemma SteerMatches(s: RunState, inputs: seq<Input>)
    requires inputs != []
    requires var init := inputs[..|inputs| - 1]; Matches(s, init) && !IsOver(init) && TakesSteers(init)
    requires inputs[|inputs| - 1].Steer?
    ensures var last := inputs[|inputs| - 1]; Matches(OnSteer(s, last.id, last.problems, last.written), inputs)
  {
    var init, last := inputs[..|inputs| - 1], inputs[|inputs| - 1];
    NothingTold(init);
    assert s.openTools == {} <==> NoToolIsOpen(Heard(init));
    SteerHandled(s, last.id, last.problems, last.written);
    assert HeardAt(init, last) == [] && Told(inputs) == Told(init) + Errors(last.problems);
    assert Written(inputs) ==
      Written(init) + if last.written then [SteerLine(last.id, NoToolIsOpen(Heard(init)))] else [];
    hide Others, OnSteer, Errors, ToolsMatch, NoToolIsOpen, Told, Written, HeardAt;
  }

  lemma HoldHandled(s: RunState)
    requires s.capacity.None? && !s.over && s.held.Some? && s.held.value.done.Done?
    ensures var r := OnHoldElapsed(s);
            && SameFlags(s, r) && r.openTools == s.openTools && !r.over && Others(r.out) == Others(s.out)
  {
    hide Others, Confirm, Emit;
    ConfirmTells(s, |s.pending|);
    EmitTells(Confirm(s, |s.pending|).(held := None), s.held.value.done, FromAgent);
  }

  lemma HoldTellsNothing(inputs: seq<Input>)
    requires inputs != [] && inputs[|inputs| - 1].HoldElapsed?
    ensures var init := inputs[..|inputs| - 1];
            && IsOver(inputs) == IsOver(init) && IsInterrupted(inputs) == IsInterrupted(init)
            && IsClosed(inputs) == IsClosed(init) && Heard(inputs) == Heard(init)
            && Told(inputs) == Told(init) && Written(inputs) == Written(init)
  {
    NothingTold(inputs[..|inputs| - 1]);
  }

  lemma HoldMatches(s: RunState, inputs: seq<Input>)
    requires inputs != []
    requires var init := inputs[..|inputs| - 1]; Matches(s, init) && !IsOver(init)
    requires inputs[|inputs| - 1].HoldElapsed? && s.held.Some? && s.held.value.done.Done?
    ensures Matches(OnHoldElapsed(s), inputs)
  {
    HoldTellsNothing(inputs);
    HoldHandled(s);
    hide Others, OnHoldElapsed, ToolsMatch, IsOver, IsInterrupted, IsClosed, Heard, Told, Written;
  }

  lemma BrokenMatches(s: RunState, inputs: seq<Input>)
    requires inputs != []
    requires var init := inputs[..|inputs| - 1]; Matches(s, init) && !IsOver(init)
    requires inputs[|inputs| - 1].StdoutBroke?
    ensures Matches(Emit(s, ErrorEvent(inputs[|inputs| - 1].message), StdoutFailed).(over := true), inputs)
  {
    NothingTold(inputs[..|inputs| - 1]);
    EmitTells(s, ErrorEvent(inputs[|inputs| - 1].message), StdoutFailed);
    hide Others, Emit, ToolsMatch;
  }

  lemma SilentInputTellsNothing(inputs: seq<Input>)
    requires inputs != []
    requires var init, last := inputs[..|inputs| - 1], inputs[|inputs| - 1];
             !last.Stdout? && !last.StdoutBroke? && (last.Steer? ==> !TakesSteers(init))
    ensures var init := inputs[..|inputs| - 1]; Told(inputs) == Told(init) && Heard(inputs) == Heard(init)
  {
    hide IsOver, TakesSteers;
    NothingTold(inputs[..|inputs| - 1]);
  }

  /** The arms that send nothing. */
  lemma SilentMatches(s: RunState, inputs: seq<Input>)
    requires inputs != []
    requires var init := inputs[..|inputs| - 1]; Matches(s, init) && !IsOver(init)
    requires var last := inputs[|inputs| - 1];
             !Enabled(s, last) || last.StdoutEnded? || last.SteerClosed? || last.Interrupt?
    ensures Matches(Turn(s, inputs[|inputs| - 1]), inputs)
  {
    var init := inputs[..|inputs| - 1];
    NothingTold(init);
    SilentInputTellsNothing(inputs);
    hide Others, ToolsMatch, Told, Heard, OnStdout, OnSteer, OnHoldElapsed, Emit, Taken, HoldsDone;
    if inputs[|inputs| - 1].HoldElapsed? {
      HoldTellsNothing(inputs);
    }
  }

  lemma AfterTheEndMatches(s: RunState, inputs: seq<Input>)
    requires inputs != [] && s.over && Matches(s, inputs[..|inputs| - 1])
    ensures Matches(Turn(s, inputs[|inputs| - 1]), inputs)
  {
    NothingTold(inputs[..|inputs| - 1]);
    hide Others, ToolsMatch;
  }

  lemma TurnMatches(s: RunState, inputs: seq<Input>)
    requires inputs != [] && Matches(s, inputs[..|inputs| - 1]) && (s.held.Some? ==> s.held.value.done.Done?)
    ensures Matches(Turn(s, inputs[|inputs| - 1]), inputs)
  {
    var init, last := inputs[..|inputs| - 1], inputs[|inputs| - 1];
    assert s.over == IsOver(init) && (s.steeringOpen && !s.interrupted <==> TakesSteers(init)) && s.capacity.None?;
    hide Matches, IsOver, TakesSteers, OnStdout, OnSteer, OnHoldElapsed, Emit;
    if s.over {
      AfterTheEndMatches(s, inputs);
    } else if !Enabled(s, last) || last.StdoutEnded? || last.SteerClosed? || last.Interrupt? {
      SilentMatches(s, inputs);
    } else if last.Stdout? {
      if last.line.Frame? {
        FrameMatches(s, inputs);
      } else {
        OtherLineMatches(s, inputs);
      }
    } else if last.Steer? {
      SteerMatches(s, inputs);
    } else if last.HoldElapsed? {
      HoldMatches(s, inputs);
    } else {
      BrokenMatches(s, inputs);
    }
  }

  lemma {:induction false} EveryRunMatches(inputs: seq<Input>)
    ensures Matches(Loop(Begin(None), inputs), inputs)
  {
    if inputs != [] {
      var init := inputs[..|inputs| - 1];
      EveryRunMatches(init);
      EveryRunIsSound(None, init);
      hide Matches, Turn;
      TurnMatches(Loop(Begin(None), init), inputs);
    }
  }

  lemma SendEndAddsNone(s: RunState, exit: Exit)
    ensures Others(SendEnd(s, exit).out) == Others(s.out)
  {
    hide Others;
    OthersAppend(s.out, Sent(Done(RunInterrupted, None, exit.sessionId), Fallback, |s.pending|, s.interrupted));
    OthersAppend(
      s.out, Sent(Done(RunErrored, Some(exit.crashMessage), exit.sessionId), Crash, |s.pending|, s.interrupted));
  }

  lemma SendHeldAddsNone(s: RunState)
    requires s.held.Some? ==> s.held.value.done.Done?
    ensures Others(SendHeld(s).out) == Others(s.out)
  {
    if s.held.Some? && !Gone(s) {
      OthersAppend(s.out, Sent(s.held.value.done, Late, |s.pending|, s.interrupted));
      hide Others;
      var r := Emit(s.(held := None), s.held.value.done, Late);
      assert r.out == s.out + [Sent(s.held.value.done, Late, |s.pending|, s.interrupted)];
      hide Gone, Emit;
      assert SendHeld(s) == r.(anyDone := true);
    }
  }

  lemma FinishAddsNone(s: RunState, exit: Exit)
    requires s.held.Some? ==> s.held.value.done.Done?
    ensures Others(Finish(s, exit).out) == Others(s.out)
  {
    hide Others, SendEnd, SendHeld;
    SendHeldAddsNone(s);
    SendEndAddsNone(SendHeld(s), exit);
  }

  /** What `RunSession` ends in. */
  function Outcome(capacity: Option<nat>, inputs: seq<Input>, exit: Exit): RunState {
    var left := Loop(Begin(capacity), inputs);
    if left.over then Finish(left, exit) else left
  }

  /**
   * A consumer that stays is sent everything the agent said until the run was over, and what went wrong, once each and in
   * order; besides that only ends of turns and confirmed steers. The agent is written exactly what it should be.
   */
  lemma EverythingSaidIsSent(inputs: seq<Input>, exit: Exit)
    ensures var s := Outcome(None, inputs, exit);
            Others(s.out) == Told(inputs) && s.stdin == Written(inputs)
    ensures Loop(Begin(None), inputs).over <==> IsOver(inputs)
  {
    hide Loop, Finish, Told, Written, IsOver;
    EveryRunMatches(inputs);
    EveryRunIsSound(None, inputs);
    FinishAddsNone(Loop(Begin(None), inputs), exit);
  }

  // ---------------------------------------------------------------- a consumer that leaves

  /** A consumer that is still there sees what one that stays would; one that left has seen the beginning of it. */
  predicate Follows(s: RunState, u: RunState) {
    && u.capacity.None?
    && (|| s == u.(capacity := s.capacity)
        || (s.over && Gone(s) && s.out <= u.out))
  }

  lemma EmitFollows(s: RunState, u: RunState, event: AgentEvent, origin: Origin)
    requires s == u.(capacity := s.capacity) && u.capacity.None?
    ensures Follows(Emit(s, event, origin), Emit(u, event, origin))
    ensures u.out <= Emit(u, event, origin).out
  {
  }

  lemma {:induction false} ConfirmGrows(u: RunState, n: nat)
    requires u.capacity.None? && n <= |u.pending|
    ensures u.out <= Confirm(u, n).out && Confirm(u, n).over == u.over
    decreases n
  {
    if n > 0 && !u.over {
      ConfirmGrows(ConfirmFirst(u), n - 1);
    }
  }

  lemma {:induction false} ConfirmFollows(s: RunState, u: RunState, n: nat)
    requires s == u.(capacity := s.capacity) && u.capacity.None? && n <= |s.pending|
    ensures Follows(Confirm(s, n), Confirm(u, n))
    decreases n
  {
    if n > 0 && !u.over {
      EmitFollows(
        s.(pending := s.pending[1..]), u.(pending := u.pending[1..]), SteerConfirmed, Confirms(u.pending[0]));
      hide Emit, Gone;
      var s', u' := ConfirmFirst(s), ConfirmFirst(u);
      ConfirmGrows(u', n - 1);
      if s' == u'.(capacity := s'.capacity) {
        ConfirmFollows(s', u', n - 1);
      }
    }
  }

  lemma ForwardDoneFollows(s: RunState, u: RunState, event: AgentEvent, now: int)
    requires s == u.(capacity := s.capacity) && u.capacity.None? && !u.over
    ensures Follows(ForwardDone(s, event, now), ForwardDone(u, event, now))
    ensures u.out <= ForwardDone(u, event, now).out
  {
    hide Emit, Gone;
    EmitFollows(s.(held := None), u.(held := None), event, FromAgent);
  }

  lemma ForwardFollows(s: RunState, u: RunState, event: AgentEvent, now: int)
    requires s == u.(capacity := s.capacity) && u.capacity.None? && !u.over
    ensures Follows(Forward(s, event, now), Forward(u, event, now))
    ensures u.out <= Forward(u, event, now).out
  {
    hide Emit, ForwardDone, ToolsAfter, Follows;
    var open := ToolsAfter(s.openTools, event);
    if event.Done? {
      var produced := s.produced + [event];
      ForwardDoneFollows(
        s.(openTools := open, produced := produced), u.(openTools := open, produced := produced), event, now);
    } else {
      EmitFollows(s.(openTools := open), u.(openTools := open), event, FromAgent);
    }
  }

  lemma {:induction false} ForwardAllGrows(u: RunState, events: seq<AgentEvent>, now: int)
    requires u.capacity.None?
    ensures u.out <= ForwardAll(u, events, now).out
    decreases |events|
  {
    if events != [] && !u.over {
      ForwardFollows(u, u, events[0], now);
      hide Forward;
      ForwardAllGrows(Forward(u, events[0], now), events[1..], now);
    }
  }

  lemma {:induction false} ForwardAllFollows(s: RunState, u: RunState, events: seq<AgentEvent>, now: int)
    requires s == u.(capacity := s.capacity) && u.capacity.None?
    ensures Follows(ForwardAll(s, events, now), ForwardAll(u, events, now))
    decreases |events|
  {
    if events != [] && !u.over {
      ForwardFollows(s, u, events[0], now);
      hide Forward;
      var s', u' := Forward(s, events[0], now), Forward(u, events[0], now);
      ForwardAllGrows(u', events[1..], now);
      if s' == u'.(capacity := s'.capacity) {
        ForwardAllFollows(s', u', events[1..], now);
      }
    }
  }

  lemma {:induction false} ReportGrows(u: RunState, problems: seq<string>)
    requires u.capacity.None?
    ensures u.out <= Report(u, problems).out
    decreases |problems|
  {
    if problems != [] && !u.over {
      ReportGrows(Emit(u, ErrorEvent(problems[0]), Problem), problems[1..]);
    }
  }

  lemma {:induction false} ReportFollows(s: RunState, u: RunState, problems: seq<string>)
    requires s == u.(capacity := s.capacity) && u.capacity.None?
    ensures Follows(Report(s, problems), Report(u, problems))
    decreases |problems|
  {
    if problems != [] && !u.over {
      EmitFollows(s, u, ErrorEvent(problems[0]), Problem);
      hide Emit;
      var s', u' := Emit(s, ErrorEvent(problems[0]), Problem), Emit(u, ErrorEvent(problems[0]), Problem);
      ReportGrows(u', problems[1..]);
      if s' == u'.(capacity := s'.capacity) {
        ReportFollows(s', u', problems[1..]);
      }
    }
  }

  lemma FrameFollows(s: RunState, u: RunState, user: Option<string>, events: seq<AgentEvent>, now: int)
    requires s == u.(capacity := s.capacity) && u.capacity.None? && !u.over
    ensures Follows(OnStdout(s, Frame(user, events), now), OnStdout(u, Frame(user, events), now))
    ensures u.out <= OnStdout(u, Frame(user, events), now).out
  {
    hide Confirm, ForwardAll, Position, Gone;
    var t, v := s.(held := Postponed(s.held, now)), u.(held := Postponed(u.held, now));
    var s', u' := ConfirmReplayed(t, user), ConfirmReplayed(v, user);
    if user.Some? && Position(t.pending, user.value).Some? {
      ConfirmFollows(t, v, Position(t.pending, user.value).value + 1);
      ConfirmGrows(v, Position(t.pending, user.value).value + 1);
    }
    ForwardAllGrows(u', events, now);
    if s' == u'.(capacity := s'.capacity) {
      ForwardAllFollows(s', u', events, now);
    } else {
      StaysOver(s', events, now);
    }
  }

  lemma StaysOver(s: RunState, events: seq<AgentEvent>, now: int)
    requires s.over
    ensures ForwardAll(s, events, now) == s
  {
  }

  lemma StdoutFollows(s: RunState, u: RunState, line: StdoutLine, now: int)
    requires s == u.(capacity := s.capacity) && u.capacity.None? && !u.over
    ensures Follows(OnStdout(s, line, now), OnStdout(u, line, now))
    ensures u.out <= OnStdout(u, line, now).out
  {
    if line.Frame? {
      FrameFollows(s, u, line.user, line.events, now);
      hide OnStdout;
    } else {
      OtherLineHandled(u, line, now);
      OtherLineHandled(s, line, now);
    }
  }

  lemma SteerFollows(s: RunState, u: RunState, id: string, problems: seq<string>, written: bool)
    requires s == u.(capacity := s.capacity) && u.capacity.None? && !u.over
    ensures Follows(OnSteer(s, id, problems, written), OnSteer(u, id, problems, written))
    ensures u.out <= OnSteer(u, id, problems, written).out
  {
    hide Report;
    var received := s.received + [id];
    ReportFollows(s.(received := received), u.(received := received), problems);
    ReportTells(u.(received := received), problems);
    ReportGrows(u.(received := received), problems);
  }

  lemma HoldFollows(s: RunState, u: RunState)
    requires s == u.(capacity := s.capacity) && u.capacity.None? && !u.over && s.held.Some?
    ensures Follows(OnHoldElapsed(s), OnHoldElapsed(u))
    ensures u.out <= OnHoldElapsed(u).out
  {
    hide Confirm, Emit;
    ConfirmFollows(s, u, |s.pending|);
    ConfirmGrows(u, |s.pending|);
    var s', u' := Confirm(s, |s.pending|), Confirm(u, |u.pending|);
    EmitFollows(u'.(held := None), u'.(held := None), s.held.value.done, FromAgent);
    if s' == u'.(capacity := s'.capacity) {
      EmitFollows(s'.(held := None), u'.(held := None), s.held.value.done, FromAgent);
    }
  }

  lemma TurnFollows(s: RunState, u: RunState, input: Input)
    requires Follows(s, u)
    ensures Follows(Turn(s, input), Turn(u, input))
  {
    hide OnStdout, OnSteer, OnHoldElapsed, Emit;
    TurnGrows(u, input);
    if s == u.(capacity := s.capacity) && !u.over && Enabled(s, input) {
      hide Gone;
      if input.Stdout? {
        StdoutFollows(s, u, input.line, input.now);
      } else if input.Steer? {
        SteerFollows(s, u, input.id, input.problems, input.written);
      } else if input.HoldElapsed? {
        HoldFollows(s, u);
      } else if input.StdoutBroke? {
        BrokenFollows(s, u, input.message);
      }
    }
  }

  lemma BrokenFollows(s: RunState, u: RunState, message: string)
    requires s == u.(capacity := s.capacity) && u.capacity.None? && !u.over
    ensures Follows(
              Emit(s, ErrorEvent(message), StdoutFailed).(over := true),
              Emit(u, ErrorEvent(message), StdoutFailed).(over := true))
    ensures u.out <= Emit(u, ErrorEvent(message), StdoutFailed).out
  {
    EmitFollows(s, u, ErrorEvent(message), StdoutFailed);
    hide Emit, Gone;
  }

  lemma TurnGrows(u: RunState, input: Input)
    requires u.capacity.None?
    ensures u.out <= Turn(u, input).out
  {
    hide OnStdout, OnSteer, OnHoldElapsed, Emit, Follows;
    if !u.over && Enabled(u, input) {
      if input.Stdout? {
        StdoutFollows(u, u, input.line, input.now);
      } else if input.Steer? {
        SteerFollows(u, u, input.id, input.problems, input.written);
      } else if input.HoldElapsed? {
        HoldFollows(u, u);
      } else if input.StdoutBroke? {
        BrokenFollows(u, u, input.message);
      }
    }
  }

  lemma {:induction false} LoopFollows(capacity: Option<nat>, inputs: seq<Input>)
    ensures Follows(Loop(Begin(capacity), inputs), Loop(Begin(None), inputs))
  {
    if inputs != [] {
      hide Follows, Turn;
      LoopFollows(capacity, inputs[..|inputs| - 1]);
      TurnFollows(
        Loop(Begin(capacity), inputs[..|inputs| - 1]), Loop(Begin(None), inputs[..|inputs| - 1]),
        inputs[|inputs| - 1]);
    }
  }

  lemma FinishGrows(s: RunState, exit: Exit)
    ensures s.out <= Finish(s, exit).out
    ensures Gone(s) ==> Finish(s, exit).out == s.out
  {
    hide SendEnd;
    SendEndGrows(SendHeld(s), exit);
  }

  lemma SendEndGrows(s: RunState, exit: Exit)
    ensures s.out <= SendEnd(s, exit).out
    ensures Gone(s) ==> SendEnd(s, exit) == s
  {
  }

  lemma SendHeldIs(s: RunState)
    requires !Gone(s)
    ensures var r := SendHeld(s);
            r == if s.held.None? then s else
                   s.(held := None, anyDone := true,
                      out := s.out + [Sent(s.held.value.done, Late, |s.pending|, s.interrupted)])
  {
  }

  lemma SendHeldFollows(s: RunState, u: RunState)
    requires s == u.(capacity := s.capacity) && u.capacity.None? && !Gone(s)
    ensures var a, b := SendHeld(s), SendHeld(u);
            && a.out == b.out && a.pending == b.pending && a.anyDone == b.anyDone && a.interrupted == b.interrupted
            && a.doneAfterInterrupt == b.doneAfterInterrupt && b.capacity.None?
  {
    SendHeldIs(s);
    SendHeldIs(u);
    hide SendHeld, Gone;
  }

  /** The last event the run sends itself, if it sends one. */
  lemma SendEndFollows(s: RunState, u: RunState, exit: Exit)
    requires u.capacity.None? && s.out == u.out && s.pending == u.pending && s.interrupted == u.interrupted
    requires s.anyDone == u.anyDone && s.doneAfterInterrupt == u.doneAfterInterrupt
    ensures SendEnd(s, exit).out <= SendEnd(u, exit).out
  {
  }

  lemma FinishFollows(s: RunState, u: RunState, exit: Exit)
    requires s == u.(capacity := s.capacity) && u.capacity.None?
    ensures Finish(s, exit).out <= Finish(u, exit).out
  {
    FinishGrows(s, exit);
    FinishGrows(u, exit);
    if !Gone(s) {
      hide SendEnd, Gone;
      SendHeldFollows(s, u);
      SendEndFollows(SendHeld(s), SendHeld(u), exit);
    }
  }

  lemma {:induction false} OthersOfPrefix(a: seq<Sent>, b: seq<Sent>)
    requires a <= b
    ensures Others(a) <= Others(b)
    decreases |b|
  {
    if |a| < |b| {
      assert a <= b[..|b| - 1];
      OthersOfPrefix(a, b[..|b| - 1]);
    } else {
      assert a == b;
    }
  }

  /** A consumer that leaves, whenever it does, has been sent the beginning of what one that stays would be. */
  lemma LeavingConsumerSeesAPrefix(capacity: Option<nat>, inputs: seq<Input>, exit: Exit)
    ensures Outcome(capacity, inputs, exit).out <= Outcome(None, inputs, exit).out
    ensures Others(Outcome(capacity, inputs, exit).out) <= Told(inputs)
  {
    hide Loop, Finish, Told, Others;
    LoopFollows(capacity, inputs);
    var s, u := Loop(Begin(capacity), inputs), Loop(Begin(None), inputs);
    FinishGrows(s, exit);
    FinishGrows(u, exit);
    if s == u.(capacity := s.capacity) {
      FinishFollows(s, u, exit);
    }
    EverythingSaidIsSent(inputs, exit);
    OthersOfPrefix(Outcome(capacity, inputs, exit).out, Outcome(None, inputs, exit).out);
  }
}
