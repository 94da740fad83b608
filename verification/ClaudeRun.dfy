/** One run of Claude: the loop that forwards its output, steers it, interrupts it and ends it. */
module ClaudeRun {
  import opened Wrappers
  import opened Sessions

  /** Why an event was sent. `Late` ends were still held when the loop was left. */
  datatype Origin = FromAgent | Confirms(id: string) | Problem | StdoutFailed | Late | Fallback | Crash

  /** A sent event, with the number of unconfirmed steers and the interrupt as they were. */
  datatype Sent = Sent(event: AgentEvent, origin: Origin, unconfirmed: nat, interrupted: bool)

  datatype StdinLine = SteerLine(id: string, immediately: bool) | InterruptLine | StdinClosed | Reply(text: string)

  /** `user` is the id a replayed user message carries unless a subagent wrote it; `events` is what the normaliser makes of the frame. */
  datatype StdoutLine =
    | BlankLine
    | Unparsable
    | Control(reply: Option<string>)
    | Frame(user: Option<string>, events: seq<AgentEvent>)

  /** What a turn of the loop can react to; `written` says whether the writer of stdin was still there. */
  datatype Input =
    | Stdout(line: StdoutLine, now: int)
    | StdoutEnded
    | StdoutBroke(message: string)
    | Steer(id: string, problems: seq<string>, written: bool)
    | SteerClosed(written: bool)
    | Interrupt(written: bool)
    | HoldElapsed(now: int)
    | ConsumerLeft

  datatype Held = Held(done: AgentEvent, deadline: int)

  const HELD_DONE_SETTLE := 5000

  /** The consumer takes `capacity` events and then goes away; it stays if there is none. */
  datatype RunState = RunState(
    pending: seq<string>,
    openTools: set<string>,
    steeringOpen: bool,
    interrupted: bool,
    interruptSent: bool,
    anyDone: bool,
    held: Option<Held>,
    doneAfterInterrupt: bool,
    over: bool,
    capacity: Option<nat>,
    out: seq<Sent>,
    stdin: seq<StdinLine>,
    received: seq<string>,
    produced: seq<AgentEvent>,
    refused: bool)

  function Begin(capacity: Option<nat>): RunState {
    RunState([], {}, true, false, false, false, None, false, false, capacity, [], [], [], [], false)
  }

  predicate Gone(s: RunState) {
    s.capacity.Some? && |s.out| >= s.capacity.value
  }

  /** A refused event ends the loop. */
  function Emit(s: RunState, event: AgentEvent, origin: Origin): (r: RunState)
    ensures r.pending == s.pending && r.capacity == s.capacity && r.held == s.held && r.stdin == s.stdin
  {
    if Gone(s) then s.(over := true, refused := true)
    else s.(out := s.out + [Sent(event, origin, |s.pending|, s.interrupted)])
  }

  function ConfirmFirst(s: RunState): (r: RunState)
    requires s.pending != []
    ensures r.pending == s.pending[1..] && r.capacity == s.capacity && r.held == s.held
  {
    Emit(s.(pending := s.pending[1..]), SteerConfirmed, Confirms(s.pending[0]))
  }

  /** Confirms the `n` oldest steers. */
  function Confirm(s: RunState, n: nat): (r: RunState)
    requires n <= |s.pending|
    ensures r.capacity == s.capacity && r.held == s.held
    decreases n
  {
    if n == 0 || s.over then s else Confirm(ConfirmFirst(s), n - 1)
  }

  function Position(ids: seq<string>, id: string): (r: Option<nat>)
    ensures r.Some? ==> r.value < |ids| && ids[r.value] == id
    ensures r.None? ==> id !in ids
  {
    if ids == [] then None
    else if ids[0] == id then Some(0)
    else
      var rest := Position(ids[1..], id);
      if rest.Some? then Some(rest.value + 1) else None
  }

  /** A replay confirms its steer and every earlier one. */
  function ConfirmReplayed(s: RunState, user: Option<string>): (r: RunState)
    ensures r.capacity == s.capacity
  {
    if user.Some? && Position(s.pending, user.value).Some? then
      Confirm(s, Position(s.pending, user.value).value + 1)
    else s
  }

  function ToolsAfter(open: set<string>, event: AgentEvent): set<string> {
    match event
    case ToolCallEvent(id, _) => open + {id}
    case ToolResultEvent(id, _, _, _) => open - {id}
    case Done(_, _, _) => {}
    case _ => open
  }

  /** A turn end waits while a steer is unconfirmed; any other event goes out at once. */
  function Forward(s: RunState, event: AgentEvent, now: int): (r: RunState)
    ensures r.capacity == s.capacity
  {
    var t := s.(openTools := ToolsAfter(s.openTools, event));
    if event.Done? then ForwardDone(t.(produced := t.produced + [event]), event, now)
    else Emit(t, event, FromAgent)
  }

  function ForwardDone(s: RunState, event: AgentEvent, now: int): (r: RunState)
    ensures r.capacity == s.capacity
  {
    if !s.interrupted && s.pending != [] then s.(held := Some(Held(event, now + HELD_DONE_SETTLE)))
    else Ended(Emit(s.(held := None), event, FromAgent))
  }

  /** After a turn end went out; an interrupted run is over with it. */
  function Ended(s: RunState): RunState {
    if s.over then s
    else s.(anyDone := true, doneAfterInterrupt := s.interrupted, over := s.interrupted)
  }

  function ForwardAll(s: RunState, events: seq<AgentEvent>, now: int): (r: RunState)
    ensures r.capacity == s.capacity
    decreases |events|
  {
    if events == [] || s.over then s else ForwardAll(Forward(s, events[0], now), events[1..], now)
  }

  function Report(s: RunState, problems: seq<string>): (r: RunState)
    ensures r.capacity == s.capacity && r.held == s.held
    decreases |problems|
  {
    if problems == [] || s.over then s
    else Report(Emit(s, ErrorEvent(problems[0]), Problem), problems[1..])
  }

  function Postponed(held: Option<Held>, now: int): Option<Held> {
    if held.Some? then Some(held.value.(deadline := now + HELD_DONE_SETTLE)) else None
  }

  function OnStdout(s: RunState, line: StdoutLine, now: int): (r: RunState)
    ensures r.capacity == s.capacity
  {
    if line.BlankLine? then s
    else
      var t := s.(held := Postponed(s.held, now));
      match line
      case Control(Some(text)) => t.(stdin := t.stdin + [Reply(text)])
      case Frame(user, events) => ForwardAll(ConfirmReplayed(t, user), events, now)
      case _ => t
  }

  /** A steer written while a tool is open waits for the tool. */
  function OnSteer(s: RunState, id: string, problems: seq<string>, written: bool): (r: RunState)
    ensures r.capacity == s.capacity
  {
    var t := Report(s.(received := s.received + [id]), problems);
    if t.over then t
    else t.(pending := t.pending + [id],
            stdin := if written then t.stdin + [SteerLine(id, t.openTools == {})] else t.stdin,
            over := !written)
  }

  function OnInterrupt(s: RunState, written: bool): RunState {
    s.(interruptSent := true, interrupted := true, stdin := if written then s.stdin + [InterruptLine] else s.stdin)
  }

  /** Not every steer is replayed; when the wait is over, the held end goes out and all steers count as confirmed. */
  function OnHoldElapsed(s: RunState): (r: RunState)
    requires s.held.Some?
    ensures r.capacity == s.capacity
  {
    var t := Confirm(s, |s.pending|);
    if t.over then t
    else
      var sent := Emit(t.(held := None), s.held.value.done, FromAgent);
      sent.(anyDone := sent.anyDone || !sent.over)
  }

  /** The arms the loop listens on. */
  predicate Enabled(s: RunState, input: Input) {
    match input
    case Steer(_, _, _) => s.steeringOpen && !s.interrupted
    case SteerClosed(_) => s.steeringOpen && !s.interrupted
    case Interrupt(_) => !s.interruptSent
    case HoldElapsed(now) => s.held.Some? && now >= s.held.value.deadline
    case ConsumerLeft => Gone(s)
    case _ => true
  }

  function React(s: RunState, input: Input): (r: RunState)
    requires Enabled(s, input)
    ensures r.capacity == s.capacity
  {
    match input
    case Stdout(line, now) => OnStdout(s, line, now)
    case StdoutEnded => s.(over := true)
    case StdoutBroke(message) => Emit(s, ErrorEvent(message), StdoutFailed).(over := true)
    case Steer(id, problems, written) => OnSteer(s, id, problems, written)
    case SteerClosed(written) =>
      s.(steeringOpen := false, stdin := if written then s.stdin + [StdinClosed] else s.stdin)
    case Interrupt(written) => OnInterrupt(s, written)
    case HoldElapsed(_) => OnHoldElapsed(s)
    case ConsumerLeft => s.(over := true)
  }

  function Turn(s: RunState, input: Input): (r: RunState)
    ensures r.capacity == s.capacity
  {
    if s.over || !Enabled(s, input) then s else React(s, input)
  }

  function Loop(s: RunState, inputs: seq<Input>): (r: RunState)
    ensures r.capacity == s.capacity
  {
    if inputs == [] then s else Turn(Loop(s, inputs[..|inputs| - 1]), inputs[|inputs| - 1])
  }

  /** What is known of the agent when the loop is left. */
  datatype Exit = Exit(sessionId: Option<string>, crashMessage: string)

  function SendHeld(s: RunState): (r: RunState)
    ensures r.stdin == s.stdin
  {
    if s.held.None? || Gone(s) then s.(held := None)
    else Emit(s.(held := None), s.held.value.done, Late).(anyDone := true)
  }

  function SendEnd(s: RunState, exit: Exit): (r: RunState)
    ensures r.stdin == s.stdin
  {
    if Gone(s) then s
    else if s.interrupted && !s.doneAfterInterrupt then
      Emit(s, Done(RunInterrupted, None, exit.sessionId), Fallback)
    else if !s.interrupted && !s.anyDone then
      Emit(s, Done(RunErrored, Some(exit.crashMessage), exit.sessionId), Crash)
    else s
  }

  function Finish(s: RunState, exit: Exit): (r: RunState)
    ensures r.stdin == s.stdin
  {
    SendEnd(SendHeld(s), exit)
  }

  // ---------------------------------------------------------------- the loop itself

  method ConfirmSteers(s: RunState, n: nat) returns (r: RunState)
    requires n <= |s.pending|
    ensures r == Confirm(s, n)
  {
    hide Emit;
    r := s;
    var i := 0;
    while i < n && !r.over
      invariant i <= n && n - i <= |r.pending|
      invariant Confirm(r, n - i) == Confirm(s, n)
    {
      r := ConfirmFirst(r);
      i := i + 1;
    }
  }

  method ForwardEvents(s: RunState, events: seq<AgentEvent>, now: int) returns (r: RunState)
    ensures r == ForwardAll(s, events, now)
  {
    hide Emit, ForwardDone, Ended;
    r := s;
    var i := 0;
    while i < |events| && !r.over
      invariant i <= |events|
      invariant ForwardAll(r, events[i..], now) == ForwardAll(s, events, now)
    {
      assert events[i..][1..] == events[i + 1..];
      var event := events[i];
      r := r.(openTools := ToolsAfter(r.openTools, event));
      if !event.Done? {
        r := Emit(r, event, FromAgent);
      } else {
        r := r.(produced := r.produced + [event]);
        r := ForwardDone(r, event, now);
      }
      i := i + 1;
    }
  }

  method ReportProblems(s: RunState, problems: seq<string>) returns (r: RunState)
    ensures r == Report(s, problems)
  {
    hide Emit;
    r := s;
    var i := 0;
    while i < |problems| && !r.over
      invariant i <= |problems|
      invariant Report(r, problems[i..]) == Report(s, problems)
    {
      assert problems[i..][1..] == problems[i + 1..];
      r := Emit(r, ErrorEvent(problems[i]), Problem);
      i := i + 1;
    }
  }

  method HandleStdout(s: RunState, line: StdoutLine, now: int) returns (r: RunState)
    ensures r == OnStdout(s, line, now)
  {
    hide Confirm, Forward;
    r := s;
    if line.BlankLine? {
      return;
    }
    r := r.(held := Postponed(r.held, now));
    if line.Control? && line.reply.Some? {
      r := r.(stdin := r.stdin + [Reply(line.reply.value)]);
    } else if line.Frame? {
      if line.user.Some? {
        var at := Position(r.pending, line.user.value);
        if at.Some? {
          r := ConfirmSteers(r, at.value + 1);
        }
      }
      r := ForwardEvents(r, line.events, now);
    }
  }

  method HandleSteer(s: RunState, id: string, problems: seq<string>, written: bool) returns (r: RunState)
    ensures r == OnSteer(s, id, problems, written)
  {
    r := s.(received := s.received + [id]);
    r := ReportProblems(r, problems);
    if r.over {
      return;
    }
    var line := SteerLine(id, r.openTools == {});
    r := r.(pending := r.pending + [id]);
    if written {
      r := r.(stdin := r.stdin + [line]);
    } else {
      r := r.(over := true);
    }
  }

  method HandleHoldElapsed(s: RunState) returns (r: RunState)
    requires s.held.Some?
    ensures r == OnHoldElapsed(s)
  {
    hide Emit, Confirm;
    r := ConfirmSteers(s, |s.pending|);
    if r.over {
      return;
    }
    r := Emit(r.(held := None), s.held.value.done, FromAgent);
    if !r.over {
      r := r.(anyDone := true);
    }
  }

  /** The whole run: `inputs` are the arms in the order they were taken. */
  method RunSession(inputs: seq<Input>, capacity: Option<nat>, exit: Exit) returns (s: RunState)
    ensures var left := Loop(Begin(capacity), inputs);
            s == if left.over then Finish(left, exit) else left
  {
    hide OnStdout, OnSteer, OnHoldElapsed, Emit;
    s := Begin(capacity);
    var i := 0;
    while i < |inputs| && !s.over
      invariant i <= |inputs|
      invariant s == Loop(Begin(capacity), inputs[..i])
    {
      assert inputs[..i + 1][..i] == inputs[..i];
      if Enabled(s, inputs[i]) {
        match inputs[i] {
          case Stdout(line, now) => s := HandleStdout(s, line, now);
          case StdoutEnded => s := s.(over := true);
          case StdoutBroke(message) => s := Emit(s, ErrorEvent(message), StdoutFailed).(over := true);
          case Steer(id, problems, written) => s := HandleSteer(s, id, problems, written);
          case SteerClosed(written) =>
            s := s.(steeringOpen := false, stdin := if written then s.stdin + [StdinClosed] else s.stdin);
          case Interrupt(written) => s := OnInterrupt(s, written);
          case HoldElapsed(_) => s := HandleHoldElapsed(s);
          case ConsumerLeft => s := s.(over := true);
        }
      }
      i := i + 1;
    }
    NothingAfterTheEnd(Begin(capacity), inputs, i);
    if s.over {
      s := SendHeld(s);
      s := SendEnd(s, exit);
    }
  }

  lemma {:induction false} NothingAfterTheEnd(s: RunState, inputs: seq<Input>, n: nat)
    requires n <= |inputs|
    requires Loop(s, inputs[..n]).over || n == |inputs|
    ensures Loop(s, inputs) == Loop(s, inputs[..n])
  {
    hide React;
    if n == |inputs| {
      assert inputs[..n] == inputs;
    } else {
      assert inputs[..|inputs| - 1][..n] == inputs[..n];
      NothingAfterTheEnd(s, inputs[..|inputs| - 1], n);
    }
  }
}
