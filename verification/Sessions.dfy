/** One chat with an agent: the queue, the live run, the prompt waiting for a stop, and the native fork. */
module Sessions {
  import opened Wrappers
  import opened Prompts
  import opened Transcripts
  import opened TranscriptFold

  datatype AgentKind = Claude | Codex | Opencode

  datatype DoneStatus = RunCompleted | RunInterrupted | RunErrored

  datatype Queued = Queued(id: nat, prompt: Prompt)

  /** A live run; `cancelled` is its interrupt token. Dropping the run ends its events. */
  datatype Run = Run(cancelled: bool)

  datatype Subagent = Subagent(transcript: TranscriptState, status: Option<DoneStatus>)

  /** Events that only touch usage, tasks or questions are `Ignored`. */
  datatype AgentEvent =
    | SessionStarted(sessionId: string)
    | PermissionModeReported(isAuto: bool)
    | TextDelta(text: string)
    | ReasoningDelta(text: string)
    | AssistantMessageCompleted
    | SteerConfirmed
    | ToolCallEvent(id: string, call: ToolCall)
    | ToolResultEvent(id: string, isError: bool, output: Option<string>, diff: Option<ToolDiff>)
    | ErrorEvent(message: string)
    | Done(status: DoneStatus, error: Option<string>, doneSessionId: Option<string>)
    | GeneratedImage(path: string)
    | Compacting(active: bool)
    | Compacted(manual: bool)
    | UserMessage(text: string)
    | SubagentEvent(parent: string, event: AgentEvent)
    | Ignored

  /** A prompt, and the user messages it was glued from in order. */
  datatype Glued = Glued(prompt: Prompt, parts: seq<Prompt>) {
    function And(other: Prompt): Glued {
      Glued(prompt.Merge(other), parts + [other])
    }
  }

  function Single(prompt: Prompt): Glued {
    Glued(prompt, [prompt])
  }

  datatype StartCause = Direct | AfterStop | ForkRetry

  /** What a session has handed to runs. */
  datatype Handover =
    | Started(glued: Glued, cause: StartCause, fork: bool, withHistory: bool)
    | Steered(prompt: Prompt, whileWorking: bool)

  /** What the surroundings decide during one call: the clock, the setting, and room in the steering channel. */
  datatype Env = Env(now: int, steerWhileWorking: bool, steerFits: bool)

  datatype Queue = Queue(items: seq<Queued>, lastId: nat, editing: Option<nat>)

  /** The agent's own session, and how a forked chat gets hold of its parent's history. */
  datatype Fork = Fork(
    nativeSessionId: Option<string>,
    source: Option<string>,
    context: Option<string>,
    prompt: Option<Glued>,
    failed: bool,
    errors: seq<string>)
  {
    predicate Pending() {
      prompt.Some? && nativeSessionId.None?
    }

    /** The next run would copy the agent's own session. */
    predicate Copies() {
      nativeSessionId.None? && source.Some?
    }
  }

  datatype SessionState = SessionState(
    kind: AgentKind,
    transcript: TranscriptState,
    subagents: map<string, Subagent>,
    working: bool,
    run: Option<Run>,
    promptAfterStop: Option<Glued>,
    userStopped: bool,
    queue: Queue,
    restartOnNextSend: bool,
    deleted: bool,
    asksForAuto: bool,
    noticedAutoUnavailable: bool,
    fork: Fork,
    handed: seq<Handover>)
  {
    predicate Stopping() {
      run.Some? && run.value.cancelled
    }

    /** A command would reach Claude as ordinary text if it were steered into the turn. */
    predicate CanSteer(prompt: Prompt) {
      working && !(kind == Claude && IsCommand(prompt.text))
    }
  }

  // ---------------------------------------------------------------- the queue

  function QueueIndex(items: seq<Queued>, id: nat): (r: Option<nat>)
    ensures r.Some? ==> r.value < |items| && items[r.value].id == id
    ensures r.None? ==> forall i | 0 <= i < |items| :: items[i].id != id
  {
    if items == [] then None
    else if items[0].id == id then Some(0)
    else
      var rest := QueueIndex(items[1..], id);
      if rest.Some? then Some(rest.value + 1) else None
  }

  predicate BeingEdited(queued: Queued, editing: Option<nat>) {
    editing == Some(queued.id)
  }

  /** The first queued message that is not being edited. */
  function NextSendable(items: seq<Queued>, editing: Option<nat>): (r: Option<nat>)
    ensures r.Some? ==> r.value < |items| && !BeingEdited(items[r.value], editing)
    ensures r.Some? ==> forall i | 0 <= i < r.value :: BeingEdited(items[i], editing)
    ensures r.None? ==> forall i | 0 <= i < |items| :: BeingEdited(items[i], editing)
  {
    if items == [] then None
    else if !BeingEdited(items[0], editing) then Some(0)
    else
      var rest := NextSendable(items[1..], editing);
      if rest.Some? then Some(rest.value + 1) else None
  }

  function Removed<T>(s: seq<T>, i: nat): seq<T>
    requires i < |s|
  {
    s[..i] + s[i + 1..]
  }

  function Enqueue(q: Queue, prompt: Prompt): Queue {
    q.(items := q.items + [Queued(q.lastId + 1, prompt)], lastId := q.lastId + 1)
  }

  function EnqueueFirst(q: Queue, prompt: Prompt): Queue {
    q.(items := [Queued(q.lastId + 1, prompt)] + q.items, lastId := q.lastId + 1)
  }

  function Dequeue(q: Queue, i: nat): Queue
    requires i < |q.items|
  {
    q.(items := Removed(q.items, i))
  }

  /** A message a caller takes out by its id is no longer being edited. */
  function TakeQueued(q: Queue, i: nat): Queue
    requires i < |q.items|
  {
    Dequeue(q, i).(editing := if q.editing == Some(q.items[i].id) then None else q.editing)
  }

  // ---------------------------------------------------------------- runs

  function ForkAtStart(fork: Fork, glued: Glued): Fork {
    if fork.Copies() then fork.(prompt := Some(glued), errors := [])
    else if fork.context.Some? && !IsCommand(glued.prompt.text) then
      fork.(prompt := None, errors := [], context := None)
    else fork.(prompt := None, errors := [])
  }

  /** A fork copies the agent's own history; otherwise the saved history goes in front of the first prompt. */
  function StartRun(s: SessionState, glued: Glued, cause: StartCause): SessionState {
    var withHistory := !s.fork.Copies() && s.fork.context.Some? && !IsCommand(glued.prompt.text);
    s.(run := Some(Run(false)),
       restartOnNextSend := false,
       fork := ForkAtStart(s.fork, glued),
       handed := s.handed + [Started(glued, cause, s.fork.Copies(), withHistory)])
  }

  /** A message shown in the transcript, with the session marked as at work on it. */
  function Accept(s: SessionState, prompt: Prompt, now: int): SessionState {
    var restarting := s.restartOnNextSend && !s.working;
    s.(userStopped := false,
       run := if restarting then None else s.run,
       restartOnNextSend := s.restartOnNextSend && !restarting,
       transcript := PushUser(s.transcript, prompt, now),
       working := true)
  }

  function Waiting(waiting: Option<Glued>, prompt: Prompt): Glued {
    if waiting.Some? then waiting.value.And(prompt) else Single(prompt)
  }

  /** An accepted message waits for a stop to finish, is steered into the run, or starts one. */
  function HandOver(s: SessionState, prompt: Prompt, wasWorking: bool, steerFits: bool): (r: SessionState)
    ensures r.run.Some?
    ensures r == s.(run := r.run, promptAfterStop := r.promptAfterStop, restartOnNextSend := r.restartOnNextSend,
                    fork := r.fork, handed := r.handed)
  {
    if s.Stopping() then s.(promptAfterStop := Some(Waiting(s.promptAfterStop, prompt)))
    else if s.run.Some? && steerFits then s.(handed := s.handed + [Steered(prompt, wasWorking)])
    else StartRun(s, Single(prompt), Direct)
  }

  predicate IsGluedCommand(waiting: Option<Glued>) {
    waiting.Some? && IsCommand(waiting.value.prompt.text)
  }

  /** A message that would be misread now goes back to the front of the queue. */
  predicate MustWait(s: SessionState, prompt: Prompt) {
    var steeringCommand := s.run.Some? && !s.Stopping() && !s.CanSteer(prompt);
    var mergingCommand :=
      && s.Stopping()
      && s.promptAfterStop.Some?
      && (IsGluedCommand(s.promptAfterStop) || IsCommand(prompt.text));
    s.working && (steeringCommand || mergingCommand)
  }

  function Deliver(s: SessionState, prompt: Prompt, env: Env): SessionState {
    if MustWait(s, prompt) then s.(queue := EnqueueFirst(s.queue, prompt))
    else HandOver(Accept(s, prompt, env.now), prompt, s.working, env.steerFits)
  }

  function SendNextQueued(s: SessionState, env: Env): SessionState {
    if s.working || s.deleted then s
    else
      match NextSendable(s.queue.items, s.queue.editing)
      case Some(i) => Deliver(s.(queue := Dequeue(s.queue, i)), s.queue.items[i].prompt, env)
      case None => s
  }

  function SettleSubagent(subagent: Subagent, status: DoneStatus): Subagent {
    Subagent(CancelRunning(subagent.transcript), Some(subagent.status.GetOr(status)))
  }

  function SettleSubagents(subagents: map<string, Subagent>, status: DoneStatus): map<string, Subagent> {
    map id | id in subagents :: SettleSubagent(subagents[id], status)
  }

  /** The end of a run, before the session decides what comes next. */
  function DropRun(s: SessionState): SessionState {
    s.(run := None,
       transcript := CancelRunning(s.transcript),
       subagents := SettleSubagents(s.subagents, RunInterrupted),
       fork := s.fork.(failed := false, prompt := if s.fork.failed then None else s.fork.prompt))
  }

  /** The failed native copy is tried again as an ordinary run. */
  predicate RetriesFork(s: SessionState) {
    s.fork.failed && s.fork.prompt.Some? && !s.deleted
  }

  /** The run's task ends, and its failed copy is tried again with the same prompt. */
  predicate RetriesNow(s: SessionState, action: Action) {
    && s.run.Some? && !s.deleted
    && (action.RunOver? || action.RunStartFailed?)
    && (RetriesFork(s) || (action.RunStartFailed? && s.fork.Pending()))
  }

  function RunEnded(s: SessionState, env: Env): SessionState {
    var dropped := DropRun(s);
    if RetriesFork(s) then
      StartRun(
        dropped.(working := true, fork := dropped.fork.(source := None, errors := [])),
        s.fork.prompt.value, ForkRetry)
    else if s.promptAfterStop.Some? && !s.deleted then
      StartRun(dropped.(working := true, promptAfterStop := None), s.promptAfterStop.value, AfterStop)
    else
      var idle := dropped.(working := false, promptAfterStop := None);
      if s.userStopped then idle else SendNextQueued(idle, env)
  }

  function FailRun(s: SessionState, message: string, env: Env): SessionState {
    if s.fork.Pending() then RunEnded(s.(fork := s.fork.(failed := true)), env)
    else RunEnded(s.(transcript := PushNotice(UndeliverLast(s.transcript), message, true)), env)
  }

  // ---------------------------------------------------------------- events

  function PushErrors(t: TranscriptState, errors: seq<string>): TranscriptState {
    if errors == [] then t else PushNotice(PushErrors(t, errors[..|errors| - 1]), errors[|errors| - 1], true)
  }

  /** The agent names its session: a native copy has worked, and the saved history is no longer needed. */
  function Named(fork: Fork, id: string): Fork {
    if fork.nativeSessionId == Some(id) then fork
    else if fork.prompt.Some? then
      fork.(nativeSessionId := Some(id), prompt := None, source := None, context := None, errors := [])
    else fork.(nativeSessionId := Some(id))
  }

  /** Errors held back during a native copy come out once it has worked. */
  function Released(t: TranscriptState, fork: Fork, id: string): TranscriptState {
    if fork.nativeSessionId != Some(id) && fork.prompt.Some? then PushErrors(t, fork.errors) else t
  }

  /** The session id an event carries. */
  function CarriedId(event: AgentEvent): Option<string> {
    match event
    case SessionStarted(id) => if id == [] then None else Some(id)
    case Done(_, _, Some(id)) => if id == [] then None else Some(id)
    case _ => None
  }

  function NamedBy(fork: Fork, event: AgentEvent): Fork {
    if CarriedId(event).Some? then Named(fork, CarriedId(event).value) else fork
  }

  function ReleasedBy(t: TranscriptState, fork: Fork, event: AgentEvent): TranscriptState {
    if CarriedId(event).Some? then Released(t, fork, CarriedId(event).value) else t
  }

  const AUTO_UNAVAILABLE :=
    "Auto mode isn't available here, so Claude will ask before acting. It's off with fast mode, and on some plans and models."

  const STOPPED_WITH_ERROR := "The agent stopped with an error."

  const COMPACTED := "Context compacted."

  function SubagentOps(event: AgentEvent, now: int): seq<Op> {
    match event
    case UserMessage(text) => [Block(User(Prompt(text, [], []), now, false))]
    case TextDelta(text) => [Delta(text, false, now)]
    case ReasoningDelta(text) => [Delta(text, true, now)]
    case AssistantMessageCompleted => [BlockClosed]
    case SteerConfirmed => [BlockClosed]
    case ToolCallEvent(id, call) => [ToolCalled(id, call)]
    case ToolResultEvent(id, isError, output, diff) => [ToolFinished(id, isError, output, diff)]
    case ErrorEvent(message) => [Block(Notice(message, true))]
    case Done(status, error, _) =>
      [RunningCanceled, BlockClosed] +
      (if error.Some? && status == RunErrored then [Block(Notice(error.value, true))] else [])
    case _ => []
  }

  const NEW_SUBAGENT := Subagent(EMPTY, None)

  function SubagentAt(subagents: map<string, Subagent>, id: string): Subagent {
    if id in subagents then subagents[id] else NEW_SUBAGENT
  }

  function ApplySubagentEvent(
    subagents: map<string, Subagent>, parent: string, event: AgentEvent, now: int): map<string, Subagent>
    decreases event
  {
    var subagent := SubagentAt(subagents, parent);
    match event
    case SubagentEvent(inner, innerEvent) =>
      ApplySubagentEvent(subagents[parent := subagent], inner, innerEvent, now)
    case _ =>
      subagents[parent := Subagent(
        Fold(subagent.transcript, SubagentOps(event, now)),
        if event.Done? then Some(event.status) else subagent.status)]
  }

  /** What shows that a turn has begun without the user, say because something in the background is done. */
  predicate Resumes(event: AgentEvent) {
    match event
    case TextDelta(_) => true
    case ReasoningDelta(_) => true
    case SteerConfirmed => true
    case ToolCallEvent(_, _) => true
    case Compacting(active) => active
    case _ => false
  }

  predicate ShowsAutoNotice(s: SessionState, event: AgentEvent) {
    && event.PermissionModeReported?
    && s.kind == Claude && s.asksForAuto && !event.isAuto && !s.noticedAutoUnavailable
  }

  /** What an event other than the end of a turn does to the chat's own transcript. */
  function StreamedOps(s: SessionState, event: AgentEvent, now: int): seq<Op> {
    match event
    case TextDelta(text) => [Delta(text, false, now)]
    case ReasoningDelta(text) => [Delta(text, true, now)]
    case AssistantMessageCompleted => [BlockClosed]
    case SteerConfirmed => [BlockClosed]
    case ToolCallEvent(id, call) => [ToolCalled(id, call)]
    case ToolResultEvent(id, isError, output, diff) => [ToolFinished(id, isError, output, diff)]
    case ErrorEvent(message) => if s.fork.Pending() then [] else [Block(Notice(message, true))]
    case GeneratedImage(path) => [Block(Image(path))]
    case Compacted(_) => [Block(Notice(COMPACTED, false))]
    case PermissionModeReported(_) =>
      if ShowsAutoNotice(s, event) then [Block(Notice(AUTO_UNAVAILABLE, false))] else []
    case _ => []
  }

  function StreamedSubagents(subagents: map<string, Subagent>, event: AgentEvent, now: int): map<string, Subagent> {
    match event
    case ToolCallEvent(id, call) =>
      if call.IsSubagentSpawn() then subagents[id := SubagentAt(subagents, id)] else subagents
    case SubagentEvent(parent, inner) => ApplySubagentEvent(subagents, parent, inner, now)
    case _ => subagents
  }

  /** An error during a native copy is held back until the copy works or fails. */
  function StreamedFork(fork: Fork, event: AgentEvent): Fork {
    match event
    case ErrorEvent(message) => if fork.Pending() then fork.(errors := fork.errors + [message]) else fork
    case _ => NamedBy(fork, event)
  }

  /** Every event but the end of a turn. */
  function ApplyStreamed(s: SessionState, event: AgentEvent, now: int): SessionState {
    s.(transcript := Fold(ReleasedBy(s.transcript, s.fork, event), StreamedOps(s, event, now)),
       subagents := StreamedSubagents(s.subagents, event, now),
       working := s.working || Resumes(event),
       fork := StreamedFork(s.fork, event),
       restartOnNextSend := s.restartOnNextSend || (event == Compacted(true) && s.kind == Claude),
       noticedAutoUnavailable := s.noticedAutoUnavailable || ShowsAutoNotice(s, event))
  }

  function DoneOps(status: DoneStatus, error: Option<string>): seq<Op> {
    [BlockClosed, RunningCanceled] +
    if status == RunErrored then [Block(Notice(error.GetOr(STOPPED_WITH_ERROR), true))] else []
  }

  /** The end of a turn, before a queued message may follow. */
  function EndTurn(s: SessionState, event: AgentEvent): SessionState
    requires event.Done?
  {
    s.(transcript := Fold(ReleasedBy(s.transcript, s.fork, event), DoneOps(event.status, event.error)),
       working := s.promptAfterStop.Some?,
       fork := NamedBy(s.fork, event))
  }

  /** A turn that failed while the native copy was still pending says nothing yet: the end of the run retries. */
  predicate FailsFork(s: SessionState, event: AgentEvent) {
    event.Done? && event.status == RunErrored && s.fork.Pending()
  }

  function ApplyEvent(s: SessionState, event: AgentEvent, env: Env): SessionState {
    if !event.Done? then ApplyStreamed(s, event, env.now)
    else if FailsFork(s, event) then s.(fork := s.fork.(failed := true))
    else if event.status == RunInterrupted then EndTurn(s, event)
    else SendNextQueued(EndTurn(s, event), env)
  }

  // ---------------------------------------------------------------- what callers and the run do

  datatype Action =
    | Send(prompt: Prompt)
    | SteerQueued(id: nat)
    | SendQueuedNow(id: nat)
    | RemoveQueued(id: nat)
    | MoveQueued(id: nat, toIndex: nat)
    | BeginEdit(id: nat)
    | FinishEdit(id: nat, edited: Option<Prompt>)
    | RetryUndelivered(index: nat)
    | Stop
    | ChangeSettings
    | ForkWentStale
    | Delete
    | Event(event: AgentEvent)
    | StreamError(message: string)
    | RunStartFailed(message: string)
    | RunOver
  {
    /** Steps of the run's own task, which is cancelled when the run is dropped. */
    predicate ByTheRun() {
      Event? || StreamError? || RunStartFailed? || RunOver?
    }

    predicate OnQueued() {
      SteerQueued? || SendQueuedNow? || RemoveQueued? || MoveQueued? || BeginEdit?
    }
  }

  function SendMessage(s: SessionState, message: Prompt, env: Env): SessionState {
    var prompt := message.Trimmed();
    if prompt.IsEmpty() || s.deleted then s
    else if s.working && s.run.Some? && !s.Stopping() then
      if env.steerWhileWorking then Deliver(s, prompt, env) else s.(queue := Enqueue(s.queue, prompt))
    else if !s.Stopping() && NextSendable(s.queue.items, s.queue.editing).Some? then
      var queued := Enqueue(s.queue, prompt);
      match NextSendable(queued.items, queued.editing)
      case Some(i) => Deliver(s.(queue := Dequeue(queued, i)), queued.items[i].prompt, env)
      case None => s.(queue := queued)
    else Deliver(s, prompt, env)
  }

  function InsertAt<T>(s: seq<T>, i: nat, x: T): seq<T>
    requires i <= |s|
  {
    s[..i] + [x] + s[i..]
  }

  function Moved<T>(s: seq<T>, at: nat, toIndex: nat): seq<T>
    requires at < |s|
  {
    var rest := Removed(s, at);
    InsertAt(rest, if toIndex <= |rest| then toIndex else |rest|, s[at])
  }

  function FinishQueuedEdit(q: Queue, id: nat, edited: Option<Prompt>): Queue {
    var unlocked := if q.editing == Some(id) then q.(editing := None) else q;
    if edited.None? || edited.value.IsEmpty() then unlocked
    else
      match QueueIndex(q.items, id)
      case Some(i) => unlocked.(items := q.items[i := q.items[i].(prompt := edited.value)])
      case None => Enqueue(unlocked, edited.value)
  }

  predicate CanRetry(s: SessionState, index: nat) {
    index < |s.transcript.entries| && s.transcript.entries[index].User? && s.transcript.entries[index].undelivered
  }

  function StopRun(s: SessionState): SessionState {
    if s.run.Some? then s.(promptAfterStop := None, userStopped := true, run := Some(Run(true)))
    else s.(promptAfterStop := None, userStopped := true, working := false)
  }

  /** Send-now cuts a working run short before delivering. */
  function SendNow(s: SessionState, i: nat, env: Env): SessionState
    requires i < |s.queue.items|
  {
    var cut := if s.working && s.run.Some? then Some(Run(true)) else s.run;
    Deliver(s.(queue := TakeQueued(s.queue, i), run := cut), s.queue.items[i].prompt, env)
  }

  /** The queue's own operations, each on the message with this id. */
  function QueueStep(s: SessionState, action: Action, i: nat, env: Env): SessionState
    requires i < |s.queue.items|
  {
    match action
    case SteerQueued(_) => Deliver(s.(queue := TakeQueued(s.queue, i)), s.queue.items[i].prompt, env)
    case SendQueuedNow(_) => SendNow(s, i, env)
    case RemoveQueued(_) => s.(queue := TakeQueued(s.queue, i))
    case MoveQueued(_, toIndex) => s.(queue := s.queue.(items := Moved(s.queue.items, i, toIndex)))
    case BeginEdit(id) => s.(queue := s.queue.(editing := Some(id)))
    case _ => s
  }

  /** A step of the run's own task; dropping the run cancels that task. */
  function RunStep(s: SessionState, action: Action, env: Env): SessionState {
    if s.run.None? then s
    else
      match action
      case Event(event) => ApplyEvent(s, event, env)
      case StreamError(message) => s.(transcript := PushNotice(s.transcript, message, true))
      case RunStartFailed(message) => FailRun(s, message, env)
      case RunOver => RunEnded(s, env)
      case _ => s
  }

  function RetryStep(s: SessionState, index: nat, env: Env): SessionState {
    if CanRetry(s, index) then
      SendMessage(s.(transcript := DrainFailed(s.transcript, index)), s.transcript.entries[index].prompt, env)
    else s
  }

  function Step(s: SessionState, action: Action, env: Env): SessionState {
    if action.ByTheRun() then RunStep(s, action, env)
    else if action.OnQueued() then
      match QueueIndex(s.queue.items, action.id)
      case Some(i) => QueueStep(s, action, i, env)
      case None => s
    else
      match action
      case Send(prompt) => SendMessage(s, prompt, env)
      case FinishEdit(id, edited) => s.(queue := FinishQueuedEdit(s.queue, id, edited))
      case RetryUndelivered(index) => RetryStep(s, index, env)
      case Stop => StopRun(s)
      case ChangeSettings => s.(restartOnNextSend := s.run.Some?)
      case ForkWentStale => s.(fork := s.fork.(source := None))
      case Delete => s.(deleted := true, run := None, promptAfterStop := None, working := false)
      case _ => s
  }

  /** One step of a session's history. */
  datatype Move = Move(action: Action, env: Env)

  function Play(s: SessionState, moves: seq<Move>): SessionState {
    if moves == [] then s
    else
      var before := Play(s, moves[..|moves| - 1]);
      Step(before, moves[|moves| - 1].action, moves[|moves| - 1].env)
  }
}
