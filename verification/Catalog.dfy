/** The list of models an agent offers: cached per login, refreshed by whichever caller gets there first. */
module Catalog {
  import opened Wrappers

  type Key = string
  type Model = string

  datatype Code = Timeout | Failed | MissingExecutable | AuthRequired {
    predicate AllowsStale() {
      Timeout? || Failed?
    }
  }

  datatype Failure = Failure(code: Code, message: string)

  type Reply = Result<seq<Model>, Failure>

  const UNAVAILABLE := Failure(Failed, "model catalog unavailable")
  const EMPTY_LIST := Failure(Failed, "Harness returned an empty model catalog")
  const TIMED_OUT := Failure(Timeout, "Harness model discovery timed out")
  const NO_LIST := Failure(Failed, "Harness model catalog is unavailable; retry")

  const COOLDOWN_PATTERNS := [
    "rate limit", "rate-limit", "429", "unauthenticated", "unauthorized", "not authenticated",
    "isn't signed in", "auth_required", "401", "api key"]

  function Lower(c: char): char {
    if 'A' <= c <= 'Z' then c - 'A' + 'a' else c
  }

  predicate ContainsAt(text: string, pattern: string, i: nat) {
    i + |pattern| <= |text| && forall k | 0 <= k < |pattern| :: Lower(text[i + k]) == pattern[k]
  }

  predicate Contains(text: string, pattern: string) {
    exists i: nat | i <= |text| :: ContainsAt(text, pattern, i)
  }

  predicate NeedsCooldown(message: string) {
    exists p | 0 <= p < |COOLDOWN_PATTERNS| :: Contains(message, COOLDOWN_PATTERNS[p])
  }

  /** Another attempt would meet the same answer: the login is refused, or calls are counted against it. */
  predicate Hopeless(failure: Failure) {
    !failure.code.AllowsStale() || NeedsCooldown(failure.message)
  }

  datatype Cache = Cache(
    context: Option<Key>,
    models: Option<seq<Model>>,
    retryAt: Option<int>,
    error: Option<Failure>,
    completedAt: Option<int>)

  const DEFAULT := Cache(None, None, None, None, None)

  function Cached(cache: Cache): Reply {
    if cache.models.Some? then Ok(cache.models.value) else Err(cache.error.GetOr(NO_LIST))
  }

  const LONG_COOLDOWN := 60_000
  const SHORT_COOLDOWN := 10_000

  function Cooldown(result: Reply): int {
    match result
    case Ok(_) => LONG_COOLDOWN
    case Err(failure) => if Hopeless(failure) then LONG_COOLDOWN else SHORT_COOLDOWN
  }

  /** What a refresh that ran to its end leaves. */
  function Completed(cache: Cache, result: Reply, now: int): Cache {
    Cache(
      cache.context,
      match result {
        case Ok(models) => Some(models)
        case Err(failure) => if failure.code.AllowsStale() then cache.models else None
      },
      Some(now + Cooldown(result)),
      if result.Ok? then None else Some(result.error),
      Some(now))
  }

  predicate IsList(reply: Reply) {
    reply.Ok? && reply.value != []
  }

  function FailureOf(reply: Reply): Failure
    requires !IsList(reply)
  {
    if reply.Ok? then EMPTY_LIST else reply.error
  }

  predicate AnswersAtOnce(cache: Cache, force: bool, requestedAt: int, now: int) {
    || (cache.completedAt.Some? && cache.completedAt.value >= requestedAt)
    || (!force && cache.retryAt.Some? && now < cache.retryAt.value)
  }

  function ForKey(cache: Cache, key: Key): Cache {
    if cache.context == Some(key) then cache else DEFAULT.(context := Some(key))
  }

  // ---------------------------------------------------------------- overlapping callers

  /** The refresh of the caller that holds the lock; `since` is the step it entered with. */
  datatype Refresh = Refresh(key: Key, attempts: nat, asking: bool, result: Option<Reply>, since: nat)

  /** `Keyless` callers could not work out the login, `LoginChanged` ones saw it change during the refresh. */
  datatype Answer = Keyless | LoginChanged | Served(key: Key, reply: Reply)

  /** `Ask` sends a request to the agent, `Probe` is its answer. */
  datatype Step =
    | Enter(force: bool, requestedAt: int, context: Option<Key>)
    | Ask
    | Probe(reply: Reply)
    | GiveUp
    | Finish(context: Option<Key>)
    | Cancel
    | Tick(elapsed: nat)

  /** What happened to the list: another login came, a refresh ended, or the login changed during one. */
  datatype Change = LoginSwitched(key: Key) | Refreshed(key: Key, reply: Reply) | Forgotten

  /** The cache under its lock, the copy readers take without waiting, and logs of changes and of all steps. */
  datatype World = World(
    cache: Cache,
    snapshot: Option<seq<Model>>,
    now: int,
    refresh: Option<Refresh>,
    answers: seq<Answer>,
    refreshes: nat,
    probes: nat,
    history: seq<Change>,
    log: seq<Step>)

  function Start(now: int): World {
    World(DEFAULT, None, now, None, [], 0, 0, [], [])
  }

  /** A caller waits at the lock while another one refreshes. */
  predicate Enabled(w: World, step: Step) {
    match step
    case Enter(_, requestedAt, _) => w.refresh.None? && requestedAt <= w.now
    case Ask => w.refresh.Some? && w.refresh.value.result.None? && !w.refresh.value.asking
    case Probe(_) => w.refresh.Some? && w.refresh.value.result.None? && w.refresh.value.asking
    case GiveUp => w.refresh.Some? && w.refresh.value.result.None?
    case Finish(_) => w.refresh.Some? && w.refresh.value.result.Some?
    case Cancel => w.refresh.Some?
    case Tick(_) => true
  }

  function Answered(w: World, answer: Answer): World {
    w.(answers := w.answers + [answer])
  }

  function EnterWith(w: World, force: bool, requestedAt: int, key: Key): World {
    var cache := ForKey(w.cache, key);
    var entered := w.(
      cache := cache,
      snapshot := if cache == w.cache then w.snapshot else cache.models,
      history := if cache == w.cache then w.history else w.history + [LoginSwitched(key)]);
    if AnswersAtOnce(cache, force, requestedAt, w.now) then Answered(entered, Served(key, Cached(cache)))
    else entered.(refresh := Some(Refresh(key, 0, false, None, |w.log|)), refreshes := w.refreshes + 1)
  }

  function AfterReply(r: Refresh, reply: Reply): Refresh {
    r.(asking := false,
       result :=
         if IsList(reply) then Some(reply)
         else if r.attempts >= ATTEMPTS || Hopeless(FailureOf(reply)) then Some(Err(FailureOf(reply)))
         else None)
  }

  /** A list found under a login that is no longer the current one is never published. */
  function FinishWith(w: World, key: Key): World
    requires Enabled(w, Finish(Some(key)))
  {
    var refresh := w.refresh.value;
    if key != refresh.key then
      Answered(w.(cache := DEFAULT, snapshot := None, refresh := None, history := w.history + [Forgotten]), LoginChanged)
    else
      var cache := Completed(w.cache, refresh.result.value, w.now);
      var history := w.history + [Refreshed(key, refresh.result.value)];
      Answered(
        w.(cache := cache, snapshot := cache.models, refresh := None, history := history), Served(key, Cached(cache)))
  }

  function Take(w: World, step: Step): World
    requires Enabled(w, step)
  {
    match step
    case Enter(force, requestedAt, context) =>
      if context.None? then Answered(w, Keyless) else EnterWith(w, force, requestedAt, context.value)
    case Ask =>
      w.(refresh := Some(w.refresh.value.(attempts := w.refresh.value.attempts + 1, asking := true)), probes := w.probes + 1)
    case Probe(reply) => w.(refresh := Some(AfterReply(w.refresh.value, reply)))
    case GiveUp => w.(refresh := Some(w.refresh.value.(result := Some(Err(TIMED_OUT)))))
    case Finish(context) =>
      if context.None? then Answered(w.(refresh := None), Keyless) else FinishWith(w, context.value)
    case Cancel => w.(refresh := None)
    case Tick(elapsed) => w.(now := w.now + elapsed)
  }

  function Advance(w: World, step: Step): World {
    if Enabled(w, step) then Take(w, step).(log := w.log + [step]) else w
  }

  function Run(w: World, steps: seq<Step>): World {
    if steps == [] then w else Advance(Run(w, steps[..|steps| - 1]), steps[|steps| - 1])
  }

  // ---------------------------------------------------------------- one caller

  /** What one caller meets; discovery hangs until the time is up once `replies` are used up. */
  datatype Call = Call(
    force: bool,
    requestedAt: int,
    enteredAt: int,
    before: Option<Key>,
    replies: seq<Reply>,
    after: Option<Key>,
    finishedAt: int)

  const ATTEMPTS := 3

  function Discovered(replies: seq<Reply>, attempt: nat, error: Failure): Reply
    decreases ATTEMPTS - attempt
  {
    if attempt >= ATTEMPTS then Err(error)
    else if attempt >= |replies| then Err(TIMED_OUT)
    else if IsList(replies[attempt]) then replies[attempt]
    else if Hopeless(FailureOf(replies[attempt])) then Err(FailureOf(replies[attempt]))
    else Discovered(replies, attempt + 1, FailureOf(replies[attempt]))
  }

  datatype Outcome = Outcome(cache: Cache, snapshot: Option<seq<Model>>, answer: Answer)

  function RefreshOutcome(cache: Cache, snapshot: Option<seq<Model>>, key: Key, call: Call): Outcome {
    if call.after.None? then Outcome(cache, snapshot, Keyless)
    else if call.after.value != key then Outcome(DEFAULT, None, LoginChanged)
    else
      var done := Completed(cache, Discovered(call.replies, 0, UNAVAILABLE), call.finishedAt);
      Outcome(done, done.models, Served(key, Cached(done)))
  }

  function Get(cache: Cache, snapshot: Option<seq<Model>>, call: Call): Outcome {
    if call.before.None? then Outcome(cache, snapshot, Keyless)
    else
      var key := call.before.value;
      var entered := ForKey(cache, key);
      var copy := if entered == cache then snapshot else entered.models;
      if AnswersAtOnce(entered, call.force, call.requestedAt, call.enteredAt) then
        Outcome(entered, copy, Served(key, Cached(entered)))
      else RefreshOutcome(entered, copy, key, call)
  }

  class SharedCatalog {
    var state: Cache
    var snapshot: Option<seq<Model>>

    constructor ()
      ensures state == DEFAULT && snapshot == None
    {
      state, snapshot := DEFAULT, None;
    }

    method Peek() returns (models: Option<seq<Model>>)
      ensures models == snapshot
    {
      models := snapshot;
    }

    method Publish()
      modifies this`snapshot
      ensures snapshot == state.models
    {
      snapshot := state.models;
    }

    /** Up to three attempts at a list that is not empty. */
    method Discover(replies: seq<Reply>) returns (result: Reply)
      ensures result == Discovered(replies, 0, UNAVAILABLE)
    {
      var error := UNAVAILABLE;
      var attempt := 0;
      while attempt < ATTEMPTS
        invariant attempt <= ATTEMPTS
        invariant Discovered(replies, 0, UNAVAILABLE) == Discovered(replies, attempt, error)
      {
        if attempt >= |replies| {
          return Err(TIMED_OUT);
        }
        var reply := replies[attempt];
        if IsList(reply) {
          return reply;
        }
        error := FailureOf(reply);
        if Hopeless(error) {
          break;
        }
        attempt := attempt + 1;
      }
      result := Err(error);
    }

    method GetWithTimeout(call: Call) returns (answer: Answer)
      modifies this
      ensures Outcome(state, snapshot, answer) == Get(old(state), old(snapshot), call)
    {
      hide Discovered, Hopeless;
      if call.before.None? {
        return Keyless;
      }
      var key := call.before.value;
      if state.context != Some(key) {
        state := DEFAULT.(context := Some(key));
        Publish();
      }
      if AnswersAtOnce(state, call.force, call.requestedAt, call.enteredAt) {
        return Served(key, Cached(state));
      }
      var result := Discover(call.replies);
      if call.after.None? {
        return Keyless;
      }
      if call.after.value != key {
        state := DEFAULT;
        Publish();
        return LoginChanged;
      }
      state := state.(completedAt := Some(call.finishedAt));
      if result.Ok? {
        state := state.(models := Some(result.value), error := None, retryAt := Some(call.finishedAt + LONG_COOLDOWN));
      } else {
        if !result.error.code.AllowsStale() {
          state := state.(models := None);
        }
        var cooldown := if Hopeless(result.error) then LONG_COOLDOWN else SHORT_COOLDOWN;
        state := state.(error := Some(result.error), retryAt := Some(call.finishedAt + cooldown));
      }
      Publish();
      return Served(key, Cached(state));
    }
  }
}
