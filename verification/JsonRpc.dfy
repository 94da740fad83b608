/** The JSON-RPC client: callers and the reader of the server's output share one table of pending requests. */
module JsonRpc {
  import opened Wrappers

  // ---------------------------------------------------------------- ids

  const I64_MAX := 0x7FFF_FFFF_FFFF_FFFF
  const I64_MIN := -0x8000_0000_0000_0000

  predicate IsI64(n: int) {
    I64_MIN <= n <= I64_MAX
  }

  /** The id of a message; a JSON integer outside the 64-bit signed range is read as a float. */
  datatype Id = Int(n: int) | Str(text: string) | Float(value: real) | OtherId

  predicate IsDigit(c: char) {
    '0' <= c <= '9'
  }

  function DigitsValue(digits: string): Option<nat> {
    if digits == [] then Some(0)
    else
      var n := |digits| - 1;
      if !IsDigit(digits[n]) then None
      else
        var high := DigitsValue(digits[..n]);
        if high.None? then None else Some(10 * high.value + (digits[n] - '0') as nat)
  }

  /** Rust's `str::parse::<i64>`. */
  function ParseI64(text: string): Option<int> {
    var signed := text != [] && (text[0] == '-' || text[0] == '+');
    var digits := if signed then text[1..] else text;
    var magnitude := DigitsValue(digits);
    if digits == [] || magnitude.None? then None
    else
      var n: int := if signed && text[0] == '-' then 0 - magnitude.value else magnitude.value;
      if IsI64(n) then Some(n) else None
  }

  /** Rust's `as i64` of a float: it saturates. */
  function Saturated(n: int): int {
    if n > I64_MAX then I64_MAX else if n < I64_MIN then I64_MIN else n
  }

  /** Servers may echo a numeric id as a string or as a float. */
  function ResponseId(id: Id): Option<int> {
    match id
    case Int(n) => Some(Saturated(n))
    case Str(text) => ParseI64(text)
    case Float(value) => if value.Floor as real == value then Some(Saturated(value.Floor)) else None
    case OtherId => None
  }

  function Render(n: nat): string {
    if n < 10 then [('0' as int + n) as char] else Render(n / 10) + [('0' as int + n % 10) as char]
  }

  // ---------------------------------------------------------------- the shared state

  datatype Reply = Result(json: string) | Error(message: string)

  datatype Outcome = Replied(reply: Reply) | Exited | StdinClosed

  /** How far `request_now` has come for one id; from `Waiting` and `Settled` on, it has returned. */
  datatype Phase = Fetched | Registered | Withdrawing | Waiting | Settled(outcome: Outcome)

  /** What the server printed, as far as the reader tells it apart. */
  datatype ServerLine = Skipped | Response(id: Id, reply: Reply) | ServerCall(what: string)

  datatype Reader = Reading | Flagged | Cleaned | Abandoned

  /** A notification is labelled with a request of its caller that has returned before it. */
  datatype QueuedLine = RequestLine(id: int) | NotificationLine(after: int)

  datatype World = World(
    nextId: nat,
    calls: map<int, Phase>,
    pending: set<int>,
    delivered: map<int, Reply>,
    closed: bool,
    reader: Reader,
    receiverGone: bool,
    writerGone: bool,
    queue: seq<QueuedLine>,
    incoming: seq<string>,
    seen: seq<ServerLine>)

  const START := World(0, map[], {}, map[], false, Reading, false, false, [], [], [])

  predicate Returned(w: World, id: int) {
    id in w.calls && (w.calls[id].Waiting? || w.calls[id].Settled?)
  }

  /** What a returned request's future gives; a sender dropped unused reads as the server's exit. */
  function ResultOf(w: World, id: int): Option<Outcome>
    requires Returned(w, id)
  {
    if w.calls[id].Settled? then Some(w.calls[id].outcome)
    else if id in w.delivered then Some(Replied(w.delivered[id]))
    else if id in w.pending then None
    else Some(Exited)
  }

  datatype Step =
    | Fetch
    | Register(id: int)
    | QueueRequest(id: int)
    | Withdraw(id: int)
    | Notify(after: int)
    | Read(line: ServerLine)
    | Eof
    | Clear
    | ReceiverLeaves
    | WriterDies

  predicate InPhase(w: World, id: int, phase: Phase) {
    id in w.calls && w.calls[id] == phase
  }

  /** Each step is what happens without giving up the processor or the lock. */
  predicate Enabled(w: World, step: Step) {
    match step
    case Register(id) => InPhase(w, id, Fetched)
    case QueueRequest(id) => InPhase(w, id, Registered)
    case Withdraw(id) => InPhase(w, id, Withdrawing)
    case Notify(after) => Returned(w, after)
    case Read(_) => w.reader.Reading?
    case Eof => w.reader.Reading?
    case Clear => w.reader.Flagged?
    case _ => true
  }

  /** Under the cleanup's own lock: a request comes too late, or is in the table before the cleanup empties it. */
  function RegisterCall(w: World, id: int): World {
    if w.closed then w.(calls := w.calls[id := Settled(Exited)])
    else w.(calls := w.calls[id := Registered], pending := w.pending + {id})
  }

  function QueueCall(w: World, id: int): World {
    if w.writerGone then w.(calls := w.calls[id := Withdrawing])
    else w.(calls := w.calls[id := Waiting], queue := w.queue + [RequestLine(id)])
  }

  function ReadLine(w: World, line: ServerLine): World {
    var read := w.(seen := w.seen + [line]);
    match line
    case Skipped => read
    case Response(json, reply) =>
      var id := ResponseId(json);
      if id.Some? && id.value in w.pending then
        read.(pending := w.pending - {id.value}, delivered := w.delivered[id.value := reply])
      else read
    case ServerCall(what) =>
      if w.receiverGone then read.(reader := Abandoned) else read.(incoming := w.incoming + [what])
  }

  function Take(w: World, step: Step): World
    requires Enabled(w, step)
  {
    match step
    case Fetch => w.(nextId := w.nextId + 1, calls := w.calls[w.nextId + 1 := Fetched])
    case Register(id) => RegisterCall(w, id)
    case QueueRequest(id) => QueueCall(w, id)
    case Withdraw(id) => w.(pending := w.pending - {id}, calls := w.calls[id := Settled(StdinClosed)])
    case Notify(after) => if w.writerGone then w else w.(queue := w.queue + [NotificationLine(after)])
    case Read(line) => ReadLine(w, line)
    case Eof => w.(closed := true, reader := Flagged)
    case Clear => w.(pending := {}, reader := Cleaned)
    case ReceiverLeaves => w.(receiverGone := true)
    case WriterDies => w.(writerGone := true)
  }

  function Advance(w: World, step: Step): World {
    if Enabled(w, step) then Take(w, step) else w
  }

  function Run(w: World, steps: seq<Step>): World {
    if steps == [] then w else Advance(Run(w, steps[..|steps| - 1]), steps[|steps| - 1])
  }

  // ---------------------------------------------------------------- the client object

  class RpcClient {
    var nextId: nat
    var calls: map<int, Phase>
    var pending: set<int>
    var delivered: map<int, Reply>
    var closed: bool
    var reader: Reader
    var receiverGone: bool
    var writerGone: bool
    var queue: seq<QueuedLine>
    var incoming: seq<string>
    ghost var seen: seq<ServerLine>

    ghost function State(): World
      reads this
    {
      World(nextId, calls, pending, delivered, closed, reader, receiverGone, writerGone, queue, incoming, seen)
    }

    constructor ()
      ensures State() == START
    {
      nextId, calls, pending, delivered, closed, reader := 0, map[], {}, map[], false, Reading;
      receiverGone, writerGone, queue, incoming, seen := false, false, [], [], [];
    }

    method FetchId() returns (id: int)
      modifies this`nextId, this`calls
      ensures id == nextId && State() == Advance(old(State()), Fetch)
    {
      nextId := nextId + 1;
      id := nextId;
      calls := calls[id := Fetched];
    }

    method RegisterUnderLock(id: int)
      requires InPhase(State(), id, Fetched)
      modifies this`calls, this`pending
      ensures State() == Advance(old(State()), Register(id))
    {
      if closed {
        calls := calls[id := Settled(Exited)];
        return;
      }
      pending := pending + {id};
      calls := calls[id := Registered];
    }

    method QueueOrWithdraw(id: int)
      requires InPhase(State(), id, Registered)
      modifies this`calls, this`pending, this`queue
      ensures State() == Run(old(State()), [QueueRequest(id), Withdraw(id)])
      ensures Returned(State(), id)
    {
      RunOfTwo(State(), QueueRequest(id), Withdraw(id));
      if writerGone {
        pending := pending - {id};
        calls := calls[id := Settled(StdinClosed)];
      } else {
        queue := queue + [RequestLine(id)];
        calls := calls[id := Waiting];
      }
    }

    /** A request nobody else's steps come between. */
    method RequestNow() returns (id: int)
      modifies this`nextId, this`calls, this`pending, this`queue
      ensures id == old(nextId) + 1 && Returned(State(), id)
      ensures State() == Run(old(State()), [Fetch, Register(id), QueueRequest(id), Withdraw(id)])
    {
      RunOfFour(State(), Fetch, Register(nextId + 1), QueueRequest(nextId + 1), Withdraw(nextId + 1));
      id := FetchId();
      RegisterUnderLock(id);
      if calls[id].Registered? {
        QueueOrWithdraw(id);
      } else {
        RunOfTwo(State(), QueueRequest(id), Withdraw(id));
      }
    }

    method NotifyServer(after: int)
      requires Returned(State(), after)
      modifies this`queue
      ensures State() == Advance(old(State()), Notify(after))
    {
      if !writerGone {
        queue := queue + [NotificationLine(after)];
      }
    }

    method HandleLine(line: ServerLine)
      requires reader.Reading?
      modifies this`pending, this`delivered, this`reader, this`incoming, this`seen
      ensures State() == Advance(old(State()), Read(line))
      ensures reader.Reading? || reader.Abandoned?
    {
      seen := seen + [line];
      if line.Response? {
        var id := ResponseId(line.id);
        if id.Some? && id.value in pending {
          pending := pending - {id.value};
          delivered := delivered[id.value := line.reply];
        }
      } else if line.ServerCall? {
        if receiverGone {
          reader := Abandoned;
        } else {
          incoming := incoming + [line.what];
        }
      }
    }

    method CleanUp()
      requires reader.Reading?
      modifies this`pending, this`reader, this`closed
      ensures State() == Run(old(State()), [Eof, Clear])
    {
      RunOfTwo(State(), Eof, Clear);
      closed := true;
      reader := Flagged;
      pending := {};
      reader := Cleaned;
    }

    method HandleNext(ghost start: World, lines: seq<ServerLine>, i: nat)
      requires reader.Reading? && i < |lines| && State() == Run(start, Reads(lines[..i]))
      modifies this`pending, this`delivered, this`reader, this`incoming, this`seen
      ensures State() == Run(start, Reads(lines[..i + 1]))
      ensures reader.Reading? || reader.Abandoned?
    {
      ReadsOneMore(lines, i);
      RunJoins(start, Reads(lines[..i]), [Read(lines[i])]);
      RunOfOne(State(), Read(lines[i]));
      hide Run;
      HandleLine(lines[i]);
    }

    /** The reader alone, to the end of the server's output. */
    method ReadLoop(lines: seq<ServerLine>)
      requires reader.Reading?
      modifies this`pending, this`delivered, this`reader, this`incoming, this`seen, this`closed
      ensures State() == Run(old(State()), Reads(lines) + [Eof, Clear])
    {
      ghost var start := State();
      assert Reads(lines[..0]) == [];
      hide Advance, Take;
      for i := 0 to |lines|
        invariant State() == Run(start, Reads(lines[..i]))
        invariant reader.Reading?
      {
        HandleNext(start, lines, i);
        if reader.Abandoned? {
          NothingIsReadAfterAbandoning(start, lines, i + 1);
          return;
        }
      }
      assert lines[..|lines|] == lines;
      RunJoins(start, Reads(lines), [Eof, Clear]);
      CleanUp();
    }
  }

  function Reads(lines: seq<ServerLine>): seq<Step> {
    seq(|lines|, i requires 0 <= i < |lines| => Read(lines[i]))
  }

  lemma ReadsOneMore(lines: seq<ServerLine>, i: nat)
    requires i < |lines|
    ensures Reads(lines[..i + 1]) == Reads(lines[..i]) + [Read(lines[i])]
  {
  }

  lemma {:induction false} RunJoins(w: World, a: seq<Step>, b: seq<Step>)
    ensures Run(w, a + b) == Run(Run(w, a), b)
  {
    hide Advance;
    if b == [] {
      assert a + b == a;
    } else {
      assert (a + b)[..|a + b| - 1] == a + b[..|b| - 1];
      RunJoins(w, a, b[..|b| - 1]);
    }
  }

  lemma RunOfOne(w: World, a: Step)
    ensures Run(w, [a]) == Advance(w, a)
  {
    hide Advance;
    assert [a][..0] == [];
  }

  lemma RunOfTwo(w: World, a: Step, b: Step)
    ensures Run(w, [a, b]) == Advance(Advance(w, a), b)
  {
    hide Advance;
    assert [a, b][..1] == [a];
    RunOfOne(w, a);
  }

  lemma RunOfFour(w: World, a: Step, b: Step, c: Step, d: Step)
    ensures Run(w, [a, b, c, d]) == Run(Advance(Advance(w, a), b), [c, d])
  {
    hide Advance;
    assert [a, b, c, d] == [a, b] + [c, d];
    RunJoins(w, [a, b], [c, d]);
    RunOfTwo(w, a, b);
  }

  lemma {:induction false} NothingIsReadAfterAbandoning(w: World, lines: seq<ServerLine>, n: nat)
    requires n <= |lines| && Run(w, Reads(lines[..n])).reader.Abandoned?
    ensures Run(w, Reads(lines) + [Eof, Clear]) == Run(w, Reads(lines[..n]))
  {
    hide Take;
    var rest := lines[n..];
    assert Reads(lines) + [Eof, Clear] == Reads(lines[..n]) + (Reads(rest) + [Eof, Clear]);
    RunJoins(w, Reads(lines[..n]), Reads(rest) + [Eof, Clear]);
    AbandonedReaderDoesNothing(Run(w, Reads(lines[..n])), Reads(rest) + [Eof, Clear]);
  }

  lemma {:induction false} AbandonedReaderDoesNothing(w: World, steps: seq<Step>)
    requires w.reader.Abandoned?
    requires forall i | 0 <= i < |steps| :: steps[i].Read? || steps[i].Eof? || steps[i].Clear?
    ensures Run(w, steps) == w
  {
    hide Take;
    if steps != [] {
      var init := steps[..|steps| - 1];
      assert forall i | 0 <= i < |init| :: init[i] == steps[i];
      AbandonedReaderDoesNothing(w, init);
      assert steps[|steps| - 1].Read? || steps[|steps| - 1].Eof? || steps[|steps| - 1].Clear?;
    }
  }
}
