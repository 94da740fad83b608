/** One transcript: what the agent's events turn into, entry by entry. */
module Transcripts {
  import opened Wrappers
  import opened Prompts

  /** Calls the transcript does not look into are `Plain`. */
  datatype ToolCall =
    | EditFile(path: string, oldString: Option<string>, newString: Option<string>)
    | WriteFile(path: string, content: Option<string>)
    | Mcp(server: string, tool: string)
    | Unknown(name: string)
    | Plain(kind: string, detail: string)
  {
    predicate IsSubagentSpawn() {
      match this
      case Mcp(_, tool) => IsAgentName(tool)
      case Unknown(name) => IsAgentName(name)
      case _ => false
    }
  }

  predicate IsAgentName(name: string) {
    name == "Agent" || "Agent: " <= name
  }

  datatype ToolDiff = ToolDiff(path: string, oldText: Option<string>, newText: string)

  datatype ToolStatus = Running | Completed | Failed | Canceled

  datatype ToolEntry = ToolEntry(
    id: string,
    call: ToolCall,
    status: ToolStatus,
    output: Option<string>,
    diff: Option<ToolDiff>)

  datatype Entry =
    | User(prompt: Prompt, at: int, undelivered: bool)
    | Assistant(text: string, at: int)
    | Thinking(text: string)
    | Tool(tool: ToolEntry)
    | Notice(text: string, isError: bool)
    | Image(path: string)

  const TOOL_OUTPUT_MAX_CHARS := 200_000

  function TruncateOutput(text: string): string {
    if |text| <= TOOL_OUTPUT_MAX_CHARS then text
    else text[..TOOL_OUTPUT_MAX_CHARS] + ['\U{2026}']
  }

  function DiffForCall(call: ToolCall): Option<ToolDiff> {
    match call
    case EditFile(path, oldString, Some(newString)) => Some(ToolDiff(path, Some(oldString.GetOr("")), newString))
    case WriteFile(path, Some(content)) => Some(ToolDiff(path, None, content))
    case _ => None
  }

  /** The value a `Transcript` object holds. */
  datatype TranscriptState = TranscriptState(entries: seq<Entry>, blockOpen: bool)

  const EMPTY := TranscriptState([], false)

  predicate IsText(entry: Entry) {
    entry.Assistant? || entry.Thinking?
  }

  function AppendText(t: TranscriptState, text: string, thinking: bool, now: int): TranscriptState {
    if text == [] then t
    else
      var n := |t.entries|;
      if t.blockOpen && n > 0 && t.entries[n - 1].Assistant? && !thinking then
        t.(entries := t.entries[n - 1 := Assistant(t.entries[n - 1].text + text, now)])
      else if t.blockOpen && n > 0 && t.entries[n - 1].Thinking? && thinking then
        t.(entries := t.entries[n - 1 := Thinking(t.entries[n - 1].text + text)])
      else
        TranscriptState(t.entries + [if thinking then Thinking(text) else Assistant(text, now)], true)
  }

  /** Every entry that is not streamed text ends the open block. */
  function Push(t: TranscriptState, entry: Entry): TranscriptState {
    TranscriptState(t.entries + [entry], false)
  }

  function PushUser(t: TranscriptState, prompt: Prompt, now: int): TranscriptState {
    Push(t, User(prompt, now, false))
  }

  function PushNotice(t: TranscriptState, text: string, isError: bool): TranscriptState {
    Push(t, Notice(text, isError))
  }

  function CloseBlock(t: TranscriptState): TranscriptState {
    t.(blockOpen := false)
  }

  predicate IsTool(entry: Entry, id: string) {
    entry.Tool? && entry.tool.id == id
  }

  /** The position of the last tool entry with this id. */
  function LastTool(entries: seq<Entry>, id: string): (r: Option<nat>)
    ensures r.Some? ==> r.value < |entries| && IsTool(entries[r.value], id)
    ensures r.None? ==> forall i | 0 <= i < |entries| :: !IsTool(entries[i], id)
    ensures r.Some? ==> forall i | r.value < i < |entries| :: !IsTool(entries[i], id)
  {
    if entries == [] then None
    else if IsTool(entries[|entries| - 1], id) then Some(|entries| - 1)
    else LastTool(entries[..|entries| - 1], id)
  }

  function StartTool(t: TranscriptState, id: string, call: ToolCall): TranscriptState {
    var diff := DiffForCall(call);
    match LastTool(t.entries, id)
    case Some(i) =>
      var tool := t.entries[i].tool;
      var started := tool.(call := call, diff := if diff.Some? then diff else tool.diff);
      TranscriptState(t.entries[i := Tool(started)], false)
    case None =>
      Push(t, Tool(ToolEntry(id, call, Running, None, diff)))
  }

  function Finished(tool: ToolEntry, isError: bool, output: Option<string>, diff: Option<ToolDiff>): ToolEntry {
    tool.(
      status := if isError then Failed else Completed,
      output := if output.Some? then Some(TruncateOutput(output.value)) else None,
      diff := if diff.Some? then diff else tool.diff)
  }

  function FinishTool(
    t: TranscriptState, id: string, isError: bool, output: Option<string>, diff: Option<ToolDiff>): TranscriptState
  {
    match LastTool(t.entries, id)
    case Some(i) => t.(entries := t.entries[i := Tool(Finished(t.entries[i].tool, isError, output, diff))])
    case None => t
  }

  function CancelEntry(entry: Entry): Entry {
    if entry.Tool? && entry.tool.status == Running then Tool(entry.tool.(status := Canceled)) else entry
  }

  function CancelEntries(entries: seq<Entry>): seq<Entry> {
    seq(|entries|, i requires 0 <= i < |entries| => CancelEntry(entries[i]))
  }

  function CancelRunning(t: TranscriptState): TranscriptState {
    t.(entries := CancelEntries(t.entries))
  }

  predicate NoRunningTool(t: TranscriptState) {
    forall i | 0 <= i < |t.entries| :: t.entries[i].Tool? ==> t.entries[i].tool.status != Running
  }

  /** The transcript object: every method leaves the value its function above describes. */
  class Transcript {
    var entries: seq<Entry>
    var textBlockOpen: bool

    function State(): TranscriptState
      reads this
    {
      TranscriptState(entries, textBlockOpen)
    }

    constructor (entries: seq<Entry>)
      ensures State() == TranscriptState(entries, false)
    {
      this.entries, textBlockOpen := entries, false;
    }

    method Append(text: string, thinking: bool, now: int)
      modifies this
      ensures State() == AppendText(old(State()), text, thinking, now)
    {
      if text == [] {
        return;
      }
      var n := |entries|;
      if textBlockOpen && n > 0 && entries[n - 1].Assistant? && !thinking {
        entries := entries[n - 1 := Assistant(entries[n - 1].text + text, now)];
      } else if textBlockOpen && n > 0 && entries[n - 1].Thinking? && thinking {
        entries := entries[n - 1 := Thinking(entries[n - 1].text + text)];
      } else {
        entries := entries + [if thinking then Thinking(text) else Assistant(text, now)];
        textBlockOpen := true;
      }
    }

    method PushEntry(entry: Entry)
      modifies this
      ensures State() == Push(old(State()), entry)
    {
      textBlockOpen := false;
      entries := entries + [entry];
    }

    method Close()
      modifies this
      ensures State() == CloseBlock(old(State()))
    {
      textBlockOpen := false;
    }

    method FindTool(id: string) returns (at: Option<nat>)
      ensures at == LastTool(entries, id)
    {
      var i := |entries|;
      assert entries[..i] == entries;
      while i > 0
        invariant 0 <= i <= |entries|
        invariant LastTool(entries, id) == LastTool(entries[..i], id)
      {
        assert entries[..i][..i - 1] == entries[..i - 1];
        if IsTool(entries[i - 1], id) {
          return Some(i - 1);
        }
        i := i - 1;
      }
      at := None;
    }

    method Start(id: string, call: ToolCall)
      modifies this
      ensures State() == StartTool(old(State()), id, call)
    {
      textBlockOpen := false;
      var diff := DiffForCall(call);
      var at := FindTool(id);
      if at.Some? {
        var tool := entries[at.value].tool;
        tool := tool.(call := call);
        if diff.Some? {
          tool := tool.(diff := diff);
        }
        entries := entries[at.value := Tool(tool)];
      } else {
        entries := entries + [Tool(ToolEntry(id, call, Running, None, diff))];
      }
    }

    method Finish(id: string, isError: bool, output: Option<string>, diff: Option<ToolDiff>)
      modifies this
      ensures State() == FinishTool(old(State()), id, isError, output, diff)
    {
      var at := FindTool(id);
      if at.Some? {
        var tool := entries[at.value].tool;
        tool := tool.(status := if isError then Failed else Completed);
        tool := tool.(output := if output.Some? then Some(TruncateOutput(output.value)) else None);
        if diff.Some? {
          tool := tool.(diff := diff);
        }
        entries := entries[at.value := Tool(tool)];
      }
    }

    method CancelRunningTools()
      modifies this
      ensures State() == CancelRunning(old(State()))
    {
      for i := 0 to |entries|
        invariant |entries| == |old(entries)| && textBlockOpen == old(textBlockOpen)
        invariant forall k | 0 <= k < i :: entries[k] == CancelEntry(old(entries)[k])
        invariant forall k | i <= k < |entries| :: entries[k] == old(entries)[k]
      {
        if entries[i].Tool? && entries[i].tool.status == Running {
          entries := entries[i := Tool(entries[i].tool.(status := Canceled))];
        }
      }
      assert entries == CancelEntries(old(entries));
    }

    /** `fail_run` marks the message the failed run was started for. */
    method MarkLastUndelivered()
      modifies this
      ensures State() == UndeliverLast(old(State()))
    {
      var n := |entries|;
      if n > 0 && entries[n - 1].User? {
        entries := entries[n - 1 := entries[n - 1].(undelivered := true)];
      }
    }

    /** `retry_undelivered` takes the message and the error notices after it back out. */
    method Drain(index: nat)
      requires index < |entries|
      modifies this
      ensures State() == DrainFailed(old(State()), index)
    {
      var notices := 0;
      while index + 1 + notices < |entries| && IsErrorNotice(entries[index + 1 + notices])
        invariant index + 1 + notices <= |entries|
        invariant notices + ErrorNotices(entries[index + 1 + notices..]) == ErrorNotices(entries[index + 1..])
      {
        assert entries[index + 1 + notices..][1..] == entries[index + 1 + (notices + 1)..];
        notices := notices + 1;
      }
      entries := entries[..index] + entries[index + 1 + notices..];
    }
  }

  function UndeliverLast(t: TranscriptState): TranscriptState {
    var n := |t.entries|;
    if n > 0 && t.entries[n - 1].User? then
      t.(entries := t.entries[n - 1 := t.entries[n - 1].(undelivered := true)])
    else t
  }

  predicate IsErrorNotice(entry: Entry) {
    entry.Notice? && entry.isError
  }

  /** How many error notices the entries begin with. */
  function ErrorNotices(entries: seq<Entry>): (n: nat)
    ensures n <= |entries|
    ensures forall i | 0 <= i < n :: IsErrorNotice(entries[i])
  {
    if entries != [] && IsErrorNotice(entries[0]) then 1 + ErrorNotices(entries[1..]) else 0
  }

  function DrainFailed(t: TranscriptState, index: nat): TranscriptState
    requires index < |t.entries|
  {
    var notices := ErrorNotices(t.entries[index + 1..]);
    t.(entries := t.entries[..index] + t.entries[index + 1 + notices..])
  }
}
