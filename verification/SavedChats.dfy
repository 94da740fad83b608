/** What a chat's file holds, and the chat that comes back from it. */
module SavedChats {
  import opened Wrappers
  import opened Text
  import opened Prompts
  import opened Transcripts
  import opened TranscriptFold
  import opened Sessions
  import opened SessionInvariants
  import opened SessionLedger
  import SessionForks

  datatype SavedSubagent = SavedSubagent(id: string, entries: seq<Entry>, status: Option<DoneStatus>)

  /** Files from before subagents and queues were saved hold the entries alone. */
  datatype SavedTranscript =
    | EntriesOnly(entries: seq<Entry>)
    | Current(entries: seq<Entry>, savedSubagents: seq<SavedSubagent>, savedQueue: seq<Prompt>)
  {
    function Subagents(): seq<SavedSubagent> {
      if Current? then savedSubagents else []
    }

    function Queue(): seq<Prompt> {
      if Current? then savedQueue else []
    }
  }

  // ---------------------------------------------------------------- saving

  /** The order of strings by code points. */
  predicate Before(a: string, b: string) {
    b != [] && (a == [] || a[0] < b[0] || (a[0] == b[0] && Before(a[1..], b[1..])))
  }

  predicate Sorted(saved: seq<SavedSubagent>) {
    forall i, j | 0 <= i < j < |saved| :: Before(saved[i].id, saved[j].id)
  }

  function SavedForm(id: string, subagent: Subagent): SavedSubagent {
    SavedSubagent(id, subagent.transcript.entries, subagent.status)
  }

  /** Every subagent once, sorted by id. */
  predicate SavesSubagents(saved: seq<SavedSubagent>, subagents: map<string, Subagent>) {
    && Sorted(saved)
    && (forall i | 0 <= i < |saved| ::
          saved[i].id in subagents && saved[i] == SavedForm(saved[i].id, subagents[saved[i].id]))
    && (forall id | id in subagents :: exists i | 0 <= i < |saved| :: saved[i].id == id)
  }

  function PromptsOf(items: seq<Queued>): seq<Prompt> {
    seq(|items|, i requires 0 <= i < |items| => items[i].prompt)
  }

  /** `saved` is what `saved_transcript` writes for the session. */
  predicate Saves(saved: SavedTranscript, s: SessionState) {
    && saved.Current?
    && saved.entries == s.transcript.entries
    && saved.savedQueue == PromptsOf(s.queue.items)
    && SavesSubagents(saved.savedSubagents, s.subagents)
  }

  lemma {:induction false} BeforeIsStrict(a: string, b: string)
    ensures Before(a, b) ==> a != b
    ensures Before(a, b) ==> !Before(b, a)
    ensures Before(a, b) || a == b || Before(b, a)
  {
    if a != [] && b != [] && a[0] == b[0] {
      BeforeIsStrict(a[1..], b[1..]);
      assert a == [a[0]] + a[1..] && b == [b[0]] + b[1..];
    }
  }

  lemma {:induction false} BeforeIsTransitive(a: string, b: string, c: string)
    requires Before(a, b) && Before(b, c)
    ensures Before(a, c)
  {
    if a != [] && a[0] == b[0] && b[0] == c[0] {
      BeforeIsTransitive(a[1..], b[1..], c[1..]);
    }
  }

  lemma {:induction false} EarliestExists(ids: set<string>) returns (first: string)
    requires ids != {}
    ensures first in ids && forall id | id in ids :: id == first || Before(first, id)
  {
    var some :| some in ids;
    if ids == {some} {
      return some;
    }
    var rest := EarliestExists(ids - {some});
    BeforeIsStrict(some, rest);
    if Before(some, rest) {
      forall id | id in ids ensures id == some || Before(some, id) {
        if id != some && id != rest {
          BeforeIsTransitive(some, rest, id);
        }
      }
      return some;
    }
    return rest;
  }

  /** The subagents are taken in no particular order and sorted by id. */
  method SaveSubagents(subagents: map<string, Subagent>) returns (saved: seq<SavedSubagent>)
    ensures SavesSubagents(saved, subagents)
  {
    saved := [];
    var left := subagents.Keys;
    while left != {}
      invariant left <= subagents.Keys
      invariant Sorted(saved)
      invariant forall i | 0 <= i < |saved| ::
        saved[i].id in subagents && saved[i] == SavedForm(saved[i].id, subagents[saved[i].id])
      invariant forall id | id in subagents :: id in left || exists i | 0 <= i < |saved| :: saved[i].id == id
      invariant forall i, id | 0 <= i < |saved| && id in left :: Before(saved[i].id, id)
    {
      ghost var first := EarliestExists(left);
      var id :| id in left && forall other | other in left :: other == id || Before(id, other);
      ghost var before := saved;
      saved := saved + [SavedForm(id, subagents[id])];
      left := left - {id};
      assert saved[|before|].id == id;
      forall other | other in subagents
        ensures other in left || exists i | 0 <= i < |saved| :: saved[i].id == other
      {
        if other !in left && other != id {
          var i :| 0 <= i < |before| && before[i].id == other;
          assert saved[i].id == other;
        }
      }
    }
  }

  lemma SortedStartsAtTheFirst(a: seq<SavedSubagent>, b: seq<SavedSubagent>, subagents: map<string, Subagent>, n: nat)
    requires SavesSubagents(a, subagents) && SavesSubagents(b, subagents)
    requires n < |a| && n <= |b| && a[..n] == b[..n]
    ensures n < |b| && (a[n] == b[n] || Before(b[n].id, a[n].id))
  {
    assert a[n].id in subagents;
    var i :| 0 <= i < |b| && b[i].id == a[n].id;
    if i < n {
      assert a[..n][i] == b[..n][i];
      BeforeIsStrict(a[i].id, a[n].id);
      assert false;
    }
    if i > n {
      assert Before(b[n].id, b[i].id);
    }
  }

  lemma {:induction false} SortedIsUnique(
    a: seq<SavedSubagent>, b: seq<SavedSubagent>, subagents: map<string, Subagent>, n: nat)
    requires SavesSubagents(a, subagents) && SavesSubagents(b, subagents)
    requires n <= |a| && n <= |b| && a[..n] == b[..n]
    ensures a == b
    decreases |a| - n
  {
    hide SavesSubagents, Before;
    if n < |a| {
      SortedStartsAtTheFirst(a, b, subagents, n);
      SortedStartsAtTheFirst(b, a, subagents, n);
      if a[n] != b[n] {
        BeforeIsStrict(a[n].id, b[n].id);
        assert false;
      }
      assert a[..n + 1] == a[..n] + [a[n]] && b[..n + 1] == b[..n] + [b[n]];
      SortedIsUnique(a, b, subagents, n + 1);
    } else if n < |b| {
      SortedStartsAtTheFirst(b, a, subagents, n);
      assert false;
    }
  }

  /** The file depends on the chat alone, whatever order the subagents are held in. */
  lemma SavingIsDetermined(a: SavedTranscript, b: SavedTranscript, s: SessionState)
    requires Saves(a, s) && Saves(b, s)
    ensures a == b
  {
    SortedIsUnique(a.savedSubagents, b.savedSubagents, s.subagents, 0);
  }

  // ---------------------------------------------------------------- loading

  predicate IsBlankThought(entry: Entry) {
    entry.Thinking? && IsBlank(entry.text)
  }

  /** `deserialize_entry`: what was running is canceled, and a missing diff is worked out again. */
  function LoadEntry(entry: Entry): Entry {
    if entry.Tool? then
      var tool := entry.tool;
      Tool(tool.(
        diff := if tool.diff.Some? then tool.diff else DiffForCall(tool.call),
        status := if tool.status == Running then Canceled else tool.status))
    else entry
  }

  function WithoutBlankThoughts(entries: seq<Entry>): seq<Entry> {
    if entries == [] then []
    else
      WithoutBlankThoughts(entries[..|entries| - 1]) +
      (if IsBlankThought(entries[|entries| - 1]) then [] else [entries[|entries| - 1]])
  }

  function LoadEntries(entries: seq<Entry>): seq<Entry> {
    var kept := WithoutBlankThoughts(entries);
    seq(|kept|, i requires 0 <= i < |kept| => LoadEntry(kept[i]))
  }

  function LoadTranscript(entries: seq<Entry>): TranscriptState {
    TranscriptState(LoadEntries(entries), false)
  }

  /** A subagent saved without a status was cut off. */
  function LoadSubagent(saved: SavedSubagent): Subagent {
    Subagent(LoadTranscript(saved.entries), Some(saved.status.GetOr(RunInterrupted)))
  }

  function LoadSubagents(saved: seq<SavedSubagent>): map<string, Subagent> {
    if saved == [] then map[]
    else
      var last := saved[|saved| - 1];
      LoadSubagents(saved[..|saved| - 1])[last.id := LoadSubagent(last)]
  }

  function LoadQueue(prompts: seq<Prompt>): seq<Queued> {
    seq(|prompts|, i requires 0 <= i < |prompts| => Queued(i, prompts[i]))
  }

  /** Half of the largest 64-bit number: ids of loaded messages stay below, ids given later lie above. */
  const FIRST_NEW_ID := 0x7FFF_FFFF_FFFF_FFFF

  /** What the chat's metadata decides. */
  datatype Metadata = Metadata(
    kind: AgentKind,
    asksForAuto: bool,
    nativeSessionId: Option<string>,
    forkSource: Option<string>,
    forkContext: Option<string>)

  function Load(saved: SavedTranscript, metadata: Metadata): SessionState {
    SessionState(
      metadata.kind,
      LoadTranscript(saved.entries),
      LoadSubagents(saved.Subagents()),
      false, None, None, false,
      Queue(LoadQueue(saved.Queue()), FIRST_NEW_ID, None),
      false, false, metadata.asksForAuto, false,
      Fork(metadata.nativeSessionId, metadata.forkSource, metadata.forkContext, None, false, []),
      [])
  }

  // ---------------------------------------------------------------- entries

  lemma {:induction false} KeptEntriesAreNotBlank(entries: seq<Entry>, i: nat)
    requires i < |WithoutBlankThoughts(entries)|
    ensures !IsBlankThought(WithoutBlankThoughts(entries)[i])
    ensures WithoutBlankThoughts(entries)[i] in entries
  {
    var n := |entries| - 1;
    var before := WithoutBlankThoughts(entries[..n]);
    if i < |before| {
      KeptEntriesAreNotBlank(entries[..n], i);
      assert WithoutBlankThoughts(entries)[i] == before[i];
    }
  }

  lemma {:induction false} NothingBlankIsKept(entries: seq<Entry>)
    requires forall i | 0 <= i < |entries| :: !IsBlankThought(entries[i])
    ensures WithoutBlankThoughts(entries) == entries
  {
    if entries != [] {
      NothingBlankIsKept(entries[..|entries| - 1]);
    }
  }

  lemma LoadedEntries(entries: seq<Entry>)
    ensures forall i | 0 <= i < |LoadEntries(entries)| :: !IsBlankThought(LoadEntries(entries)[i])
    ensures forall i | 0 <= i < |LoadEntries(entries)| :: LoadEntry(LoadEntries(entries)[i]) == LoadEntries(entries)[i]
    ensures NoRunningTool(LoadTranscript(entries))
    ensures DiffsFilled(LoadTranscript(entries))
  {
    hide IsBlank;
    var kept := WithoutBlankThoughts(entries);
    forall i | 0 <= i < |kept| ensures !IsBlankThought(LoadEntry(kept[i])) {
      KeptEntriesAreNotBlank(entries, i);
    }
  }

  /** A second trip through the file finds nothing more to change. */
  lemma LoadingTwiceChangesNothing(entries: seq<Entry>)
    ensures LoadEntries(LoadEntries(entries)) == LoadEntries(entries)
  {
    var once := LoadEntries(entries);
    LoadedEntries(entries);
    NothingBlankIsKept(once);
    hide LoadEntry, WithoutBlankThoughts, IsBlankThought;
    assert |LoadEntries(once)| == |once|;
    forall i | 0 <= i < |once| ensures LoadEntries(once)[i] == once[i] {
      assert LoadEntries(once)[i] == LoadEntry(once[i]);
    }
  }

  /** In a transcript live events built, every diff is there already: only running tools and blank thoughts change. */
  lemma LiveEntriesKeepTheirDiffs(t: TranscriptState)
    requires DiffsFilled(t)
    ensures LoadTranscript(t.entries) == TranscriptState(CancelEntries(WithoutBlankThoughts(t.entries)), false)
  {
    hide IsBlank;
    var kept := WithoutBlankThoughts(t.entries);
    forall i | 0 <= i < |kept| ensures LoadEntry(kept[i]) == CancelEntry(kept[i]) {
      KeptEntriesAreNotBlank(t.entries, i);
      var k :| 0 <= k < |t.entries| && t.entries[k] == kept[i];
      assert DiffFilled(t.entries[k]);
    }
    assert LoadEntries(t.entries) == CancelEntries(kept);
  }

  // ---------------------------------------------------------------- subagents

  lemma {:induction false} LoadSubagentsByKey(saved: seq<SavedSubagent>, i: nat)
    requires Sorted(saved) && i < |saved|
    ensures saved[i].id in LoadSubagents(saved) && LoadSubagents(saved)[saved[i].id] == LoadSubagent(saved[i])
  {
    hide LoadSubagent;
    var n := |saved| - 1;
    if i < n {
      LoadSubagentsByKey(saved[..n], i);
      BeforeIsStrict(saved[i].id, saved[n].id);
    }
  }

  lemma {:induction false} LoadedSubagentIsSaved(saved: seq<SavedSubagent>, id: string) returns (i: nat)
    requires id in LoadSubagents(saved)
    ensures i < |saved| && saved[i].id == id && LoadSubagents(saved)[id] == LoadSubagent(saved[i])
  {
    hide LoadSubagent;
    var n := |saved| - 1;
    if saved[n].id == id {
      i := n;
    } else {
      i := LoadedSubagentIsSaved(saved[..n], id);
    }
  }

  /** A subagent as it comes back from the file. */
  function Reloaded(subagent: Subagent): Subagent {
    Subagent(LoadTranscript(subagent.transcript.entries), Some(subagent.status.GetOr(RunInterrupted)))
  }

  lemma SubagentsSurvive(saved: seq<SavedSubagent>, subagents: map<string, Subagent>)
    requires SavesSubagents(saved, subagents)
    ensures LoadSubagents(saved) == map id | id in subagents :: Reloaded(subagents[id])
  {
    hide LoadTranscript;
    var loaded := LoadSubagents(saved);
    forall id | id in subagents ensures id in loaded && loaded[id] == Reloaded(subagents[id]) {
      var i :| 0 <= i < |saved| && saved[i].id == id;
      LoadSubagentsByKey(saved, i);
    }
    forall id | id in loaded ensures id in subagents {
      var i := LoadedSubagentIsSaved(saved, id);
    }
  }

  // ---------------------------------------------------------------- round trips

  /** Everything a file can bring back of a session. */
  datatype Kept = Kept(transcript: TranscriptState, subagents: map<string, Subagent>, queued: seq<Prompt>)

  function KeptOf(s: SessionState): Kept {
    Kept(s.transcript, s.subagents, PromptsOf(s.queue.items))
  }

  function Closed(t: TranscriptState): TranscriptState {
    TranscriptState(CancelEntries(WithoutBlankThoughts(t.entries)), false)
  }

  /**
   * Saving and loading a chat cancels its running tools, drops its blank thoughts, ends its open text block and
   * settles its subagents; every other entry, and the queued messages in their order, come back as they were.
   */
  lemma RoundTrip(s: SessionState, saved: SavedTranscript, metadata: Metadata)
    requires TranscriptsAreConsistent(s) && Saves(saved, s)
    ensures KeptOf(Load(saved, metadata)) == Kept(
              Closed(s.transcript),
              map id | id in s.subagents ::
                Subagent(Closed(s.subagents[id].transcript), Some(s.subagents[id].status.GetOr(RunInterrupted))),
              PromptsOf(s.queue.items))
  {
    hide LoadTranscript, Closed, OpenBlockIsText, OneEntryPerTool, DiffsFilled;
    var loaded := Load(saved, metadata);
    ClosedIsLoaded(s.transcript);
    SubagentsSurvive(saved.savedSubagents, s.subagents);
    forall id | id in s.subagents
      ensures Reloaded(s.subagents[id])
           == Subagent(Closed(s.subagents[id].transcript), Some(s.subagents[id].status.GetOr(RunInterrupted)))
    {
      ClosedIsLoaded(s.subagents[id].transcript);
    }
    assert PromptsOf(loaded.queue.items) == PromptsOf(s.queue.items);
  }

  lemma ClosedIsLoaded(t: TranscriptState)
    requires DiffsFilled(t)
    ensures LoadTranscript(t.entries) == Closed(t)
  {
    LiveEntriesKeepTheirDiffs(t);
  }

  /** Whatever a file held, saving the chat it was loaded into and loading that again changes nothing. */
  lemma SecondRoundTripIsIdentity(saved: SavedTranscript, again: SavedTranscript, metadata: Metadata)
    requires Saves(again, Load(saved, metadata))
    ensures Load(again, metadata) == Load(saved, metadata)
  {
    hide LoadEntries, Reloaded;
    var first := Load(saved, metadata);
    LoadingTwiceChangesNothing(saved.entries);
    SubagentsSurvive(again.savedSubagents, first.subagents);
    forall id | id in first.subagents ensures Reloaded(first.subagents[id]) == first.subagents[id] {
      var i := LoadedSubagentIsSaved(saved.Subagents(), id);
      ReloadedTwice(saved.Subagents()[i]);
    }
    assert LoadSubagents(again.savedSubagents) == first.subagents;
    assert LoadQueue(again.savedQueue) == first.queue.items;
  }

  lemma ReloadedTwice(saved: SavedSubagent)
    ensures Reloaded(LoadSubagent(saved)) == LoadSubagent(saved)
  {
    LoadingTwiceChangesNothing(saved.entries);
  }

  // ---------------------------------------------------------------- a loaded session

  lemma {:induction false} KeptToolsWereThere(entries: seq<Entry>)
    ensures ToolIds(WithoutBlankThoughts(entries)) == ToolIds(entries)
  {
    hide IsBlank;
    if entries != [] {
      var init, last := entries[..|entries| - 1], entries[|entries| - 1];
      KeptToolsWereThere(init);
      var before := WithoutBlankThoughts(init);
      assert (before + [last])[..|before|] == before;
      if IsBlankThought(last) {
        assert WithoutBlankThoughts(entries) == before;
        assert !last.Tool?;
      } else {
        assert WithoutBlankThoughts(entries) == before + [last];
      }
    }
  }

  lemma {:induction false} ToolIdsAreDistinct(entries: seq<Entry>)
    ensures Distinct(ToolIds(entries)) <==> OneEntryPerTool(TranscriptState(entries, false))
  {
    if entries != [] {
      var init, last := entries[..|entries| - 1], entries[|entries| - 1];
      ToolIdsAreDistinct(init);
      if last.Tool? {
        ToolIdsFacts(init, last.tool.id);
        assert ToolIds(entries) == ToolIds(init) + [last.tool.id];
        DistinctAppend(ToolIds(init), last.tool.id);
        OnePerToolAppend(init, last);
      } else {
        assert ToolIds(entries) == ToolIds(init);
        OnePerToolAppend(init, last);
      }
      assert init + [last] == entries;
    }
  }

  lemma DistinctAppend(ids: seq<string>, id: string)
    ensures Distinct(ids + [id]) <==> Distinct(ids) && id !in ids
  {
    var all := ids + [id];
    if Distinct(all) {
      assert forall i, j | 0 <= i < j < |ids| :: ids[i] == all[i] && ids[j] == all[j];
      assert forall i | 0 <= i < |ids| :: ids[i] == all[i] && all[i] != all[|ids|];
    }
  }

  lemma OnePerToolAppend(init: seq<Entry>, last: Entry)
    ensures OneEntryPerTool(TranscriptState(init + [last], false)) <==>
            OneEntryPerTool(TranscriptState(init, false))
            && (last.Tool? ==> forall i | 0 <= i < |init| :: !IsTool(init[i], last.tool.id))
  {
    var all := TranscriptState(init + [last], false);
    var t := TranscriptState(init, false);
    assert forall i | 0 <= i < |init| :: all.entries[i] == init[i];
    if OneEntryPerTool(all) {
      assert forall i, j | 0 <= i < j < |init| :: init[i] == all.entries[i] && init[j] == all.entries[j];
      assert all.entries[|init|] == last;
    }
  }

  lemma ClosedIsConsistent(t: TranscriptState)
    requires Consistent(t)
    ensures Consistent(LoadTranscript(t.entries))
  {
    hide WithoutBlankThoughts, IsBlank;
    LoadedEntries(t.entries);
    LiveEntriesKeepTheirDiffs(t);
    var kept := WithoutBlankThoughts(t.entries);
    KeptToolsWereThere(t.entries);
    ToolIdsAreDistinct(t.entries);
    ToolIdsAreDistinct(kept);
    assert OneEntryPerTool(TranscriptState(t.entries, false)) by {
      assert OneEntryPerTool(t);
    }
    var closed := CancelEntries(kept);
    forall i, j | 0 <= i < j < |closed| && closed[i].Tool? && closed[j].Tool?
      ensures closed[i].tool.id != closed[j].tool.id
    {
      assert kept[i].Tool? && kept[j].Tool?;
      assert TranscriptState(kept, false).entries[i].tool.id != TranscriptState(kept, false).entries[j].tool.id;
    }
  }

  /** A chat that was in order when it was saved is in order again once loaded, with nothing left running. */
  lemma ReloadKeepsInvariant(s: SessionState, saved: SavedTranscript, metadata: Metadata)
    requires Invariant(s) && Saves(saved, s) && |saved.savedQueue| <= FIRST_NEW_ID
    ensures Invariant(Load(saved, metadata))
    ensures NoRunningTool(Load(saved, metadata).transcript) && AllSettled(Load(saved, metadata).subagents)
  {
    hide LoadTranscript, Consistent, NoRunningTool;
    var loaded := Load(saved, metadata);
    LoadedEntries(saved.entries);
    ClosedIsConsistent(s.transcript);
    SubagentsSurvive(saved.savedSubagents, s.subagents);
    forall id | id in loaded.subagents
      ensures Consistent(loaded.subagents[id].transcript) && NoRunningTool(loaded.subagents[id].transcript)
    {
      ClosedIsConsistent(s.subagents[id].transcript);
      LoadedEntries(s.subagents[id].transcript.entries);
    }
  }

  lemma LoadEntriesAppend(init: seq<Entry>, last: Entry)
    ensures LoadEntries(init + [last]) == LoadEntries(init) + (if IsBlankThought(last) then [] else [LoadEntry(last)])
  {
    hide IsBlankThought, LoadEntry;
    assert (init + [last])[..|init|] == init;
  }

  lemma {:induction false} KeptThoughtsJoin(front: seq<Entry>, rest: seq<Entry>)
    ensures WithoutBlankThoughts(front + rest) == WithoutBlankThoughts(front) + WithoutBlankThoughts(rest)
  {
    hide IsBlankThought;
    if rest == [] {
      assert front + rest == front;
    } else {
      KeptThoughtsJoin(front, rest[..|rest| - 1]);
      assert (front + rest)[..|front + rest| - 1] == front + rest[..|rest| - 1];
    }
  }

  lemma {:induction false} OthersStay(entries: seq<Entry>)
    requires forall i | 0 <= i < |entries| :: !IsBlankThought(entries[i])
    ensures WithoutBlankThoughts(entries) == entries
  {
    hide IsBlankThought;
    if entries != [] {
      OthersStay(entries[..|entries| - 1]);
    }
  }

  lemma OneThoughtGoes(thought: Entry)
    requires IsBlankThought(thought)
    ensures WithoutBlankThoughts([thought]) == []
  {
    hide IsBlankThought;
    assert [thought][..0] == [];
  }

  /** A blank thought goes wherever it stands, and entries among which there is none all stay. */
  lemma OnlyBlankThoughtsGo(front: seq<Entry>, thought: Entry, rest: seq<Entry>)
    requires IsBlankThought(thought)
    ensures WithoutBlankThoughts(front + [thought] + rest) == WithoutBlankThoughts(front + rest)
    ensures (forall i | 0 <= i < |rest| :: !IsBlankThought(rest[i])) ==> WithoutBlankThoughts(rest) == rest
  {
    hide WithoutBlankThoughts, IsBlankThought;
    KeptThoughtsJoin(front + [thought], rest);
    KeptThoughtsJoin(front, [thought]);
    KeptThoughtsJoin(front, rest);
    OneThoughtGoes(thought);
    if forall i | 0 <= i < |rest| :: !IsBlankThought(rest[i]) {
      OthersStay(rest);
    }
  }

  const NO_FILE := EntriesOnly([])

  /** A chat that has just been created is in order, whatever its metadata say. */
  lemma NewChatIsInOrder(metadata: Metadata)
    ensures Invariant(Load(NO_FILE, metadata))
    ensures Load(NO_FILE, metadata).promptAfterStop.None? && Load(NO_FILE, metadata).handed == []
  {
    assert Load(NO_FILE, metadata).transcript == EMPTY;
  }

  /** A new chat that forks nothing never has a prompt waiting beside a run that goes on. */
  lemma UnforkedChatWaitsForStops(metadata: Metadata, moves: seq<Move>)
    requires metadata.forkSource.None?
    ensures SessionForks.WaitsForAStop(Play(Load(NO_FILE, metadata), moves))
  {
    hide Invariant, Play;
    NewChatIsInOrder(metadata);
    SessionForks.NeverForkedAlwaysWaits(Load(NO_FILE, metadata), moves);
  }

  /** So every state a new chat can reach is. */
  lemma EveryReachableChatIsInOrder(metadata: Metadata, moves: seq<Move>)
    ensures Invariant(Play(Load(NO_FILE, metadata), moves))
  {
    hide Invariant, Play;
    NewChatIsInOrder(metadata);
    EveryHistoryKeepsInvariant(Load(NO_FILE, metadata), moves);
  }

  lemma {:induction false} LoadKeepsUsers(entries: seq<Entry>)
    ensures Users(LoadEntries(entries)) == Users(entries)
  {
    hide IsBlank, Users;
    if entries == [] {
      assert LoadEntries(entries) == entries;
    } else {
      hide LoadEntries;
      var init, last := entries[..|entries| - 1], entries[|entries| - 1];
      LoadKeepsUsers(init);
      assert init + [last] == entries;
      LoadEntriesAppend(init, last);
      UsersOfJoin(init, [last]);
      UsersOfOne(last);
      if IsBlankThought(last) {
        assert LoadEntries(init) + [] == LoadEntries(init);
      } else {
        UsersOfJoin(LoadEntries(init), [LoadEntry(last)]);
        UsersOfOne(LoadEntry(last));
      }
    }
  }

  lemma {:induction false} QueuedPromptsDependOnPrompts(a: seq<Queued>, b: seq<Queued>)
    requires PromptsOf(a) == PromptsOf(b)
    ensures QueuedPrompts(a) == QueuedPrompts(b)
  {
    assert |PromptsOf(a)| == |a| && |PromptsOf(b)| == |b|;
    if a != [] {
      var n := |a| - 1;
      assert PromptsOf(a[..n]) == PromptsOf(a)[..n];
      assert PromptsOf(b[..n]) == PromptsOf(b)[..n];
      assert PromptsOf(a)[n] == PromptsOf(b)[n];
      QueuedPromptsDependOnPrompts(a[..n], b[..n]);
    }
  }

  /** No message is lost or doubled by closing the program and opening the chat again. */
  lemma ReloadHoldsTheSameMessages(s: SessionState, saved: SavedTranscript, metadata: Metadata)
    requires Saves(saved, s)
    ensures Held(Load(saved, metadata)) == Held(s)
  {
    hide Users, QueuedPrompts;
    LoadKeepsUsers(saved.entries);
    QueuedPromptsDependOnPrompts(LoadQueue(saved.savedQueue), s.queue.items);
  }

  /** A message queued after loading gets an id no loaded message has. */
  lemma NewIdsAreAboveLoadedOnes(saved: SavedTranscript, metadata: Metadata, prompt: Prompt)
    requires |saved.Queue()| <= FIRST_NEW_ID
    ensures var q := Load(saved, metadata).queue;
            forall i | 0 <= i < |q.items| :: q.items[i].id == i && i < Enqueue(q, prompt).lastId
  {
  }

  // ---------------------------------------------------------------- chats other programs saved

  function HistoryOps(event: AgentEvent, now: int): seq<Op> {
    if event.Done? || event.SteerConfirmed? then [] else SubagentOps(event, now)
  }

  function ReadHistory(s: SessionState, events: seq<AgentEvent>, now: int): SessionState {
    if events == [] then s
    else
      var before := ReadHistory(s, events[..|events| - 1], now);
      var last := events[|events| - 1];
      before.(
        transcript := if last.SubagentEvent? then before.transcript else Fold(before.transcript, HistoryOps(last, now)),
        subagents :=
          if last.SubagentEvent? then ApplySubagentEvent(before.subagents, last.parent, last.event, now)
          else before.subagents)
  }

  /** What is left open in a finished chat is closed; `context` is what the agent is told of it. */
  function LoadHistory(
    s: SessionState, events: seq<AgentEvent>, context: Option<string>, notice: string, now: int): SessionState
  {
    var read := ReadHistory(s, events, now);
    read.(
      transcript := PushNotice(CancelRunning(read.transcript), notice, false),
      subagents := SettleSubagents(read.subagents, RunCompleted),
      fork := read.fork.(context := context))
  }

  lemma {:induction false} HistoryIsConsistent(s: SessionState, events: seq<AgentEvent>, now: int)
    requires TranscriptsAreConsistent(s)
    ensures TranscriptsAreConsistent(ReadHistory(s, events, now))
    ensures ReadHistory(s, events, now)
         == s.(transcript := ReadHistory(s, events, now).transcript, subagents := ReadHistory(s, events, now).subagents)
  {
    hide Consistent, Fold, ApplySubagentEvent, SubagentOps;
    if events != [] {
      var last := events[|events| - 1];
      var before := ReadHistory(s, events[..|events| - 1], now);
      HistoryIsConsistent(s, events[..|events| - 1], now);
      if last.SubagentEvent? {
        SubagentEventKeepsConsistent(before.subagents, last.parent, last.event, now);
      } else {
        OpsAreValid(s, last, now);
        FoldKeepsConsistent(before.transcript, HistoryOps(last, now));
      }
    }
  }

  /** Reading any chat into a session with no run leaves it in order and nothing running, without touching its queue. */
  lemma LoadedHistoryIsInOrder(
    s: SessionState, events: seq<AgentEvent>, context: Option<string>, notice: string, now: int)
    requires Invariant(s) && s.run.None?
    ensures var r := LoadHistory(s, events, context, notice, now);
            Invariant(r) && NoRunningTool(r.transcript) && AllSettled(r.subagents) && r.queue == s.queue && !r.working
  {
    hide ReadHistory, Consistent, GluedWell, AllHandedWell;
    HistoryIsConsistent(s, events, now);
    var read := ReadHistory(s, events, now);
    OpKeepsConsistent(read.transcript, RunningCanceled);
    OpKeepsConsistent(CancelRunning(read.transcript), Block(Notice(notice, false)));
    forall id | id in read.subagents ensures Consistent(CancelRunning(read.subagents[id].transcript)) {
      OpKeepsConsistent(read.subagents[id].transcript, RunningCanceled);
    }
    var r := LoadHistory(s, events, context, notice, now);
    CommandsDependOnPrompts(s, r);
  }
}
