# Agent chat verification

A Dafny model of the engine behind agent chats, with proofs of what its users can rely on: that a chat shows exactly what
its agent said and did, that prompts spell every message in full, which calls lose a message,
that none is sent twice unless it went into a native copy that is tried again, when a stop is final, exactly when a
switch of accounts loses a login, that a list of models never crosses accounts. Parts of the program that change fields
step by step are classes and methods with loops; each method is proved equal to a function on values, and the theorems
are lemmas about those functions over every input or every run.

Run `dafny verify dfyconfig.toml` in this directory.

## Parts

- `Text`, `Prompts`: whitespace, slash commands at the start of a message, and gluing messages together.
- `Transcripts`, `TranscriptFold`: the `Transcript` object, and what any sequence of operations builds in it, compared
  with descriptions that never mention entries (maximal runs of text pieces, ids in the order of first calls).
- `Sessions`: one chat as a value: queue, live run, prompt waiting for a stop, edit lock, native fork. `Step` is one
  call of a caller or one event of the live run; `Play` is a whole history. The field `handed` logs what was handed to
  runs, each prompt together with the messages it was glued from.
- `SessionInvariants`, `SessionLedger`, `SessionHandovers`, `SessionForks`, `SessionStops`: what every history keeps.
- `SessionPrompts`, `SessionDelivery`: what a prompt handed over consists of, and where a message goes.
- `TranscriptReadings`, `SessionShows`, `SubagentShows`, `HistoryShows`: what chats, subagents and loaded chats show,
  read off the events alone.
- `SessionCopies`: what the second try of a failed native copy hands over again and what it leaves behind, what a failed
  start marks, and what reaches a run from a deleted chat.
- `SavedChats`: the file of a chat, and the chat that comes back from it.
- `AgentSessions`: the `AgentSession` object. `Perform` makes one step of `Sessions`, so every theorem about `Play`
  holds of the object.
- `ClaudeRun`, `ClaudeRunSafety`, `ClaudeRunOutput`: the select loop of a Claude run. Each arm is one `Input`; the normaliser is an
  arbitrary list of events per frame; `capacity` is how many events the consumer takes before it goes away.
- `Catalog`, `CatalogSafety`: the model catalog as steps of overlapping callers, and one caller as a method; an
  undisturbed call is proved to be such a run.
- `Accounts`, `AccountsSafety`, `AccountsLogins`, `AccountsConfig`: saved logins and switching between them. Ghost field `firstSaves`
  logs the order in which accounts were first saved; `AccountsLogins.LastLogin` follows each account's login over a run.
- `JsonRpc`, `JsonRpcSafety`, `JsonRpcAnswers`: the request table shared by callers and the reader, as atomic steps.
- `Redaction`, `RedactionSafety`: masking credentials in diagnostics.
- `ClipLines`: wrapping and clipping tool output.
- `ChatList`, `ChatListSafety`: the grouped list of chats.

## What the code does where one might expect otherwise

- After a stop, a turn that still reports `Completed` or `Errored` takes the next queued message; only `Interrupted`
  and the end of the run take none. `SessionStops.SendsNothing` names the steps that leave the queue alone.
- A stop does not stop a native copy that fails: its prompt goes out again in an uncancelled run.
  `SessionStops.StopIsFinalExactly` says from the state at the stop when that can happen,
  `SessionStops.NothingIsSentAfterStop` that nothing else goes out, `SessionStops.StoppedCopyIsSentAgain` gives the run.
- The second try of a native copy hands over the copy's own prompt and nothing else. A message steered into the copy
  stays in the transcript and reaches no later run: `SessionCopies.RetryLeavesSteeredBehind`,
  `SessionCopies.SteeredMessageIsLeftBehind`.
- When a run cannot start, only the message in the last place is marked as not delivered, however many were glued into
  its prompt: `SessionCopies.FailedStartMarksOneAtMost`.
- `steer_queued` and `send_queued_now` deliver without looking at `deleted`:
  `SessionCopies.DeletedChatHandsOverExactly`, `SessionCopies.DeletedChatStartsARun`. A retry on a deleted chat takes
  the message back and drops it: `SessionLedger.OnlyRemovalDropsAMessage`,
  `SessionCopies.DeletedChatDropsARetriedMessage`. The ledger of messages, queue ids, transcripts and commands stay in
  order on deleted chats as well.
- A prompt that waits for a stop may stand beside a fresh run after a native fork is retried.
  `SessionForks.RetryCanLeavePromptBesideLiveRun` gives such a history for every fork,
  `SessionForks.OnlyARetryBreaksTheWait` says that nothing else does it, and
  `SessionForks.NeverForkedAlwaysWaits` that it cannot happen without a fork source.
- A saved login comes back with the live shared tokens, so "verbatim" has a condition:
  `AccountsSafety.LoginComesBackVerbatimExactly`.
- A switch that writes the credentials but not the configuration, and cannot put the old credentials back, leaves
  another account's login under the identity that is signed in; the next operation saves it over that account's slot.
  `AccountsLogins.FailedSwitchLeavesLoginExactly` and `AccountsLogins.LoginsAreKeptExactly` say exactly when,
  `AccountsLogins.SomeLoginIsLost` gives the run.
- A Claude login whose file cannot be parsed counts as no login: a switch succeeds and overwrites it.
  `AccountsLogins.UnreadLoginIsOverwrittenExactly` says exactly when, `AccountsLogins.SomeUnreadLoginIsOverwritten`
  gives the stores.
- A reader that finds nobody taking the server's calls returns without cleaning up, and callers then wait forever:
  `JsonRpcSafety.ReaderIsAbandonedExactly`, `JsonRpcSafety.StrandedExactly`, `JsonRpcSafety.SomeCallerIsStranded`.
- An id above 2^53 that a server echoes as a float may not find its request:
  `JsonRpcSafety.EchoedFloatIsRecognisedExactly`, `JsonRpcSafety.SomeEchoedFloatIsMistaken`.
- Side chats of side chats get no row: `ChatListSafety.SearchShowsEverything`.

## Model

| member | source | states |
|---|---|---|
| Prompts.CommandIsDecidedByTheStart | crates/agent_harness/src/agent_harness.rs:125-138 | whether a text reads as a command does not depend on what follows it behind whitespace |
| Prompts.MergeMakesNoCommand | crates/agent_chat/src/session.rs:241-250 | two glued messages read as a command only if one of them did |
| Prompts.MergeKeepsTheFirstCommand | crates/agent_chat/src/session.rs:1111-1117 | a command glued in front of another message stays a command, so that message would become its arguments |
| Prompts.MergeAllSpells | crates/agent_chat/src/session.rs:241-250 | messages glued one after the other make one prompt of all their texts as paragraphs, blank ones left out, with all attachments and skills in a row; white space of a first message without text stays in front |
| Transcripts.LastTool | crates/agent_chat/src/session.rs:471-483 | the last tool entry with an id, and none only if there is no such entry |
| Transcripts.Transcript.Append | crates/agent_chat/src/session.rs:412-450 | streamed text extends the open block of its kind or opens a new one; empty text changes nothing |
| Transcripts.Transcript.PushEntry | crates/agent_chat/src/session.rs:452-469 | a user message, notice or image is added and ends the open block |
| Transcripts.Transcript.FindTool | crates/agent_chat/src/session.rs:471-476 | searching backwards finds the last entry with the id |
| Transcripts.Transcript.Start | crates/agent_chat/src/session.rs:485-502 | a known tool gets the new call and keeps its diff unless the call has one; an unknown one is added as running |
| Transcripts.Transcript.Finish | crates/agent_chat/src/session.rs:504-522 | the tool gets a final status, its cut output and a diff if there is one |
| Transcripts.Transcript.CancelRunningTools | crates/agent_chat/src/session.rs:524-532 | every running tool and nothing else becomes canceled |
| Transcripts.Transcript.MarkLastUndelivered | crates/agent_chat/src/session.rs:1355-1357 | only a user message in the last place is marked |
| Transcripts.Transcript.Drain | crates/agent_chat/src/session.rs:1097-1101 | a message and the error notices right behind it go, everything else stays |
| TranscriptFold.TextEntriesAreMaximalRuns | crates/agent_chat/src/session.rs:412-450 | over every sequence of operations the text entries are exactly the maximal runs of non-empty pieces of one kind between breaks |
| TranscriptFold.BreakSeparates | crates/agent_chat/src/session.rs:423-447 | what stands before a break and what stands after it form their runs on their own |
| TranscriptFold.RunsAreMaximal | crates/agent_chat/src/session.rs:423-447 | two neighbouring runs are of one kind only if a break stands right between them |
| TranscriptFold.StreamedTextIsKept | crates/agent_chat/src/session.rs:428-447 | the text entries together spell the streamed pieces in order, nothing lost and nothing doubled |
| TranscriptFold.ToolsStandInFirstCallOrder | crates/agent_chat/src/session.rs:485-522 | tool entries have distinct ids, in the order of their first calls |
| TranscriptFold.SettledToolsStaySettled | crates/agent_chat/src/session.rs:485-532 | a tool that is no longer running never runs again, whatever follows |
| TranscriptFold.FoldKeepsConsistent | crates/agent_chat/src/session.rs:412-532 | an open block is always a text entry in the last place, each tool has one entry, and each call that shows a diff has it |
| SessionShows.AnswersAreShown | crates/agent_chat/src/session.rs:1469-1480 | over every history of events and calls, the texts of a chat are those it began with and then the maximal runs of what the live runs said, answers and thoughts apart, broken where a message, a call, a notice, an image or an end comes |
| SessionShows.ToolsAreAsTold | crates/agent_chat/src/session.rs:1482-1498 | over every history a tool stands in the chat from its first call on, with the last call, result and diff the events named, failed or completed as the last result says, canceled if it was stopped without one |
| SessionShows.SignsAreShown | crates/agent_chat/src/session.rs:1454-1640 | over every history images and notices are those the events name, in order, and no text, tool, image or notice leaves its place |
| SessionShows.EventSetsFlags | crates/agent_chat/src/session.rs:1448-1656 | a turn that ends leaves the chat at work only if a message waits or was handed over, any other event never ends its work and those of the agent at work begin it; the notice about auto mode comes once |
| SubagentShows.SubagentAnswersAreShown | crates/agent_chat/src/session.rs:1658-1694 | the same of the texts of every subagent, nested ones included |
| SubagentShows.SubagentsAreAsTold | crates/agent_chat/src/session.rs:1658-1694 | and of its tools, messages, errors and status; it is known exactly if a call spawned it or an event named it |
| HistoryShows.SavedAnswersAreShown | crates/agent_chat/src/session.rs:1696-1742 | the texts of a chat another program saved are the maximal runs of what its events say |
| HistoryShows.SavedToolsAreAsTold | crates/agent_chat/src/session.rs:1696-1742 | its tools, messages and errors are those its events name, with what was running stopped and a notice behind it |
| HistoryShows.SavedSubagentsAreAsTold | crates/agent_chat/src/session.rs:1696-1742 | the same of each of its subagents |
| Sessions.NextSendable | crates/agent_chat/src/session.rs:982-994 | the first queued message that is not being edited; none only if all others are gone |
| Sessions.QueueIndex | crates/agent_chat/src/session.rs:1006-1012 | the queued message with an id |
| Sessions.HandOver | crates/agent_chat/src/session.rs:1152-1174 | an accepted message leaves the session with a run, and the transcript and the queue as they were |
| SessionInvariants.EveryHistoryKeepsInvariant | crates/agent_chat/src/session.rs:954-1560 | every history keeps: a working session has a run, a waiting prompt implies working, without a run nothing is left running and every subagent has a status, queue ids are distinct, transcripts are consistent, no command was ever glued to anything and none was steered into a turn Claude was still working on |
| SavedChats.NewChatIsInOrder | crates/agent_chat/src/session.rs:743-808 | a chat that has just been created satisfies all of that |
| SavedChats.EveryReachableChatIsInOrder | crates/agent_chat/src/session.rs:743-1560 | so does every state a new chat can reach |
| SavedChats.UnforkedChatWaitsForStops | crates/agent_chat/src/session.rs:1366-1403 | and if it forks nothing, a waiting prompt always stands beside a cancelled run |
| SessionInvariants.StepKeepsRun | crates/agent_chat/src/session.rs:1366-1403 | every single step keeps the run, the waiting prompt and the statuses matched as above |
| SessionInvariants.HandOverKeepsCommands | crates/agent_chat/src/session.rs:1105-1174 | under the guard of `deliver`, what is merged, steered or started keeps commands alone |
| SessionInvariants.GluingKeepsWell | crates/agent_chat/src/session.rs:1153-1160 | gluing messages that are no commands gives one that is none |
| SessionInvariants.DeliverEffect | crates/agent_chat/src/session.rs:1105-1150 | a delivered message is shown once or goes back to the front of the queue once, and changes no subagent |
| SessionLedger.MessagesAreConserved | crates/agent_chat/src/session.rs:954-1173 | in every step, messages in queue and transcript together with what was removed equal those before together with what was accepted |
| SessionLedger.HistoriesConserveMessages | crates/agent_chat/src/session.rs:954-1173 | the same over every history: nothing is lost, doubled or made up |
| SessionLedger.OnlyRemovalDropsAMessage | crates/agent_chat/src/session.rs:1032-1103 | fewer messages are held after a step if and only if it removes a queued message or retries an undelivered one on a deleted chat |
| SessionLedger.StepKeepsNothingEmpty | crates/agent_chat/src/session.rs:954-958 | no step puts an empty message into the queue or the transcript |
| SessionLedger.EditedMessageIsNeverSentByItself | crates/agent_chat/src/session.rs:982-1079 | through every step that does not name it the message being edited stays queued as it is, and it stays locked if and only if the step does not begin to edit another one |
| SessionLedger.EditedMessageWaits | crates/agent_chat/src/session.rs:982-1079 | the same over every history |
| SessionLedger.MovedMessageStandsThere | crates/agent_chat/src/session.rs:1039-1048 | a moved message stands at the index given, or last, and the others stay in order |
| SessionLedger.EditedMessageKeepsItsPlace | crates/agent_chat/src/session.rs:1062-1079 | an edited message keeps its place and id, or comes last if it has gone; its own lock is lifted and no other |
| SessionHandovers.StepAccounts | crates/agent_chat/src/session.rs:1105-1174 | in every step the messages newly shown are those newly steered, started or waiting, apart from one taken back and those dropped |
| SessionHandovers.ShownMessagesAreSentOnce | crates/agent_chat/src/session.rs:1105-1186 | over every history of a new chat the messages shown are exactly those steered, started (second tries of a copy aside), waiting, or dropped by a stop or a deletion |
| SessionPrompts.EveryPromptSpellsItsMessages | crates/agent_chat/src/session.rs:1152-1174 | over every history each prompt handed to a run, waiting for a stop or kept for another try spells all the messages it was glued from |
| SessionPrompts.StepGoesInOrder | crates/agent_chat/src/session.rs:1105-1388 | each step hands over the message it shows, all that waited, or the failed copy, and a waiting message comes behind those that wait already |
| SessionPrompts.NothingIsCopiedWithoutSource | crates/agent_chat/src/session.rs:1230-1260 | over every history copies are started only while the fork has its source and no session of its own, histories are sent only while there is one, and neither ever comes back |
| SessionPrompts.StaleForkIsNeverCopied | crates/agent_chat/src/session.rs:2943-2957 | once its source is gone, a fork starts no copy in any history |
| SessionDelivery.DeliveredExactly | crates/agent_chat/src/session.rs:1105-1174 | in every state a delivered message goes back to the front of the queue exactly if it would be misread, else behind a stop, into the live turn, or into a new run |
| SessionDelivery.SentMessageGoesExactly | crates/agent_chat/src/session.rs:954-980 | the same of a message the user sends with nothing sendable queued; set to wait for the turn it is queued last |
| SessionDelivery.QueuedMessagesGoFirst | crates/agent_chat/src/session.rs:954-980 | sent to an idle chat with sendable messages queued, a message takes its place behind them and the first of them goes |
| SessionDelivery.SendNowCutsTheRun | crates/agent_chat/src/session.rs:1020-1030 | sending a queued message now cuts a working run short and puts the message behind it |
| SessionDelivery.ChangedSettingsStartANewRun | crates/agent_chat/src/session.rs:917-948 | after a change of settings the next message to an idle chat starts a run of its own instead of joining the live one |
| SessionDelivery.DeletedChatStaysQuiet | crates/agent_chat/src/session.rs:1414-1425 | after a deletion nothing is handed over and no run exists, through every history that steers or sends no queued message by its id |
| SessionCopies.SecondTriesRepeatTheirCopies | crates/agent_chat/src/session.rs:1377-1388 | over every history each second try hands over exactly the prompt of the copy started last |
| SessionCopies.TwiceIsOnlyWhatCopiesRepeat | crates/agent_chat/src/session.rs:1377-1388 | what is handed over in all is what was shown once, and again the messages of copies tried again |
| SessionCopies.MessagesAreSentAgainOnlyWithTheirCopy | crates/agent_chat/src/session.rs:1105-1388 | over every history of a new chat a message is handed over once more than it was shown, waits or was dropped exactly as often as its copy is tried again |
| SessionCopies.CarriedOrLeftBehind | crates/agent_chat/src/session.rs:1366-1388 | the messages handed over are those of runs that went on and those steered into copies tried again without them |
| SessionCopies.RetryLeavesSteeredBehind | crates/agent_chat/src/session.rs:1377-1388 | a step leaves messages behind if and only if it tries a copy again: exactly those steered into that copy, whose own prompt it hands over |
| SessionCopies.ShownMessagesReachARun | crates/agent_chat/src/session.rs:1105-1388 | over every history of a new chat the messages shown are those in runs that went on, left behind by a second try, waiting, or dropped |
| SessionCopies.SteeredMessageIsLeftBehind | crates/agent_chat/src/session.rs:1377-1388 | a message steered into a copy that then fails is shown and is in no later prompt |
| SessionCopies.FailedStartMarksOneAtMost | crates/agent_chat/src/session.rs:1345-1360 | a run that does not start marks the message in the last place as not delivered and no other, and a pending copy marks none |
| SessionCopies.DeletedChatHandsOverExactly | crates/agent_chat/src/session.rs:1014-1030 | on a deleted chat a step hands something to a run if and only if it steers or sends a queued message that need not wait |
| SessionCopies.DeletedChatStartsARun | crates/agent_chat/src/session.rs:1014-1018 | steering a queued message on an idle deleted chat starts a run |
| SessionCopies.DeletedChatDropsARetriedMessage | crates/agent_chat/src/session.rs:1081-1103 | retrying on a deleted chat leaves fewer messages and the queue as it was |
| SessionForks.HistoriesUseUp | crates/agent_chat/src/session.rs:1230-1260 | over every history the retries and the prepended histories are bounded by what the fork still had |
| SessionForks.ForkIsRetriedOnce | crates/agent_chat/src/session.rs:1377-1388 | from any state a failed native copy is retried at most once and the saved history goes along at most once |
| SessionForks.NoHistoryAfterCopy | crates/agent_chat/src/session.rs:1760-1772 | once a copy worked, no run prompt ever carries the saved history |
| SessionForks.OnlyARetryBreaksTheWait | crates/agent_chat/src/session.rs:1366-1400 | the waiting prompt stops standing beside a cancelled run exactly in a step that retries the fork |
| SessionForks.NeverForkedAlwaysWaits | crates/agent_chat/src/session.rs:1366-1403 | in a session that never had a fork source a waiting prompt always stands beside a cancelled run |
| SessionForks.RetryCanLeavePromptBesideLiveRun | crates/agent_chat/src/session.rs:1377-1388 | stop, send, a failed copy and the end of the run leave the sent message waiting beside a live run |
| SessionForks.ErrorsShownByAnyStep | crates/agent_chat/src/session.rs:1499-1513 | which error notices each step adds, and no others |
| SessionForks.CopyErrorsAreHeldBack | crates/agent_chat/src/session.rs:1499-1501 | whatever is called meanwhile, errors during a copy are kept in the order they arrive until the agent names its session or another run is started |
| SessionForks.CopyErrorsAreNotShown | crates/agent_chat/src/session.rs:1499-1513 | until then no step shows one; only a stream that breaks shows its own error |
| SessionForks.CopyErrorsComeOutIfItWorks | crates/agent_chat/src/session.rs:1760-1772 | if the agent then names its session they are all shown, in that order |
| SessionForks.HeldErrorsEndWithTheRun | crates/agent_chat/src/session.rs:1241-1243 | once the run has ended or another was put in its place they never come out: every later history is the one it would be without them |
| SessionStops.NothingIsSentAfterStop | crates/agent_chat/src/session.rs:1176-1186 | after a stop and until the user sends, the transcript gains no message and the run takes none from the queue; nothing is handed to a run and none goes on uncancelled if and only if no failed copy is tried again |
| SessionStops.StopIsFinalExactly | crates/agent_chat/src/session.rs:1176-1186 | until the user sends, no later step hands anything over or leaves an uncancelled run, if and only if at the stop there is no live copy that has failed or whose session is still unnamed |
| SessionStops.StoppedCopyIsSentAgain | crates/agent_chat/src/session.rs:1345-1388 | a copy whose start fails after the stop goes out again, uncancelled |
| SessionStops.QueueMovesOn | crates/agent_chat/src/session.rs:1405-1412 | without a stop, a waiting prompt or a retry, a finished turn, a failed start or the end of a run shows exactly the first queued message not being edited and takes only it |
| SavedChats.SaveSubagents | crates/agent_chat/src/session.rs:1780-1795 | every subagent is saved once, sorted by id |
| SavedChats.SavingIsDetermined | crates/agent_chat/src/session.rs:1780-1796 | the file depends on the chat alone and not on the order its subagents are held in |
| SavedChats.RoundTrip | crates/agent_chat/src/session.rs:398-410 | saving and loading cancels running tools, drops blank thoughts, closes the block and settles subagents; all else and the queue come back |
| SavedChats.OnlyBlankThoughtsGo | crates/agent_chat/src/session.rs:743-800 | a blank thought is dropped wherever it stands, and nothing else is |
| SavedChats.LiveEntriesKeepTheirDiffs | crates/agent_chat/src/session.rs:580-627 | for a transcript live events built, filling in the diff changes nothing |
| SavedChats.SecondRoundTripIsIdentity | crates/agent_chat/src/session.rs:743-800 | whatever a file held, a second trip through it changes nothing |
| SavedChats.ReloadKeepsInvariant | crates/agent_chat/src/session.rs:743-800 | a chat that was in order is in order again once loaded, with nothing running |
| SavedChats.ReloadHoldsTheSameMessages | crates/agent_chat/src/session.rs:750-800 | closing and opening a chat neither loses nor doubles a message |
| SavedChats.NewIdsAreAboveLoadedOnes | crates/agent_chat/src/session.rs:790-798 | loaded messages are numbered from zero and new ids lie above all of them |
| SavedChats.LoadedHistoryIsInOrder | crates/agent_chat/src/session.rs:1696-1742 | reading any foreign chat into a session with no run leaves it in order, nothing running and the queue untouched |
| AgentSessions.AgentSession.constructor | crates/agent_chat/src/session.rs:743-808 | a session object begins as the session loaded from its file |
| AgentSessions.AgentSession.Perform | crates/agent_chat/src/session.rs:954-1560 | every call of the object makes exactly the step of the value model |
| AgentSessions.AgentSession.Send | crates/agent_chat/src/session.rs:954-980 | the message is steered, queued, or delivered with the oldest sendable message first |
| AgentSessions.AgentSession.Deliver | crates/agent_chat/src/session.rs:1105-1174 | the new state is that of `Sessions.Deliver` |
| AgentSessions.AgentSession.TakeQueued | crates/agent_chat/src/session.rs:1006-1012 | the message leaves the queue and is no longer being edited |
| AgentSessions.AgentSession.MoveQueued | crates/agent_chat/src/session.rs:1039-1048 | the message moves to the index or the end, the others keep their order |
| AgentSessions.AgentSession.FinishQueuedEdit | crates/agent_chat/src/session.rs:1062-1079 | the lock ends and the text is replaced in place, or queued again if the message has gone |
| AgentSessions.AgentSession.SendQueuedNow | crates/agent_chat/src/session.rs:1020-1030 | a working run is cancelled before the message is delivered |
| AgentSessions.AgentSession.RetryUndelivered | crates/agent_chat/src/session.rs:1081-1103 | only a message marked undelivered is taken back and sent again |
| AgentSessions.AgentSession.Stop | crates/agent_chat/src/session.rs:1176-1186 | the waiting prompt is dropped and the run cancelled |
| AgentSessions.AgentSession.StartRun | crates/agent_chat/src/session.rs:1230-1343 | a run starts with a native copy, with the saved history, or plainly |
| AgentSessions.AgentSession.FailRun | crates/agent_chat/src/session.rs:1345-1360 | a start that failed retries the fork, or marks the message and says why |
| AgentSessions.AgentSession.SettleAll | crates/agent_chat/src/session.rs:1372-1375 | every subagent's running tools are canceled and a missing status is filled in |
| AgentSessions.AgentSession.RunEnded | crates/agent_chat/src/session.rs:1366-1403 | the fork is retried, the waiting prompt started, or the queue moves on |
| AgentSessions.AgentSession.SetNativeSessionId | crates/agent_chat/src/session.rs:1760-1772 | a session id that arrives ends the copy and lets its errors out in order |
| AgentSessions.AgentSession.HandleEvent | crates/agent_chat/src/session.rs:1448-1648 | every agent event changes the session as the value model says |
| AgentSessions.AgentSession.ApplyToSubagent | crates/agent_chat/src/session.rs:1658-1694 | an event reaches the innermost subagent it names |
| AgentSessions.AgentSession.LoadExternalHistory | crates/agent_chat/src/session.rs:1696-1742 | events are read in order, then what is open is closed |
| ClaudeRun.RunSession | crates/agent_harness/src/claude.rs:805-1017 | the loop does what folding its arms one by one does, and then ends the run |
| ClaudeRun.ForwardEvents | crates/agent_harness/src/claude.rs:877-908 | the events of a frame go out in order until the run is over |
| ClaudeRun.ConfirmSteers | crates/agent_harness/src/claude.rs:868-874 | the oldest steers are confirmed one by one until nobody listens |
| ClaudeRunSafety.EveryRunIsSound | crates/agent_harness/src/claude.rs:838-973 | the invariant of the loop over every sequence of arms |
| ClaudeRunSafety.SteersAreConfirmedInOrder | crates/agent_harness/src/claude.rs:860-936 | steers received are those confirmed, in the order sent, followed by those still unconfirmed |
| ClaudeRunSafety.NoTurnEndsUnconfirmed | crates/agent_harness/src/claude.rs:888-894 | inside the loop of a run nobody interrupts, no turn's end is sent while a steer is unconfirmed |
| ClaudeRunSafety.LatestEndArrives | crates/agent_harness/src/claude.rs:889-980 | the sent ends are some of the reported ones in their order, and the latest is always among them |
| ClaudeRunSafety.EveryRunEndsWithDone | crates/agent_harness/src/claude.rs:975-1011 | every finished run ends a turn, an interrupted one with its last event, and the crash message appears exactly if nobody interrupted and the agent reported no end |
| ClaudeRunSafety.NothingIsSteeredAfterAnInterrupt | crates/agent_harness/src/claude.rs:919-952 | one interrupt line at most and no steer line after it |
| ClaudeRunSafety.HeldEndWaitsForSilence | crates/agent_harness/src/claude.rs:846-848 | the timer can give a held end up if and only if one is held and the agent has printed nothing for five seconds |
| ClaudeRunOutput.EverythingSaidIsSent | crates/agent_harness/src/claude.rs:833-1010 | over every run a consumer that stays is sent all the agent said until the run was over, but for ends of turns, with the problems of steers and of reading, once each and in order; the agent is written exactly the answers, steers, interrupt and end that the inputs call for |
| ClaudeRunOutput.LeavingConsumerSeesAPrefix | crates/agent_harness/src/claude.rs:877-1010 | a consumer that leaves has been sent the beginning of what one that stays would be |
| Catalog.SharedCatalog.GetWithTimeout | crates/agent_harness/src/catalog.rs:71-167 | one call's new cache, snapshot and answer |
| Catalog.SharedCatalog.Discover | crates/agent_harness/src/catalog.rs:101-134 | up to three attempts, stopping at a list or a hopeless failure |
| CatalogSafety.EveryRunIsSound | crates/agent_harness/src/catalog.rs:71-167 | in every order of every caller's steps, each list cached or answered for a login was discovered while that login was current before and after, and the snapshot is the locked list |
| CatalogSafety.NoListIsEmpty | crates/agent_harness/src/catalog.rs:110-119 | no cached, published or answered list is empty |
| CatalogSafety.AtMostThreeProbesPerRefresh | crates/agent_harness/src/catalog.rs:106-124 | no refresh asks the agent more than three times, a request still unanswered when it is given up included |
| CatalogSafety.NobodyAsksAgain | crates/agent_harness/src/catalog.rs:93-100 | no call issued before a refresh completed asks again, and no unforced call does before the cooldown is over |
| CatalogSafety.FinishedRefreshCoolsDown | crates/agent_harness/src/catalog.rs:144-164 | a finished refresh starts the time in which nobody asks again |
| CatalogSafety.NobodyAsksAfterAFinishedRefresh | crates/agent_harness/src/catalog.rs:93-164 | in every run, after a refresh that finished nobody it covers asks the agent again, and the cache stays as it left it |
| CatalogSafety.CallerRefreshesExactly | crates/agent_harness/src/catalog.rs:84-134 | in every run a caller refreshes if and only if no refresh of its login has ended since it asked, and it insists or the time of the last one is over; if it is answered and there is no list, it is told the last failure |
| CatalogSafety.RefreshesFindWhatTheyAreTold | crates/agent_harness/src/catalog.rs:101-134 | what a refresh has found is decided by the answers since its caller entered: the first list, what cannot be mended, the third failure, or that time was up |
| CatalogSafety.RefreshingLeavesTheCache | crates/agent_harness/src/catalog.rs:101-134 | until it finishes, or if it is cancelled, a refresh changes nothing others see |
| CatalogSafety.CachedListIsTheLastGoodOne | crates/agent_harness/src/catalog.rs:144-166 | over every run a list is cached for a login if and only if that login's last successful refresh found it and everything since was a refresh of that login failing in a way that may pass |
| CatalogSafety.AnswersAreExplained | crates/agent_harness/src/catalog.rs:188-199 | whoever is answered without a refresh gets a list or the stored reason there is none |
| CatalogSafety.CallIsARun | crates/agent_harness/src/catalog.rs:71-167 | a lone call is a run of these steps, whatever discovery replies |
| Accounts.Stores.SwitchTo | crates/agent_harness/src/accounts.rs:241-278 | the new stores and the result of a switch |
| Accounts.Stores.SwitchClaude | crates/agent_harness/src/accounts.rs:280-334 | credentials and configuration after each way a Claude switch can end |
| Accounts.Stores.ReadSlots | crates/agent_harness/src/accounts.rs:488-515 | the readable slots, each once, oldest first |
| Accounts.Stores.List | crates/agent_harness/src/accounts.rs:210-239 | the signed-in login is saved, then the slots are shown with the live one marked |
| Accounts.Stores.LatestCreated | crates/agent_harness/src/accounts.rs:526-534 | the least time from now on that lies behind every saved slot |
| Accounts.Stores.RemoveSlot | crates/agent_harness/src/accounts.rs:372-384 | the slot goes unless its account is signed in |
| AccountsSafety.EveryRunIsSound | crates/agent_harness/src/accounts.rs:210-407 | every run keeps slots under their own accounts' ids, with a saved identity of that account, in the order of first saves |
| AccountsSafety.NewStoresAreSound | crates/agent_harness/src/accounts.rs:488-492 | stores without slots begin so |
| AccountsSafety.LiveLoginIsSavedFirst | crates/agent_harness/src/accounts.rs:386-407 | every listing, switch or removal, whatever comes of it, first saves the readable login in use, verbatim and under its own account |
| AccountsSafety.SavedLoginIsKept | crates/agent_harness/src/accounts.rs:386-407 | the slot of an account that is not signed in stays as saved through every run until somebody switches to it or removes it |
| AccountsLogins.LoginsFollowExactly | crates/agent_harness/src/accounts.rs:210-407 | an operation does to every account's login what it should (put it in place, remove it, leave it) if and only if it does not stop halfway with another login in use under the old identity |
| AccountsLogins.LoginsAreKeptExactly | crates/agent_harness/src/accounts.rs:210-407 | over every run, all along the way, each account's login is the last one it had, if and only if no step mixes two up |
| AccountsLogins.SlotHoldsTheLastLogin | crates/agent_harness/src/accounts.rs:386-407 | without such a step the slot of an account that is not signed in holds the last login it had |
| AccountsLogins.MixedUpLoginIsOverwritten | crates/agent_harness/src/accounts.rs:321-334 | after such a step the next operation saves the foreign login over the slot of the account signed in |
| AccountsLogins.SomeLoginIsLost | crates/agent_harness/src/accounts.rs:321-334 | a run after which a login is in no slot and not in use |
| AccountsLogins.SwitchingBackRestoresTheLogin | crates/agent_harness/src/accounts.rs:241-334 | switching away, doing anything that neither uses nor removes the account, and switching back puts its login in use again: exactly that one for Codex, and for Claude every field but the shared tokens, which are those in use by then |
| AccountsConfig.OtherSettingsStay | crates/agent_harness/src/accounts.rs:280-334 | over every run, failed switches included, every setting of the configuration but the identity and the user id stays as it was |
| AccountsConfig.SwitchingBackRestoresTheIdentity | crates/agent_harness/src/accounts.rs:280-334 | switching away, doing anything that neither uses nor removes the account, and switching back brings its identity and user id back, and no user id if it had none |
| AccountsConfig.ListShowsTheIdentities | crates/agent_harness/src/accounts.rs:210-239 | after any run the list shows each saved login under the address its saved identity names, and besides them at most the one in use |
| AccountsConfig.ProfileNamesTheAccount | crates/agent_harness/src/accounts.rs:296-308 | a slot without a saved identity signs in whom its profile names, if and only if there is something to name |
| AccountsConfig.WorkspaceMembersDiffer | crates/agent_harness/src/accounts.rs:606-613 | two members of one workspace are one account if and only if their user ids agree |
| AccountsSafety.SwitchDecidesWhoIsSignedIn | crates/agent_harness/src/accounts.rs:241-341 | a switch that succeeds signs that slot's account in, one that fails leaves who is signed in |
| AccountsSafety.SwitchMarksExactlyOne | crates/agent_harness/src/accounts.rs:210-239 | after a successful switch the list marks that account and no other |
| AccountsSafety.LoginComesBackVerbatimExactly | crates/agent_harness/src/accounts.rs:647-668 | composing a saved login with the live one gives the saved one if and only if it is no OAuth login, nothing is live to take shared tokens from, or those tokens agree |
| AccountsSafety.SharedTokensSurvive | crates/agent_harness/src/accounts.rs:647-668 | between OAuth logins the live MCP and plugin tokens are the same after every run, failed switches included |
| AccountsSafety.ListingIsInOrderOfFirstSave | crates/agent_harness/src/accounts.rs:510-543 | the list shows the logins in the order they were first saved, after any run |
| AccountsSafety.UnsavedLoginIsLeftAlone | crates/agent_harness/src/accounts.rs:244-269 | where the keychain stays silent, the slot cannot be written, or nobody knows the account, a switch changes nothing |
| AccountsLogins.UnreadLoginIsOverwrittenExactly | crates/agent_harness/src/accounts.rs:241-334 | a successful switch leaves the login that was there unsaved, and overwrites it, if and only if the account is known and the login cannot be read |
| AccountsLogins.SomeUnreadLoginIsOverwritten | crates/agent_harness/src/accounts.rs:446-456 | stores in which that happens |
| AccountsLogins.FailedSwitchLeavesLoginExactly | crates/agent_harness/src/accounts.rs:241-334 | a failed switch changes the login in use if and only if, on its inputs, it writes other credentials and not the configuration, and none can be put back |
| AccountsSafety.SlotIdsDiffer | crates/agent_harness/src/accounts.rs:554-557 | different accounts have different slots |
| JsonRpc.RpcClient.RequestNow | crates/agent_harness/src/jsonrpc.rs:81-122 | an undisturbed request is its steps in order, and has returned |
| JsonRpc.RpcClient.HandleLine | crates/agent_harness/src/jsonrpc.rs:207-280 | what one line of the server does to the table |
| JsonRpc.RpcClient.ReadLoop | crates/agent_harness/src/jsonrpc.rs:199-289 | the reader handles lines until it gives up or cleans up |
| JsonRpcSafety.EveryRunIsSound | crates/agent_harness/src/jsonrpc.rs:81-289 | the invariant of the table over every interleaving |
| JsonRpcSafety.NobodyIsStrandedAtEof | crates/agent_harness/src/jsonrpc.rs:281-289 | once the cleanup has run nothing is pending, ever again, and every caller has a result |
| JsonRpcSafety.RepliesCarryTheRequestsId | crates/agent_harness/src/jsonrpc.rs:230-252 | a request is answered only by a response that carried its id |
| JsonRpcSafety.ResultsNeverChange | crates/agent_harness/src/jsonrpc.rs:235-251 | a request is resolved at most once |
| JsonRpcSafety.IdsNeverRepeat | crates/agent_harness/src/jsonrpc.rs:87 | no id is handed out or queued twice |
| JsonRpcSafety.NotificationsNeverOvertake | crates/agent_harness/src/jsonrpc.rs:80-130 | what a caller sends after a request stands behind it in the queue |
| JsonRpcSafety.ReaderIsAbandonedExactly | crates/agent_harness/src/jsonrpc.rs:253-276 | the reader gives up exactly when the server calls after the consumer of its calls has gone |
| JsonRpcSafety.StrandedExactly | crates/agent_harness/src/jsonrpc.rs:81-289 | with the reader stopped, a caller waits in vain if and only if its request was registered and queued, no response with its id was read after that, and the reader gave up |
| JsonRpcAnswers.ResultsExactly | crates/agent_harness/src/jsonrpc.rs:81-289 | a returned request gives a reply if and only if its line was queued and the first response with its id since it was registered carried that reply; closed stdin if and only if its line found nobody writing; the exit if and only if it came after the cleanup began or was queued and never answered when the table was emptied |
| JsonRpcAnswers.ServerCallsArriveInOrder | crates/agent_harness/src/jsonrpc.rs:253-276 | the server's calls arrive once each and in order as long as somebody takes them |
| JsonRpcSafety.AbandonedCallersWaitForever | crates/agent_harness/src/jsonrpc.rs:262-264 | no later step wakes such a caller |
| JsonRpcSafety.SomeCallerIsStranded | crates/agent_harness/src/jsonrpc.rs:262-264 | one run in which it happens |
| JsonRpcSafety.EchoedIdsAreRecognised | crates/agent_harness/src/jsonrpc.rs:167-176 | an id echoed as number or decimal string finds its request, and up to 2^53 also as a float |
| JsonRpcSafety.EchoedFloatIsRecognisedExactly | crates/agent_harness/src/jsonrpc.rs:175 | echoed as a double-precision float it does if and only if a float can hold it, or it is the last id of all |
| JsonRpcSafety.SomeEchoedFloatIsMistaken | crates/agent_harness/src/jsonrpc.rs:175 | the id 2^53 + 1 comes back as 2^53 |
| Redaction.RedactSecrets | crates/agent_harness/src/agent_harness.rs:223-257 | the loop with its offset computes the masking of the text |
| Redaction.ScanMovesOn | crates/agent_harness/src/agent_harness.rs:253 | every mask takes the scan past its marker |
| RedactionSafety.RedactingAgainChangesNothing | crates/agent_harness/src/agent_harness.rs:223-257 | redacting a redacted text returns it unchanged, for every text |
| RedactionSafety.EveryMarkerIsMasked | crates/agent_harness/src/agent_harness.rs:225-253 | behind every word left that announces a credential stand spaces and quotes at most and then a mask, and no bare key or token prefix is left |
| RedactionSafety.OnlyAnnouncedTokensAreMasked | crates/agent_harness/src/agent_harness.rs:237-256 | only whole tokens go, each standing behind an announcing word and its spaces and quotes or beginning with a key prefix, and every other character stays once and in order |
| ClipLines.ClipText | crates/agent_chat/src/chat_view.rs:2626-2653 | the shown lines are how the full wrap begins and the hidden count is the rest of it |
| ClipLines.ChunkCount | crates/agent_chat/src/chat_view.rs:2622-2624 | the count of a line's chunks without wrapping it |
| ClipLines.ChunksMakeUpTheLine | crates/agent_chat/src/chat_view.rs:2634-2645 | chunks fit the columns, all but the last fill them, and together they are the line |
| ClipLines.FullWrapKeepsTheText | crates/agent_chat/src/chat_view.rs:2626-2653 | without a limit nothing of the text is lost but line breaks and what trails it |
| ClipLines.LinesStandBetweenBreaks | crates/agent_chat/src/chat_view.rs:2629 | the lines of a text stand between its line breaks, each break with or without a carriage return |
| ClipLines.OneWayOfLines | crates/agent_chat/src/chat_view.rs:2629 | and no other lines do |
| ClipLines.LinesWrapApart | crates/agent_chat/src/chat_view.rs:2629-2651 | each line is wrapped on its own, in its place |
| ClipLines.LimitsAgree | crates/agent_chat/src/chat_view.rs:2629-2651 | a larger limit shows more of the same lines |
| ChatList.LayoutList | crates/agent_chat/src/agent_panel.rs:1115-1204 | the groups, their order, totals and rows |
| ChatList.BuildGroup | crates/agent_chat/src/agent_panel.rs:1136-1162 | the rows of one group |
| ChatListSafety.RowsAreTheVisibleSessions | crates/agent_chat/src/agent_panel.rs:1115-1204 | over all groups the rows are exactly the visible sessions, each once |
| ChatListSafety.NoSessionHasTwoRows | crates/agent_chat/src/agent_panel.rs:1115-1204 | no session has two rows, in one group or in two |
| ChatListSafety.SessionHasRowExactly | crates/agent_chat/src/agent_panel.rs:1136-1162 | a session has a row if and only if it is visible |
| ChatListSafety.SearchShowsEverything | crates/agent_chat/src/agent_panel.rs:1121-1137 | with a search or nothing collapsed, exactly top-level sessions and their direct side chats have rows |
| ChatListSafety.GroupShowsItsKind | crates/agent_chat/src/agent_panel.rs:1163-1203 | each group of the list shows the families of the top-level sessions of its kind |
| ChatListSafety.OpenGroupShowsMembersInOrder | crates/agent_chat/src/agent_panel.rs:1139-1155 | in an open group these sessions stand one after the other, each followed by exactly its side chats |
| ChatListSafety.MembersKeepTheOrder | crates/agent_chat/src/agent_panel.rs:1163-1201 | in the order of the sessions |
| ChatListSafety.GroupsStandInOrder | crates/agent_chat/src/agent_panel.rs:1163-1203 | pinned chats come first, no two groups are of one kind, and projects stand in the order in which the sessions first name them |
| ChatListSafety.GroupsAreThoseWithMembers | crates/agent_chat/src/agent_panel.rs:1170-1203 | no group is empty, and each counts all its members |
| ChatListSafety.AttentionIsNeverHidden | crates/agent_chat/src/agent_panel.rs:1111-1146 | whatever is collapsed, a session that needs attention has a row if and only if it has one with nothing collapsed |
| ChatListSafety.TotalsAddUp | crates/agent_chat/src/agent_panel.rs:1156-1161 | the counts of the groups add up to the number of top-level sessions |

## Left out

- Titles, timestamps of metadata, outcomes, the flags for compacting and failed runs, unread marks and notifications: display only.
- Background tasks, questions to the user and context usage: they touch neither queue, run nor transcript.
- The debounced save, file modes and atomic writes: a save is taken as one step.
- Pinning settings, and changing the permission setting during a chat, which only decides whether a notice is shown.
- The wording of the saved history a fork sends along: only whether a run carries it is modelled.
- Dropping a run is taken to end its events, as dropping its task does.
- Queue ids and request ids are unbounded numbers; overflow after 2^63 of them is not modelled.
- Whether a list of models is labelled live or cached.
- Normalising Claude's frames and rotating message ids: frames carry arbitrary event lists.
- Answers to Claude's permission questions, which spawned tasks write to stdin at any time.
- Process start, signals and shutdown: whether stdin's writer and the events' consumer are still there are inputs.
- Classifying errors from text: a failed discovery arrives with its code; `needs_cooldown` itself is modelled on its text.
- JSON encoding: saved files are values, and a file that does not parse is one value.
- Plan names, usage requests and listing failures of the accounts directory.
- Accounts.SlotIdFor: stands in for the first 8 bytes of SHA-256 and is injective, as different hashes are assumed to be; account ids are numbers instead of sixteen hexadecimal digits.
- Accounts.CodexIdentity: a token carries its decoded claims, and an API key stands for its own digest.
- Accounts.Stores.ReadSlots: asks for file names that match the ids inside the files, which every slot the program wrote has.
- JsonRpc.ResponseId: a float is given by its value; an integer above the signed 64-bit range saturates as its float would.
- ClaudeRun.OnSteer: the text and images of a steer line are not modelled, only its id and whether it may go at once.
- Rendering of the list and of clipped output, search itself, and expansion of single tools: user interface.
