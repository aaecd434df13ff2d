# Meetings of sandboxed personas: a model and its proofs

A meeting is driven by a chair, which picks one attendee after the other, and by one node
per attendee, which leases a sandbox, binds the attendee's persona into it, asks it for one
turn, retries once against a replacement, records the result and hands an update back to
the graph. Around that stand a cluster that creates and loses sandboxes, a durable store of
finished turns, and a backend that can crash at any point and forget which sandboxes it
holds. This project models that protocol as a state machine, the code of its actors as
imperative Dafny, and the text, wire and selection rules they depend on as functions; and
it proves what the system promises about them for every input and every run.

## How the files fit together

- `State`, `Speaker`, `Supervisor`, `Meeting`: the graph state and its reducers, the chair's
  decision procedure, and a whole meeting at the level of its nodes.
- `Machine`: the distributed protocol. Every action is what one actor does without being
  interrupted; between any two actions the backend may crash, a sandbox may be lost or
  restarted in place, and any other meeting may move. `Invariant` and `Preservation` say and
  prove what holds in every reachable state, `Paths` and `Transparency` prove crash
  transparency by a simulation, `History` proves that the distributed protocol refines the
  plain meeting, and `Guarantees` collects what operators are promised. `Records` sets the
  durable record against the turn in progress, `Endings` says what becomes of a meeting's
  leases when it ends.
- `Manager`, `AgentNode`, `Runtime`, `TurnCache`, `Executor`: the actors' code as classes and
  loops. `AgentNode.Backend.Run`, `Executor.Finish` and the two methods of `Sandbox` are shown to
  take only steps the state machine has, so whatever is proved of the machine's runs holds of
  them.
- `Chair`: one step of the chair with the ladders of model calls it climbs.
- `Thought`, `Salvage`, `Ladder`, `Prompt`, `ScopedToken`, `UrlPath`, `Sse`, `Profiles`: the
  transformations and selections with exact laws. `Json` writes and reads the values that tokens
  and events carry.
- `Text` and `Wrappers`: string operations of the source language, optional values.

Some conventions. Ids are non-empty, contain no colon, and are not the word FINISH, as the
application issues them. Model answers, store and cluster outcomes, the clock, the signing
primitive, and the parser of what models write, are parameters or free choices. A node's update
is applied atomically, and after a crash the last uncompleted node is executed again, as
`backend/app/models/turn_results.py:3-9` says. A claimed sandbox comes from a warm pool and may
have served another meeting before. A calm comparison run in the transparency theorem has no
crash, no lost sandbox, no failing lookup or recording of a turn, and no exception on leaving
a client whose answer has come through.

## What the code does that its documentation does not say

- Acquiring a sandbox (`backend/app/sandbox/manager.py:132-160`): when the creation succeeds
  and the read-back of the object fails, no lease is kept and no deletion is asked for. The
  claim accounting has a place of its own for such claims, and
  `Guarantees.FailedReadBackStrands` exhibits one in a run without any crash.
- Ending a meeting (`backend/app/services/meeting_executor.py:112-128`): when storing the
  status raises, the leases are not handed back, then or ever after. The handler
  (`backend/app/services/meeting_executor.py:168-189`) may store the status as failed, under a
  message about checkpointing, but releases nothing. So at any time after that a meeting that is
  not resumed holds no lease exactly when the first store succeeded, or it held none, or the
  backend has crashed since (`Endings.LeasesGoWithTheFirstStore`); that the status is stored in
  the end does not matter (`Endings.HandlerReleasesNothing`), and
  `Endings.AbandonedMeetingKeepsLeases` exhibits a stored failure with a lease held for good.
- Leaving the sandbox's client (`backend/app/sandbox/client.py:59-61`) happens after the turn was
  recorded and inside the clause that catches every exception
  (`backend/app/orchestration/agents.py:207-246`). If closing raises on the first attempt, the
  lease is given up and a turn that is on record is put to a persona again, whose new answer is
  handed back while the record keeps the first one; on the second attempt a failure is handed
  back for a recorded success. `Records.AnswersAreOnRecord` says exactly when that happens,
  `Records.ClosingMayAskAgain` and `Records.RecordedTurnAskedAgain` that it can, and
  `Records.RecordedTurnIsFinal` what holds when it does not.
- The chair returns its reason under `reasoning`, the attendee's node reads
  `next_speaker_reason` (`backend/app/orchestration/agents.py:181-183`,
  `backend/app/orchestration/supervisor.py:358-362`): the directive is always empty
  (`Guarantees.DirectiveAlwaysEmpty`).
- Salvaging sees only the first 300 characters of a reply
  (`backend/app/orchestration/llm_call.py:115`, `backend/app/orchestration/llm_call.py:209`): a
  decision whose long reasoning comes first is lost. `Salvage.MarkupRoundTrip` says exactly
  when the speaker comes back.
- The comment on an account of a failed ladder says that it leads with the last attempt
  (`backend/app/orchestration/llm_call.py:93-94`); it begins with the first (`Ladder.FailureTold`).
- A thought is removed whole exactly when no closing tag occurs in it
  (`Thought.RemovedWholeExactly`). One that holds a closing tag of either kind ends there, and
  the rest of it is published (`Thought.EarlyCloseLeaks`); a thought written inside a thought
  is one way to get there (`Thought.NestedThoughtLeaks`). An opening bracket alone does no harm.
- The key id pattern (`backend/app/sandbox/scoped_token.py:39`) lets a trailing newline
  through, and nothing else (`ScopedToken.NewlineSlipsThrough`).
- An event is received as it was sent exactly when no text in it contains U+0085, U+2028 or
  U+2029, at which the client's line splitting cuts it in two (`Sse.EventGetsThrough`); that
  includes the event that settles a turn (`Sse.ResultGetsThrough`).
- Replacing key after key is not substitution at once. In a given template the next key goes
  wrong for some value exactly when its placeholder is spelled somewhere but at its own place
  (`Prompt.NextKeyExactly`). A value `v` is safe in every template, whatever the later key's
  value, exactly when the later placeholder does not occur in `v`, no end of `v` of two or more
  characters begins that placeholder, and `v` does not complete one with another copy of itself
  (`Prompt.ValuesReenterExactly`); the order of two keys matters in some template in just the
  other cases (`Prompt.OrderMattersExactly`). Not containing the placeholder is enough only in a
  template that is a single placeholder (`Prompt.OnePlaceholderExactly`).
- A stream that closes without a result on the second attempt reports the first attempt's
  exception (`backend/app/orchestration/agents.py:199-253`); the machine's closing step does
  the same.
- Startup terminates every live meeting, so a meeting found halted is resumed only when that
  failed; a reaped one stays where its checkpoint was (`Guarantees.ReapedNeverResumes`).

## Model

| member | source | states |
|---|---|---|
| State.TurnKeyInjective | backend/app/orchestration/agents.py:99-102 | the idempotency key determines meeting, turn and attendee; only the meeting id must be free of colons |
| State.RehydrateSerialise | backend/app/orchestration/agents.py:303-315 | an update survives storing and reloading exactly when it carries messages and all of them are tagged utterances |
| State.SuccessRoundTrip | backend/app/services/turn_cache.py:26-36 | every success update survives the turn store unchanged |
| Speaker.RecoverExact | backend/app/orchestration/recovery.py:56-95 | the result is an attendee or the closing word, it is an attendee exactly when the answer names that one (by id, or as the only attendee alluded to), and a text without enough characters names nobody |
| Speaker.RecoveredByName | backend/app/orchestration/recovery.py:81-95 | an answer of at least three characters that is neither an id nor the closing word is mapped to an attendee if and only if it stands in that one's display name, title or id, up to the case of letters, and in no text of anybody else |
| Speaker.FinishExactly | backend/app/orchestration/recovery.py:78-79 | which answers say the closing word: those that spell it, whatever the case and the space around it |
| Supervisor.FirstUnheardOf | backend/app/orchestration/supervisor.py:45-59 | the first attendee in order who has not spoken, or none exactly when all have |
| Supervisor.SupervisorNode | backend/app/orchestration/supervisor.py:152-439 | the three-attempt loop with its early returns and fallbacks computes one choice among the three replies; the code after the loop is not reached |
| Supervisor.SuperviseProper | backend/app/orchestration/supervisor.py:97-149 | every update of the chair names an attendee or closes, spends at most one turn, and adds no attributed message |
| Supervisor.ChairChoosesValidly | backend/app/orchestration/graph.py:59-66 | the router's invalid-target branch is never taken; naming an attendee spends exactly one turn of a meeting that had one left |
| Supervisor.NoPrematureConclusion | backend/app/orchestration/supervisor.py:305-417 | with turns left and somebody unheard, the meeting closes if and only if the deciding reply says FINISH, and an attendee is called if and only if the deciding reply names them or nothing decides and they are the first unheard |
| Meeting.ChairStep | backend/app/orchestration/supervisor.py:358-374 | what one chair step settles and what it leaves alone |
| Meeting.TurnStep | backend/app/orchestration/agents.py:318-369 | any turn, said or failed, adds exactly one utterance of that attendee and touches nothing the chair decides on |
| Meeting.SaidTurn | backend/app/orchestration/agents.py:318-345 | a turn said adds to the transcript one utterance of that attendee with the result's public content, to the event log one event with that content, the private reasoning and the tool calls, to the audit one entry for each tool result with its name, outcome and denial; and nothing else but the attendee's sandbox and the active agent changes |
| Meeting.FailedTurn | backend/app/orchestration/agents.py:348-370 | a failed turn says so under the attendee's name and title, and its message stands in the event and the audit alone |
| Meeting.RequestTells | backend/app/orchestration/agents.py:155-184 | a request carries the turn's key, the topic, the whole roster, and one line with speaker and text for every utterance so far, in order |
| Meeting.NextRequest | backend/app/orchestration/agents.py:171-180 | after a turn said, whoever is called next is shown what was shown before and then that turn's public content, whatever the chair said in between |
| Meeting.ChairConcludes | backend/app/orchestration/supervisor.py:162-189 | stopped or out of turns, the chair tells which of the two in an event and the summary, says that it concluded, and touches nothing else |
| Meeting.ChairChooses | backend/app/orchestration/supervisor.py:352-374 | with a deciding reply, its reason stands in the event, and is the summary of a meeting it closes; the choice stands in the state and in what the chair says, and one turn is spent |
| Meeting.ChairFallsBack | backend/app/orchestration/supervisor.py:97-149 | with no usable reply and somebody unheard that one is called: with the last reply's reason, or with its error cut to 160 characters and the second event |
| Meeting.ChairGivesUp | backend/app/orchestration/supervisor.py:382-417 | with no usable reply and everybody heard the meeting closes: on the last reply's reason, or on an account of its error in an event without a message |
| Meeting.ChairIsSilent | backend/app/orchestration/state.py:44-52 | nothing the chair says enters the public transcript or counts as a turn |
| Meeting.WorkBound | backend/app/orchestration/graph.py:40-75 | a meeting takes at most the turns left, the chair acts once more than there are turns, and it ends closed with one utterance a turn |
| Meeting.DeadChairFrom | backend/app/orchestration/supervisor.py:382-402 | with a model that never answers usably, those still unheard get one turn each in attendee order, up to the limit |
| Meeting.DeadChairCoversEveryone | backend/app/orchestration/supervisor.py:97-149 | from an empty meeting with such a model, each attendee is heard exactly once in order, up to the limit, and the meeting closes |
| TurnCache.Cache.constructor | sandbox/runtime/runtime/idempotency.py:24-26 | a new cache is empty and within its bound |
| TurnCache.Cache.Get | sandbox/runtime/runtime/idempotency.py:28-32 | a hit moves its entry to the recent end, a miss changes nothing |
| TurnCache.Cache.Put | sandbox/runtime/runtime/idempotency.py:34-38 | the stored entry is the most recent and the least recent ones beyond the bound are gone |
| TurnCache.Cache.Clear | sandbox/runtime/runtime/idempotency.py:40-41 | nothing is left |
| TurnCache.TraceLaw | sandbox/runtime/runtime/idempotency.py:23-41 | on every trace the bound holds and a hit is the last value put since the last clear |
| TurnCache.RecencyLaw | sandbox/runtime/runtime/idempotency.py:28-38 | entries stand in the order they were last touched, and what was evicted is older than everything in a full cache |
| TurnCache.TraceInclusion | sandbox/runtime/runtime/idempotency.py:23-41 | on the same trace the smaller cache is a subsequence of the larger, and its hits are hits there with the same value |
| TurnCache.InclusionIsNotSuffix | sandbox/runtime/runtime/idempotency.py:28-32 | a trace on which the smaller cache is not the recent end of the larger one |
| Preservation.StepKeeps | backend/app/orchestration/agents.py:87-253 | every action of every actor, faults included, keeps the protocol's invariant |
| Preservation.RunKeeps | backend/app/orchestration/agents.py:87-253 | the invariant holds throughout every run |
| Preservation.LeaseOwns | backend/app/sandbox/manager.py:48-60 | a lease's sandbox was claimed for its persona, is not deleted, lost or stranded, and when marked bound holds nobody else |
| Preservation.CachedTurnAnswers | sandbox/runtime/runtime/server.py:148-153 | what a sandbox replays for a turn was said by this persona to this very request |
| Paths.SuccessPath | backend/app/orchestration/agents.py:200-231 | from entering a node, any answer the persona may give can be brought back from its own sandbox or a fresh one, without touching anybody else |
| Paths.FailurePath | backend/app/orchestration/agents.py:220-224 | likewise any recorded failure |
| Transparency.StepFollows | backend/app/orchestration/agents.py:87-253 | one step of a faulty run is matched by a calm path to a world with the same checkpoints |
| Transparency.CrashTransparency | backend/app/orchestration/agents.py:99-108 | wherever a run arrives, through any crashes, lost sandboxes, failing stores, replays and interleaved meetings, a run without any of these brings every meeting to the same node and state |
| History.RunsArePlays | backend/app/orchestration/graph.py:40-75 | in every reachable state each meeting's checkpoint is what a plain sequence of chair steps and honest turns makes of its opening |
| History.PlayBounds | backend/app/orchestration/supervisor.py:162-170 | along any such sequence turns stay within the limit, the chair acts once before each turn and once to close, and the transcript has one utterance a turn |
| History.MeetingsAreBounded | backend/app/orchestration/supervisor.py:152-189 | the same bounds for every meeting of every distributed run, however often the backend crashes |
| History.TranscriptOfRuns | backend/app/orchestration/state.py:50-52 | in every reachable state the public transcript is exactly one utterance for each turn of the meeting's history, in order: the persona's public content word for word, or the notice of a turn that failed |
| History.RequestsOfRuns | backend/app/orchestration/agents.py:155-184 | in every reachable state whoever is to speak is asked with the turn's key, the topic the meeting opened with, the whole roster, and exactly those lines: none for the first speaker |
| History.DeadChairStillCovers | backend/app/orchestration/supervisor.py:97-149 | in every distributed run with a chair that never gets a usable reply, each meeting that reached its end heard every attendee exactly once, in roster order, up to the limit, whatever crashed |
| Guarantees.BoundBeforeTurn | sandbox/runtime/runtime/server.py:143-153 | a turn request only reaches the attendee's own persona for this meeting, and an accepted answer was given by it to this request from the leased sandbox |
| Guarantees.ReplacementIsRebound | backend/app/orchestration/agents.py:215-218 | whoever asks holds a lease marked bound, on a sandbox with no other persona in it |
| Guarantees.ClaimsAccountedFor | backend/app/sandbox/manager.py:97-240 | every claim ever created is in exactly one place: leased, in hand, deleted once, orphaned or stranded |
| Guarantees.LeasesAreDisjoint | backend/app/sandbox/manager.py:127-130 | no two leases share a sandbox |
| Guarantees.DrainedMeetingHoldsNothing | backend/app/services/meeting_executor.py:102-128 | once the executor is done the meeting holds no lease and each of its claims was deleted, orphaned or stranded |
| Endings.LeasesGoWithTheFirstStore | backend/app/services/meeting_executor.py:112-128 | over every run and every continuation in which the meeting is not resumed: after the executor's store of the status it holds no lease exactly when that store succeeded, or it held none, or a crash followed; without a crash its leases are exactly the same, and a crash makes orphans of their sandboxes; it is resumed only after a raising store and a crash |
| Endings.HandlerReleasesNothing | backend/app/services/meeting_executor.py:168-189 | whether or not the handler of a raising store stores a failure, the meeting stays abandoned for good and holds exactly what it held, in every continuation, until the backend crashes |
| Endings.AbandonedExactly | backend/app/services/meeting_executor.py:168-189 | a meeting is abandoned exactly when such a handler finished with it somewhere along the run, and only after storing its status had raised |
| Endings.HoldingAfterTheEnd | backend/app/services/meeting_executor.py:112-128 | a meeting that has ended and still holds a lease is abandoned, its first store raised, and the backend is up |
| Endings.AbandonedMeetingKeepsLeases | backend/app/services/meeting_executor.py:112-189 | a run with no crash, no lost sandbox, no failing turn store and no raising close, in which a meeting ends with its status stored as failed and a lease that no continuation without a crash ever takes away |
| Guarantees.FailedReadBackStrands | backend/app/sandbox/manager.py:132-160 | a run without crashes in which a claim ends up neither leased nor deleted nor orphaned |
| Guarantees.StrandedIsAlone | backend/app/sandbox/manager.py:149-160 | a stranded claim is never leased, deleted by the manager, or orphaned |
| Guarantees.StartupSweepsOrphans | backend/app/sandbox/reaper.py:54-137 | after a crash everything not deleted is orphaned or stranded, and startup's reap and sweep targets every sandbox the cluster lists |
| Guarantees.SweepsSpareTheLiving | backend/app/sandbox/reaper.py:106-131 | a sandbox that is leased, or on its way to a lease or its deletion, has never been swept |
| Guarantees.NodeWorkBounded | backend/app/orchestration/agents.py:185-200 | one execution of an attendee's node makes at most two claims, two binds and two turn requests |
| Guarantees.RecordedTurnIsReplayed | backend/app/orchestration/agents.py:104-108 | with a working store a recorded turn can only be looked up, at no further work, and hands back exactly the recorded update |
| Records.AnswersAreOnRecord | backend/app/orchestration/agents.py:200-246 | while the store works, and whatever else fails: a turn being worked on is on record, an answer handed back differs from the record, and a failure is handed back for a recorded turn, each exactly when leaving a client raised behind an answer in this execution |
| Records.RecordedTurnIsFinal | backend/app/services/turn_cache.py:59-78 | if neither the store nor the closing of clients fails, no recorded turn is ever worked on again and every answer handed back is the recorded one, through any crashes |
| Records.ClosingMayAskAgain | backend/app/sandbox/client.py:59-61 | from every reachable state with an answer on its way out on the first attempt, a raising close can lead to any answer the persona may give being handed back, while the record keeps the first |
| Records.RecordedTurnAskedAgain | backend/app/orchestration/agents.py:207-246 | a run with a working store in which an answer that is not the recorded one is handed back |
| Guarantees.ReapedNeverResumes | backend/app/sandbox/reaper.py:40-69 | a meeting terminated at startup never moves again |
| Guarantees.DirectiveAlwaysEmpty | backend/app/orchestration/agents.py:181-183 | the directive of every turn request is empty |
| Manager.SandboxManager.Acquire | backend/app/sandbox/manager.py:97-180 | returns the held sandbox, or claims one and leases it unbound; a failure leaves no lease even if the sandbox exists |
| Manager.SandboxManager.NeedsBind | backend/app/sandbox/manager.py:182-185 | true exactly when there is no lease marked bound |
| Manager.SandboxManager.MarkBound | backend/app/sandbox/manager.py:187-190 | marks the lease if there is one and changes nothing else |
| Manager.SandboxManager.Invalidate | backend/app/sandbox/manager.py:192-210 | forgets exactly this lease and asks for its sandbox's deletion once |
| Manager.SandboxManager.ReleaseMeeting | backend/app/sandbox/manager.py:235-240 | gives up every lease of the meeting and no other, one deletion request per lease |
| Manager.Cluster.Bind | backend/app/sandbox/client.py:72-90 | a bind was served and answered, or raised before or after it was served |
| Manager.Cluster.Turn | backend/app/sandbox/client.py:92-111 | a turn was replayed, taken anew, refused, or lost before or after the sandbox answered |
| Manager.TurnStore.Lookup | backend/app/services/turn_cache.py:39-56 | a hit is the row rebuilt; a failing lookup is a miss |
| Manager.TurnStore.Record | backend/app/services/turn_cache.py:59-78 | the first write wins and a failing write changes nothing |
| AgentNode.Backend.BindFirst | backend/app/orchestration/agents.py:215-217 | the bind of a fresh lease, marked once answered, as steps of the state machine |
| AgentNode.Backend.Attempt | backend/app/orchestration/agents.py:207-231 | bind if needed, then ask, as steps of the state machine; an exception leaves the node holding what it held |
| AgentNode.Backend.KeepAnswer | backend/app/orchestration/agents.py:225-231 | an answer is recorded and carried out of the client's block, as steps of the state machine |
| AgentNode.Backend.LeaveClient | backend/app/sandbox/client.py:59-61 | closing the client hands the update back, or raises and forgets the lease, with one more attempt after a first one only |
| AgentNode.Backend.Settle | backend/app/orchestration/agents.py:219-253 | each outcome of an attempt is handed back, recorded, given up or retried as the state machine does |
| AgentNode.Backend.Iterate | backend/app/orchestration/agents.py:200-253 | one pass of the retry loop; only a first attempt is retried |
| AgentNode.Backend.Run | backend/app/orchestration/agents.py:87-253 | a whole execution of the node is a run of the state machine by this meeting alone that ends with the returned update |
| Runtime.TakeTurn | sandbox/runtime/runtime/agent.py:127-244 | advisory events, then one result: under the persona's name and title what is published of the last model message with text in it, apart from that its thoughts, every tool call made, and a report of every tool; or the exception after advisory events only |
| Runtime.ResultTells | sandbox/runtime/runtime/agent.py:175-244 | which message is the last one said, which calls were made, what is reported of each tool, and what is published, each without reference to how the loop collects it |
| Runtime.JudgeJudges | sandbox/runtime/runtime/agent.py:182-205 | a tool report is refused exactly under the prefix of a denial and a failure exactly under one of the two words for it, in any case; its summary is the first 500 characters and its denial what follows the prefix |
| Runtime.RuntimeState.BindPersona | sandbox/runtime/runtime/server.py:115-138 | binding another agent clears the cache, the same agent keeps it, and everything cached belongs to the bound agent |
| Runtime.RuntimeState.RunTurn | sandbox/runtime/runtime/server.py:141-171 | refused without a persona; else exactly one result or error ends the stream, a cached turn is replayed as stored, and only results are cached |
| Runtime.AskTwice | sandbox/runtime/runtime/server.py:148-153 | asking again for a turn that gave a result gives that result alone, whatever the model would say now |
| Sandbox.ServeBindRequest | sandbox/runtime/runtime/server.py:115-138 | what the server does with a bind is the machine's bind of that sandbox |
| Sandbox.ServeTurnRequest | sandbox/runtime/runtime/server.py:141-171 | what it does with a turn request is the machine's replay, result or error there, with the reply the backend reads; it is refused exactly when the machine has no such step |
| Executor.Execute | backend/app/services/meeting_executor.py:95-135 | what is stored of a drained stream, that the last reasoned conclusion is the summary, and that leases are released only after storing succeeded |
| Executor.Handle | backend/app/services/meeting_executor.py:168-189 | with the durable checkpointer a raising store is caught, the status stored as failed and an error reported, unless that raises too; without it nothing changes |
| Executor.Finish | backend/app/services/meeting_executor.py:95-189 | the executor's last steps are a run of the state machine: drained and done with the status stored; otherwise abandoned with leases and sandboxes unchanged, whether or not the handler stored a failure |
| Executor.Registry.Reap | backend/app/sandbox/reaper.py:40-69 | exactly the live meetings are terminated |
| Executor.Registry.Sweep | backend/app/sandbox/reaper.py:72-137 | the deletions tried are exactly those of labelled sandboxes whose meeting is not live, in order |
| Executor.Registry.Startup | backend/app/main.py:134-140 | reaping before sweeping makes every labelled sandbox a target, and nothing else |
| Thought.PublicHasNoTag | backend/app/orchestration/recovery.py:195-215 | the public text of any input contains no opening thought tag |
| Thought.PiecesSpell | backend/app/orchestration/recovery.py:43-43 | the scan loses nothing: its pieces spell the input, each span an opening tag, a body without closing tags, and a closing tag |
| Thought.PublicKeepsOrder | backend/app/orchestration/recovery.py:206-213 | before trimming, the public text is a subsequence of the input |
| Thought.SplitTagless | backend/app/orchestration/recovery.py:195-215 | a text without tags is all public |
| Thought.SplitIsIdempotent | backend/app/orchestration/recovery.py:195-215 | splitting the public text again changes nothing |
| Thought.RemovedWholeExactly | backend/app/orchestration/recovery.py:43-43 | a thought marked off where the scan stands is removed as one span, and the scan goes on behind it, exactly when no closing tag occurs in it |
| Thought.EarlyCloseLeaks | backend/app/orchestration/recovery.py:43-43 | every thought with a closing tag in it ends at the first one, and what follows is left to the public scan and published unless it opens a thought |
| Thought.NestedThoughtLeaks | backend/app/orchestration/recovery.py:43-43 | what remains of an outer thought after a nested one is published |
| Thought.TakenApartAsMeantExactly | backend/app/orchestration/recovery.py:43-48 | tagless texts with thoughts marked off between them are taken apart as meant exactly when no thought holds a closing tag |
| Thought.SplitReadsBack | backend/app/orchestration/recovery.py:195-215 | then the thoughts are private and the text is public up to the first opening tag that removals put together; all of it is exactly when there is none |
| Thought.PrefixKeepsTagless | backend/app/orchestration/recovery.py:218-224 | dropping the speaker prefix uncovers no tag |
| Thought.PublishedExactly | backend/app/orchestration/recovery.py:218-224 | what is published of an answer, for every answer: its public part, less a bracketed prefix that closes on the first line and the space after it, or the notice exactly when nothing is left |
| Thought.PublishedText | sandbox/runtime/runtime/agent.py:207-213 | what the runtime publishes is never empty and never opens a thought |
| Salvage.SalvagedIsTrimmed | backend/app/orchestration/recovery.py:98-152 | whatever is salvaged names a trimmed, non-blank speaker |
| Salvage.CallsComeFirst | backend/app/orchestration/recovery.py:120-129 | the first usable tool call settles the matter whatever the text says |
| Salvage.ObjectInProse | backend/app/orchestration/recovery.py:163-166 | a JSON object is found whole in prose that opens no brace before it and closes none after it |
| Salvage.FenceSalvaged | backend/app/orchestration/recovery.py:169-172 | a decision in a fence is found in any prose without another fence, when the text from the first brace to the last is no decision |
| Salvage.FunctionSalvaged | backend/app/orchestration/recovery.py:189-192 | a decision in a function tag of any name is found in any prose without another tag, when nothing tried before it decides |
| Salvage.MarkupSalvaged | backend/app/orchestration/recovery.py:175-186 | of printed key and value markup cut off at any length, exactly the complete pairs decide |
| Salvage.MarkupRoundTrip | backend/app/orchestration/recovery.py:98-152 | the printed speaker comes back if and only if its pair is complete within the cut, with the reasoning that is |
| Salvage.ShortMarkupRoundTrip | backend/app/orchestration/llm_call.py:205-209 | within the 300 characters passed on nothing is lost |
| Salvage.LongReasoningLosesTheSpeaker | backend/app/orchestration/llm_call.py:98-116 | a decision behind a longer reasoning is lost |
| Ladder.StructuredCall | backend/app/orchestration/llm_call.py:162-238 | the loop over strategies computes the ladder |
| Ladder.LadderSound | backend/app/orchestration/llm_call.py:183-238 | for any strategies and responses: a value exactly when the last attempt is ok, all earlier ones failed, it carries the field, and the rungs were climbed in order, each when due and with its own budget |
| Ladder.ValueIsTheAnswer | backend/app/orchestration/llm_call.py:199-219 | a ladder's value is what its last response offers: the parsed answer whenever that carries the field in visible text, and otherwise what is salvaged of its calls and first 300 characters; no response before it settled the question, and without a value none did |
| Ladder.ParsedFirst | backend/app/orchestration/llm_call.py:199-219 | a usable parsed answer to the first call for tools is the value, after that one call |
| Ladder.AttemptsTell | backend/app/orchestration/llm_call.py:183-213 | what each attempt records of its response: whether it settled the question, why it stopped, whether it called a tool, and its error |
| Ladder.FailureTold | backend/app/orchestration/llm_call.py:90-95 | the account of a failure gives every attempt's reason, first to last |
| Ladder.RetriesFollowTruncation | backend/app/orchestration/llm_call.py:227-236 | a repeat comes only directly after a truncated reply, and each budget is the base or three times it |
| Ladder.DefaultLadder | backend/app/orchestration/llm_call.py:223-238 | the default ladder yields a value, within three calls, exactly when the first response settles the question, or was cut off and the repeat with three times the budget does, or text is available and the call for text does |
| Ladder.ChairLadder | backend/app/orchestration/supervisor.py:310-318 | a tool call naming a speaker is used at the first call |
| Ladder.RepliesNameSomebody | backend/app/orchestration/supervisor.py:335-337 | a successful ladder never hands the chair an empty name |
| Chair.ChairNode | backend/app/orchestration/supervisor.py:152-421 | the step driven by its ladders computes the chair's choice among what they yield, climbs only as many as it must, and makes at most nine calls, none in a meeting that must conclude |
| Chair.DecisionIsAnAnswer | backend/app/orchestration/llm_call.py:183-238 | a ladder decides for a speaker with a reason exactly when the first response that settles the question, parsed or salvaged, gives that speaker and that reason |
| Chair.MeetingCallsBounded | backend/app/orchestration/supervisor.py:152-421 | a whole meeting asks the chair's model at most nine times for each turn taken and once more, and at most nine times for each turn there was |
| Chair.ClosesOnlyOnTheWord | backend/app/orchestration/supervisor.py:305-374 | with turns left and somebody unheard, the meeting closes exactly when the first settling response of the model literally says FINISH |
| Prompt.BuildSystemPrompt | sandbox/runtime/runtime/persona.py:78-81 | the loop computes the replacements in turn |
| Prompt.SequentialIsSimultaneous | sandbox/runtime/runtime/persona.py:48-81 | with texts and values that open no brace, replacing key after key equals one-pass substitution, unknown placeholders staying as they are |
| Prompt.KeyOrderIsIrrelevant | sandbox/runtime/runtime/persona.py:48-81 | the order of the keys does not matter |
| Prompt.NextKeyExactly | sandbox/runtime/runtime/persona.py:78-80 | for any pieces, any values and any number of keys before it: as long as the replacements so far are the one-pass substitution, the next key keeps it so for every value exactly when its token occurs in what they left only at its own placeholders |
| Prompt.TwoKeysExactly | sandbox/runtime/runtime/persona.py:78-80 | the same for any clean template and two keys, of which the first has any value |
| Prompt.ValuesReenterExactly | sandbox/runtime/runtime/persona.py:78-80 | a value is harmless in every clean template and for every later value exactly when it neither holds the later placeholder, nor ends in two or more characters that begin one, nor completes one with another copy of itself |
| Prompt.OrderMattersExactly | sandbox/runtime/runtime/persona.py:48-81 | the order of two keys makes no difference in any clean template, for any harmless second value, exactly when the first value is harmless |
| Prompt.OnePlaceholderExactly | sandbox/runtime/runtime/persona.py:78-80 | in a template that is one placeholder, exactly when the other placeholder does not occur in the value |
| Prompt.BracesReenter | sandbox/runtime/runtime/persona.py:78-80 | in such a template a value that spells a placeholder is replaced by a later key and not by an earlier one |
| Prompt.PersonaPrompt | sandbox/runtime/runtime/persona.py:48-76 | a persona and an occasion whose fields open no brace get exactly the one-pass prompt |
| Prompt.FieldsFill | sandbox/runtime/runtime/persona.py:48-76 | placeholder by placeholder, which field of the persona or word about the meeting fills it and what stands in for an empty one; no other name is filled |
| Prompt.BulletsExactly | sandbox/runtime/runtime/persona.py:16-17 | a list is one dashed line for each item in order, and an empty one says that there is none |
| Prompt.CommaListExactly | sandbox/runtime/runtime/persona.py:20-21 | a list is its items in order with commas between them, and an empty one its stand-in |
| ScopedToken.B64IsUnpadded | backend/app/sandbox/scoped_token.py:58-59 | stripping the padding gives exactly the unpadded form |
| ScopedToken.B64RoundTrip | backend/app/sandbox/scoped_token.py:58-59 | unpadded base64url decodes back and never contains a dot (section 5 of RFC 4648) |
| ScopedToken.ClaimsRead | backend/app/sandbox/scoped_token.py:97-106 | parsing the payload text gives back every claim under the name it goes by |
| ScopedToken.ClaimsInjective | backend/app/sandbox/scoped_token.py:97-106 | different claims are different texts |
| ScopedToken.TokenHasFourFields | backend/app/sandbox/scoped_token.py:106-108 | a token splits on dots into exactly four fields that give back key id, payload and signature |
| ScopedToken.TokenReads | backend/app/sandbox/scoped_token.py:90-108 | splitting a minted token, decoding its third field and parsing it gives the namespace, sandbox, uid and port it was minted for, the verb trimmed and in capitals, the path in its normal form, and the moment it expires |
| ScopedToken.SigningInputInjective | backend/app/sandbox/scoped_token.py:106-107 | what is signed determines key id and claims |
| ScopedToken.MintFor | backend/app/sandbox/scoped_token.py:90-105 | exactly when minting fails, and that the claims are the target's, expiring after the lifetime asked for |
| ScopedToken.SameClaims | backend/app/sandbox/scoped_token.py:97-105 | exactly which targets share their claims |
| ScopedToken.NewlineSlipsThrough | backend/app/sandbox/scoped_token.py:39-39 | the pattern's longest run, backtracking and end anchor accept, besides key ids, exactly key ids with a newline after them |
| UrlPath.DecodeUtf8 | backend/app/sandbox/scoped_token.py:73-73 | decoding with replacement inverts UTF-8 encoding |
| UrlPath.UnquoteQuote | backend/app/sandbox/scoped_token.py:73-73 | percent-encoding loses nothing |
| UrlPath.QuotesExactly | backend/app/sandbox/scoped_token.py:73-73 | character by character, quoting leaves exactly the characters of a path as they are and escapes every byte of any other (section 3.3 of RFC 3986) |
| UrlPath.UnquoteChangesExactly | backend/app/sandbox/scoped_token.py:73-73 | percent-decoding changes a text exactly when it holds a percent sign and two hexadecimal digits in either case |
| UrlPath.NormaliseIsIdempotent | backend/app/sandbox/scoped_token.py:62-73 | a normal form is absolute and its own normal form |
| UrlPath.SameFormSameText | backend/app/sandbox/scoped_token.py:62-73 | two absolute paths have equal normal forms exactly when they decode to the same text |
| Json.ParsePrint | backend/app/orchestration/protocol.py:210-211 | any JSON value, printed in either serialiser's style, parses back to itself (RFC 8259) |
| Json.EscapesExactly | backend/app/sandbox/scoped_token.py:106-106 | which characters each serialiser leaves as they are; the one for tokens writes printable ASCII alone |
| Sse.StreamTurn | backend/app/sandbox/client.py:92-111 | the loop over lines yields the parsed payloads, skipping what does not parse |
| Sse.StreamRoundTrip | backend/app/orchestration/protocol.py:210-211 | framed payloads come back exactly when none contains a line-breaking character |
| Sse.EventsArrive | backend/app/sandbox/client.py:101-109 | events whose text has no line break arrive in order and as sent |
| Sse.EventGetsThrough | backend/app/orchestration/protocol.py:210-211 | any JSON object sent as an event is received as it was sent exactly when no text in it holds one of the three line breaks the serialiser leaves in, and then parses to what was sent |
| Sse.ResultGetsThrough | backend/app/orchestration/protocol.py:145-211 | the same for the event that settles a turn, over its texts, tool calls with any arguments, tool results and usage |
| Sse.ResultArrives | backend/app/sandbox/client.py:92-111 | from the sandbox's serialiser through the frame, the line splitter and the parser, the client gets the very turn that was settled: every text, call, argument, report and count |
| Profiles.ResolveFailsExactly | backend/app/orchestration/profiles.py:223-249 | resolution fails exactly for an unknown tool or an uncovered request; it then names the unknown tools, or the first of the profiles sharing most with the request and just the tools that one lacks |
| Profiles.ResolveIsSmallest | backend/app/orchestration/profiles.py:204-207 | with profiles in order of size no covering profile is smaller than the one resolved |
| Profiles.OrderMatters | backend/app/orchestration/profiles.py:238-240 | out of order a larger one can be resolved |
| Profiles.ValidateAttendeeProfiles | backend/app/orchestration/graph.py:15-37 | succeeds exactly when every attendee resolves, with each one's profile by name, and otherwise lists exactly those that do not |
| Profiles.FileAllowsExactly | sandbox/runtime/runtime/capabilities.py:29-46 | a capability file allows exactly the tools that stand on a line of their own; blank lines and comments allow nothing |
| Profiles.GrantIsIntersection | sandbox/runtime/runtime/capabilities.py:49-61 | the active tools are exactly the requested ones the sandbox's own file allows, sorted, and without a file none beyond the baseline |
| Profiles.ValidatedNodesResolve | backend/app/orchestration/agents.py:110-114 | once the validator has accepted the attendees, every node's own resolution succeeds with the profile recorded for it, and what its sandbox makes active is what that profile and the capability file share |

## Left out

- Task cancellation: the terminate path does not release leases, so "no lease afterwards" is stated for drained streams.
- Overlapping acquires for one persona: the lease check is outside the lock, and the graph never issues two at once.
- "At most one active meeting" and monotone meeting status: not guaranteed by the code.
- HTTP, the Kubernetes SDK, Postgres, LangGraph internals, model calls and Ed25519: free steps or parameters.
- AgentNode.Backend.Run: one execution without interruption; what happens when other actors or faults come in between is the state machine's part.
- Manager.Cluster.Turn: a fresh answer's text is unconstrained there; how the runtime builds it is `Runtime.TakeTurn`.
- Runtime.TakeTurn: token usage, timings and call ids are not modelled.
- Executor.Execute: timestamps, and the meeting row not existing, are not modelled.
- Executor.Finish: the development override that, after a raising store, runs the meeting again on a volatile checkpointer is not modelled.
- Executor.Registry.Startup: covers the sweep of labelled sandboxes; the sweep of unlabelled claims in the same block is not modelled.
- Sandbox.ServeTurnRequest: the machine's result step is shown for every voice that admits what the model made the server say.
- Chair.MeetingCallsBounded: counts the calls of a meeting that is not interrupted; a chair step cut short by a crash is asked again.
- Supervisor.NoPrematureConclusion: takes the three replies as given; `Chair.ClosesOnlyOnTheWord` ties them to the model's responses.
- Executor.Registry.Sweep: the separate sweep of unlabelled claims is not modelled.
- Profiles.GrantIsIntersection: refused tools are only logged and reported, and are not modelled.
- Speaker.RecoverExact: case mapping covers ASCII letters.
- Speaker.RecoveredByName: likewise; letters beyond ASCII have to agree as they stand.
- Salvage.ObjectInProse: the JSON parser is a parameter, as it is in the other extractors.
- Meeting.SaidTurn: the durations in the audit are not modelled.
- Sse.ResultArrives: the reader is of compact JSON, as the serialiser writes it; white space between tokens, and defaults for missing fields, are not modelled.
- ScopedToken.ClaimsRead: strings with lone surrogates, which the source language allows, do not exist in the model.
- Flattening of multi-part message content, prompt texts, telemetry, the frontend, CRUD routes and seeding: plumbing or easy members.
