# QCue, modelled and proved in Dafny

QCue is an LLM harness and sync backend. This project models the parts of its Rust workspace (`qcue-rs`)
that hold state machines, transformations and protocols, and proves what they guarantee together. Each
imperative piece is a Dafny method proved equal to a specification function; the guarantees are lemmas about
those functions and hold for every input, every script of outside answers, or every interleaving. Where the
code meets a property only under a condition, the lemma is an if-and-only-if with that condition, or a concrete
case shows where the property ends.

`dafny verify dfyconfig.toml` checks everything.

| modules | what they model |
|---|---|
| `Common`, `Text`, `Json`, `Protocol`, `Trace` | small data types, the string and JSON operations the code uses, the transcript and stream types, and the meaning of a transcript |
| `Sse` | incremental cutting of a byte stream into server-sent events |
| `ResponsesWire`, `ChatWire`, `AnthropicWire`, `WireAgreement` | three wire renderings of one transcript and what each of them says |
| `ResponsesStream`, `ChatStream`, `Vendors` | the two stream parsers and the block events they yield, and what the vendors send written out key by key |
| `Repair`, `Turn` | the repaired copy of the transcript and the agent turn that sends it |
| `JsonScan` | isolating a JSON object in model output |
| `Classify`, `Pool`, `Resolver`, `Dispatch`, `DispatchSafety`, `DispatchBounds`, `DispatchAnswers`, `DispatchRaces` | provider recovery: classification, credential pool, stored rows, the recovery loop, what holds over any sequence of calls, what a call answers, and what turns at once can undo |
| `Jobs`, `JobRuns` | the job table with one worker, and under any interleaving |
| `RateLimit` | the fixed-window limiter with reaping |
| `WriteGate`, `WriteRuns`, `GatePaths` | the page write (file, row, links), runs of writes that may die at any point, and where files go |
| `Pages`, `SyncHub`, `Reducer`, `Batches`, `GateAnswers`, `Materialize`, `Rounds` | what identifies a page, the op log under interleaved transactions, the reducer, a batch of ops inside its transaction, pushing and applying, and sequences of push requests |

The network, the database, the clock, tool handlers and other processes appear as scripts: arbitrary answers,
durations and failures that a lemma ranges over. Time is a number of milliseconds that never goes back. A
database table is a sequence of rows in order of insertion, and an id is a place in it.

Some facts found on the way, each stated by a lemma below:

* The recovery loop never waits. No HTTP status is classified as one to back off from, so the backoff branch
  and its 30-second clamp are never taken (`Dispatch`, `DispatchBounds.OneCallIsBounded`), although comments
  describe transport errors as "retryable backoff once".
* A job's lease is taken and given up inside one transaction, so no other connection ever sees it: stale
  leases never occur, `reclaim_stale` finds nothing, and a worker that dies leaves no counted attempt. The
  comments in `worker.rs` describe a visible lease (`JobRuns.ReclaimIsIdle`, `JobRuns.DyingIsNotCounted`).
* The bound of 500 jobs and the debouncing are checks before an insert without a lock: k enqueues
  missed by a count make it 500 + k jobs, and a reference is repeated exactly when two enqueues of it overlap
  (`JobRuns.InFlightBoundIsReached`, `JobRuns.OnePendingPerReference`).
* A turn that loaded its credentials before another turn penalised or condemned one can write that one back as
  usable; penalties and deaths are certain exactly when no such turn is in flight
  (`DispatchRaces.PenaltyIsSafeExactlyIf`, `DispatchRaces.DeathIsFinalExactlyIf`).
* Every push is applied at once, so an op that arrives late overwrites one with a later clock: the tables are
  in clock order exactly for entities without late ops (`Rounds.RoundsApplyInClockOrderExactlyIf`,
  `Rounds.LateOpsWin`), although the comments promise that the same ops always give the same tables.
* A push that makes the server delete a live page and then write it again is never answered: the write waits on
  its own connection for the deletion, whose transaction waits for the write. It is the same page only if its
  type is the same, and a write that names none after a deletion writes a concept
  (`Batches.DeleteThenWriteStallsExactlyIf`). A refused page write rolls its
  whole push back, but not the page writes before it. Neither goes through by being sent again
  (`Batches.StallsExactlyIf`, `Batches.StoppedLeaves`, `Rounds.RetryIsInVain`); what pages hold is promised for
  pages that no such push was to write (`Rounds.PagesAfterRounds`).
* The rate limiter admits at most 2·limit − 1 requests in any minute, and that many are possible.
* The advisory lock alone keeps the pull cursor gap-free; a push, which does not take it, can be overtaken
  and then skipped by a client for good (`SyncHub.PushesCanBeSkipped`). The cursor that a push returns jumps past
  every op its device has not been sent (`SyncHub.PushCursorSkips`).
* A page body over the size cap is accepted once and can never be rewritten (`WriteRuns.OversizedFilesStay`).
* Each write sanitizes the whole body again, so a body is sanitized as often as its page has been written
  since it was set; the result is the body sanitized once wherever doing it twice changes nothing
  (`Reducer.LastWriterWins`, `Reducer.SanitizedOnce`).

## Model

| member | source | states |
|---|---|---|
| Sse.CutIsTheCleanCut | qcue-rs/http/src/sse.rs:40-44 | Cutting at blank lines loses nothing: frames, separators and residue re-concatenate to the text; and it is the only cut whose pieces contain no separator. |
| Sse.CutResumes | qcue-rs/http/src/sse.rs:36-45 | Cutting a text in two parts, keeping only the residue in between, cuts as if the whole text had been there. |
| Sse.ParseFrame | qcue-rs/http/src/sse.rs:56-71 | Data lines are joined with newlines, the last event line names the frame, and a frame with neither data nor name is dropped. |
| Sse.SseFrames | qcue-rs/http/src/sse.rs:32-54 | The stream yields the frames of the text received up to the first transport error or overflow, then that error, or else the residue as a last frame. |
| Sse.EitherLineEnd | qcue-rs/http/src/sse.rs:56-71 | A frame reads the same whether its lines end in a newline or in a carriage return and a newline. |
| Sse.WithinCapNeverFails | qcue-rs/http/src/sse.rs:36-44 | A stream whose text stays within the buffer cap never reports an overflow, however it is cut into chunks. |
| Sse.OverflowsExactlyIf | qcue-rs/http/src/sse.rs:36-44 | A stream without transport errors fails exactly if some chunk makes the text not yet framed longer than ten mebibytes, and then with an overflow. |
| Sse.ChunkingIsInvisible | qcue-rs/http/src/sse.rs:32-54 | Two streams of the same text within the cap yield the same frames, wherever the transport cut them. |
| Sse.RoundTrip | qcue-rs/http/src/sse.rs:32-71 | Frames written as event and data lines with a blank line after each are read back as those frames, for every chunking. |
| ResponsesWire.ConvertMessages | qcue-rs/router/src/transport_responses.rs:46-97 | The loop over the transcript yields, message by message, the input items of the wire format; system messages yield none. |
| ResponsesWire.NormalizeResponse | qcue-rs/router/src/transport_responses.rs:194-276 | Text, calls, reasoning, finish reason, usage and the stash of reasoning items are those of the output items; an answer without output is an error. |
| ResponsesWire.EchoShape | qcue-rs/router/src/transport_responses.rs:46-97 | An answer stored as an assistant message is sent back as every reasoning item untouched and first, then one text item, then the calls with their ids. |
| ResponsesWire.CanonicalEcho | qcue-rs/router/src/transport_responses.rs:194-276 | For an answer in canonical order (reasoning, message, calls) the echo says item for item what the provider said. |
| ResponsesWire.OnlyCanonicalEchoes | qcue-rs/router/src/transport_responses.rs:46-97 | No other order of the three item kinds survives the echo: it is faithful only for answers in canonical order. |
| ResponsesStream.ParseResponsesSse | qcue-rs/llm-api/src/responses_sse.rs:43-160 | The loop over frames yields the events of the open-block state machine and stops at the first transport or provider error. |
| ResponsesStream.AlwaysBracketed | qcue-rs/llm-api/src/responses_sse.rs:47-158 | For every frame sequence at most one block is open, nothing is closed twice, text and thinking stay in their own kind of block, and MessageStop follows a MessageDelta with no block open; argument deltas stay inside tool blocks exactly when none arrived outside one. |
| ResponsesStream.ArgumentsMayStray | qcue-rs/llm-api/src/responses_sse.rs:106-110 | An argument delta that arrives with no tool block open is passed on all the same. |
| ResponsesStream.TextIsKept | qcue-rs/llm-api/src/responses_sse.rs:93-102 | The text heard from the events is the concatenation of the text deltas received, whatever arrives between them. |
| ResponsesStream.ThoughtsAreKept | qcue-rs/llm-api/src/responses_sse.rs:118-127 | The reasoning heard from the events is the concatenation of the reasoning deltas received before the first fault, whatever arrives between them. |
| ResponsesStream.StartsOnce | qcue-rs/llm-api/src/responses_sse.rs:60-63 | A message start is passed on once, if the stream announces one. |
| ResponsesStream.FailsWithTheFirstFault | qcue-rs/llm-api/src/responses_sse.rs:51-157 | A stream fails exactly if some frame is a transport error or says that the answer failed, and then with the first such message. |
| ResponsesStream.StreamAgreesWithObject | qcue-rs/llm-api/src/responses_sse.rs:43-160 | Folding a stream that spells out the output items gives the text, calls and usage of the final object, and the same finish reason exactly unless the answer is incomplete and carries calls. |
| Vendors.EventIsRead | qcue-rs/llm-api/src/responses_sse.rs:53-158 | An event written with the vendor's own field names, its name on its own line or in the data, is read as what it says, whichever event it is. |
| Vendors.OtherEventsAreNoise | qcue-rs/llm-api/src/responses_sse.rs:53-158 | An event of any other name is read as nothing. |
| Vendors.AnswerIsRead | qcue-rs/router/src/transport_responses.rs:194-276 | An answer written as the vendor writes it is read as what it says: the text of its messages in order, its calls, the last summary, its cost and why it ended; every reasoning item is stashed as it came. |
| Vendors.ToldAnswerIsHeard | qcue-rs/llm-api/src/responses_sse.rs:43-160 | An answer that is told event by event is heard as the text, calls and cost that it consists of, and as ending for its own reason exactly unless it is cut short and has calls. |
| Vendors.UsageIsRead | qcue-rs/llm-api/src/usage_norm.rs:15-37 | Both vendors' spellings of a usage report are read as the numbers they report. |
| Json.CanonicalKeepsMeaning | qcue-rs/router/src/transport_chat.rs:22-35 | Re-serialising an argument string keeps what it means and is idempotent, given a JSON library that reads back what it writes. |
| ChatWire.ChatSaysTheTrace | qcue-rs/router/src/transport_chat.rs:54-85 | The chat rendering reads back as the transcript's trace of texts, calls and results exactly when only assistants carry calls. |
| AnthropicWire.ConvertMessages | qcue-rs/router/src/transport_anthropic.rs:26-81 | The nested index loops yield one user message per run of tool results and one message for every other message, in order. |
| AnthropicWire.GroupsRead | qcue-rs/router/src/transport_anthropic.rs:38-52 | Grouping consecutive tool results loses, repeats and reorders nothing. |
| AnthropicWire.ResultsAreCoalesced | qcue-rs/router/src/transport_anthropic.rs:38-52 | No two neighbouring messages of the rendering are both made of tool results. |
| AnthropicWire.ThinkingIsReplayed | qcue-rs/router/src/transport_anthropic.rs:55-61 | Every stored thought goes back with its signature, in the order of the transcript. |
| AnthropicWire.ThinkingComesFirst | qcue-rs/router/src/transport_anthropic.rs:55-61 | A replayed thought stands before all else of its message. |
| AnthropicWire.AnthropicSaysTheTrace | qcue-rs/router/src/transport_anthropic.rs:26-81 | The Anthropic rendering reads back as the transcript's trace exactly when every message is sound: not blank, calls only on assistants, arguments that are JSON. |
| WireAgreement.ResponsesSaysTheTrace | qcue-rs/router/src/transport_responses.rs:46-97 | The Responses rendering reads back as the transcript's trace exactly when the items stashed with assistant messages are silent, as reasoning items are and messages are not. |
| WireAgreement.FormatsAgree | qcue-rs/router/src/transport_anthropic.rs:26-81 | The three renderings all say what the transcript means exactly when only assistants call tools, every message is sound and the stashes are silent; with silent stashes they cannot agree on anything else. |
| Repair.CleanOrphanToolResults | qcue-rs/router/src/compress.rs:44-65 | The loop keeps every message except tool results whose id no earlier or same message's call has. |
| Repair.RepairRoleAlternation | qcue-rs/router/src/turn.rs:115-133 | Adjacent user or assistant messages are merged into the first, then orphan results are dropped. |
| Repair.RepairLosesNoWord | qcue-rs/router/src/turn.rs:115-133 | White space apart, user and assistant say the same characters in the same order before and after the repair, for every transcript. |
| Repair.RunsCoalesce | qcue-rs/router/src/turn.rs:115-133 | Each run of adjacent user or assistant messages becomes its first message with the run's contents joined by newlines and trimmed. |
| Repair.HasRuns | qcue-rs/router/src/turn.rs:115-133 | Every transcript is made of such runs. |
| Repair.RepairedHasNoOrphansExactlyIf | qcue-rs/router/src/compress.rs:44-65 | For any transcript, every tool result of the repaired copy has its call before it or in itself exactly if no kept result depends on a call that only results cleaned away make; and in an earlier message where tool messages carry no calls. |
| Repair.RoundsSurvive | qcue-rs/router/src/turn.rs:115-148 | Finished rounds after a history that does not end in an assistant message, with ids on all calls, come out of the repair untouched and in place. |
| Repair.RoundsSurviveExactly | qcue-rs/router/src/turn.rs:115-148 | Those two conditions are necessary as well as sufficient. |
| Turn.Budget.ConsumeTokens | qcue-rs/router/src/turn.rs:42-44 | Debiting never goes below zero and leaves the round alone. |
| Turn.DispatchTools | qcue-rs/router/src/tools.rs:85-109 | One tool message per call, in the order of the calls. |
| Turn.RequestsHoldResults | qcue-rs/router/src/tools.rs:85-109 | Every request holds every earlier answer that called tools, word by word, and of each of its calls the tool's own words or that it failed and why, under the call's id and name and marked untrusted; where the history does not end in an assistant message and every call has an id. |
| Turn.RunTurn | qcue-rs/router/src/turn.rs:194-293 | The loop's requests, checks, persisted messages and result are those of the specification, for every script of answers, refusals and cancellations. |
| Turn.TurnEndsAsLogged | qcue-rs/router/src/turn.rs:213-290 | A turn returns content and finish reason of the answer that it persisted last, which is the provider's answer to its last request; it is refused exactly if its last check was, fails with the provider's error, or is interrupted exactly if it is found cancelled before the next call. |
| Turn.SendsExactlyIf | qcue-rs/router/src/turn.rs:205-290 | There is a first request exactly if the turn is neither cancelled nor refused before, and one more after each request that offered the tools and was answered with calls, exactly if it is neither cancelled nor refused then. |
| Turn.LastUserIs | qcue-rs/router/src/turn.rs:194-204 | What a turn persists first is the history's last user message, if it has one. |
| Turn.CallsOfTurn | qcue-rs/router/src/turn.rs:194-293 | The turn makes at most maxRounds + 1 calls, and its j-th request is that of pass j. |
| Turn.EveryCallIsGuarded | qcue-rs/router/src/turn.rs:218-235 | Every call directly follows a cost check of its own that passed. |
| Turn.OnlyTheLastCallFinalizes | qcue-rs/router/src/turn.rs:213-235 | A call offers the tools and carries no nudge exactly while the tokens debited so far are below the ceiling and rounds are left; any other is tool-less, with exactly one nudge, and the last. |
| Turn.SpendIsBounded | qcue-rs/router/src/turn.rs:207-258 | The tokens of a turn exceed the ceiling by no more than its last two calls together, and by less where it makes two calls or more. |
| Turn.TotalIsTheSum | qcue-rs/router/src/turn.rs:236-243 | The running usage is the sum over the calls in each of its five components. |
| Turn.UsageIsTheSum | qcue-rs/router/src/turn.rs:248-290 | The usage returned by a finished turn is the sum over all its calls, and all of it but the cached reads is what was debited. |
| Turn.RequestsKeepRounds | qcue-rs/router/src/turn.rs:194-293 | Every request after the first is the repaired history, then each finished round with one result per call in order, then the nudge if there is one: exactly when the history does not end in an assistant message and every call has an id. |
| Turn.RequestsHaveNoOrphans | qcue-rs/router/src/turn.rs:194-293 | In every request each tool result has its call before it or in itself exactly if no kept result of the transcript depends on a call that only results cleaned away make; and in an earlier message where the history's tool messages carry no calls. |
| JsonScan.IsolateObject | qcue-rs/wiki/src/json_hardening.rs:11-46 | Stripping and the brace, string and escape loop return the specified stretch of the text. |
| JsonScan.ValueCrosses | qcue-rs/wiki/src/json_hardening.rs:22-43 | The scanner crosses every JSON value, whatever its strings hold, without a change of depth or of string state. |
| JsonScan.ScanStartsAtObjectExactlyIf | qcue-rs/wiki/src/json_hardening.rs:11-22 | Stripping keeps the object, and the scan starts at it exactly if the text before it has no opening brace after its last "</think>", or none at all where there is no such mark. |
| JsonScan.IsolatesTheObject | qcue-rs/wiki/src/json_hardening.rs:11-46 | For every JSON object, every text before it with no opening brace after its last "</think>", whatever the reasoning before that holds, and any text after it, exactly the object is isolated, as long as no "</think>" follows the text before it. |
| JsonScan.BraceBeforeObjectWins | qcue-rs/wiki/src/json_hardening.rs:22-44 | A braced stretch between the reasoning and the object is isolated instead. |
| JsonScan.FenceIsDropped | qcue-rs/wiki/src/json_hardening.rs:11-21 | A fenced answer that is no object comes out without its fence and the space in it. |
| Classify.BacksOffExactlyOnTimeouts | qcue-rs/router/src/classify.rs:109-179 | Waiting is the action exactly for stream timeouts; no HTTP status and no message text leads to it. |
| Classify.StatusDecides | qcue-rs/router/src/classify.rs:109-179 | What every status and message lead to: condemned credentials and forbidden content end the call, too long a prompt compresses, 401 and 403 rotate, 404 and server errors go to the next provider, 429 rotates unless it is about money only, any other error if it asks to come back. |
| Classify.CondemnedExactlyIf | qcue-rs/router/src/classify.rs:109-179 | A credential is condemned exactly by a message that holds one of the terminal phrases, whatever the status. |
| Pool.Best | qcue-rs/router/src/pool.rs:60-96 | Fill-first choice: none exactly when nothing is eligible, else the eligible entry of lowest priority, the earliest among equals. |
| Pool.CredentialPool.Select | qcue-rs/router/src/pool.rs:72-96 | The selection loop returns that choice. |
| Pool.CredentialPool.MarkExhaustedAndRotate | qcue-rs/router/src/pool.rs:106-122 | The first entry with the hint cools down until the provider's reset or a default, capped at five minutes, nothing else changes, and the next choice is returned. |
| Pool.PenaltyLength | qcue-rs/router/src/pool.rs:106-122 | A penalty lasts thirty seconds for a 401 and sixty otherwise, or as long as the provider says, and never more than five minutes. |
| Pool.CredentialPool.MarkOk | qcue-rs/router/src/pool.rs:129-138 | Only a cooling entry is healed, and exactly then the result is true. |
| Resolver.PersistTransitions | qcue-rs/app-server/src/dispatch/resolver.rs:156-224 | Every row whose hint the pool knows takes the pool's status; cooldowns are stored as the time left from the database's now. |
| Resolver.StoreAndLoad | qcue-rs/app-server/src/dispatch/resolver.rs:52-108 | With distinct hints, storing a pool and loading it again keeps every status, and cooldowns keep the time that was left. |
| Dispatch.HttpDispatch.AdvanceChain | qcue-rs/router/src/retry_loop.rs:42-49 | The chain moves on by one if a link is left, and otherwise stays. |
| Dispatch.HttpDispatch.Complete | qcue-rs/router/src/dispatch_http.rs:150-364 | The recovery loop's effect on chain, rows and clock, its requests and penalties, and its answer, for every script of the outside world. |
| DispatchAnswers.AnswersOkExactlyIf | qcue-rs/router/src/dispatch_http.rs:150-364 | A call answers with a response exactly if the turn it ends in sent a request, was not cancelled in flight, and got a success whose body can be read; a success with an unreadable body is a decoding failure. |
| DispatchAnswers.CallAnswers | qcue-rs/router/src/dispatch_http.rs:150-364 | Every call has one last turn, within sixteen, and answers what that turn's attempt comes to, or that it was cancelled, or the last failure left behind once the attempts are used up. |
| DispatchAnswers.TurnComesTo | qcue-rs/router/src/dispatch_http.rs:161-363 | From the script and the loaded rows alone: a turn ends the call exactly for a response, an unreadable body, a cancellation, an insecure address, a final error, or where no link is left; otherwise it goes on, on the same link exactly if it rotates, and else on the next. |
| DispatchAnswers.StepNotes | qcue-rs/router/src/dispatch_http.rs:247-362 | A turn sends one request at most, with the credential it picked; it penalises that one exactly if the error rotates, and condemns it exactly if the message does. |
| DispatchAnswers.StepStores | qcue-rs/router/src/dispatch_http.rs:282-362 | A turn writes back the picked credential as healed, penalised or condemned, exactly where it heals, rotates or condemns, and no other row changes. |
| DispatchAnswers.TurnRotates | qcue-rs/router/src/dispatch_http.rs:314-337 | A rotating turn stays on its link and leaves the rows with the failing credential penalised. |
| DispatchAnswers.RotationReloads | qcue-rs/router/src/dispatch_http.rs:314-337 | The turn after a rotation loads the rows that the rotation has written back. |
| DispatchAnswers.RotationGoesOn | qcue-rs/router/src/dispatch_http.rs:314-337 | After a rotation whose penalty was stored the next turn has a credential of the same provider to take: not the penalised one before its penalty ends, and the one that was left unless another has become eligible meanwhile. |
| Dispatch.StepIsForward | qcue-rs/router/src/dispatch_http.rs:161-363 | No turn of the loop moves the chain back or beyond its last link. |
| DispatchSafety.WriteBackRecalls | qcue-rs/app-server/src/dispatch/resolver.rs:179-221 | A write-back that may fail keeps every earlier stored penalty and death in the rows. |
| DispatchSafety.StepKeeps | qcue-rs/router/src/dispatch_http.rs:161-363 | Every turn of the loop keeps the invariant: the rows remember each stored penalty until it has run out and each death forever. |
| DispatchSafety.PenaltiesAreServed | qcue-rs/router/src/dispatch_http.rs:161-363 | Over any sequence of calls, each with its own chain and one after the other, a credential with a stored penalty until u is not used before u, u is at most five minutes after the penalty, and one whose death was stored is never used again. |
| DispatchBounds.NeverDecidesToWait | qcue-rs/router/src/dispatch_http.rs:343-350 | No answer leads the loop into its backoff branch. |
| DispatchBounds.OneCallIsBounded | qcue-rs/router/src/dispatch_http.rs:155-168 | For every script one call sends at most sixteen requests, does not wait between them, and leaves the chain in range and no further back. |
| DispatchBounds.NobodyIsParkedForLong | qcue-rs/router/src/pool.rs:113-114 | After any sequence of calls, with write-backs of any slowness, every stored cooldown ends within five minutes of that moment. |
| DispatchBounds.SharedHintsRevive | qcue-rs/router/src/pool.rs:101-121 | A dead credential found under its hint stays dead while another is penalised exactly if the two hints differ, which the unique index on hints ensures. |
| DispatchRaces.AloneIsOneTurn | qcue-rs/app-server/src/dispatch/resolver.rs:156-224 | Loading, marking and writing back with nothing in between is the write-back of a turn that is alone. |
| DispatchRaces.RowByRowIsOneStep | qcue-rs/app-server/src/dispatch/resolver.rs:156-224 | A write-back updates row by row under row locks while others commit; when it commits, the rows are those of one step taken at that moment. |
| DispatchRaces.WriteBackHoldsExactlyIf | qcue-rs/app-server/src/dispatch/resolver.rs:179-221 | Whatever older rows a pool was loaded from, a row is set aside until u after its write-back exactly if the pool held it dead, or cooling for that long, or healthy while the row had died. |
| DispatchRaces.WriteBackIsDeadExactlyIf | qcue-rs/app-server/src/dispatch/resolver.rs:183-219 | A row is dead after a write-back exactly if the pool held it dead, or healthy while it had died; the update that stores a cooldown brings it back to life. |
| DispatchRaces.PenaltyLastsExactlyIf | qcue-rs/app-server/src/dispatch/resolver.rs:156-224 | In every interleaving of turns a penalty lasts until u, at every moment, exactly if no pool is written back before u that holds the credential for less. |
| DispatchRaces.PenaltyIsSafeExactlyIf | qcue-rs/app-server/src/dispatch/resolver.rs:156-224 | A stored cooldown is served in every continuation exactly if every turn in flight holds the credential for as long, as those do that load their pool after it was stored. |
| DispatchRaces.AlonePenaltyIsServed | qcue-rs/router/src/dispatch_http.rs:161-363 | A penalty written back while no other turn is in flight keeps its credential from being chosen before its end, whatever turns follow. |
| DispatchRaces.DeathIsFinalExactlyIf | qcue-rs/app-server/src/dispatch/resolver.rs:183-205 | A dead credential stays dead in every continuation exactly if every turn in flight holds it as dead. |
| DispatchRaces.StaleWriteBackUndoes | qcue-rs/app-server/src/dispatch/resolver.rs:193-219 | A pool loaded before another turn's write-back heals that turn's fresh penalty, and undoes a fresh death of a credential that had been cooling, when it is written back. |
| Jobs.Choice | qcue-rs/app-server/src/jobs/queue.rs:98-109 | The claim is a pending, due and unlocked job of highest priority, then longest due, and none exactly if there is no such job. |
| Jobs.JobTable.Enqueue | qcue-rs/app-server/src/jobs/queue.rs:50-94 | Refused at the bound, answered with a pending job of the same reference, or a new pending row: the answer and the whole new table. |
| Jobs.EnqueueDecides | qcue-rs/app-server/src/jobs/queue.rs:50-94 | Turned down exactly if 500 jobs are in flight; given a waiting job exactly if one of the kind gives the same reference, a null being none; else a new job, due at once, whose payload is the request's with the reference noted if it is an object. |
| Jobs.JobTable.FailOrRetry | qcue-rs/app-server/src/jobs/worker.rs:95-107 | The job fails once its attempts are used up and else goes back with a delay counted from the transaction's beginning. |
| Jobs.JobTable.RunOnce | qcue-rs/app-server/src/jobs/worker.rs:175-219 | The worker loop leaves the table, the clock and the count of the drained queue, and does nothing for a family that is switched off. |
| Jobs.WorkUsesARun | qcue-rs/app-server/src/jobs/worker.rs:211-214 | Every run of a job lowers the number of runs the pending jobs have left in all. |
| Jobs.WorkerDrains | qcue-rs/app-server/src/jobs/worker.rs:187-218 | The worker stops after at most that many runs, and only when no job is due. |
| Jobs.DrainSettles | qcue-rs/app-server/src/jobs/worker.rs:175-219 | A worker that drains the queue completes a pending job exactly if one of its runs ends well, fails it exactly if none does and its attempts are used up, leaves it waiting otherwise, and does not touch the others. |
| JobRuns.TakeKeeps | qcue-rs/app-server/src/jobs/worker.rs:65-119 | Every step of claims, commits, rollbacks, the statements of an enqueue, request commits and aborts, cancellations and reclaims keeps the queue's invariant. |
| JobRuns.EveryRunIsSound | qcue-rs/app-server/src/jobs/worker.rs:175-219 | In every interleaving no two open transactions hold the same job, each job's handler is committed at most its allowed number of times, and no lease is ever there to reclaim. |
| JobRuns.OutcomesDecide | qcue-rs/app-server/src/jobs/worker.rs:84-119 | In every interleaving a job is completed exactly if a committed run of its handler ended well, and failed exactly if all the runs it is allowed were committed and none did. |
| JobRuns.CommitSettles | qcue-rs/app-server/src/jobs/worker.rs:84-107 | The end of a worker's transaction completes its job, puts it back due thirty seconds after the transaction began, or fails it after its last allowed run, and changes no other job. |
| JobRuns.NotBegunEarly | qcue-rs/app-server/src/jobs/queue.rs:98-109 | No worker begins a job before it is due. |
| JobRuns.AloneIsEnqueue | qcue-rs/app-server/src/jobs/queue.rs:50-94 | The three statements of an enqueue and its commit, with nothing in between, are the enqueue of the single-user table. |
| JobRuns.InFlightIsBounded | qcue-rs/app-server/src/jobs/queue.rs:58-66 | In every run in which no count that passes misses more than k open enqueues of other requests, at most 500 + k jobs are in flight: 500 where requests do not overlap, however many jobs each enqueues. |
| JobRuns.InFlightBoundIsReached | qcue-rs/app-server/src/jobs/queue.rs:58-66 | For every k some run in which no passing count misses more than k open enqueues has 500 + k jobs in flight. |
| JobRuns.ReclaimIsIdle | qcue-rs/app-server/src/jobs/worker.rs:65-81 | With leases that nobody sees, reclaiming changes nothing. |
| JobRuns.TerminalIsFinal | qcue-rs/app-server/src/jobs/worker.rs:84-119 | A completed, failed or canceled job stays exactly as it is, whatever happens next. |
| JobRuns.EnqueueRepeatsExactlyIf | qcue-rs/app-server/src/jobs/queue.rs:67-92 | An enqueue with nothing in between repeats a pending reference exactly if its caller put that reference into the payload without asking for debouncing. |
| JobRuns.RepeatCollapsesExactlyIf | qcue-rs/app-server/src/jobs/queue.rs:67-84 | A repeated request is answered with the first one's job exactly if its payload is an object. |
| JobRuns.OnePendingPerReference | qcue-rs/app-server/src/jobs/queue.rs:50-94 | At every moment of a run at most one job per kind and reference is pending, exactly if no request commits a row whose reference another one committed, and is still pending, since the row's own look, and none smuggles a reference in. |
| JobRuns.CommitRepeatsExactlyIf | qcue-rs/app-server/src/jobs/queue.rs:67-92 | A request's commit repeats a pending reference exactly if one of its debounced rows meets a pending job committed after the row's look, or a row that was not looked for meets one. |
| JobRuns.ReclaimingCanRepeat | qcue-rs/app-server/src/jobs/worker.rs:71-78 | Were a lease committed on its own, reclaiming it could repeat a reference. |
| JobRuns.DyingIsNotCounted | qcue-rs/app-server/src/jobs/worker.rs:187-217 | A claim that is rolled back leaves the queue as it was, attempts included. |
| RateLimit.Limiter.BumpAndCheck | qcue-rs/app-server/src/middleware.rs:140-157 | Reaping, window restart and count: the whole new table, and over exactly if the count exceeds the limit. |
| RateLimit.TableIsFaithful | qcue-rs/app-server/src/middleware.rs:145-155 | On every timely request sequence the table holds each key's never-forgotten bucket, or lacks one that has run out. |
| RateLimit.ReapingIsInvisible | qcue-rs/app-server/src/middleware.rs:145-148 | Every request is answered as by a limiter that never forgets a bucket. |
| RateLimit.TableIsBounded | qcue-rs/app-server/src/middleware.rs:145-148 | The table holds more than 100000 buckets only while the windows of all of them still run. |
| RateLimit.FewerThanTwiceTheLimit | qcue-rs/app-server/src/middleware.rs:149-156 | In every half-open minute, wherever it starts, at most 2·limit − 1 requests of a key get through. |
| RateLimit.TheBoundIsReached | qcue-rs/app-server/src/middleware.rs:149-156 | Some request sequence gets exactly that many through. |
| RateLimit.RefusalIsEarned | qcue-rs/app-server/src/middleware.rs:149-156 | A refused request is preceded by enough requests of its key that more than limit fall into the last minute. |
| ChatStream.ParseChatSse | qcue-rs/llm-api/src/chat_sse.rs:30-105 | The loop over frames, with its inner loop over tool fragments and the final flush, yields the specified events or the transport error. |
| ChatStream.ToolsHoldTheirPieces | qcue-rs/llm-api/src/chat_sse.rs:70-91 | What is gathered under an index is determined by that index's own fragments, in order. |
| ChatStream.ArgumentsGoOutOnce | qcue-rs/llm-api/src/chat_sse.rs:97-100 | In an error-free stream the argument deltas are, in ascending order of index, each index's fragments joined, once. |
| ChatStream.WordsGoOutOnce | qcue-rs/llm-api/src/chat_sse.rs:50-68 | The text and reasoning of the events are those of the frames, scrubbed, nothing lost or repeated. |
| ChatStream.ErrorsEndTheStream | qcue-rs/llm-api/src/chat_sse.rs:41-43 | A stream that breaks off yields what it had said and thought until then and the error, but no arguments and no end of message. |
| Vendors.ChunksAreRead | qcue-rs/llm-api/src/chat_sse.rs:36-95 | A stream of chunks written with the vendor's own field names is read as what they say: thoughts, texts and fragments in order, the last finish reason and the last usage report, which a null erases. |
| Vendors.ChunksAreHeard | qcue-rs/llm-api/src/chat_sse.rs:30-105 | A consumer of such a stream gets every thought, every text with the forged wrappers taken out, and at the end that finish reason and usage. |
| ChatStream.EachIndexOpensOnce | qcue-rs/llm-api/src/chat_sse.rs:81-90 | Each index that is ever named opens exactly one tool block, with the name and the last id its own fragments had given by then, or a made-up id. |
| ChatStream.NamelessIdsDiffer | qcue-rs/llm-api/src/chat_sse.rs:82-90 | A call without an id is given one that says its index, so two of them never share one. |
| ChatStream.InterleavingIsInvisible | qcue-rs/llm-api/src/chat_sse.rs:69-100 | How fragments of different indices interleave, with each other and with text, changes neither the arguments sent nor the blocks opened. |
| ChatStream.BracketedExactlyIf | qcue-rs/llm-api/src/chat_sse.rs:53-103 | The events of an error-free stream are well bracketed exactly if no tool opens and the end mark has a block to close, or one tool opens, after all words, and an end mark came. |
| WriteGate.Gate.UpsertPage | qcue-rs/store/src/wiki_repo.rs:123-154 | The live row of the type and slug is updated, keeping its body reference, uniting its sources and raising its version; otherwise a row is inserted. |
| WriteGate.Gate.ReplaceLinks | qcue-rs/store/src/wiki_repo.rs:158-184 | The page's edges are deleted and those of its links inserted, one per target. |
| WriteGate.ReplacedLinks | qcue-rs/store/src/wiki_repo.rs:158-184 | Afterwards the page has exactly one edge per target it names, that of the target's first mention, resolved to a live page of that slug or alias, and every other page's links are as before. |
| WriteGate.Gate.WritePage | qcue-rs/wiki/src/write_gate.rs:55-121 | Quota, path guard, file, row, links in this order, with the process allowed to die at any point: the whole state left and the answer. |
| WriteRuns.WriteLeavesItsRow | qcue-rs/wiki/src/write_gate.rs:98-118 | After a write that returns an id the row has every field as written, its sources united and its version one higher, its file the sanitized body, and no other row has changed. |
| WriteRuns.WriteResolvesItsLinks | qcue-rs/store/src/wiki_repo.rs:158-184 | After it, each edge of the page points to a live page with that slug or alias, and to nothing exactly if no live page has either. |
| GatePaths.WrittenExactlyIf | qcue-rs/wiki/src/write_gate.rs:55-121 | A page of a known type whose slug names a file is written exactly if there is room for one page and its characters besides all live ones, the file it replaces is not oversized, and the process lives. |
| GatePaths.RefusedFor | qcue-rs/wiki/src/write_gate.rs:66-97 | Otherwise the refusal names the condition that fails. |
| GatePaths.FiledUnderItsName | qcue-rs/wiki/src/write_gate.rs:79-84 | Such a page is filed under its slug in the folder of its type, or in the vault's root for a type without one. |
| GatePaths.FilesStayInside | qcue-rs/wiki/src/path_guard.rs:22-49 | Over any run of writes, whatever their slugs, every body file lies below the vault's root and is reached by names that each lead one directory down. |
| WriteRuns.WriteKeeps | qcue-rs/wiki/src/write_gate.rs:79-120 | Every write, wherever it dies, keeps the vault's invariant, and one that returns an id leaves that page settled. |
| WriteRuns.EveryRowHasItsFile | qcue-rs/wiki/src/write_gate.rs:94-97 | After any run of writes that died at any points, every row's body file exists. |
| WriteRuns.SettledPagesAgree | qcue-rs/wiki/src/write_gate.rs:97-120 | A live row agrees with its file in hash, length and links whenever the last write to that file was the page's own and complete. |
| WriteRuns.FullWriteSettles | qcue-rs/wiki/src/write_gate.rs:98-120 | Right after a write that returns an id, that page agrees with its file. |
| WriteRuns.TypedPathsDiffer | qcue-rs/wiki/src/write_gate.rs:79-84 | Without slashes in slugs, no other page writes to the file of an entity, concept or source. |
| WriteRuns.TypedPagesAgree | qcue-rs/wiki/src/write_gate.rs:79-120 | With slash-free slugs, every live entity, concept and source agrees with its file unless the last write to it died. |
| WriteRuns.FolderlessPagesShare | qcue-rs/wiki/src/write_gate.rs:79-84 | Two pages with slash-free slugs have the same file exactly if they are the same, or have the same slug and neither type has a folder. |
| WriteRuns.SharedFileAgreesExactlyIf | qcue-rs/wiki/src/write_gate.rs:79-120 | After two complete writes of one slug and two types without folder, the first page agrees with its file exactly if the two bodies have the same hash, length and links. |
| WriteRuns.SlashesCollide | qcue-rs/wiki/src/path_guard.rs:22-49 | A slug with a slash can lead to another page's file. |
| WriteRuns.QuotaIsKept | qcue-rs/wiki/src/write_gate.rs:66-77 | However writes follow each other, one at a time, live pages stay within the quota of pages, and their characters within the quota of bytes; the usage is read in a transaction of its own, so writes at once could pass it. |
| WriteRuns.RowsOnlyGrow | qcue-rs/store/src/wiki_repo.rs:123-154 | Over any run a row keeps its type, slug and body reference, its sources only grow, and while its version is the same nothing else of it has changed but a deletion. |
| WriteRuns.OversizedFilesStay | qcue-rs/wiki/src/path_guard.rs:42-47 | A body file over the cap is never written again. |
| SyncHub.OrderlyRunsSkipNone | qcue-rs/app-server/src/sync/routes.rs:188-209 | In every run whose commits are in sequence order, and in which a client adopts the cursor of a push only when it has every committed op up to there, a client that follows the returned cursors has every committed op up to its cursor. |
| SyncHub.LockedRun | qcue-rs/app-server/src/sync/emit.rs:43-70 | The advisory lock, held to the end of the transaction, makes all emitters commit in sequence order, in every interleaving. |
| SyncHub.EmittersSkipNone | qcue-rs/app-server/src/sync/materialize.rs:336-368 | With emitters and pulls only, in every interleaving, no client ever skips an op. |
| SyncHub.AdoptsExactlyIf | qcue-rs/app-server/src/sync/routes.rs:149-180 | A client that is up to date stays so with the cursor of its push exactly if it has every committed op between the two cursors. |
| SyncHub.PushIsSafeExactlyIf | qcue-rs/app-server/src/sync/routes.rs:149-180 | A push with nothing in between returns the greatest sequence number, and leaves the device that adopts it up to date exactly if it had every committed op before. |
| SyncHub.PushCursorSkips | qcue-rs/app-server/src/sync/routes.rs:149-180 | A device that adopts the cursor of its push skips, for good, every committed op that it has not been sent. |
| SyncHub.OutOfOrderSkips | qcue-rs/app-server/src/sync/materialize.rs:336-368 | A commit out of order is skipped by any new client that pulls just before it. |
| SyncHub.SkippedForGood | qcue-rs/app-server/src/sync/routes.rs:188-209 | An op skipped once is never sent to that client, whatever it pulls or pushes. |
| SyncHub.OvertakenIsReached | qcue-rs/app-server/src/sync/routes.rs:89-118 | Seven steps of an emitter and a push lead to a log that is past an op not yet committed. |
| SyncHub.PushesCanBeSkipped | qcue-rs/app-server/src/sync/routes.rs:89-118 | A push overtaken by an emitter is skipped for good by a client that pulls between the two commits. |
| SyncHub.EveryEmitIsKept | qcue-rs/app-server/src/sync/emit.rs:35-71 | With pushes from other devices only, in every interleaving, each committed emit has inserted exactly one op, and server lamports grow strictly in commit order. |
| SyncHub.ForgedPushDrops | qcue-rs/app-server/src/sync/emit.rs:56-69 | A push filed under the server's own device can make the conflict clause drop an emitter's op. |
| Reducer.LastWriterWins | qcue-rs/app-server/src/sync/materialize.rs:77-159 | After any ops that name one type between two deletions of a slug, the slug has no live page if nothing touched it since its last deletion, and else one, of the type named first (or a concept), with the last title set since then (or the slug) and the last body, sanitized once for every write since it was set. |
| Reducer.SanitizedOnce | qcue-rs/app-server/src/sync/materialize.rs:123-157 | Where sanitizing the last body twice is the same as once, the page has that body sanitized. |
| Reducer.IdeasStay | qcue-rs/app-server/src/sync/materialize.rs:173-290 | No op removes an idea, changes its origin or capture time, or brings a deleted one back. |
| Reducer.IdeasFollowTheirOps | qcue-rs/app-server/src/sync/materialize.rs:173-290 | In terms of the ops alone: an idea exists exactly if some op creates it, with origin and time of the first creation; it is active exactly if no later op deletes it; its body is the last one sent since, each coordinate the last one sent by an update that is not lost. |
| Reducer.UnchangedBodyLosesLocation | qcue-rs/app-server/src/sync/materialize.rs:250-262 | An update leaves the idea at the location it sends exactly if it sends no body, a new body, or no new coordinate; with an unchanged body it changes nothing at all. |
| Batches.GoesThroughExactlyIf | qcue-rs/app-server/src/sync/materialize.rs:26-159 | A batch goes through exactly if every op is accepted and none writes a page, that is a type and slug, which an earlier op of the batch has deleted, or one of an unknown type; then the transaction leaves what the reducer makes of the batch. |
| Batches.StallsExactlyIf | qcue-rs/app-server/src/sync/materialize.rs:77-159 | A batch waits forever exactly if the first op at which it stops writes a page that an earlier op of the batch has deleted, and the write gets as far as the row. |
| Batches.StoppedLeaves | qcue-rs/app-server/src/sync/materialize.rs:26-159 | What a batch leaves that stops: ideas and deletions are taken back, the page writes before the stop stay, and of the stopping write what the gate has done of it; a stalled one has overwritten the body file. |
| Batches.NeverStallsIf | qcue-rs/app-server/src/sync/materialize.rs:82-157 | A batch can never stall, whatever pages there are, if no deletion in it is followed in clock order by a write under the same slug; and exactly then where no op names a type. |
| Batches.DeleteThenWriteStallsExactlyIf | qcue-rs/app-server/src/sync/materialize.rs:85-157 | Deleting the only page of a slug and writing under the slug again in one batch stalls exactly if the new page is of the old one's type, which is a concept unless the op names a type. |
| Batches.DoomedStays | qcue-rs/app-server/src/sync/materialize.rs:77-159 | A batch that writes a page it has deleted, all writes under the slug being of one type, still does so after any attempt at it, whatever the attempt met. |
| Batches.TogetherExactlyIf | qcue-rs/app-server/src/sync/materialize.rs:26-71 | Two batches as one go through exactly if each goes through after the other and the second writes no page that the first deleted. |
| GateAnswers.GateAnswersTheBatch | qcue-rs/wiki/src/write_gate.rs:55-121 | Every page write, wherever it ends, is one of the answers a batch reckons with: accepted exactly if it returns an id, leaving of its page what that answer leaves and every page with another file as it was. |
| Materialize.SyncServer.RegisterDevice | qcue-rs/app-server/src/sync/routes.rs:43-77 | A known device keeps its row; a new one gets the next site after the greatest, at least 1; sites stay distinct. |
| Materialize.SyncServer.ServerDevice | qcue-rs/app-server/src/sync/emit.rs:16-29 | The server's device has site 0 and is made at most once. |
| Materialize.SyncServer.EmitOp | qcue-rs/app-server/src/sync/emit.rs:35-71 | One op is added, already applied, with a lamport one above the greatest; what is pending stays the same. |
| Materialize.SyncServer.PushOps | qcue-rs/app-server/src/sync/routes.rs:89-118 | Each op whose device, site and lamport are new is added, the others are not, and the count is the number added. |
| Materialize.SyncServer.ApplyUnapplied | qcue-rs/app-server/src/sync/materialize.rs:26-159 | The loop over the pending ops in clock order, with page writes committed at once and the rest by the transaction: the whole state left and how it ends, for all answers of the gate and the database. |
| Materialize.SyncServer.PushRoute | qcue-rs/app-server/src/sync/routes.rs:157-181 | A push is refused whole when it has more than 1000 ops; otherwise its new ops are added and everything pending is applied as one batch, and unless that goes through the log is as before: the whole state left and how it ends. |
| Materialize.AttemptedExactlyIf | qcue-rs/app-server/src/sync/materialize.rs:26-71 | An apply goes through exactly if nothing in its batch stops it, and then flags every op and leaves what the reducer makes of the pending ones in clock order. |
| Materialize.AscendingIsUnique | qcue-rs/app-server/src/sync/materialize.rs:33-36 | There is only one way to put a set of ops with distinct clocks in order. |
| Materialize.SortedByTheClock | qcue-rs/app-server/src/sync/materialize.rs:33-36 | Sorting keeps every op as often as it is there and puts them by wall clock, then lamport, then site, clocks alike or not. |
| Materialize.FirstPushStands | qcue-rs/app-server/src/sync/routes.rs:89-118 | A push adds to the log, unapplied and in order, exactly the ops that are the first with their device, site and lamport. |
| Materialize.ApplyingAgainDoesNothing | qcue-rs/app-server/src/sync/materialize.rs:19-25 | After an apply that goes through nothing is pending, and applying again goes through and changes nothing. |
| Materialize.RepeatedPushInsertsNothing | qcue-rs/app-server/src/sync/routes.rs:87-117 | Pushing ops again leaves the log as it is. |
| Materialize.PushOrderIsInvisible | qcue-rs/app-server/src/sync/materialize.rs:4-8 | For a single apply: the same ops pushed before it in any order, with any repetitions, make it end in the same way and leave the same canonical tables. |
| Materialize.PagesFollowTheClock | qcue-rs/app-server/src/sync/materialize.rs:26-159 | For a single apply: whatever the order of the pushes before it, it goes through exactly if nothing in the ops in clock order stops it; then the tables are what the reducer makes of them in that order, and a slug whose ops name one type between deletions has its last title and body since its last deletion. |
| Materialize.RoundsCompose | qcue-rs/app-server/src/sync/materialize.rs:26-71 | After an apply that went through, a second one whose ops all come later in clock order, and one apply of both: the latter goes through exactly if the former does and writes no page that the first deleted, and then both leave the same. |
| Rounds.RoundGoesThroughExactlyIf | qcue-rs/app-server/src/sync/routes.rs:157-181 | A push request goes through exactly if it has at most 1000 ops, none of its batch is refused, and none writes a page that the batch has deleted, or one of an unknown type. |
| Rounds.FailedRoundLeaves | qcue-rs/app-server/src/sync/routes.rs:157-181 | A request that does not go through leaves the log and the ideas as they were, and of the pages what the gate had committed. |
| Rounds.RetryIsInVain | qcue-rs/app-server/src/sync/routes.rs:157-181 | A request whose batch writes a page that it has deleted, all writes under the slug being of one type, is never applied, however often it is sent and whatever becomes of its other ops; nor is one of whose ops the same is refused each time. |
| Rounds.PagesAfterRounds | qcue-rs/app-server/src/sync/routes.rs:157-181 | After any sequence of push requests a slug that no failed one was to write has the pages that the reducer makes of the ops of those that went through, round by round, in clock order within a round; and where these name one type between deletions, one page with the last title and body in that order since its last deletion. |
| Rounds.IdeasAfterRounds | qcue-rs/app-server/src/sync/materialize.rs:173-290 | After any sequence of push requests, failed ones included, an idea is what the ops of the requests that went through make of it, in the order in which these applied them. |
| Rounds.AddedClocks | qcue-rs/app-server/src/sync/routes.rs:89-118 | What a round that goes through adds is in clock order, and shares no clock with anything applied before. |
| Rounds.InOrderExactlyIf | qcue-rs/app-server/src/sync/materialize.rs:26-71 | Over any sequence of rounds that went through the ops of an entity are applied in clock order exactly if none arrives after one of the same entity with a later clock has been applied. |
| Rounds.RoundsApplyInClockOrderExactlyIf | qcue-rs/app-server/src/sync/materialize.rs:26-71 | Under exactly that condition the ops of an entity are applied as the reducer would take all ops in clock order. |
| Rounds.PagesFollowTheClockInRounds | qcue-rs/app-server/src/sync/materialize.rs:26-159 | After any sequence of push requests a slug none of whose ops was late, and which no failed request was to write, has the pages that the reducer makes in clock order of the ops of the requests that went through; one page with the last title and body where they name one type between deletions; whatever happened to other slugs. |
| Rounds.IdeasFollowTheClockInRounds | qcue-rs/app-server/src/sync/materialize.rs:173-290 | And what they make of it in clock order, where none of the idea's ops was late. |
| Rounds.TablesFollowTheClock | qcue-rs/app-server/src/sync/materialize.rs:26-71 | Where no op of any entity was late and no failed request was to write a page, any sequence of requests leaves the tables that the reducer makes of the ops of those that went through, in clock order, whatever types they name. |
| Rounds.RoundsAreInvisible | qcue-rs/app-server/src/sync/materialize.rs:4-8 | Two histories whose requests that went through pushed the same ops leave the same tables, where neither has a late op or a failed request that was to write a page. |
| Rounds.LateOpsWin | qcue-rs/app-server/src/sync/materialize.rs:33-36 | Of two titles in two rounds the one that arrives last stands, whatever the clocks; that is the title a single apply would leave exactly if it is not late, or says the same. |

## Left out

- Sse.SseFrames: chunks are cut at character boundaries; a multi-byte character split across chunks, which the code decodes lossily piece by piece, is not modelled.
- Json: numbers are integers and objects have no key order; the JSON reader and writer are a parameter that reads back what it writes.
- ResponsesStream.StreamAgreesWithObject: covers streams that spell out the output items in order, of items of other kinds at most the end; frames that contradict the final object are covered only by the bracketing and text lemmas.
- Vendors.ChunksAreRead: chunks with one choice, which is the only one that the parser looks at; `[DONE]` is taken to be no JSON.
- ChatStream.ParseChatSse: the scrubbing of forged wrappers is a function parameter.
- WireAgreement.FormatsAgree: system text, tool definitions, cache marks and other request fields are not part of the trace.
- Turn.RunTurn: sink and observer callbacks, streaming to a client, recall injection and history compression are not modelled; token counters are unbounded.
- Protocol: `Message.active` and `ToolCall.provider_data`, which none of the modelled code reads, have no counterpart.
- JsonScan.IsolateObject: handing the isolated text to the JSON reader, and the retry with more tokens.
- Classify: pulling the innermost message out of vendor bodies and reading a delay from its wording; message and delay are arbitrary inputs.
- Dispatch.HttpDispatch.Complete: leases, strategies other than fill-first and pruning of dead entries, which the loop never uses; request bodies, headers and decryption beyond whether it fails; an answer's content.
- DispatchAnswers.AnswersOkExactlyIf: the call starts with an empty record of events and with hints and ids distinct per provider, which a unique index guarantees.
- DispatchSafety.PenaltiesAreServed: calls run one after the other, rows are loaded in table order, database and server share one clock in whole milliseconds, and hints are distinct per provider, which a unique index guarantees; turns at once are the subject of DispatchRaces.
- DispatchRaces: one provider's rows, each write-back in one step (see RowByRowIsOneStep); a key saved anew in the settings, which resets its row, is not a step.
- Jobs: one tenant; handlers are scripts; the other writers of the jobs table (captures insert rows of their own) are not modelled.
- Jobs.Choice: the query leaves the order of jobs equal in priority and due time open; the single worker takes the oldest, the steps of JobRuns any of them.
- Jobs.JobTable.Enqueue: of several pending jobs with the same reference the model answers with the first, the query with any.
- RateLimit: the poisoned lock, key derivation and response headers.
- WriteGate.Gate.WritePage: symbolic links, an absolute slug that spells out the root, and two writes at once; the sanitizer, the hash and the link parser are function parameters; timestamps and the reviewed flag.
- WriteGate.ReplacedLinks: of several live pages with a slug or alias the model links to the first, the query to any.
- WriteRuns.QuotaIsKept: two writes at once, whose usages are read before either row is there.
- WriteRuns.SettledPagesAgree: link targets are those resolved at the time of the write.
- SyncHub: a client has one request at a time; a transaction's statements other than those on the op log; the snapshot is taken to show every committed op.
- Reducer: the object-store line, timestamps of ideas, and fractions in locations.
- Batches.StallsExactlyIf: each page is taken to have its body file to itself, as in GateAnswers; of several live pages of a slug a query is taken to return the same one as long as their types are the same.
- Materialize.SyncServer.ApplyUnapplied: a database or store error at an op other than a page write is one of the answers, one at the flagging or at the commit is not; a stalled request is taken to end in a rollback, when the server stops.
- Materialize.SyncServer.PushOps: redaction of op payloads, and rows that belong to other tenants.
- Rounds.PagesAfterRounds: requests follow each other; two pushes at once are covered only as far as the op log and the cursors go, in SyncHub.
- Materialize.PushOrderIsInvisible: a site and lamport name one op of one device, as devices that count their own lamports guarantee.
- Float pricing, model catalogs, prompt texts, HTTP routing, authentication, encryption, speech and scraping.
