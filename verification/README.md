# Verified model of the collaboration server

The repository connects agents to shared Jupyter notebooks. This project models the parts in
which many things happen at once and proves what holds in every run:

- **Outputs.** A kernel's messages become commands for the output area of a cell (`Reducer`,
  `ReducerContents`), display ids are routed across cells (`Displays`), and the commands reach
  whichever area is still current (`OutputPlane`, `DisplayRuns`, `CompletionRuns`,
  `OutputRouting`). Document, reducer and job record stay equal, completion happens once, and
  the byte budget only ever drops outputs.
- **Jobs.** Cells are sent one at a time by a pump that is suspended at every await
  (`JobMachine`, `JobRuns`, `JobSafety`, `JobVerdicts`, `JobProgress`, `ExecutionJobs`). The
  model separates what provably was not sent from what may have run.
- **Refresh grants.** Rotation with reuse detection (section 10.4 of RFC 6749, section 4.14.2 of
  RFC 9700) over compare-and-swap, for any number of replicas (`CryptoStore`, `RefreshGrants`,
  `RefreshSafety`, `RefreshProgress`).
- **References and paging.** Short aliases for long handles, staged with each response
  (`Literals`, `References`, `ReferenceTrips`, `ReferenceStages`, `OverlappingStages`,
  `ObservedTrees`, `ReferenceTables`), and responses that are cut to a byte budget without
  losing records or writing what the caller holds (`Cursors`, `Paging`, `PageSteps`,
  `PageBudget`, `BudgetErrors`, `Payloads`, `Coalescing`, `PagingRuns`), among them the pages
  of the change journal (`ChangeJournals`).
- **Canonical JSON.** The pre-image of revision digests and why it is unambiguous (`Utf16`,
  `Decimal`, `JsonText`, `CanonicalJson`).
- **Room connection and worker slots.** Pending saves and reconnects (`Rtc`, `RtcRuns`,
  `RtcRoom`), a fair lock (`AsyncLocks`) and the generations of workers (`WorkerSlots`).

Where the source updates objects in place, a class of the model does too, and each of its methods
is proved to compute a step function; the theorems are about runs of those step functions.
Asynchronous code is a state machine with one step per stretch between two awaits, and the
environment chooses which step comes next.

Some promises of the source hold only under a condition. The model keeps the code as it is and
states the condition exactly and gives a run that breaks the promise: `SentAfterDisposal`
(disposal does not stop a job whose cell has completed), `ReplyIdleCommute` (a second reply),
`AgreementIff` and `DisplaysIff` (a display payload with an output type of its own),
`LateAuthentication` (a revocation during the verification of a token), `SparedIff` (stages that
overlap), `BudgetHoldsIff` (the budget under updates from other cells), `LiteralRoundTrip` (lone
surrogates in escaped literals), `KeysClashExactly` and `OverlapLoses` (NUL in notebook
handles), `CellKeyExact` (null and empty outputs revisions), `FailedStays` (a conflict after a failure).

`dafny verify dfyconfig.toml` checks the whole project.

## Model

| member | source | states |
|---|---|---|
| Decimal.NumberTextInjective | src/core/revision.ts:117-118 | Two finite numbers are printed alike only if they are equal, or both are zeros of whatever sign: the digits, the place of the point and the sign can all be read back from the text, in plain and exponential notation |
| Decimal.ReadLayoutRoundTrip | src/core/revision.ts:117-118 | A reader that strips padding and the exponent recovers exactly the shortest digits and the decimal point from every one of the four layouts of a number |
| JsonText.QuoteUnambiguous | src/core/revision.ts:115-116 | A quoted string followed by anything determines the string and what follows: escapes of section 7 of RFC 8259 never run together |
| CanonicalJson.EncodeJson | src/core/revision.ts:112-138 | The printer with its loops, sort and skipped members produces the specified text for every value |
| CanonicalJson.SortThenSkip | src/core/revision.ts:129-136 | Sorting all keys by code unit and then skipping undefined members gives the same members in the same strict order as dropping them first, and sorting loses and invents nothing |
| CanonicalJson.Unambiguous | src/core/revision.ts:112-138 | One printed value followed by a comma, a closing bracket or nothing determines both the meaning of the value and the rest of the text |
| CanonicalJson.CanonicalExact | src/core/revision.ts:108-138 | Two values are printed alike exactly when they mean the same up to key order, dropped undefined members, and undefined, non-finite numbers and -0 being normalised |
| CanonicalJson.EncodeWellFormed | src/core/revision.ts:145-151 | The printed text has no lone surrogate whatever strings the value holds, so hashing its UTF-8 bytes loses nothing |
| CanonicalJson.LiteralNames | src/core/revision.ts:112-121 | True, false and null are printed as the literal names of section 3 of RFC 8259, and undefined and non-finite numbers as null |
| CanonicalJson.PreImageExact | src/core/revision.ts:140-151 | The hashed bytes of kind, space and text are equal exactly when the kinds are equal and the payloads mean the same |
| JsonText.QuoteLengthAdds | src/kernel/output-reducer.ts:151-169 | Escaped lengths of two strings add up, except that a surrogate pair split between them counts exactly ten too much |
| Displays.DisplayRegistry.constructor | src/kernel/display-registry.ts:67-70 | A new table is empty and keeps its two caps |
| Displays.DisplayRegistry.Register | src/kernel/display-registry.ts:83-97 | In-place registration is the table function: the oldest id, or the oldest target of the id, makes room, and a known target is not added again |
| Displays.DisplayRegistry.Resolve | src/kernel/display-registry.ts:99-102 | Resolving returns the targets of the id, or none |
| Displays.DisplayRegistry.ForgetGeneration | src/kernel/display-registry.ts:110-123 | The loop over all ids removes the targets of one area and the ids left empty, and nothing else |
| Displays.DisplayRegistry.Clear | src/kernel/display-registry.ts:125-128 | Clearing empties the table and keeps the caps |
| Displays.RegisterSound | src/kernel/display-registry.ts:83-97 | Registering keeps the table sound (both caps, no duplicate id or target, no empty list), makes the target resolvable and registers nothing else |
| Displays.ForgetSound | src/kernel/display-registry.ts:110-123 | Forgetting an area keeps the table sound and removes exactly its targets |
| Reducer.ExecutionReducer.ConsumeDeferredClear | src/kernel/output-reducer.ts:197-210 | An armed clear empties outputs and size and forgets the area's display targets; otherwise nothing changes |
| Reducer.ExecutionReducer.Add | src/kernel/output-reducer.ts:218-234 | Appending honours a pending clear, the budget and the display id exactly as the pure step function |
| Reducer.ExecutionReducer.StreamChunk | src/kernel/output-reducer.ts:236-252 | A chunk extends the last output of the same stream unless a clear is pending, and is otherwise a new output |
| Reducer.ExecutionReducer.UpdateDisplays | src/kernel/output-reducer.ts:260-278 | The loop over all targets updates own outputs within the budget and emits one update per applicable target, in order |
| Reducer.ExecutionReducer.ErrorReported | src/kernel/output-reducer.ts:280-295 | An error sets the status and stores one error output, the first time only |
| Reducer.ExecutionReducer.FinishIfDone | src/kernel/output-reducer.ts:337-351 | Completion is emitted when reply and idle have both been seen, and only once |
| Reducer.ExecutionReducer.ReplyArrived | src/kernel/output-reducer.ts:315-335 | A reply fixes count and status, stores a missing error, and completes if idle was seen |
| Reducer.ExecutionReducer.ClearRequested | src/kernel/output-reducer.ts:297-313 | A clear acts at once or is deferred to the next output |
| Reducer.ExecutionReducer.FeedMessage | src/kernel/output-reducer.ts:353-390 | A message of another parent changes nothing; any other leaves reducer, table and commands as the pure step function says |
| Reducer.ExecutionReducer.ReplaceCached | src/kernel/output-reducer.ts:394-400 | A cross-execution update replaces the cached output and adjusts the size without a budget check |
| ReducerRuns.CompletesOnce | src/kernel/output-reducer.ts:315-351 | Over any message sequence the count, idle-state and completion commands occur in one batch, emitted exactly when both a reply and an idle were among the messages |
| ReducerRuns.OutcomeOfRun | src/kernel/output-reducer.ts:315-351 | Status, error name and count after any run are explained by the messages that were fed |
| ReducerContents.ContentsOfRun | src/kernel/output-reducer.ts:212-295 | For every message list in which no update finds an output to replace, and unless output was dropped: the stored outputs are, chunk boundaries aside, one output for each message since the last clear that took effect, in order, each stream under its own name and of all failures the first |
| ReducerContents.TextsOfRun | src/kernel/output-reducer.ts:212-295 | In particular the text of each stream is the concatenation of its chunks, and the displays and errors are those of the messages, with their kinds and in order |
| ReducerContents.UpdateReplaces | src/kernel/output-reducer.ts:260-278 | An update that loses nothing to the budget replaces exactly the own outputs registered under its id, by its content |
| ReducerContents.StreamsApart | src/kernel/output-reducer.ts:236-252 | Neighbouring outputs are never two streams of one name, unless a display payload posed as a stream |
| ReducerRuns.ErrorStoredOnce | src/kernel/output-reducer.ts:280-295 | Over every message list at most one error output is written on account of the execution's own failures, and none before an error was seen: every further one was itself the content of a display message |
| ReducerRuns.PosedErrorsRepeat | src/kernel/output-reducer.ts:218-234 | Two display messages that bring an error as their content are both stored as errors, although the reducer has seen no error |
| ReducerRuns.ReplyIdleCommute | src/kernel/output-reducer.ts:315-351 | Swapping an adjacent reply and idle leaves reducer, table and commands unchanged if and only if the reply is not a second one that changes the recorded outcome before idle |
| ReducerRuns.CommuteInRun | src/kernel/output-reducer.ts:315-351 | The same after any messages from a fresh reducer: the two orders give different states or commands exactly when a reply but no idle was among them and this second reply brings news |
| ReducerRuns.SecondReplyMatters | src/kernel/output-reducer.ts:315-351 | A message list on which the two orders differ: a good reply, then an abort before idle |
| ReducerBudget.RegisterOwn | src/kernel/display-registry.ts:83-97 | With room left, registering a target of one area changes nothing in the table outside that area |
| ReducerBudget.BudgetRefines | src/kernel/output-reducer.ts:198-234 | In runs in which no registration reaches a cap of the display table, a budgeted and an unbounded reducer hold the same outputs and registrations whenever nothing was reported incomplete |
| ReducerBudget.CountedRoom | src/kernel/display-registry.ts:83-97 | A run reaches no cap if the table has room for as many registrations as there are displays with an id among the messages |
| ReducerBudget.CompletionIgnoresBudget | src/kernel/output-reducer.ts:315-351 | For any two budgets and any two display tables the same messages give the same completion commands and the same recorded progress |
| ReducerBudget.FeedEstimate | src/kernel/output-reducer.ts:212-277 | Any message changes the recorded size by exactly the change of the stored JSON length, plus ten for a newly split surrogate pair, plus the length of the members that a merge drops from a stream; the difference starts over when the area is emptied |
| ReducerBudget.EstimateExact | src/kernel/output-reducer.ts:143-169 | For all inputs, updates from other executions included: the recorded size is the JSON length of the stored outputs plus ten per surrogate pair split between chunks plus the length of what merges dropped, both since the area was last emptied |
| ReducerBudget.EstimateCovers | src/kernel/output-reducer.ts:143-169 | For all inputs the recorded size is at least the JSON length of the stored outputs |
| ReducerBudget.BudgetRespected | src/kernel/output-reducer.ts:212-216 | The recorded size never exceeds the budget in any run of own messages |
| ReducerBudget.BudgetHoldsIff | src/kernel/output-reducer.ts:394-400 | With updates from other executions mixed in, the size stays within the budget throughout a run if and only if each such update, when it comes, is out of range or would have passed the budget check that is missing there |
| ReducerBudget.CrossUpdateOverruns | src/kernel/output-reducer.ts:394-400 | A concrete update from another execution takes the recorded size above the budget |
| OutputPlane.FeedReplay | src/kernel/output-reducer.ts:353-390 | Replaying the emitted commands on the previous outputs gives the reducer's new outputs, for every message but a chunk merged into a stream with members of its own |
| OutputPlane.EffectKeeps | src/kernel/execution-registry.ts:675-726 | One routed command keeps the tables well formed, writes at most the area it addresses, and leaves every other agreement in place |
| OutputPlane.AgreementIff | src/kernel/execution-registry.ts:544-573 | Whatever the messages bring, document, reducer and job record of every live area agree after every event of a run if and only if no chunk is merged, in a live area, into a stream with members of its own |
| OutputPlane.PosingStreamBreaks | src/kernel/output-reducer.ts:236-252 | From a fresh start, a display payload posing as a stream with a further member and one chunk of that stream make the copies differ |
| OutputPlane.AgreementAlways | src/kernel/execution-registry.ts:544-573 | In every run of openings, messages, foreign writes, kernel events and disposal in which no display payload is a stream with members of its own, a listed area whose sink is current holds the same outputs in the document, in the reducer and in the job record |
| OutputPlane.ConsumeFollowed | src/kernel/execution-registry.ts:675-726 | A routed message changes the cached outputs of another execution exactly at the targets of its update whose area is listed, current and long enough, and changes them to the new output |
| DisplayRuns.FeedTidy | src/kernel/output-reducer.ts:212-278 | Whatever the message, the table stays sound, own targets stay in range and nothing is registered for other areas; the own targets stay displays under the stated condition on the message, and some is none when it fails |
| DisplayRuns.DisplayTableSound | src/kernel/display-registry.ts:60-128 | In every run, whatever the messages bring, both caps of the display table hold, ids are unique, no target list is empty or repeats a target, and every target is an output that its area has |
| DisplayRuns.DisplaysIff | src/kernel/output-reducer.ts:218-278 | Every target of the table is a display after every event of a run if and only if no display stored under an id, no own update within the budget and no update that reaches a live area brings content that is not a display |
| DisplayRuns.PosingDisplayBreaks | src/kernel/output-reducer.ts:218-234 | From a fresh start, one display with an id whose content brings another output type leaves a target that is no display |
| OutputPlane.RememberElements | src/kernel/execution-registry.ts:480-490 | Remembering an area keeps every current area while there is room, otherwise drops the oldest current ones and no more than needed for the limit of 1024, drops stale areas, and adds the new one |
| OutputPlane.MergeAgreesIff | src/kernel/output-reducer.ts:236-252 | When a display payload poses as a stream, merging a chunk into it keeps document and reducer equal if and only if it carries no further members |
| OutputPlane.StaysStale | src/core/types.ts:780-813 | A writer is valid for one generation: a sink that is no longer current never becomes current again in any continuation of any run |
| CompletionRuns.CompletionShows | src/kernel/execution-registry.ts:695-726 | In a live area the message that completes an execution writes its count into the cell and makes it idle, and every other message leaves both as they are |
| OutputRouting.OutputRouter.Remember | src/kernel/execution-registry.ts:480-490 | The two eviction loops compute the specified area table |
| OutputRouting.OutputRouter.OpenGeneration | src/kernel/execution-registry.ts:432-449 | Opening a generation empties the cell, makes the new execution its writer and remembers the area |
| OutputRouting.OutputRouter.MarkLost | src/kernel/execution-registry.ts:679-683 | A write that cannot be applied is recorded on the execution and nothing else changes |
| OutputRouting.OutputRouter.Apply | src/kernel/execution-registry.ts:675-726 | One command is applied to the owning area, or recorded as lost; a cross-cell update also updates the owner's cache and record |
| OutputRouting.OutputRouter.Consume | src/kernel/execution-registry.ts:544-573 | A routed message is fed, its commands applied in order and the record refreshed |
| OutputRouting.OutputRouter.KernelChange | src/kernel/execution-registry.ts:173-180 | A kernel event empties display table and area table and nothing else |
| CryptoStore.MemoryKeyValueBackend.Get | src/gateway/crypto-store.ts:178-186 | Reading returns the visible value; dropping an expired entry changes nothing visible |
| CryptoStore.MemoryKeyValueBackend.Set | src/gateway/crypto-store.ts:188-193 | Writing makes the value visible, unless its lifetime is zero |
| CryptoStore.MemoryKeyValueBackend.Delete | src/gateway/crypto-store.ts:195-197 | Deleting removes the key and nothing else |
| CryptoStore.MemoryKeyValueBackend.Take | src/gateway/crypto-store.ts:199-205 | Taking returns what was visible and removes it |
| CryptoStore.MemoryKeyValueBackend.CompareAndSwap | src/gateway/crypto-store.ts:207-214 | The swap happens exactly when the visible value is the expected one, and a refused swap changes nothing visible |
| RefreshSafety.SafeAlways | src/gateway/refresh-grants.ts:86-224 | Every state reachable by interleaving any number of create, refresh, revoke and identity calls at every store and upstream call, with time, expiry, failures and writes whose answer is lost in between, satisfies the protocol invariant |
| RefreshSafety.GrantIsNextGeneration | src/gateway/refresh-grants.ts:156-216 | A granted refresh hands out the one pair that was committed for the generation after its token's |
| RefreshSafety.SameTokenSamePair | src/gateway/refresh-grants.ts:156-192 | Any two successful refreshes with the same token return the same pair, whether by renewal or by receipt |
| RefreshSafety.UncommittedPairsInert | src/gateway/refresh-grants.ts:86-134 | No call authenticates with the access token, and no refresh is granted for the refresh token, of a pair minted for a generation that was never committed |
| RefreshSafety.FamilyProgress | src/gateway/refresh-grants.ts:136-192 | A later write of a grant is strictly further on (twice the generation plus refreshing, revoked on top), and client, binding and deadline never change |
| RefreshSafety.ExpiryWithinDeadline | src/gateway/refresh-grants.ts:86-104 | Every written family has its pair committed, and neither the pair nor its receipt outlives the family's absolute deadline |
| RefreshSafety.OneRenewalPerGeneration | src/gateway/refresh-grants.ts:163-196 | At most one upstream renewal is ever sent for a generation of a grant |
| RefreshSafety.ClaimTriedOnce | src/gateway/refresh-grants.ts:163-191 | The retry loop of one refresh tries the claim at most once |
| RefreshSafety.RevocationIsFinal | src/gateway/refresh-grants.ts:136-224 | After a revocation was written, no step grants a pair of that grant |
| RefreshSafety.LateAuthentication | src/gateway/refresh-grants.ts:121-134 | After a revocation was written, a step authenticates a token of that grant only for a call that read the family, unrevoked, before the revocation was written and has since been waiting for its verification |
| RefreshSafety.LateAuthenticationHappens | src/gateway/refresh-grants.ts:121-134 | From an empty store this happens: the family is read, its revocation is written, and then the verification answers and the token authenticates |
| RefreshSafety.OnlyTheClientWrites | src/gateway/refresh-grants.ts:159-161 | A stored family is only ever replaced by a call of the family's own client |
| RefreshSafety.AuthenticatedInTime | src/gateway/refresh-grants.ts:121-134 | A token authenticates only before the committed pair it belongs to expires, and so before the deadline of its family |
| RefreshProgress.ReuseRevokes | src/gateway/refresh-grants.ts:163-184 | A call that reads its unexpired family with a token that is not the current one, or whose claim is 45 seconds old, and that no live receipt covers, ends denied and with the family revoked, unless the call fails, the family is lost or expires, or eight of its writes come too late; two turns more than twice the lost writes are enough |
| RefreshProgress.FailedRenewalRevokes | src/gateway/refresh-grants.ts:194-224 | Once a generation is claimed, every renewal that throws, loses an answer or gets no good upstream answer ends the same way: denied, and the family revoked |
| RefreshProgress.CurrentIsGranted | src/gateway/refresh-grants.ts:156-216 | The current token of an active family is granted: without failures, interference, expiry or a bad upstream answer the call ends at its eighth turn, not before, with the pair committed for the next generation |
| JobRuns.Run | src/kernel/execution-registry.ts:155-378 | Every run of submissions, cancellations, disposal, kernel and channel events and pump turns stays within the job machine's invariant |
| JobRuns.StepKeeps | src/kernel/execution-registry.ts:196-467 | Each atomic stretch between two awaits keeps the invariant, whatever the callbacks answer or throw |
| JobSafety.OneInFlight | src/kernel/execution-registry.ts:340-359 | At most one cell across all jobs of the kernel is in flight |
| JobSafety.SentPrefix | src/kernel/execution-registry.ts:380-467 | The cells of a job that got a message id form a prefix, and each but the last ended well enough to go on: nothing is sent after a lost cell nor, under stop-on-error, after a failed or aborted one |
| JobSafety.NotSentHasNoId | src/kernel/execution-registry.ts:600-611 | A cell is queued or not sent exactly when it has no message id |
| JobSafety.SendsWereChecked | src/kernel/execution-registry.ts:415-431 | Every request that reached the kernel carried the text that the check in the same step returned for the accepted identity, in the job's acceptance epoch, and the record keeps that text |
| JobSafety.SentOnce | src/kernel/execution-registry.ts:10-13 | No cell is ever sent twice |
| JobSafety.FinishedOnce | src/kernel/execution-registry.ts:333-338 | Each job is finished at most once, with the outcome it still has |
| JobSafety.OutcomeMeans | src/kernel/job-record.ts:160-174 | A finished job has no queued or sent cell; it succeeded exactly when every cell did, is unknown exactly when some cell is, and a cancelled one has only succeeded and unsent cells |
| JobVerdicts.VerdictOfCell | src/kernel/execution-registry.ts:620-649 | From the events of any run: a cell has succeeded, failed, been interrupted or been aborted exactly when some event settled it as completed and the verdict of its reducer then was neither error nor abort, an error that is no interrupt, an interrupt, or an abort |
| JobVerdicts.SettledByCompletion | src/kernel/execution-registry.ts:544-573 | A cell is settled as completed only after reply and idle had arrived while it was in flight and nothing else had ended it |
| JobVerdicts.NothingSentAfterError | src/kernel/execution-registry.ts:454-463 | Under stop-on-error no later cell of the job is ever sent once a cell ended with an error or an abort |
| JobVerdicts.CellEndsAsMessagesSay | src/kernel/execution-registry.ts:620-649 | With the verdict taken from the reducer, the end of a cell is what the last deciding message its reducer was fed says, and the name of the first error tells an interrupt from a failure |
| JobSafety.QueueIsServed | src/kernel/execution-registry.ts:304-359 | A waiting job always has a running pump, and an idle pump leaves no unfinished job |
| JobSafety.NothingIsUndone | src/kernel/execution-registry.ts:247-251 | Whatever happens later, a finished job keeps state and cells, a cell that was not sent never is, and sent text and message ids never change |
| JobSafety.StepMoves | src/kernel/execution-registry.ts:196-467 | One step of the machine makes only such legal moves, in every job at once |
| JobProgress.TurnSpendsWork | src/kernel/execution-registry.ts:340-378 | Every turn of the pump that does not wait for the kernel uses up work, also when a callback throws |
| JobProgress.TurnsBounded | src/kernel/execution-registry.ts:340-378 | In every run, with cancellations, kernel events, disposal and submissions anywhere between them, the turns the pump takes and the work left never exceed the work at the start plus what the submissions brought |
| JobProgress.EveryJobEnds | src/kernel/execution-registry.ts:340-378 | A run that took all these turns has finished every accepted job, and while one is unfinished the pump has a turn to take once the cell in flight is settled |
| JobProgress.SentAfterDisposal | src/kernel/execution-registry.ts:298-315 | After disposal something more is sent in some continuation if and only if the cell in flight is not lost and its job would go on to another uncancelled cell; the promise that unsent work becomes not sent fails exactly there |
| JobProgress.DisposalCarriesOn | src/kernel/execution-registry.ts:298-315 | A run from the empty registry - two cells, the first completes, disposal - after which more is sent |
| JobProgress.OnlyCompletionSettles | src/kernel/execution-registry.ts:304-316 | A cell sent after disposal stays in flight until the kernel's own completion, whatever else happens |
| ExecutionJobs.FinalState | src/kernel/job-record.ts:160-174 | The five scans compute the specified outcome |
| ExecutionJobs.SkipRest | src/kernel/job-record.ts:147-158 | The loop marks exactly the queued cells from an index on |
| ExecutionJobs.ExecutionRegistry.Submit | src/kernel/execution-registry.ts:200-239 | Accepting a job appends its record, queues it and, if the pump is idle, runs it up to the first await; a disposed registry or an empty list changes nothing |
| ExecutionJobs.ExecutionRegistry.Cancel | src/kernel/execution-registry.ts:253-267 | Cancelling marks queued cells, takes the job out of the queue and finishes it only if none of its cells was visited |
| ExecutionJobs.ExecutionRegistry.Dispose | src/kernel/execution-registry.ts:304-315 | Disposal settles the cell in flight and finishes every waiting job as cancelled, in order |
| ExecutionJobs.ExecutionRegistry.Resume | src/kernel/execution-registry.ts:340-359 | A turn of the pump is the specified transition from every await it can be suspended at |
| ExecutionJobs.ExecutionRegistry.VisitCell | src/kernel/execution-registry.ts:389-441 | One pass of the cell loop takes the first applicable of the exits of the source, or sends |
| ExecutionJobs.ExecutionRegistry.Deliver | src/kernel/execution-registry.ts:575-612 | A refused request leaves the cell not sent; a delivered one is in flight; one that threw after delivery is unknown |
| ExecutionJobs.ExecutionRegistry.AbandonJob | src/kernel/execution-registry.ts:361-378 | A job whose callbacks threw gets a terminal state with no open cell |
| ExecutionJobs.ExecutionRegistry.KernelChangedEvent | src/kernel/execution-registry.ts:173-193 | A kernel event starts a new epoch and ends the cell in flight |
| Literals.LiteralExact | src/mcp/references.ts:585-599 | Exactly the escapes of well-formed values that need one are accepted, and each decodes to that value |
| Literals.LiteralRoundTrip | src/mcp/references.ts:601-609 | Escaping and decoding gives the value back if and only if it has no lone surrogate; otherwise each lone surrogate comes back as U+FFFD |
| ReferenceTrips.KeysClashExactly | src/mcp/references.ts:579-583 | Lookup keys of two notebook handles can coincide if and only if one handle followed by NUL starts the other |
| ReferenceTrips.NulFreeApart | src/mcp/references.ts:579-583 | Handles without a NUL character never clash |
| ReferenceTrips.OverlapLoses | src/mcp/references.ts:137-178 | For any two clashing handles there are references such that the second alias resolves to an error in its own notebook |
| ReferenceTrips.PresentKeeps | src/mcp/references.ts:137-155 | Presenting keeps the two alias tables inverse, changes no issued alias and never reuses one |
| ReferenceTrips.PresentResolves | src/mcp/references.ts:137-178 | A presented reference resolves to the original in its notebook, after any growth of the table; without a notebook this needs the literal to survive its escape |
| ReferenceTrips.TreeKeeps | src/mcp/references.ts:332-391 | Presenting any tree keeps alias and observation tables sound and only adds to them |
| ReferenceTrips.TreeRoundTrip | src/mcp/references.ts:230-232 | For every tree without observed cells or notebooks, and without texts under keys that every JavaScript object inherits, resolving the presented tree gives the original, although the table grew during the walk and may grow afterwards |
| ObservedTrees.TreeIsShown | src/mcp/references.ts:332-396 | For every tree, observed versions included, and any later growth of the tables: each reference resolves to the original; an object that describes a cell shows a reference that looks up its notebook, cell id, identity token and its source, cell and outputs revisions, and no longer has these members; the same for notebooks; everything else is unchanged |
| ReferenceStages.CellKeyExact | src/mcp/references.ts:393-407 | Observations without NUL share a reference exactly when they are equal, or differ only in null against an empty outputs revision |
| ReferenceStages.ObservedAnswers | src/mcp/references.ts:393-431 | The reference shown for a cell observation looks up that observation, in the same sense, in its notebook |
| ReferenceStages.NotebookKeyExact | src/mcp/references.ts:409-423 | Two notebook observations share a reference exactly when they are equal |
| ReferenceStages.ObservedNotebookAnswers | src/mcp/references.ts:409-439 | The reference shown for a notebook observation looks up that very observation in its notebook |
| ReferenceStages.CommitRetains | src/mcp/references.ts:199-212 | A commit keeps exactly the cell and notebook references that were there before or are shown in the fields of the published value, with their observations |
| ReferenceStages.ReferencesAreForever | src/mcp/references.ts:186-228 | Over any sequence of staged responses, each settled before the next, the tables stay inverse and within the cap, and every retained reference denotes its original observation |
| OverlappingStages.AnyOrderKeeps | src/mcp/references.ts:186-228 | In whatever order stages are opened, committed and rolled back, several at once, the tables stay inverse and the aliases sound |
| OverlappingStages.SparedIff | src/mcp/references.ts:186-228 | With overlapping stages a reference stands for its observation throughout if and only if every stage that is rolled back or refused had found it when it was opened, and every stage that is committed had found it or publishes it |
| OverlappingStages.OverlapHappens | src/mcp/references.ts:186-228 | From an empty table: a reference is committed by an inner stage, the rollback of the outer one forgets it, and the same text is handed out for another observation |
| ReferenceStages.NeverReminted | src/mcp/references.ts:393-423 | A retained cell or notebook reference is never handed out for another observation of its kind, nor for any of the other kind |
| ReferenceTables.ReferenceAliases.Present | src/mcp/references.ts:137-155 | In-place presentation returns the alias and leaves the tables as the table function says |
| ReferenceTables.ReferenceAliases.Resolve | src/mcp/references.ts:162-178 | Resolution answers as specified and changes nothing |
| ReferenceTables.ReferenceAliases.PresentObserved | src/mcp/references.ts:393-407 | A known observation keeps its reference, a new one gets the next |
| ReferenceTables.ReferenceAliases.PresentObservedNotebook | src/mcp/references.ts:409-423 | The same for notebook observations, from the same counter |
| ReferenceTables.ReferenceAliases.MapTree | src/mcp/references.ts:332-391 | The recursive walk with its loops returns the mapped tree and the grown tables of the specification |
| ReferenceTables.ReferenceAliases.Restore | src/mcp/references.ts:489-505 | Every table is put back exactly |
| ReferenceTables.ReferenceAliases.PruneCells | src/mcp/references.ts:507-520 | The sweep removes exactly the unpublished new references in both directions |
| ReferenceTables.Sweep | src/mcp/references.ts:507-529 | Visiting the references in any order leaves exactly the kept ones and the value entries that do not belong to a dropped one |
| ReferenceTables.StagedReferences.CommitPublished | src/mcp/references.ts:199-212 | A commit prunes and checks the cap, or restores the checkpoint and reports the limit; a second commit does nothing |
| ReferenceTables.StagedReferences.Rollback | src/mcp/references.ts:217-221 | A rollback restores the checkpoint of an open stage and does nothing to a closed one |
| Cursors.ChangesExact | src/core/types.ts:586-597 | A text is read as a journal position exactly when it is the cursor written for it |
| Cursors.PageExact | src/core/types.ts:599-618 | A text is read as a page position exactly when it is the cursor written for it and names a revision, whatever dots the revision contains |
| Cursors.DirectoryExact | src/mcp/wire.ts:236-241 | The same for directory cursors |
| Payloads.WalkObject | src/mcp/wire.ts:165-188 | The walk shows the payload without its recoverable inlined outputs in fresh objects, shares what lies below opaque keys, and writes no object it was given |
| Payloads.ShortenRecoverableArray | src/mcp/wire.ts:196-272 | Shortening in place cuts the first page found, in the object itself or in one of its own members, and moves the cursors, exactly as specified, writing only the copies |
| Payloads.BoundPayload | src/mcp/wire.ts:288-321 | The budget loop with its guard returns an object that shows the specified answer, or the specified budget error, and no object of the caller, opaque or not, has changed |
| PageBudget.OpaqueKept | src/mcp/wire.ts:165-188 | Dropping outputs leaves every user-data member as it is, except that an inlined output is kept whole or dropped whole |
| PageSteps.ShortenKeepsPage | src/mcp/wire.ts:196-244 | A shortened page holds the first half of its records, at least one, and its cursor continues right after the last of them, also where the sequences of events have gaps |
| PageBudget.ShortenIn | src/mcp/wire.ts:246-270 | A page inside a member is shortened in its place in the same way, and an outer cursor that mirrored its cursor still does |
| PageBudget.BoundedPage | src/mcp/wire.ts:288-321 | Whatever the measure, wording and budget, and whether the page is at the top or in a member with a mirrored cursor: an answer that is given fits, holds the first records of the page, at least one, unchanged or without inlined outputs, and continues right after them |
| Coalescing.CoalesceOutputEvents | src/service/service.ts:2606-2625 | The loop keeps of each run of output events the last one per cell, in order of sequence, and every other event |
| ChangeJournals.ChangeJournal.constructor | src/core/notebook/journal.ts:75-80 | An empty journal with room for the given number of events, at least one |
| ChangeJournals.ChangeJournal.Publish | src/core/notebook/journal.ts:98-102 | An event gets the next sequence and its slot of the ring, and the last events, as many as the ring holds, are all in their slots |
| ChangeJournals.ChangeJournal.Since | src/core/notebook/journal.ts:182-207 | The loop over the ring returns exactly the published events after the cursor, no more than asked for, with the cursor after them, or refuses a cursor that is malformed, ahead or expired |
| ChangeJournals.CursorGoodWhileRetained | src/core/notebook/journal.ts:5-7 | A cursor is accepted exactly while every event after it is retained |
| ChangeJournals.NotebookChanges | src/service/service.ts:1298-1330 | The answer holds the coalesced page of the journal, its cursor, and whether more is published |
| ChangeJournals.JournalIsHonest | src/service/service.ts:1298-1330 | Whatever is published between the turns and asked for in them, the answers built by the code's own coalescing are the next events in order with a cursor right after them, so the readings below apply to it |
| ChangeJournals.ReadingTheJournal | src/service/service.ts:1298-1330 | Following the cursors of notebook_changes under any budgets, over a ring that is written to and forgets meanwhile, meets the next events in order and each once; of those passed over each was superseded by a later one of the same cell, and an expired cursor ends the reading instead of skipping |
| PagingRuns.OneAnswer | src/mcp/wire.ts:190-321 | One answer delivers records from the requested position on, in order and each once, omits none but superseded output events, and makes progress if the page had any records |
| PagingRuns.EveryRecordOnce | src/mcp/wire.ts:190-321 | Following the rewritten cursors with any sequence of budgets and any honest server reads the next records in order and each once; a reading that ends, or that asked a server that answers promptly once per record, has met all of them, unless an answer was refused |
| PagingRuns.WholeListRead | src/mcp/wire.ts:190-272 | Cells or entries read to the end are the whole list, up to inlined outputs |
| PagingRuns.LatestRead | src/service/service.ts:2606-2625 | Of a journal read to the end, each event was met or a later one announcing the outputs of the same cell |
| PageBudget.LastPageWhole | src/mcp/wire.ts:190-272 | A page without a continuation is never cut: it is returned with all its records or refused |
| BudgetErrors.RefusedOnlyWhenTooLong | src/mcp/wire.ts:288-321 | A response that fits is returned as it is; a page is refused only with the size of its first record alone, without inlined outputs and with its cursor; a page that was cut would not have fit with the records of the halving before |
| BudgetErrors.RefusedLast | src/mcp/wire.ts:288-321 | A page without a continuation is refused exactly when it does not fit whole, without inlined outputs, and with that size |
| RtcRuns.InvAlways | src/jupyter/rtc-connection.ts:400-680 | Every run of socket, sync, close, message, save, timer and disposal events satisfies the connection invariant |
| RtcRuns.SettledOnce | src/jupyter/save-requests.ts:35-85 | Each save is answered at most once |
| RtcRuns.SettleAllKeeps | src/jupyter/save-requests.ts:58-85 | Everything in flight gets exactly one answer, and the ids stay unique |
| RtcRuns.NonePendingOnLoss | src/jupyter/rtc-connection.ts:574-680 | On entry to reconnecting, failed or closed no save is pending and the replica does not count as in sync |
| RtcRuns.OneTimer | src/jupyter/rtc-connection.ts:597-615 | At most one reconnect timer runs, and none after failure or disposal |
| RtcRuns.ReconnectIsConfirmed | src/jupyter/rtc-connection.ts:621-650 | With a file-id hook, a reconnect happens only after the same file id was confirmed |
| RtcRuns.TerminalIsFinal | src/jupyter/rtc-connection.ts:656-680 | The terminal error is written once |
| RtcRuns.FailureExplained | src/jupyter/close-codes.ts:84-136 | In any run the error a connection ends with is exactly that of the first event with a cause to end it: a rejected session, an unreadable or failed initialisation, a missing notebook, a bad request, too many initialisation errors, another file id, or a conflict |
| RtcRuns.LateConflictShows | src/jupyter/rtc-connection.ts:478-495 | The state is not absorbing: a conflict message after a failure is passed through as the state |
| RtcRuns.FailedStays | src/jupyter/rtc-connection.ts:435-495 | In every run a failed connection stays failed throughout a continuation if and only if that contains no conflict message and no first disposal |
| RtcRuns.FailsAtBudget | src/jupyter/rtc-connection.ts:551-565 | Initialisation fails exactly at the close with 4500 that exceeds the budget since the last completed sync, and every earlier one schedules a reconnect |
| RtcRoom.SaveRequests.Create | src/jupyter/save-requests.ts:35-46 | A new request gets the next id and is pending |
| RtcRoom.SaveRequests.Settle | src/jupyter/save-requests.ts:48-56 | A reply settles a pending request and reports whether there was one |
| RtcRoom.SaveRequests.AnswerAll | src/jupyter/save-requests.ts:58-85 | The loop answers everything in flight once, oldest first |
| RtcRoom.SaveRequests.Cancel | src/jupyter/save-requests.ts:70-76 | Cancelling drops the request without an answer |
| RtcRoom.RtcConnection.StatusEvent | src/jupyter/rtc-connection.ts:503-513 | Socket status moves the state as specified, and not after the end |
| RtcRoom.RtcConnection.SyncEvent | src/jupyter/rtc-connection.ts:515-526 | A completed sync makes the room ready and starts both counters over |
| RtcRoom.RtcConnection.CloseEvent | src/jupyter/rtc-connection.ts:528-568 | A close frame is terminal, a counted retry or a plain reconnect |
| RtcRoom.RtcConnection.ConflictMessage | src/jupyter/rtc-connection.ts:478-495 | A conflict is announced and then fails the connection |
| RtcRoom.RtcConnection.SaveNow | src/jupyter/rtc-connection.ts:400-424 | A save is refused unless the room is ready and its socket open, and is pending exactly when it was not refused |
| RtcRoom.RtcConnection.TimerEvent | src/jupyter/rtc-connection.ts:603-606 | A fired timer is forgotten and starts the re-check or the reconnect |
| RtcRoom.RtcConnection.CheckAnswered | src/jupyter/rtc-connection.ts:621-650 | The answer to a re-check reconnects, fails or schedules another attempt, unless the connection has ended |
| RtcRoom.RtcConnection.Dispose | src/jupyter/rtc-connection.ts:435-455 | Disposal stops the timer, rejects pending saves and closes |
| AsyncLocks.InvAlways | src/gateway/worker-registry.ts:29-74 | Every run of requests, aborts and releases satisfies the lock invariant |
| AsyncLocks.OneGrant | src/gateway/worker-registry.ts:29-74 | One grant is outstanding exactly while the lock is held |
| AsyncLocks.FirstComeFirstServed | src/gateway/worker-registry.ts:63-73 | Grants and waiters are in order of arrival |
| AsyncLocks.NobodyIsStranded | src/gateway/worker-registry.ts:33-52 | Every request is granted, waiting behind an outstanding grant, or turned away, and only one of these; an aborted one is never granted |
| AsyncLocks.ReleaseHandsOver | src/gateway/worker-registry.ts:54-73 | Releasing hands the lock to the first waiter at once |
| AsyncLocks.AsyncLock.Acquire | src/gateway/worker-registry.ts:33-52 | A request is granted, queued or turned away as specified |
| AsyncLocks.AsyncLock.Abort | src/gateway/worker-registry.ts:42-46 | An abort removes exactly the waiting request |
| AsyncLocks.AsyncLock.ReleaseGrant | src/gateway/worker-registry.ts:54-73 | The first call of a release passes the lock on or unlocks |
| WorkerSlots.Run | src/gateway/worker-registry.ts:209-425 | Every interleaving of acquires, starts, renewals, leases, aborts and retirements satisfies the slot invariant |
| WorkerSlots.CapacityKept | src/gateway/worker-registry.ts:231-250 | The slot table stays within the global and the per-principal capacity |
| WorkerSlots.OneInSection | src/gateway/worker-registry.ts:253-333 | At most one call is inside the locked section of a slot |
| WorkerSlots.LeaseMatches | src/gateway/worker-registry.ts:253-328 | A lease is on a worker of the caller's own key and user; for grants and sessions it is never ahead of the slot, and at the same generation the worker has the caller's credential |
| WorkerSlots.CredentialAccepted | src/gateway/worker-registry.ts:301-317 | A worker's credential was accepted at its slot's generation, except between a renewal and its record |
| WorkerSlots.GenerationRises | src/gateway/worker-registry.ts:301-317 | While a worker lives its slot's generation never falls and its user never changes |

## Left out

- Encryption, HMAC, SHA-256, JWT verification: tokens and digests are fresh or injective values, and a store version names one write because every write is encrypted under a new random IV.
- OAuth HTTP handling, client registration, OIDC discovery, redirect checks, configuration: request plumbing.
- Yjs, y-websocket, the kernel client library and the MCP SDK: replaced by the sink contract of src/core/types.ts:780-813 and by events that may happen at any time.
- src/kernel/kernel-client.ts beyond the events it delivers; in particular an event raised synchronously while a request is being written is modelled as the next step.
- The request-id ledger, the notebook model, the output store: only the pages and cursors they hand to the wire layer are modelled. Of the journal, src/core/notebook/journal.ts:104-173, which delays and merges output events before they are published, is not modelled, nor the polling wait of src/service/service.ts:1309-1316.
- REST clients, Hub client, discovery, CLI, tool schemas, text rendering, presence: I/O or thin mapping.
- Tool-specific rewriting in src/mcp/references.ts:235-330 and 433-460, key renaming in src/mcp/wire.ts:66-104 and text cutting in src/mcp/wire.ts:115-128: they would add only easy members.
- RefreshSafety.SafeAlways: one clock for all replicas; expiry and eviction are modelled as entries that may disappear at any moment.
- RefreshSafety.SafeAlways: the upstream renewal and the verification of its assertion in src/gateway/refresh-grants.ts:196-197 are one step, since nothing is read or written between them; a revoke that loses eight swaps in a row ends with an error and may leave the grant as it is, as in the source; the cleanup hook of src/gateway/refresh-grants.ts:145-149 is not modelled.
- OutputPlane.AgreementAlways: for messages whose display payload is no stream with members of its own (the source spreads the payload over its `output_type`); AgreementIff has no such restriction. Reducers inside the plane are values, and the class OutputRouter holds them as values too, so aliasing of records between the job and the area table is not modelled.
- OutputPlane.AgreementAlways: late routes are over-approximated, a message may reach an execution at any time after it was sent, so the cap of 128 late routes is not modelled.
- ReducerBudget.BudgetRefines: nothing is said once a registration evicts another, since that changes what later updates reach.
- JobRuns.Run: waiters, cursors, timestamps, reason texts and output records of a job are not modelled, `kernel_changed`, `disconnected` and `disposed` are one way of losing a cell, and the callbacks do not re-enter the registry.
- ExecutionJobs.ExecutionRegistry.Submit: job records are values in a sequence, named by their position instead of a random id.
- Literals.LiteralExact: decoding of text that is not base64url is not specified, since the source refuses it after re-encoding.
- ReferenceStages.ReferencesAreForever: a stage is settled before the next begins, as in the synchronous callers (src/mcp/server.ts:1046-1112); SparedIff covers stages that overlap, for which the cap may also be exceeded. `sent_cell_ref` is not among the fields that retain a reference.
- ObservedTrees.TreeIsShown: no NUL in notebook handles, cell ids, tokens and revisions, which would let two observations share a reference (CellKeyExact, KeysClashExactly); a member `cell_ref` or `notebook_ref` of a described object is overwritten, as in the source.
- ReferenceTrips.TreeRoundTrip: object keys are ASCII names in insertion order. Keys that objects inherit (`constructor`, `toString`, `valueOf`, `hasOwnProperty`, `isPrototypeOf`, `propertyIsEnumerable`, `toLocaleString` and the names with double underscores) with a text to map are excluded: the lookup in src/mcp/references.ts:353-357 finds an inherited value and the walk throws, and a member `__proto__` is lost.
- ReferenceTables.ReferenceAliases.MapTree: for the same reason does not throw on such keys.
- PageBudget.BoundedPage: the measure of size and the wording of the note are arbitrary functions, so nothing is said about how small a page gets; a payload holds one page, at the top or in one member.
- Payloads.BoundPayload: arrays are values, since nothing here writes into one; the payload is a tree or shares subtrees, but has no cycles, which `JSON.stringify` would refuse.
- PagingRuns.EveryRecordOnce: a cell list or listing stays the same during the reading; a journal may grow and forget, as in ReadingTheJournal, and an expired position counts as refused.
- CryptoStore.MemoryKeyValueBackend.CompareAndSwap: compares stored texts, while RefreshGrants compares versions; between them lies the encryption, which gives every write a text of its own and is not modelled.
- Cursors.PageExact: numbers are unbounded; the source reads digits into a double.
- RtcRuns.InvAlways: the provider's own `synced` flag, awareness, waiters of `waitForReady` and the length of the backoff are not modelled; listeners do not re-enter the connection.
- WorkerSlots.Run: calls, slots and workers are values and the lock of a slot is a holder granted in any order (its fairness is proved for AsyncLock); validity of an identity is an answer of the environment, a renewal that fails leaves the old credential, and a slot entry is removed by key as in the source, so nothing is claimed about which slot a key names after concurrent retirements.
- WorkerSlots.CapacityKept: the tombstones of revoked grants, expiry sweeps and session creation are reduced to retirements that may start at any time.
