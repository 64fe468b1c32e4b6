# A verified model of the ACP Go SDK connection core

This project models, in Dafny, the parts of the ACP Go SDK that decide who may go when: one
JSON-RPC 2.0 connection with its ordered delivery of notifications and responses, the life of a
prepared request, inbound requests and batches, the canonical keys of request ids, the merge of
the stable and the unstable schema, the versioned handshake, and the cancellation of prompts. It
proves properties of all runs of these models.

`dafny verify dfyconfig.toml` verifies everything.

## How it is built

- **Connection and prepared requests** (`Feed`, `Gate`, `Requests`, `Machine`, `Invariant*`,
  `Runs`, `DeliveryLaws`, `SubmissionLaws`, `EveryRun`). One connection is a state machine. An action is one
  section under a mutex or one channel operation of the reader, the notification worker and its
  re-entrant drains, the writer, Dispatch, any number of Waits, Abandon and shutdown; scheduling,
  cancellation and the results of handlers, hooks and writes are arguments of the actions. `Inv`
  is the invariant; `Runs.RunInv` carries it to every state of every run, and `Runs.RunPersists`
  says what no run ever undoes. The laws are statements about whole runs.
- **What has happened, and what can** (`History`, `StreamHistory`, `Outcomes`, `Success`, and for the
  inbound side `InboundHistory`, `CallbackLaws`; tools in `Flags` and `Paths`). The laws above say
  what never happens. These say, of each fact about a request, a delivery, a notification, a batch
  or a callback, after exactly which actions it holds (`FactsExplained`), what therefore every result
  means, and that from every reachable state the good course is possible.
- **The same operations as objects** (`Ledgers`, `Chains`, `Sections`, `BatchReplies`, `AfterResponses`, and the
  classes of `Handshake` and `Prompts`). The loops and the updates in place are methods on classes
  with the original fields; their contracts say that they do to the state what the steps of the
  state machines do. `Chains.Chain` is the linked list of deliveries on the heap.
- **Inbound requests and batches** (`Frames`, `Inbound`, `InboundInvariant`, `InboundLaws`,
  `Goroutines`): which batch entries own a reply slot, and a second state machine for admission,
  handlers, collectors, the flush and the callbacks behind it. `Goroutines` adds who performs each
  action: the reader, the workers, and the worker of the callback queue, which is closed when the
  others have ended.
- **Request ids** (`Decimals`, `RequestIds`, `RequestIdLaws`, `RequestIdKeys`): the grammar of section 6 of RFC 8259,
  the scanner proved sound and complete for it, the parser's loops, and exact decimal values.
- **Schema merge** (`Schemas`, `Merge`, `MergeLaws`): the worklists as methods that compute least
  sets, and the proof that the renaming is a bisimulation.

## Findings

Where the code does not do what its documentation promises, the model follows the code.

- A Wait that read the phase Ready reports NotStarted for a failed entry without looking at the
  submission again (`prepared_request.go:488-498`). If the request was dispatched and written in
  between, the report is wrong. `ReadyCheckCanBeWrong` is such a run, and `ReadyCheckExact` says
  exactly when the report is right; it always is before Dispatch is called
  (`ReadyCheckBeforeDispatch`). Every other NotStarted is right (`NotStartedProved`).
- A CancelRequest whose notification fails reports Possible without looking at the submission
  (`prepared_request.go:456-466`). The phase Finished lets it through also for a request that was
  never dispatched and whose entry shutdown failed: `CancelFailureCanBeWrong` is such a run.
  `CancelFailureExact` says that the report is right exactly when Dispatch had returned nil before,
  or, equivalently there, when Dispatch had been called. Every other Possible is right
  (`PossibleProved`).
- A Wait that reads the phase DispatchFailed before Dispatch has stored its error returns a nil
  error (`prepared_request.go:394-397`, `436`, `510-511`): `FailedDispatchCanReadNil`, and exactly
  when in `EveryRun.FailedDispatchError`.
- `parseBoundedInt` is exact for a bound of at least 9 (its only use has 4096) or at most -10, and
  for no other: `BoundedExactIff`.
- The schema merge changes the meaning of a root exactly when some reachable definition refers to
  a name that the unstable schema lacks and the merged one has: `MergePreservesMeaning`, with the
  concrete case `ReferenceCaptured`. A definition added for a reference can be left with a name
  that the stable schema maps to nil: exactly when in `AddedRefsResolve`, with the concrete case
  `AddedReferenceDangles`.

## Model

| member | source | states |
|---|---|---|
| Feed.AdvanceLaw | connection.go:684-698 | Absorbing contiguous numbers neither loses nor invents a finished number, and leaves the watermark maximal with the set strictly above it |
| Feed.MarkLaw | connection.go:684-708 | Marking adds exactly the marked number to the finished ones, in whatever order numbers are marked |
| Feed.IndexCanonical | connection.go:684-708 | Watermark and set are a canonical form: equal finished numbers mean an equal index |
| Feed.NextIsHead | connection.go:1236-1251 | While a draining waiter's frame is on top, the number it needs next is at the head of the queue |
| Feed.AcceptKeeps | connection.go:609-626 | Accepting a notification keeps queue interval, stack, index and byte budget, within both limits |
| Feed.DequeueKeeps | connection.go:652-654 | Taking a notification keeps them, when the stack is empty or its top is held by a waiter |
| Feed.MarkTopKeeps | connection.go:684-698 | Marking the top frame keeps the index equal to the plain set of finished numbers |
| Feed.PopKeeps | connection.go:659-663 | Returning from a frame gives back its bytes and keeps the budget equal to the sum in progress |
| Gate.Prune | connection.go:736-746 | Pruning takes finished deliveries off the newest end only, one token each, until an unfinished one is last |
| Gate.PruneKeeps | connection.go:736-746 | Pruning keeps `previous` leading back over finished deliveries only, and tokens equal to held plus chained |
| Gate.PushKeeps | connection.go:838-845 | Chaining a response keeps them |
| Gate.CloseKeeps | connection.go:748-756 | Finishing a delivery makes it done, changes no other, and keeps them; nothing finished becomes unfinished |
| Gate.FinishedLeaves | connection.go:736-756 | After finishing and pruning the delivery is done, off the chain exactly unless something unfinished is behind it, and tokens equal held plus chained |
| Gate.DropKeeps | connection.go:758-766 | Discarding a held delivery returns exactly its token, which is there |
| Gate.ChainAscends | connection.go:839-845 | The chain is in arrival order |
| Gate.HistoryOnChain | connection.go:736-756 | Every gated response ever chained is done or still on the chain |
| Gate.WalkCoversHistory | connection.go:710-727 | A barrier walk that reaches nil has seen every gated response received before the barrier done, pruned ones included |
| Ledgers.Ledger.Enqueue | connection.go:609-626 | Accepts exactly what fits both limits and numbers it next; otherwise changes nothing |
| Ledgers.Ledger.MarkComplete | connection.go:684-698 | The loop computes Mark: exactly seqNo becomes finished, and the index stays maximal |
| Ledgers.Ledger.AlreadyProcessed | connection.go:700-708 | The lookup agrees with the finished numbers |
| Ledgers.Ledger.Receive | connection.go:652-653 | The head leaves the queue as in the state machine |
| Ledgers.Ledger.Release | connection.go:659-663 | The bytes of the returning notification are given back |
| Chains.Chain.Prune | connection.go:736-746 | The loop over the linked list refines Gate.Prune |
| Chains.Chain.Barrier | connection.go:729-734 | Prunes and returns the newest unfinished delivery |
| Chains.Chain.Reserve | connection.go:1187-1194 | Fails exactly when all slots are taken; otherwise takes one for a fresh delivery |
| Chains.Chain.Push | connection.go:838-845 | Links the delivery behind the pruned chain's last one, refining Gate.Push |
| Chains.Chain.Finish | connection.go:748-756 | The delivery is done, the slots are those of what is held or chained, and it is off the chain exactly unless something unfinished is behind it; refines Gate.Close and Gate.Prune |
| Chains.Chain.Discard | connection.go:758-766 | Only the first call closes the delivery and gives its slot back |
| Chains.Chain.Walk | connection.go:710-727 | Getting through means that all earlier responses are done; stopping means that one is not |
| Requests.StepKeeps | prepared_request.go:287-443 | Every section of Dispatch, the writer, Abandon, release and shutdown that touches only the request keeps its invariant and undoes nothing that Later lists; what each of them brings about is History.StepFacts |
| History.StepFacts | prepared_request.go:287-443 | After such a section each of 23 facts (dispatch succeeded, dispatch failed, written, given up, released, ...) holds exactly if it did before or the section is the one that brings it about |
| History.FactsExplained | prepared_request.go:287-714 | In every run each of these facts holds of a request exactly if one of its actions has happened before |
| Requests.AbandonKeeps | prepared_request.go:668-690 | Abandon keeps the request's invariant in each of its three cases |
| Requests.DispatchFailKeeps | prepared_request.go:387-398 | So does failDispatch's section, whether abandoned, unsent or sent |
| Requests.DispatchCompleteKeeps | prepared_request.go:430-443 | So does completeDispatch: abandonment wins over any other phase |
| Requests.WriterBeginKeeps | prepared_request.go:348-365 | So does a successful beginWrite, which admits the request and makes it Possible |
| Requests.SettleKeeps | prepared_request.go:582-613 | So do the three ends of a resolution: retryable, retryable but abandoned, final |
| Sections.PreparedRequest.SubmissionState | prepared_request.go:706-714 | Computes the classification of the state machine |
| Sections.PreparedRequest.ObserveResponse | prepared_request.go:266-283 | Installs the only observer while Ready, and refuses otherwise |
| Sections.PreparedRequest.BeginDispatch | prepared_request.go:293-304 | Lets only a Ready request go on, and reports the classification otherwise |
| Sections.PreparedRequest.BeginWrite | prepared_request.go:348-365 | Succeeds exactly under the five conditions of the state machine; then both objects show the written request |
| Sections.PreparedRequest.FailDispatch | prepared_request.go:387-398 | Its section refines the step, and its result is the branch taken |
| Sections.PreparedRequest.CompleteDispatch | prepared_request.go:430-443 | Refines the step that ends a dispatch |
| Sections.PreparedRequest.BeginCancel | prepared_request.go:456-462 | Lets exactly the dispatched and the finished requests through, and reports the classification otherwise |
| Sections.PreparedRequest.ReadPhase | prepared_request.go:480-518 | Where Wait goes next agrees with the state machine |
| Sections.PreparedRequest.FailReady | prepared_request.go:492-497 | Refines the section behind a failed entry seen while Ready |
| Sections.PreparedRequest.BeginResolve | prepared_request.go:554-580 | Refines the section at the top of the retry loop: read, refuse, wait for the attempt, or resolve |
| Sections.PreparedRequest.EndResolve | prepared_request.go:583-613 | Refines the section that ends an attempt, and says when release follows |
| Sections.PreparedRequest.Abandon | prepared_request.go:672-690 | Refines the section, and says whether detach or release follows |
| Sections.Table.AddPending | connection.go:1173-1198 | A gated request prunes the chain first; then it is registered, with a fresh delivery that takes one slot of the chain, exactly when the connection lives, the table has room and, if gated, a slot is free; otherwise the table is unchanged and no slot is taken |
| Sections.Table.AdmitPending | connection.go:1291-1302 | Admits exactly the entry that is in the table of a live connection |
| Sections.Table.MatchResponse | connection.go:827-837 | Finds an entry exactly when it is registered, admitted and not yet answered, and marks it |
| Sections.Table.AbandonPending | connection.go:1264-1275 | Takes exactly an unanswered entry that is its own |
| Sections.Table.FinishPending | connection.go:1304-1317 | Removes its own entry only, and reports whether it was answered |
| Sections.Table.DetachPending | connection.go:1277-1283 | Removes its own entry only |
| Sections.Table.TakeAll | connection.go:1354-1358 | The loop empties the table and returns exactly what was in it |
| Sections.Table.Shutdown | connection.go:1351-1359 | Cancels and empties the table in one section, for every request as in the state machine |
| Invariant.RequestKeeps | prepared_request.go:287-443 | A section of one request keeps the invariant of the whole connection |
| Invariant.DeliveryKeeps | connection.go:1264-1317 | So do the discarding and the finishing of deliveries by release and by shutdown |
| Invariant.PrepareKeeps | connection.go:1173-1198 | So does registration |
| Invariant.ShutdownKeeps | connection.go:1347-1368 | So does shutdown, which leaves the table empty |
| InvariantSteps.ReadKeeps | connection.go:604-627 | So does every step of the reader |
| InvariantSteps.WorkKeeps | connection.go:658-682 | So does every step of processing a notification |
| InvariantWaits.WaitKeeps | prepared_request.go:473-650 | So does every step of Wait |
| Runs.RunInv | connection.go:604-854 | The invariant holds in every state of every run |
| Runs.RunPersists | prepared_request.go:287-714 | What no run undoes: phases, Possible, completions, resolutions, classifications, finished notifications |
| DeliveryLaws.StartNeedsQuiet | connection.go:664-676 | When a handler may start, every gated response answered before its notification is past its observer and hook for good |
| DeliveryLaws.HandlerWaitsForResponses | connection.go:604-676 | Once the handler of notification n has started, no observer or hook of a gated response received before n ever starts |
| EveryRun.NoResolutionWhileStarting | connection.go:664-676 | ... and none of them is running when that handler starts |
| EveryRun.ResolutionOrdered | connection.go:1200-1253 | When an observer or hook may start, every notification up to the watermark is finished or on the waiter's own call stack |
| DeliveryLaws.ResolutionWaitsForHandlers | prepared_request.go:618-650 | An observer or hook starts only after the handlers of all earlier notifications have returned, those on the waiter's call stack excepted |
| DeliveryLaws.EarlierHandlersStartedBefore | prepared_request.go:618-650 | After an observer or hook has started, no handler of an earlier notification starts any more |
| DeliveryLaws.HandlersInWireOrder | connection.go:646-682 | Handlers start in strictly consecutive order: the one after k others is that of notification k + 1 |
| StreamHistory.DeliveryDoneExactly | connection.go:748-756 | In every run the delivery of a gated response is finished exactly since release or shutdown closed it |
| StreamHistory.AcceptedCount | connection.go:609-626 | The number of the last notification is the count of those accepted |
| StreamHistory.WatermarkCounts | connection.go:820-854 | The watermark of a response is the number of notifications accepted before it |
| StreamHistory.FinishedExactly | connection.go:684-698 | A notification counts as finished exactly since its processing was marked as complete |
| StreamHistory.HandlersHaveRun | connection.go:658-682 | While the connection lives, every finished notification has had its handler started, and returned |
| Success.BarrierOpensExactly | connection.go:710-727 | On a live connection a notification can come to its handler if and only if every gated response received before it is done |
| Success.NotificationCanBeHandled | connection.go:658-682 | A notification past its barrier can be handled to the end: handler, number, frame and bytes |
| EveryRun.NotificationsAccounted | connection.go:604-663 | In every state the queue is the interval of numbers not yet taken, up to the last accepted; frames in progress strictly increase; and the byte count is the sum over queued, waiting and executing notifications, within the limit, under nesting too |
| EveryRun.IndexIsFinished | connection.go:684-708 | In every state watermark and set represent exactly the notifications whose processing is over |
| EveryRun.OnlyTopTakes | connection.go:1229-1253 | Only the waiter called from the top frame, or the idle worker, can take the next notification |
| EveryRun.DrainFindsNext | connection.go:1236-1251 | A re-entrant receive never finds the queue empty or another number than the one it needs |
| EveryRun.DrainGoesOn | connection.go:1229-1253 | A draining waiter whose frame is on top is never stuck: past the watermark it is through, a finished number it skips, any other it takes |
| DeliveryLaws.SequenceInvariantNeverViolated | connection.go:1245-1248 | In no run is the sequence-violation branch taken |
| EveryRun.SlotsConserved | connection.go:736-766 | Tokens taken are exactly the gated deliveries neither discarded nor pruned, at most the limit |
| EveryRun.SlotReceivesNeverBlock | connection.go:736-766 | Neither receive from the slot channel can block; a discarded delivery was never chained and never will be |
| EveryRun.ChainRefinesHistory | connection.go:710-756 | In every state each chained delivery is done or still on the chain, in arrival order |
| EveryRun.TableBounded | connection.go:1173-1198 | The pending table is bounded, and empty for good after shutdown's section |
| DeliveryLaws.CompletedOnce | connection.go:157-163 | A pending entry is completed at most once in a run, with its response exactly if it was marked responded |
| EveryRun.NoneForgotten | connection.go:1264-1317 | An entry that left the table uncompleted is being completed by the reader, a release or shutdown |
| EveryRun.VerdictsStand | prepared_request.go:706-714 | A classification that Dispatch, Wait, Abandon or a refused CancelRequest ends with, be it in a resolved request's error, is true of the request from then on; excepted are the two exits that report a constant, for which see ReadyCheckExact and CancelFailureExact |
| SubmissionLaws.NotStartedProved | prepared_request.go:287-443 | An operation that ends with NotStarted proves that the writer was never invoked for the request in the whole run, before or after |
| SubmissionLaws.PossibleProved | prepared_request.go:348-365 | An operation ends with Possible only after the writer began the request; the one exception is a CancelRequest whose notification failed |
| SubmissionLaws.CancelFailureExact | prepared_request.go:452-468 | The Possible of such a CancelRequest is right if and only if Dispatch had returned nil before, and if and only if Dispatch had been called before |
| SubmissionLaws.CancelFailureCanBeWrong | prepared_request.go:452-468 | A run in which it is wrong: the request was never dispatched and nothing was written |
| EveryRun.AnsweredIsPossible | connection.go:827-837 | Answered implies responded implies admitted, and admitted means Possible |
| SubmissionLaws.ReadyCheckExact | prepared_request.go:488-502 | The NotStarted of a Wait that read Ready is right if and only if the submission is still NotStarted at the check |
| SubmissionLaws.ReadyCheckCanBeWrong | prepared_request.go:488-502 | A run in which it is wrong |
| SubmissionLaws.ReadyCheckBeforeDispatch | prepared_request.go:488-502 | It is right if Dispatch was not called before the check |
| EveryRun.FailedDispatchError | prepared_request.go:394-397 | A Wait that reads DispatchFailed returns a nil error if and only if Dispatch has not finished |
| SubmissionLaws.NilErrorNeedsFailedDispatch | prepared_request.go:510-511 | No other exit of Wait returns a nil error without a response |
| SubmissionLaws.FailedDispatchCanReadNil | prepared_request.go:510-511 | A run in which it happens |
| SubmissionLaws.AbortedOnce | prepared_request.go:413-421 | Abort is called at most once in a run, and only after the writer began |
| SubmissionLaws.PhasesAdvance | prepared_request.go:165-174 | A request never goes back to an earlier phase, nor from Possible to NotStarted |
| SubmissionLaws.ResolvedOnce | prepared_request.go:551-616 | However many Waits there are, observer and typed hook start at most once each in a run |
| EveryRun.OneResolver | prepared_request.go:569-580 | At most one Wait resolves a request; until it is done the delivery stays undone on the chain even if abandoned |
| SubmissionLaws.WaitsReadTheSame | prepared_request.go:555-559 | Every Wait that reads a resolved request gets the same pair, whatever happened in between |
| SubmissionLaws.AbandonTooLate | prepared_request.go:673-677 | Abandon changes nothing once the request is resolved |
| Outcomes.DispatchSucceedsExactly | prepared_request.go:367-384 | A Dispatch that ends returns nil if and only if it saw its write accepted while the request was not abandoned; the phase is then Dispatched unless it has been abandoned since |
| Outcomes.AbortNeedsFailure | prepared_request.go:376-398 | Abort is called only behind failDispatch or a refused write, never behind an accepted one |
| Outcomes.ClassifiedExactly | prepared_request.go:706-714 | The classification is Possible exactly once the writer has begun; before that NotStarted exactly once the phase is decided, and Pending otherwise |
| Outcomes.ResultExplained | prepared_request.go:582-613 | What every Wait on a resolved request returns is what the resolving Wait had decided on, or abandonment |
| Outcomes.SuccessMeansAllRan | prepared_request.go:618-650 | Success means that one Wait ran the observer and the typed hook that are installed, both without error, or decoded the result |
| Outcomes.FailureExplained | prepared_request.go:618-650 | Each kind of failed result means that just this has happened: observer, hook, RPC error, decoding, a wait cut short, abandonment |
| Outcomes.OrderFailureNeedsEnd | connection.go:1200-1253 | Waiting for earlier notifications fails only when the context or the connection is done |
| Success.DispatchCanSucceed | prepared_request.go:287-384 | From every reachable state a ready request on a live connection can be dispatched: when the writer accepts, Dispatch returns nil, the phase is Dispatched, the request is admitted and Possible, and nothing else has changed |
| Success.ResponseCanArrive | connection.go:820-854 | The response to an admitted request in the table can be recorded, with the number of the last notification, and chained if gated |
| Success.WaitCanDeliver | prepared_request.go:551-616 | A Wait can deliver a response whose notifications are over: observer and typed hook run once each, it returns success, and the delivery is finished |
| Success.RequestCanBeServed | prepared_request.go:287-616 | From every such reachable state with room a new request can go all the way, from registration to a Wait that returns success |
| Success.FirstRequestCanBeServed | prepared_request.go:287-616 | In particular from the initial state: a run that ends in success |
| Frames.SlotsAgree | frame.go:166-183 | needsReply holds exactly for requests and for what is neither notification nor response, and dispatch answers through the writer exactly those |
| Frames.FatesInBatch | connection.go:494-565 | What becomes of each kind of batch entry: a request is queued with its slot, a notification and a cancellation go their ways without, a response goes to its request, anything else is answered with an error through its slot unless it is only shaped like a response |
| Frames.FatesAlone | connection.go:532-565 | The same for a decoded message outside a batch |
| Frames.ErrorsNameTheirEntry | frame.go:185-198 | The two ways to find the id of an error reply agree: the entry's own id, or null if it has none |
| Frames.AssignSlots | connection.go:494-503 | The loop gives entry i the slot that counts the replying entries before it |
| Frames.SlotsInOrder | connection.go:494-503 | Slots follow the order of the entries, without gaps |
| Frames.SlotHasEntry | connection.go:494-503 | Every slot belongs to an entry |
| AfterResponses.AfterResponse.Add | connection.go:194-210 | Registers exactly when the state machine can and Done was not seen, taking a token for a request of a batch; otherwise changes nothing, and each error means what it says |
| AfterResponses.CallbackSlots.Reserve | connection.go:944-956 | Two selects: fails if the first saw Done, even of a connection that closes in between; otherwise takes a token exactly when one is free |
| AfterResponses.AfterResponse.Seal | connection.go:212-219 | Hands the callback out once and closes registration |
| BatchReplies.BatchReply.constructor | connection.go:504-513 | A new collector has all slots unfilled |
| BatchReplies.BatchReply.Complete | connection.go:1044-1057 | Only the first completion of a slot in range counts; it flushes exactly when it fills the last slot |
| InboundInvariant.ActionKeeps | connection.go:572-644 | Every action of admission, handlers, collectors and callbacks keeps the invariant; what each of them brings about is InboundHistory.StepFacts |
| InboundHistory.StepFacts | connection.go:876-942 | After an action each of ten facts about a request (handler over, replied, succeeded, reservation given back, callback registered, passed on, over, ...) holds exactly if it did before or the action is the one that brings it about |
| InboundHistory.FactsExplained | connection.go:876-942 | In every run each of these facts holds of a request exactly if one of its actions has happened before |
| InboundHistory.BatchFactsExplained | connection.go:1044-1085 | In every run a slot is filled exactly if it was completed, the array sent exactly if the transport took it, and all requests retired and all callbacks passed on exactly when the loops came to the end |
| InboundInvariant.RunInv | connection.go:572-644 | The invariant holds in every state of every run |
| InboundInvariant.MissingZero | connection.go:1052-1053 | No slot is missing if and only if all are filled |
| InboundLaws.ReservationsUnique | connection.go:580-589 | In every run no two live inbound requests share a key, and each holds the reservation of its own |
| InboundLaws.FinishSparesOthers | connection.go:636-637 | Retiring a request, even twice, never removes the reservation of another, newer ones with the same key included |
| InboundLaws.ReservationKeptUntilReply | connection.go:1063-1069 | A live request keeps its reservation until refusal, the written or failed single reply, or the flush of the whole array, whatever happens to others |
| InboundLaws.CompletionTakesSlot | connection.go:1044-1053 | Every completion finds its slot free and puts its reply there |
| InboundLaws.SlotCompletedOnce | connection.go:1044-1053 | A slot is completed at most once in a run and keeps its reply |
| InboundLaws.RemainingCounts | connection.go:1052-1057 | In every run `remaining` is the number of unfilled slots, and the flush begins exactly when there is none |
| InboundLaws.FlushedOnce | connection.go:1058-1062 | The array of a batch goes out at most once, full, in slot order, and is final |
| InboundLaws.RetiredBeforeCallbacks | connection.go:1063-1070 | All ids of a batch are retired before any of its callbacks is passed on |
| InboundLaws.HandNeverBlocks | connection.go:1070-1082 | The send on the callback queue and the return of a token never block |
| InboundLaws.TokensInEveryRun | connection.go:944-956 | Tokens are the callbacks registered in running handlers, sealed in collectors, queued or running, at most the limit; no channel operation of the flush blocks |
| InboundLaws.CallbacksAfterFlush | connection.go:1063-1082 | A batch callback is queued or runs only if its request succeeded, its array was sent without error, and all requests of its batch are retired; that it then is called is CallbackLaws.CalledExactly |
| InboundLaws.CalledOnce | connection.go:404-411 | A callback is called at most once, and never after its token was given back |
| Goroutines.RunAttended | connection.go:398-421 | In every state of every run each request in hands is at exactly one goroutine, the reader or a worker as its stage says, each flush that has begun is done by exactly one, and no goroutine is at anything else |
| Goroutines.NothingAbandoned | connection.go:629-643 | Whatever has been begun has a goroutine about to go on with it: neither the reader nor a worker ends in the middle of a request or a flush |
| Goroutines.NoSendOnClosedQueue | connection.go:415-419 | No run sends on the closed callback queue: once it is closed every collector is still incomplete or fully flushed, and neither the reader nor a worker does anything any more |
| Goroutines.CalledBeforeWaitReturns | connection.go:408-420 | Every callback that was passed on has been called when the connection's Wait returns |
| Goroutines.OnlyUnfinishedBatchesKeepTokens | connection.go:408-420 | At that time the only tokens out are those of callbacks in collectors that were never completed |
| CallbackLaws.SealedExactly | connection.go:907-934 | A callback is sealed exactly from the successful return of the handler that registered it until it is passed on, or called behind a single response |
| CallbackLaws.TokenHeldExactly | connection.go:923-930 | A request of a batch holds a token exactly from registration until the callback is dropped or its call has returned |
| CallbackLaws.HandQueues | connection.go:1070-1082 | Behind a sent array the callback goes to the end of the queue with its token; otherwise it is dropped and the token given back |
| CallbackLaws.FlushHandsAll | connection.go:1070-1082 | When the flush is over, each callback registered by a successful handler of the batch has been passed on or dropped at its slot |
| CallbackLaws.SingleCalledExactly | connection.go:933-941 | The callback of a single request is called, between the write of its response and its end, if and only if it was registered and the handler succeeded; and never twice |
| CallbackLaws.StartsInOrder | connection.go:590-643 | Handlers start in the order in which their requests were queued; none is lost |
| CallbackLaws.CallsInOrder | connection.go:408-414 | Batch callbacks are called in the order in which they were passed on; none is lost |
| CallbackLaws.CalledExactly | connection.go:408-420 | When the connection's Wait returns, a batch callback has been called, exactly once and to its end, if and only if it was registered, its handler succeeded and its array was sent |
| CallbackLaws.NeverStuck | connection.go:572-643 | However handlers and writes end, a goroutine that is at a request or a flush can go on with it, and an admitted request can be queued exactly while the queue has room |
| CallbackLaws.CallbacksGoOn | connection.go:408-420 | The worker of the callback queue can always take up the next callback, return from one, or end behind the closed and empty queue |
| CallbackLaws.AdmittedExactly | connection.go:580-588 | A request is admitted if and only if no live request has its id and, in a batch, a slot is left |
| RequestIds.ScanSound | request_id.go:74-160 | What the scanner accepts is a text of the grammar and is read as what it says |
| RequestIds.ScanComplete | request_id.go:74-160 | Every text of the grammar is accepted and read in the only way possible |
| RequestIds.ParseBoundedInt | request_id.go:162-179 | The accumulator loop and its two errors |
| RequestIds.BoundedExact | request_id.go:162-179 | With a bound of at least 9 it accepts exactly the numbers within the bound |
| RequestIds.BoundedExactIff | request_id.go:162-179 | It is exact for the bounds of at least 9 or at most -10, and for no others |
| RequestIds.ParseWhole | request_id.go:84-98 | The integer part agrees with the grammar |
| RequestIds.ParseFraction | request_id.go:100-111 | The fraction agrees with the grammar |
| RequestIds.ParseExponent | request_id.go:113-144 | The exponent agrees with the grammar and its bound |
| RequestIds.ParseNumericId | request_id.go:74-160 | The parser accepts exactly the texts of the grammar within the bounds, with their digits and power of ten |
| RequestIdLaws.PrintExactly | request_id.go:185-241 | The printer gives a normal number out, written plainly, if and only if that has at most 4096 characters, not counting the sign |
| RequestIdLaws.PlainUnique | request_id.go:185-241 | Every number can be written out plainly in one way only |
| RequestIdLaws.PlainExists | request_id.go:185-241 | ... and in one |
| RequestIdLaws.KeyExactly | request_id.go:60-72 | A number text has a key if and only if its exponent and its digits behind the leading zeros are at most 4096 and the number written out plainly has at most 4096 characters, not counting the sign; and then that is the key |
| RequestIdLaws.SignificantDigits | request_id.go:150-156 | The second of these bounds is one on the number: digits have at most n places behind their leading zeros exactly if they denote less than 10 to the n |
| RequestIdLaws.OnlyNumbersHaveKeys | request_id.go:60-72 | What is no number text has no key |
| RequestIdKeys.FormatCanonical | request_id.go:185-241 | For whatever the parser hands over, the result is the number written out plainly, or too large exactly if that has more than 4096 characters, not counting the sign |
| RequestIdKeys.CanonicalNumericKey | request_id.go:60-72 | Of a number text it returns the number written out plainly, or too large exactly outside the three bounds of KeyExactly; invalid only for what is no number text |
| RequestIdLaws.KeyDenotesItsId | request_id.go:60-72 | A key is a number text and denotes exactly the number it is the key of |
| RequestIdLaws.KeysIdentifyNumbers | request_id.go:60-72 | Two accepted number texts have the same key if and only if their exact decimal values are equal |
| RequestIdLaws.KeysAreFixedPoints | request_id.go:185-241 | A key has at most 4096 characters and a sign, is accepted again and is its own key |
| RequestIdLaws.SentIdsAreKeys | connection.go:1157-1170 | Every 64-bit counter value is registered under the key its response is looked up with |
| RequestIdLaws.KeysIdentifyIds | request_id.go:44-57 | Number, string and null keys never collide |
| Schemas.RewriteRenames | cmd/generate/internal/load/merge.go:344-360 | The references of a rewritten copy are the renamed references |
| Schemas.ExpandSame | cmd/generate/internal/load/merge.go:77-94 | Paired names unfold alike to every depth |
| Schemas.MeaningKeptIff | cmd/generate/internal/load/merge.go:77-94 | All roots keep their meaning if and only if no dangling reference is captured |
| Merge.MergeMethods | cmd/generate/internal/load/merge.go:120-142 | Takes over exactly the methods that only the unstable map has, and fails exactly on a conflicting key |
| Merge.RootsExactly | cmd/generate/internal/load/merge.go:166-187 | Roots are exactly the definitions marked with a side and one of the methods and named as a request, a response or a notification |
| Merge.AgreesExactly | cmd/generate/internal/load/merge.go:120-142 | The maps of a kind agree exactly if no stable key is new in the unstable map: named there, and with a wire that no stable map has |
| Merge.MergeKind | cmd/generate/internal/load/merge.go:51-61 | One kind of methods: every stable key keeps its method, a key is added exactly if it is new, and then with its unstable method; or a key that is both is named |
| Merge.MergeMeta | cmd/generate/internal/load/merge.go:38-61 | The version is the stable one and each of the three maps is extended so from the unstable map of its own kind; the other result is the wires of the unstable maps without those of the stable; it fails exactly if a stable key is new, and names one |
| Merge.WiresExactly | cmd/generate/internal/load/merge.go:100-107 | The wires are the named methods of all three maps |
| Merge.Traverse | cmd/generate/internal/load/merge.go:161-204 | The worklist computes the least set that holds the roots and is closed under references, or finds a nil definition in it |
| Merge.DuplicateRound | cmd/generate/internal/load/merge.go:220-240 | One turn of the fixpoint adds nothing that is not needed, and stops only at a closed set |
| Merge.Duplicate | cmd/generate/internal/load/merge.go:206-242 | The fixpoint computes the least set that holds the roots, the changed reachable definitions and whatever refers to a member |
| Merge.Promote | cmd/generate/internal/load/merge.go:247-291 | Replaces exactly the changed definitions that stable roots share |
| Merge.EnsureRefs | cmd/generate/internal/load/merge.go:293-326 | Meets exactly the least set that holds the roots and is closed under the references of what is looked at, and adds exactly the missing names to which something met refers and which the unstable schema has |
| Merge.AddCopies | cmd/generate/internal/load/merge.go:77-95 | Adds the renamed copies, or fails exactly when a new name is taken |
| Merge.MergeSchemas | cmd/generate/internal/load/merge.go:63-95 | The schemas are merged exactly when nothing reachable is nil and no new name is taken; each error occurs only under its condition and names an offender |
| Merge.StagesUnique | cmd/generate/internal/load/merge.go:63-76 | The sets and schemas that the stages build are determined by the inputs, in whatever order maps are walked |
| Merge.MergeStableAndUnstable | cmd/generate/internal/load/merge.go:17-98 | Nil inputs are refused; otherwise it succeeds if and only if the versions are compatible, no method key conflicts, no reachable definition is nil and no new name is taken; each error occurs under its own condition only, and on success the version and each map are as in MergeMeta and the schema is the merge |
| MergeLaws.MergePairs | cmd/generate/internal/load/merge.go:206-242 | Duplicated names with their new ones, and other reachable names with themselves, form a bisimulation |
| MergeLaws.MergePreservesMeaning | cmd/generate/internal/load/merge.go:17-98 | Unstable-only roots unfold under their new names as before if and only if no reachable definition refers to a name that only the merged schema has |
| MergeLaws.ReferenceCaptured | cmd/generate/internal/load/merge.go:190-202 | A concrete merge in which one does |
| MergeLaws.StableNamesStay | cmd/generate/internal/load/merge.go:72-75 | Names that resolved in the stable schema still resolve, unchanged unless promoted |
| MergeLaws.PromotedRefsResolve | cmd/generate/internal/load/merge.go:266-291 | All references of promoted definitions that resolved still resolve |
| MergeLaws.AddedRefsResolve | cmd/generate/internal/load/merge.go:312-323 | So do those of added definitions, if and only if the name is not a nil entry of the stable schema |
| MergeLaws.AddedReferenceDangles | cmd/generate/internal/load/merge.go:293-326 | A concrete merge in which it is one: a promoted root refers to a stable-only name, that to an added one, and that to a nil entry of the stable schema |
| MergeLaws.AddedThroughStableOnly | cmd/generate/internal/load/merge.go:293-326 | Something is added only if a definition shared by the stable roots refers to a name that only the stable schema defines |
| MergeLaws.CopiedRefsResolve | cmd/generate/internal/load/merge.go:85-94 | And those of the copies, under their new names |
| MergeLaws.CopiesAreNoStableRoots | cmd/generate/internal/load/merge.go:87-93 | No copy passes for a root type of a stable method |
| MergeLaws.CopiedRootsStayRoots | cmd/generate/internal/load/merge.go:77-95 | The root types of the unstable-only methods are roots of these methods in the merged schema, under their names with the prefix Unstable |
| Handshake.Initialization.Begin | experimental/v2/initialization.go:22-31 | Succeeds exactly when no initialize is in flight, none has failed first, and a repetition is allowed |
| Handshake.Initialization.Finish | experimental/v2/initialization.go:33-40 | Selects the version only on success |
| Handshake.Initialization.Route | experimental/v2/initialization.go:43-51 | Reads the version and closes the repeat window in one section |
| Handshake.Initialization.CheckRepeatVersion | experimental/v2/initialization.go:53-60 | With version 2 selected it passes exactly the requested versions for which a router with version 2 selects 2 again; otherwise it never refuses |
| Handshake.SelectsHighestCommon | experimental/v2/negotiate.go:77-95 | The router selects the highest version both sides know, with the version 1 fallback, and refuses when there is none |
| Handshake.OneInFlight | experimental/v2/initialization.go:22-40 | At most one initialize is in its handler |
| Handshake.SelectedOnce | experimental/v2/initialization.go:33-40 | The selected version leaves 0 at most once and then never changes |
| Handshake.WindowCloses | experimental/v2/initialization.go:22-31 | No initialize starts after version 1 was selected, after a failed first attempt, or after selection once another request was routed |
| Handshake.RoutedRequestCounts | experimental/v2/initialization.go:43-51 | A request routed since the handshake began ends the window for good |
| Handshake.ForwardsToPinned | experimental/v2/negotiate.go:47-66 | Every other method is forwarded only to the version that stays pinned |
| Handshake.SelectedExactly | experimental/v2/initialization.go:33-40 | A version is selected exactly if an initialize for it has ended well |
| Handshake.InitializedExactly | experimental/v2/initialization.go:22-31 | A handshake has begun exactly if an initialize has reached its handler |
| Handshake.OtherRequestExactly | experimental/v2/initialization.go:43-51 | Another request counts exactly if it was routed after that |
| Handshake.InHandlerExactly | experimental/v2/initialization.go:22-40 | An initialize is in its handler exactly from its start to its end there |
| Handshake.CheckedExactly | experimental/v2/negotiate.go:77-95 | An initialize goes on with the version the router selects for its request, and is refused exactly if there is none or version 2 is selected and it asks for less |
| Handshake.StartsExactly | experimental/v2/initialization.go:22-31 | A checked initialize reaches its handler if and only if none is there and it is the first, or one for version 2 after version 2 was selected and before any other request |
| Handshake.ForwardedExactly | experimental/v2/negotiate.go:47-66 | Another method is forwarded to version v if and only if v is selected, none is in its handler, and version 2 accepts the id |
| Prompts.Agent.BeginPrompt | agent_gen.go:224-232 | A new prompt takes the session's place in the map and cancels the one it supersedes, and no other |
| Prompts.Agent.EndPrompt | agent_gen.go:234-238 | A finished prompt removes only its own entry |
| Prompts.Agent.CancelSession | agent_gen.go:89-94 | session/cancel cancels and removes the session's prompt, and no other |
| Prompts.RunExact | agent_gen.go:224-240 | In every run the map holds exactly the running prompts not superseded or cancelled through their session |
| Prompts.OneLivePrompt | agent_gen.go:224-232 | At most one prompt of a session is live |
| Prompts.EndRemovesOnlyItself | agent_gen.go:234-238 | A finishing old prompt never removes a newer entry |
| Prompts.CancelledOnlyBySession | agent_gen.go:89-94 | A running prompt is cancelled through its session exactly by session/cancel or a newer prompt |
| Prompts.NewPromptSupersedes | agent_gen.go:228-232 | Once a newer prompt has begun, the older one is cancelled or over |
| Prompts.BegunExactly | agent_gen.go:224-232 | A prompt is known with its session exactly if it has begun for that |
| Prompts.OverExactly | agent_gen.go:234-238 | It is over exactly if it has ended |
| Prompts.CancelledExactly | agent_gen.go:224-240 | It is cancelled exactly if, while it was running, its session was cancelled or used for a newer prompt |

## Left out

- Fair progress: `Success` and `CallbackLaws.NeverStuck` say what can always be done next, not that a scheduler does it, and deadlock freedom is not claimed. The code has a possible cycle of waits: the handler of notification k waits on k + 1, which is gated on a response whose watermark is k.
- The whole of PreparedRequest and Connection as one heap object: the claims quantify over interleavings of goroutines, so the protocol is a state machine on values; the sections are also methods on objects with the original fields, one class per mutex.
- Frames of other connections: a Wait is given the frame of a notification of its own connection; the code does not check that (`connection.go:1206`).
- finishResponseDelivery: in the state machine the pruning behind the closing is an action of its own, `Sweep`, which may happen at any time; `Chains.Chain.Finish` has both together.
- 64-bit wrap-around of the request counter and of notification numbers; both are unbounded in the model.
- encoding/json, readers, writers, bufio limits, loggers, error texts and joined errors: decoded messages, outcomes and classifications stand for them. How a string id is quoted is a parameter of `KeysIdentifyIds`.
- The sequence-violation branch of a drain: no run takes it (`SequenceInvariantNeverViolated`), so the shutdown it would start is not part of its step.
- The order of the write queue: each queued write is taken by the writer at some time; only its own fate is modelled, and the failure of a write is not forced to shut the connection down.
- Payloads of responses: a resolution ends with the kind of its result or error.
- CancelRequest's notification, queueCancel and processCancelRequests: best-effort traffic. CancelRequest's section, its refusal and its failing end are actions; the sending is not.
- AcceptNotification and RejectBatch: filters before anything modelled here.
- Slotless batch entries can still cause a standalone error message; the claim is only that they never touch the collector.
- The goroutines of notifications, writes and cancellations, for which the close of the callback queue waits too: it may only come earlier in the model.
- Reply contents of inbound requests are opaque numbers, and a failing encoder of the whole array is an unsuccessful send.
- Merge: definitions are values, so the copy and the rewriting in place are one function; pointer sharing, and the difference between nil and empty slices or maps under reflect.DeepEqual, do not show. References inside additionalProperties are not visited, as in the code.
- Handshake: the rewriting of initialize parameters and the check of request ids appear only as a possible refusal before begin, and as a flag of routed requests.
- types_gen.go, client_gen.go, the dispatch tables, the emitter, transports and command line tools: generated or plumbing code that would only add easy members.
