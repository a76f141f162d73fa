# Kontor: a verified model of its protocols

Kontor is an appointment assistant: an untrusted language model plans, and a server
decides. This project models the parts of the server where that division of labour is hard
to get right and proves, with Dafny 4.11, what they guarantee.

`dafny verify dfyconfig.toml` checks everything.

## What is modelled

**Two-phase confirmation** (`Domain`, `Confirmations`, `Gateway`, `Decisions`, `SlotOffers`,
`Protocol`, `ProtocolProofs`, `ProtocolTheorems`, `ConsentWindow`, `LateCommit`,
`BackendCommits`, `JointRuns`, `ToolExecutor`). The
planner proposes, the server freezes the proposed arguments, a later message of the customer
authorizes them, and the gateway executes what was frozen. `Protocol` is a step machine over
proposal rows, messages, the per-conversation lock, a clock, slot tokens, customer profiles
and idempotency records; which call the planner makes, how requests interleave, where a
request crashes or loses its response, and when a backend call that nobody waits for commits
are arbitrary. Slot tokens are ideal: a token verifies
only if the server signed it. Digests are ideal: equal digests mean equal arguments. JSON
objects are maps. Every SQL transaction is one step, except the storing of a reply, which is
two (its begin, which fixes the stored time, and its commit).

**Availability and booking** (`Intervals`, `Sorting`, `Zones`, `Dst`, `Availability`, `OfferMeaning`,
`Engine`, `EngineTheorems`, `SkippedMidnight`, `SlotMerge`, `CrowdedDay`, `OfferedSlots`, `ScheduleLocks`, `LockProtocol`,
`Bookings`, `BookingProofs`, `BookingEffects`, `BookingOutcomes`, `BookingRepository`). Instants are integers in nanoseconds, a zone is an
offset function, a civil date a day number. `Availability` says declaratively what is on
offer; `Engine` is the loop of the source, proved to answer, in any zone, with exactly what its
walk over the local days comes across, and where the local midnights of the dates it touches
exist once, with exactly what is on offer. What the zone did at any other time does not matter
(`Zones.OldChangeIsRegularLater`); what a zone without a local midnight does to the walk is
`SkippedMidnight`. `Bookings` states the six booking transactions on tables;
`BookingRepository` runs them statement by statement and calls the engine for the recheck.

**The agent loop and its budget** (`ToolCallIds`, `Runner`, `Spend`, `Budget`,
`TokenBudgets`, `ModelCalls`, `CallsUnderTheCap`, `Recalibration`). The loop runs against a model and tools that answer as they like, knowing
everything that happened before, and may be interrupted at every point at which the source
can return an error. Its log of events is what the theorems speak about.

**Durable queue and event stream** (`JobQueue`, `JobQueueTheorems`, `SplitFail`, `TimelyFail`, `JobTable`,
`Lease`, `Reminders`, `Decimals`, `Frames`, `EventStream`). The queue is a machine over job rows; the
stream is text, printed by the server and taken apart again by the widget.

## Properties that turned out not to hold as promised

- *A consent received before the reply to a proposal was stored never authorizes it.* A
  stored reply carries the time its transaction began. In every reachable state a consent is
  granted exactly when some stored reply of the conversation began after the proposal and
  before the consent arrived (`ProtocolTheorems.ConsentGrantedIff`), so the promise fails
  exactly for a consent that arrived between begin and end of a reply with none stored
  earlier (`ProtocolTheorems.PromiseFailsExactlyInTheWindow`);
  `ConsentWindow.UnstoredReplyCanBeConsentedTo` is such a run.
- *An authorized proposal is never withdrawn before its mutation.* True unless the backend call
  had timed out before the withdrawal and committed later
  (`ProtocolTheorems.WithdrawnOnlyInFlight`); `LateCommit.WithdrawnActionCanCommit` is such a
  run.
- *A confirmed booking can be cancelled with any admitted reason.* The digest a keyed
  cancellation stores contains the reason and must fit 128 characters, so with a
  36-character booking id it commits exactly for reasons up to 84 characters, although the
  tool admits 500 (`BookingProofs.CancelCommitsIff`).
- *A resolved working interval holds exactly the rule's hours.* It does if and only if no
  boundary cuts a repeated stretch of the clock (`Dst.ExactUnlessFoldIsCut`); `Dst.FallBack`
  is a rule that is cut, and `Dst.SpringForward` a day with a gap.
- *A search visits every local date of its window.* Where the clock is put forward at local
  midnight, as some zones do every spring, the missing midnight resolves to the hour before or
  after it and every later stop of the walk is off by that hour. With such a date in the window
  the walk comes by all dates but the last, and by that one only if it is the date of the change
  in a zone east of Greenwich (`SkippedMidnight.LastDateIsWalkedIff`); it is unharmed exactly
  when the change is not met or is at the window's end in the east
  (`SkippedMidnight.WalksWholeIff`), and then an unlimited search is complete
  (`EngineTheorems.WholeWalkIsComplete`). `SkippedMidnight.LostDay` is a search that finds nothing
  on an open day; the schedule locks of such a window miss their last date in the same way.
- *A search without a limit returns every slot.* Each staff member is cut to 1000 slots, so
  it does if and only if none has more (`SlotMerge.FindSlotsOfAll`,
  `SlotMerge.CompleteWithoutLimit`); `CrowdedDay.CutSearch` is a search that returns 1000 of
  at least 1440.
- *A slot offered on some tables passes the recheck on the same tables.* The recheck uses a grid
  of 15 minutes, so it does exactly when the slot is a point of that grid, as every slot of a
  search on whole quarters of an hour is (`OfferedSlots.OfferPassesRecheckIff`,
  `OfferedSlots.SearchTables`); `OfferedSlots.FinerGridIsRefused` is one that is refused. The
  tool backend always asks for 15 minutes.
- *Writers with overlapping windows share a lock date.* A customer's reschedule takes its dates
  in the zone of the request. Two windows share a date exactly when their date ranges, each in
  its own zone, meet (`ScheduleLocks.ShareADateIff`), which overlapping windows in one zone
  always do; writers with a shared date exclude each other and writers without one do not
  (`LockProtocol.MeetingWritersExclude`, `LockProtocol.DisjointWritersMeet`).
- *Every attempt at a model call is charged.* The charge covers the spend whenever the success
  reports its usage or nothing was reported (`Spend.ChargeCoversSpend`). After reported
  failures a silent success goes uncharged, which matters exactly when it cost something
  (`Spend.SilentSuccessEscapes`, with the call `Spend.SilentCall`). From the reports alone, such
  a charge covers whatever the call cost exactly when the price of its unreported attempts pays
  for the estimate and a prompt each, or the charge is the whole reservation
  (`Spend.SilentSuccessCoveredIff`).
- *The cap is hard: the calls of a conversation never really spend more than it.* Every start of
  the server recalibrates: an idle open conversation is set back to what its recorded iterations
  reported, or 500 tokens each, so the price of unreported attempts is given away. In every run
  the true spend stays under the cap plus what recalibrations took off
  (`CallsUnderTheCap.TrueSpendStaysUnderTheCap`). A recalibration that lowers the row leaves
  the cap safe, whatever is called afterwards, exactly when it measured what the settled calls
  cost (`Recalibration.RecalibrationIsSafeIff`); from the reports alone, exactly when it measured
  the most they can have cost (`Recalibration.SafeWhateverItCostIff`), which call by call means
  no unreported attempt beside a report and no call above the penalty without one
  (`Recalibration.ReadingCoversWorstIff`). `Recalibration.RestartPassesTheCap` is a run that
  spends 1400 tokens under a cap of 1000.
- *A pending job has an attempt left, and a job is claimed at most max_attempts times.* True with
  `Fail` as one step. With its separate read and write, the late write keeps the queue sound
  exactly when it does not meet a claim on the last attempt
  (`JobQueueTheorems.LateRetryKeepsInvIff`), a job is claimed at most 2 * max - 1 times
  (`SplitFail.ClaimedLessThanTwiceMax`), and that bound is reached (`SplitFail.BoundIsReached`).
  Under the shipped timeouts and lease no reap falls between the two statements, and the promise
  holds again (`TimelyFail.TimelyFailIsOneStep`, `TimelyFail.ClaimedAtMostMaxInTime`).
- *Idempotency records are finished when committed.* True except exactly for a customer's keyed
  cancellation of an own booking that is already cancelled (`BookingProofs.UnfinishedCancel`).

Where code and comments disagree the model follows the code: the estimator's comments
(internal/agent/budget.go:43-57) give 3 bytes per token as the default, the code uses 4
(internal/agent/budget.go:78-81).

## Model

| member | source | states |
|---|---|---|
| Confirmations.Store.Propose | internal/confirmations/postgres.go:26-111 | After a proposal with a message, the conversation has exactly one live row and it carries exactly this action; every other live row of the conversation is expired or rejected, a repeated identical live proposal is returned as it is, and rows of other conversations stay untouched |
| Confirmations.Store.InvalidateLatest | internal/confirmations/postgres.go:156-171 | The live, unexpired rows of the conversation are rejected and every other row stays as it is |
| Confirmations.Store.Authorize | internal/confirmations/postgres.go:173-205 | Grants exactly when the row is pending and unexpired, the message is another user message of the same conversation and an assistant message lies between proposal and message; changes only that row |
| Confirmations.Store.MarkConsumed | internal/confirmations/postgres.go:234-250 | Marks the row consumed exactly when it is unexpired, authorized or consumed already, and of the same scope, tool and arguments; changes nothing else |
| Confirmations.ProposeKeepsOneLive | internal/confirmations/postgres.go:49-111 | Proposing keeps at most one live row per conversation and forgets no row |
| Confirmations.LatestFindsTheLiveRow | internal/confirmations/postgres.go:113-154 | With one live row the lookup finds exactly it |
| Gateway.DerivedKeyNamesTheAppointment | internal/tools/gateway.go:147-172 | Two creates without a key of their own get the same key exactly for the same customer, conversation, service, staff member and seconds |
| Gateway.DerivedKeyNamesTheChange | internal/tools/gateway.go:147-172 | Two changes without a key of their own get the same key exactly for the same tool, customer, conversation and booking, and for a move the same staff member and seconds |
| Decisions.OfferedIff | internal/tools/gateway.go:345-396 | A schema-valid call without a confirmation is offered exactly when its caller is known, a create has a reachable customer, and its token is the conversation's own, alive, and within lead time and horizon |
| Decisions.OfferSays | internal/tools/gateway.go:345-396 | What is offered: the call's own arguments, with the caller's profile and a key, bound to the caller's scope and message, until the earlier of confirmation lifetime and token end |
| Decisions.DispatchSays | internal/tools/gateway.go:397-430 | What reaches the backend: for an unexpired confirmed or consumed row of the same scope and tool, a command whose service, staff, start, end and zone are those signed in the frozen token, with the caller's profile and the frozen booking, reason, notes and key |
| Decisions.RefusedBecause | internal/tools/gateway.go:345-416 | Which code a call is refused with, in the order of the checks |
| Decisions.RefusedOutright | internal/tools/gateway.go:98-146 | A call that does not fit its schema is refused as invalid, one without tenant, customer or conversation by policy |
| Decisions.NamedToken | internal/tools/gateway.go:333-343 | The token a call names is the one in its own field, or for a move in its new slot |
| Decisions.VerdictSays | internal/confirmations/postgres.go:207-232 | An unexpired confirmation is stale exactly for another action and granted exactly for the same action once authorized |
| Decisions.CommandSays | internal/tools/gateway.go:397-416 | The command of a frozen action, field by field |
| Decisions.RestoredExactly | internal/tools/gateway.go:181-205 | A call is carried out with frozen arguments exactly when it names the conversation's live, unexpired proposal for the same tool; otherwise with its own |
| Decisions.SchemaMeans | internal/tools/contracts.go:26-36 | The fields a call must have, as later decoding relies on them |
| Gateway.PreparedCommand | internal/tools/gateway.go:345-413 | Preparation and the command of the bound arguments agree, with a key that is not blank and the caller's own profile |
| Gateway.OfferIsFrozen | internal/tools/gateway.go:373-396 | Every offered proposal expires no later than its confirmation and its token allow, and freezes a token of the same tenant and conversation |
| Gateway.DispatchIsBound | internal/tools/gateway.go:397-416 | Every dispatched command belongs to a confirmed or consumed row of the same scope, tool and arguments and is determined by those arguments alone |
| Gateway.ConsentReachesBackend | internal/tools/gateway.go:181-205 | A schema-valid call naming the live authorized row reaches the backend, with the frozen command whatever else it says, if and only if the customer's profile is still the frozen one (for other tools than create, always) |
| Gateway.FrozenPrepares | internal/tools/gateway.go:345-372 | While a frozen proposal lives, its restored arguments pass the token, lead-time and horizon checks and no new key is derived |
| SlotOffers.FindSlots | internal/tools/gateway.go:243-329 | At most twelve slots: of the candidates seen, in order, exactly those that can still be booked, each signed with the caller's tenant and conversation, the service asked for and the candidate's own staff, times and zone; truncated exactly when candidates were left; a malformed candidate or request is refused |
| SlotOffers.SignedSlotCanBeProposedUntilItExpires | internal/tools/gateway.go:304-311 | A signed slot can be proposed exactly until its token expires; token check, lead time and horizon never cut it off earlier |
| ToolExecutor.Execute | internal/agenttools/executor.go:42-100 | At most the configured attempts, each after the first only after a missed deadline or retryable error; the side-effect flag is set exactly when some attempt committed; the status is the last attempt's |
| ProtocolProofs.StepKeepsInvariant | internal/app/service.go:159-260 | Every step of every interleaving keeps the protocol invariant |
| ProtocolProofs.RunKeepsInvariant | internal/app/service.go:159-260 | The invariant holds in every state of every run |
| ProtocolTheorems.MutationsAreAuthorized | internal/tools/gateway.go:339-430 | Each committed mutation executes what an earlier proposal of the same scope and tool froze, after an authorization by another message of a proposal shown in a stored reply, with no withdrawal before the call was sent |
| ProtocolTheorems.OneMutationPerConfirmation | internal/tools/gateway.go:397-430 | Over retries, lost responses, crashes and replays, one confirmation id commits at most one mutation |
| ProtocolTheorems.EarlyConsentNeverAuthorizes | internal/app/service.go:898-977 | A consent that arrived by the begin of every reply stored since the proposal authorizes nothing, in every interleaving |
| ProtocolTheorems.ConsentGrantedIff | internal/confirmations/postgres.go:173-205 | In every reachable state a consenting turn facing a pending, unexpired proposal is granted exactly when the proposal stems from another message and some stored reply began after the proposal and before the consent arrived |
| ProtocolTheorems.PromiseFailsExactlyInTheWindow | internal/app/service.go:649-702 | A consent is granted without a reply stored before it exactly when it arrived between begin and end of a reply and none was stored earlier |
| ProtocolTheorems.WithdrawnOnlyInFlight | internal/agenttools/executor.go:49-97 | A withdrawal precedes a mutation only if the backend call had timed out before the withdrawal |
| ProtocolTheorems.OtherMessagesWithdraw | internal/app/service.go:898-977 | A message that is no consent, and giving up, withdraw exactly the live proposals of their conversation, each with an event |
| ProtocolTheorems.ConsentConfirmsTheRow | internal/confirmations/postgres.go:173-205 | A granted consent confirms its row in the name of the message and changes no other |
| ProtocolTheorems.ConsumeMarksTheRow | internal/confirmations/postgres.go:234-250 | After the backend's answer the authorized row is consumed and no other changes |
| ProtocolTheorems.OfferIsOnRecord | internal/confirmations/postgres.go:49-111 | After an offer the conversation has the offered action as its one live proposal |
| LateCommit.WithdrawnActionCanCommit | internal/agenttools/executor.go:49-97 | A run in which a timed-out call commits after its proposal was withdrawn |
| BackendCommits.TransactionsImplementCommit | internal/scheduling/tool_backend.go:114-300 | The booking transactions implement the backend step of the protocol: answers are commits, errors change nothing, and a booking changes only when the protocol records a mutation under an unused key |
| BackendCommits.TransactionsImplementLanding | internal/scheduling/tool_backend.go:114-300 | The same for a call that its turn no longer waits for |
| JointRuns.MoveKeepsInv | internal/scheduling/tool_backend.go:114-300 | Conversations and tables together: every step of the protocol, every backend transaction, late ones included, and every operator, worker and reaper keeps the invariant and the match of used keys and records |
| JointRuns.BookingChangesAreAuthorized | internal/scheduling/tool_backend.go:114-300 | In every joint run a backend call changes a booking only as an authorized mutation of the confirmation it names |
| JointRuns.OneChangePerConfirmation | internal/scheduling/tool_backend.go:114-300 | In every joint run, through retries, lost responses and late commits, one confirmation changes the booking tables at most once |
| BackendCommits.BackendTakesEffect | internal/scheduling/tool_backend.go:114-300 | A backend call that changes a booking does so as its command says: a new row with the command's customer, service, staff, start and end, or the customer's confirmed booking moved or cancelled |
| JointRuns.TablesHoldWhatWasConfirmed | internal/scheduling/tool_backend.go:114-300 | In every joint run what a confirmed action writes to the tables is what its proposal froze: the signed service, staff, start and end for the proposal's customer, or that customer's frozen booking moved to the signed times or cancelled |
| ProtocolTheorems.OneLiveProposal | internal/confirmations/postgres.go:49-111 | At most one live proposal per conversation in every reachable state |
| ProtocolTheorems.ConsentIsNeverStranded | internal/tools/gateway.go:181-205 | In every reachable state an unexpired authorized proposal is executed as frozen by any schema-valid call naming it, unless the profile changed |
| ConsentWindow.UnstoredReplyCanBeConsentedTo | internal/app/service.go:649-702 | A run in which a consent that arrived before the reply was committed is granted |
| Intervals.TouchesIsSharing | internal/scheduling/engine.go:381-389 | The overlap test holds exactly when candidate and list share an instant |
| Intervals.OverlapIgnoresMerging | internal/scheduling/engine.go:357-389 | Testing against merged intervals equals testing against the raw ones |
| Intervals.OverlapsAny | internal/scheduling/engine.go:381-389 | True exactly when some interval overlaps |
| Intervals.MergeIntervals | internal/scheduling/engine.go:357-379 | The result is exactly the maximal runs of covered instants, strictly separated, covering the same instants |
| Intervals.SeparatedIsRuns | internal/scheduling/engine.go:367-378 | Separated pieces that cover the same instants are exactly the maximal runs |
| Sorting.SortIsSortedPermutation | internal/scheduling/engine.go:361-366 | A sorted permutation |
| Zones.ScanMatches | internal/scheduling/engine.go:335-342 | The instants of the scan at which the wall clock shows the minute, in order |
| Zones.LocalMinute | internal/scheduling/engine.go:323-355 | The earliest or latest instant that reads the minute, or of the first later minute of the day that exists |
| Zones.MatchesExact | internal/scheduling/engine.go:335-342 | The scan finds exactly the grid instants that read the minute |
| Zones.BoundaryWithinDay | internal/scheduling/engine.go:323-355 | With unique midnights a resolved boundary lies within its own day |
| Dst.ScanFindsAllReadings | internal/scheduling/engine.go:331-342 | With one change of at most three hours the scan finds both readings of a repeated minute and none of a skipped one |
| Dst.BoundaryIsBound | internal/scheduling/engine.go:323-355 | Closed form of a boundary around one change: first or last reading, or the change itself inside a gap |
| Dst.RuleCoversItsHours | internal/scheduling/engine.go:285-305 | Every instant whose wall clock reads within the rule lies in the resolved interval, both passes of a repeated hour included |
| Dst.GapBoundary | internal/scheduling/engine.go:343-348 | A boundary inside a forward gap is the first instant after it |
| Dst.CollapsedRule | internal/scheduling/engine.go:290-296 | A rule is dropped exactly when the gap swallows all of it |
| Dst.ExactUnlessFoldIsCut | internal/scheduling/engine.go:332-354 | The interval holds only the rule's hours if and only if neither boundary cuts a repeated stretch |
| Dst.FallBack | internal/scheduling/engine.go:332-354 | A zone and a rule whose interval holds an instant outside its hours |
| Availability.DaySpansExact | internal/scheduling/engine.go:285-305 | The day's spans are exactly the non-empty spans of the applicable rules of the kind |
| Availability.PeriodInDay | internal/scheduling/engine.go:165-169 | A merged working period lies within its own day |
| Availability.FreeIsOnItsDate | internal/scheduling/engine.go:169-182 | Every free slot belongs to the date its start falls on and ends within it |
| Zones.TameGoesForward | internal/scheduling/engine.go:151-201 | Where offsets differ by less than a day, adding days always goes forward, so the loop over days ends |
| Zones.RegularWalksWhole | internal/scheduling/engine.go:151-201 | Over dates whose midnights exist once the loop comes by exactly the window's dates, each as a whole day |
| Engine.IntervalsForDate | internal/scheduling/engine.go:285-305 | Working and break intervals of the day as the code sees it, as the rules say |
| Engine.TestIsFree | internal/scheduling/engine.go:170-186 | Inside a period, the loop's test decides exactly what the day has to offer in the window |
| Engine.TestPoint | internal/scheduling/engine.go:171-182 | The tests of one grid point: window, period, breaks and busy intervals |
| Engine.ScanPeriod | internal/scheduling/engine.go:170-198 | Adds, in ascending order, exactly what the day has to offer up to the period's end and was not there yet, or stops at the limit |
| Engine.ScanDay | internal/scheduling/engine.go:165-199 | Adds everything the day has to offer in ascending order, or stops at the limit |
| Engine.FindSlots | internal/scheduling/engine.go:134-205 | An error exactly on invalid input; otherwise, in any zone, strictly increasing, exactly what the walk over the days comes across, or as many as the limit; on dates with unique midnights exactly the slots on offer, or the first of them up to the limit |
| Engine.IsAvailable | internal/scheduling/engine.go:209-230 | True exactly when the walk over the slot's own day comes across it; with unique midnights exactly when it is on offer |
| Engine.WholeWalkReachesTheOffer | internal/scheduling/engine.go:151-205 | Where the walk comes by the window's dates as whole days, what it comes across is what is on offer |
| OfferMeaning.OfferedMeans | internal/scheduling/engine.go:151-205 | A slot is on offer exactly when it lies within the window and, on one of its dates, fits a longest stretch of working rules on the grid starting there, with no break rule in force and nothing busy while it and its buffers last |
| OfferMeaning.AnswerableMeans | internal/scheduling/engine.go:232-283 | The searches that are answered: lengths, buffers, window, limit, grid, rules and busy intervals within the engine's bounds |
| EngineTheorems.WholeWalkIsComplete | internal/scheduling/engine.go:134-205 | In any such zone a search without a limit is answered completely |
| SkippedMidnight.WalksWholeIff | internal/scheduling/engine.go:151-201 | In a zone that skips one local midnight, the walk comes by the window's dates as whole days if and only if the skipped midnight is not met or begins or ends the last date east of Greenwich |
| SkippedMidnight.LastDateIsWalkedIff | internal/scheduling/repository.go:1551-1565 | With the skipped midnight among its dates, the walk comes by every date but the last, and by the last if and only if its own midnight is the skipped one and it is east of Greenwich |
| SkippedMidnight.LastDateIsLost | internal/scheduling/engine.go:151-201 | Otherwise nothing that rules allow only on the last date is ever found |
| SkippedMidnight.NothingIsAvailableThatDay | internal/scheduling/engine.go:209-230 | West of Greenwich the recheck refuses every slot of the day of the change |
| SkippedMidnight.LostDay | internal/scheduling/engine.go:134-205 | A search over two days that finds nothing although the second is open around the clock |
| EngineTheorems.OfferedIsFreeInWindow | internal/scheduling/engine.go:151-205 | A slot is on offer exactly when it fits the window and is free on its own date |
| EngineTheorems.UnlimitedAnswer | internal/scheduling/engine.go:134-205 | An unlimited answer is characterised: strictly increasing and exactly the slots on offer |
| EngineTheorems.LimitKeepsTheFirst | internal/scheduling/engine.go:194-197 | A limited answer is the first part of the unlimited one |
| EngineTheorems.SubWindowIsFilter | internal/scheduling/engine.go:151-175 | Searching a sub-window equals filtering the wider answer |
| EngineTheorems.RecheckAgreesWithOffer | internal/scheduling/engine.go:209-230 | The recheck of a slot agrees with every search whose window holds it |
| Engine.SlotBeforeIsOrder | internal/scheduling/engine.go:391-398 | The slot order is a strict order |
| SlotMerge.CutBeforeMerge | internal/scheduling/repository.go:180-213 | Cutting each staff member's slots to the limit first does not change the first slots of the merge |
| SlotMerge.CompleteWithoutLimit | internal/scheduling/repository.go:180-184 | Without a limit the merge is complete if and only if no staff member has more than 1000 slots |
| CrowdedDay.CutSearch | internal/scheduling/repository.go:158-214 | A search without a limit that returns 1000 slots although the complete answer has at least 1440 |
| SlotMerge.FindSlotsOfAll | internal/scheduling/repository.go:158-214 | Errors on an invalid request, no staff or an unanswerable search; in any zone, ordered by start and staff, only slots the engine comes across; with unique midnights, for a positive limit the first slots of the full merge of all unlimited answers, and without one the full merge if and only if no staff member has more than 1000 slots |
| OfferedSlots.OfferPassesRecheckIff | internal/scheduling/repository.go:326-345 | On fixed tables, a slot offered with the rows loaded for the window is available in the recheck with the rows loaded for its own day if and only if it is a point of the 15-minute grid; on a grid of whole quarters it always is |
| OfferedSlots.SearchTables | internal/scheduling/repository.go:158-214 | The search with its rows loaded: every slot returned is on offer on the tables and, on a grid of whole quarters, passes the recheck |
| OfferedSlots.FinerGridIsRefused | internal/scheduling/repository.go:326-345 | A slot of a one-minute grid that is offered and refused on the same tables |
| ScheduleLocks.TouchedLocalDates | internal/scheduling/repository.go:1551-1565 | Exactly the dates the walk over the window's days comes by; with unique midnights, in ascending order, exactly the local dates on which some instant of the window falls |
| ScheduleLocks.OverlappingWindowsShareADate | internal/scheduling/repository.go:301-309 | Overlapping windows in one zone share a lock date |
| ScheduleLocks.ShareADateIff | internal/scheduling/repository.go:504-517 | Two windows, each read in its own zone, share a lock date exactly when their date ranges meet |
| ScheduleLocks.OverlapMeetsInOneZone | internal/scheduling/repository.go:301-309 | In one zone the date ranges of overlapping windows always meet |
| ScheduleLocks.DifferentZonesMayShareNoDate | internal/scheduling/repository.go:504-517 | Two zones in which one window has no lock date in common |
| LockProtocol.StepKeepsInv | internal/scheduling/repository.go:1300-1322 | Every step of any number of writers keeps the lock invariant |
| LockProtocol.EndLeavesNothing | internal/scheduling/repository.go:1286-1322 | Ending a transaction gives back its own locks and no other's; rows it inserted stay after a commit and vanish after a rollback |
| LockProtocol.WaitingLooksUp | internal/scheduling/repository.go:1300-1322 | A writer only ever waits for one further on in the common order of phase and date |
| LockProtocol.NoDeadlock | internal/scheduling/repository.go:1300-1322 | No chain of waiting writers closes, in any reachable state |
| LockProtocol.SomeWriterCanProceed | internal/scheduling/repository.go:1300-1322 | While a writer is unfinished, some unfinished writer can go on |
| LockProtocol.OneWriterPerDate | internal/scheduling/repository.go:1311-1320 | Two writers inside for one staff member and date are one writer |
| LockProtocol.OverlappingWritersExclude | internal/scheduling/repository.go:301-309 | In one zone, writers with overlapping windows are never inside together |
| LockProtocol.MeetingWritersExclude | internal/scheduling/repository.go:504-517 | Writers whose date ranges, each read in its own zone, meet are never inside together |
| LockProtocol.DisjointWritersMeet | internal/scheduling/repository.go:504-517 | Writers without a common date can both be inside |
| BookingProofs.StepWritesOneRow | internal/scheduling/repository.go:249-391 | Every transaction writes at most one booking row, which collides with no live row, and changes a row only from confirmed to its next version |
| BookingProofs.NoDoubleBooking | internal/scheduling/repository.go:216-218 | In every run of all six transactions and queue work, live bookings of one staff member never overlap |
| BookingOutcomes.LiveBookingsStayApart | internal/scheduling/repository.go:342-372 | In every run the buffered times of two live bookings of one staff member do not overlap |
| BookingOutcomes.AvailableIff | internal/scheduling/repository.go:325-340 | The recheck accepts a slot exactly when the engine reaches it and no block and no live booking of the staff member, buffers included, overlaps the time it takes |
| BookingOutcomes.CreateSucceedsIff | internal/scheduling/repository.go:249-391 | When a customer's create succeeds, exactly, and that a key on record answers for its own request only |
| BookingOutcomes.AdminCreateSucceedsIff | internal/scheduling/repository.go:869-988 | When an operator's create succeeds, exactly |
| BookingOutcomes.MoveSucceedsIff | internal/scheduling/repository.go:431-568 | When a customer's move succeeds, exactly, and why it is refused |
| BookingOutcomes.AdminMoveSucceedsIff | internal/scheduling/repository.go:1031-1146 | When an operator's move succeeds, exactly, and why it is refused |
| BookingOutcomes.CancelSucceedsIff | internal/scheduling/repository.go:601-731 | When a customer's cancellation succeeds, exactly, and why it is refused |
| BookingOutcomes.AdminCancelSucceedsIff | internal/scheduling/repository.go:1191-1254 | When an operator's cancellation succeeds, exactly, and why it is refused |
| BookingOutcomes.WorkRunsAsInTheQueue | cmd/worker/main.go:154-219 | What workers and reapers do among bookings is what they do to the queue alone |
| BookingProofs.AvailableExcludesCollision | internal/scheduling/repository.go:325-340 | An available slot collides with no live booking: the padded load misses none that matters |
| BookingProofs.CreateNeverHitsTheConstraint | internal/scheduling/repository.go:320-359 | For a customer's create the exclusion constraint never fires |
| BookingProofs.StepAddsOneRecord | internal/scheduling/repository.go:257-291 | A transaction adds at most the record of its own key, finished unless it cancels what is cancelled already |
| BookingProofs.RecordsLast | internal/scheduling/repository.go:257-291 | Records never change once committed |
| BookingProofs.BookingsLast | internal/scheduling/repository.go:518-534 | Bookings never vanish, versions never fall, and a booking that is not confirmed never changes |
| BookingProofs.RepeatedCreateReplays | internal/scheduling/repository.go:266-291 | A repeated create, after any run, answers with the first booking and writes nothing (or is refused because its start has passed) |
| BookingProofs.RepeatedRequestReplays | internal/scheduling/repository.go:440-479 | The same for keyed reschedules and cancellations and for operator creates and reschedules: after any run the repetition answers with the same booking and writes nothing |
| BookingProofs.BookingsAreTheirOwners | internal/scheduling/repository.go:481-502 | Over any run of other customers' requests and queue work a customer's booking stays as it is |
| BookingProofs.KeyServesOneRequest | internal/scheduling/repository.go:277-279 | After any run a key that served one create refuses every other request and writes nothing |
| BookingProofs.RecordsAreFinished | internal/scheduling/repository.go:380-389 | In every run only customer cancellations can leave an unfinished record |
| BookingProofs.UnfinishedCancel | internal/scheduling/repository.go:612-675 | A fresh keyed cancellation leaves its record unfinished exactly for a well-formed request naming an own booking that is cancelled already, and every repetition after any run is then refused |
| BookingProofs.CancelCommitsIff | internal/scheduling/repository.go:610-621 | A keyed cancellation of a confirmed booking commits if and only if its reason has at most 84 characters |
| BookingProofs.VersionIsUsedOnce | internal/scheduling/repository.go:1075-1084 | An operator's reschedule needs the version seen and uses it up, whatever happens in between |
| BookingRepository.LoadBusy | internal/scheduling/repository.go:1450-1483 | Exactly the blocks and live bookings within four hours of the window |
| BookingRepository.RecheckMeansAvailable | internal/scheduling/repository.go:325-340 | The engine on the loaded rows decides availability as specified |
| BookingRepository.Recheck | internal/scheduling/repository.go:325-340 | The locked recheck: an error exactly when it cannot be answered, otherwise availability |
| BookingRepository.Repository.CreateBookingOnce | internal/scheduling/repository.go:249-391 | On success one confirmed row of version 1 appears with the request's customer, staff and start, the service's length and buffers, a reminder that tells the start, a CRM job and a finished record, and nothing else changes; any other outcome changes nothing; live bookings stay apart |
| BookingRepository.Repository.AdminCreateBookingOnce | internal/scheduling/repository.go:869-988 | The same for an operator, without the grid |
| BookingRepository.Repository.RescheduleBookingOnce | internal/scheduling/repository.go:431-568 | On success the owner's confirmed booking has the new times and the next version, its pending reminders tell the new start and zone, its record is finished and nothing else changes; any other outcome changes nothing |
| BookingRepository.Repository.AdminRescheduleBookingOnce | internal/scheduling/repository.go:1031-1146 | The same for an operator who named the current version, keeping the length |
| BookingRepository.Repository.CancelBookingOnce | internal/scheduling/repository.go:601-731 | On success the owner's confirmed booking is cancelled, exactly its pending and claimed reminders are cancelled and its record is finished; otherwise nothing changes, except for the unfinished record of a booking that was cancelled before |
| BookingRepository.Repository.AdminCancelBookingOnce | internal/scheduling/repository.go:1191-1254 | The same for an operator who named the current version, without records |
| BookingRepository.Repository.Commit | internal/scheduling/repository.go:342-391 | Refused exactly on a collision; booking, both jobs and finished record appear together or nothing changes |
| ToolCallIds.FreshId | internal/agent/runner.go:842-850 | Ends, with an id not taken yet |
| ToolCallIds.NormalizeToolCallIds | internal/agent/runner.go:835-855 | Every call gets an id no earlier call of the turn has: its own where usable, otherwise one made of iteration and place; all else is unchanged |
| ToolCallIds.NormalIdsDiffer | internal/agent/runner.go:835-855 | The ids of a response differ from each other and from all earlier ones |
| Runner.Run | internal/agent/runner.go:191-406 | For every model and tools: at most the configured model calls and two corrections; no tool after a decision, next to a terminal call or in the last iteration; each call handled in turn and each result told as the executor gave it; a last response with a terminal call is delivered if and only if it is alone, without prose and valid; every error has its exact cause; the booking flag is true exactly for a committed create |
| Runner.RunCalls | internal/agent/runner.go:355-393 | Each call of a response gets exactly one event, in order: run, denied, or skipped after a decision |
| Runner.Respond | internal/agent/runner.go:301-332 | Unless interrupted, a response with a terminal call is delivered if and only if the call is alone, without prose, and decodes to a valid answer |
| Spend.Complete | internal/llm/openrouter.go:284-325 | Stops at success, a final failure or the attempt limit; reports the sum of all usage and the number of unreported attempts |
| Spend.ChargeCoversSpend | internal/agent/runner.go:411-440 | True spend <= charge <= reservation for every sequence of attempts whose success reports, or in which nothing was reported, and for every failed call |
| Spend.ChargedAsReported | internal/agent/runner.go:411-420 | A success that reports only a total is charged that total, one that reports only parts their sum, one that reports nothing the reservation |
| Spend.CostIsReportedPlusUnknown | internal/llm/openrouter.go:297-309 | Without a silent success the unseen spend is at most one prompt per unreported attempt |
| Spend.CostSplits | internal/llm/openrouter.go:297-309 | True spend is the reported sum plus what no report tells |
| Spend.SilentSuccessCoveredIff | internal/agent/runner.go:411-440 | For given reports with a silent success after a report, the charge covers every cost they allow if and only if the price of the unreported attempts pays for the estimate and a prompt each, or reports and price reach the reservation |
| Spend.SilentSuccessExactly | internal/agent/runner.go:411-440 | The same for one known cost: exactly when the price covers what was not seen, or reaches the reservation |
| Spend.SilentSuccessEscapes | internal/llm/openrouter.go:301-312 | After any number of reported failures the charge of a silent success falls short exactly when it cost something |
| Spend.Estimate | internal/agent/budget.go:62-106 | The least token count covering the bytes, plus overheads and output, times the attempts; None exactly without an output bound or when that product overflows |
| ModelCalls.CallModel | internal/agent/runner.go:214-234 | One model call from estimate to settlement: the reservation is the estimate, the row pays the charge and never more than it reserved, and for a sound call at least what it cost; a refusal changes nothing |
| Spend.Backoff | internal/llm/openrouter.go:398-409 | base * 2^(failed-1) cut at the maximum, without computing beyond it |
| Spend.Delay | internal/llm/openrouter.go:411-426 | Within the upper half of the back-off, or what the provider asked for |
| Budget.SettleNeverFailsItsGuards | internal/conversations/store.go:370-389 | Settling an outstanding reservation satisfies every guard of the update |
| Budget.StepKeepsRelated | internal/agentbudget/postgres.go:24-63 | One step of both budgets keeps them related and gives the same answer |
| Budget.DatabaseRefinesMemory | internal/agentbudget/postgres.go:24-63 | Over every interleaving both budgets give the same answers, with accounted = used + reserved and reserved the sum of what is not settled |
| Budget.CapHoldsWithRecalibration | internal/conversations/store.go:455-485 | used + reserved stays within the cap and reserved stays the sum of unsettled reservations in every run with recalibrations |
| Budget.UsedPlusTakenOff | internal/conversations/store.go:352-485 | In every run with recalibrations, tokens used plus what recalibrations took off is what was charged |
| Budget.SpendStaysUnderTheCap | internal/agent/budget.go:128-199 | If each call's true spend is covered by its charge, a conversation's total spend never exceeds its cap plus what recalibrations took off |
| CallsUnderTheCap.TrueSpendStaysUnderTheCap | internal/agent/runner.go:214-260 | For any interleaving of turns, with recalibrations at any point, sound calls of a conversation together really spend no more than its cap plus what recalibrations took off |
| CallsUnderTheCap.RecalibratesExactly | internal/conversations/store.go:455-485 | The row is set to what the recorded calls read exactly when there are records, the conversation is open and idle, and that is less; nothing else changes |
| CallsUnderTheCap.MeasuredAppend | internal/conversations/store.go:463-469 | What is measured: the reading of each call on record, and nothing of the others |
| Recalibration.HonestRunsStayUnderTheCap | internal/conversations/store.go:455-485 | They spend no more than the cap in every run whose lowering recalibrations measure at least what the settled calls cost |
| Recalibration.CapIsSafeIff | internal/conversations/store.go:455-485 | An idle conversation stays under its cap in every continuation if and only if its row counts what its calls really cost |
| Recalibration.RecalibrationIsSafeIff | internal/conversations/store.go:455-485 | A recalibration that lowers the row leaves the cap safe if and only if what it measured covers what the settled calls cost |
| Recalibration.SafeWhateverItCostIff | internal/conversations/store.go:455-485 | From the reports alone: safe for every cost they allow if and only if it measured the most the settled calls can have cost |
| Recalibration.ReadingCoversIff | internal/conversations/store.go:463-469 | What is read off a recorded call covers its cost if and only if every token was reported as input or output, or without such a report the penalty covers it |
| Recalibration.ReadingCoversWorstIff | internal/conversations/store.go:463-469 | From the reports alone: if and only if no unreported attempt could have cost anything and no total exceeds its parts, or without parts the penalty covers the worst case |
| Recalibration.CallByCall | internal/conversations/store.go:455-485 | If all settled calls are recorded and each is read off at its worst cost, the measure covers them together |
| Recalibration.RestartPassesTheCap | internal/bootstrap/bootstrap.go:83-90 | A run of sound calls that really spend 1400 tokens under a cap of 1000, after a restart in between |
| TokenBudgets.MemoryTokenBudget.Reserve | internal/agent/budget.go:128-150 | Charges the reservation or refuses; other conversations are untouched |
| TokenBudgets.MemoryReservation.Settle | internal/agent/budget.go:177-199 | Credits the difference once; an overrun keeps the whole reservation charged |
| TokenBudgets.ConversationStore.ReserveTokens | internal/conversations/store.go:352-368 | One guarded update of the conversation's row |
| TokenBudgets.ConversationStore.SettleTokens | internal/conversations/store.go:370-389 | One guarded update of the conversation's row |
| TokenBudgets.ConversationStore.RecalibrateInflatedUsage | internal/conversations/store.go:455-485 | Lowers usage of idle open conversations only |
| TokenBudgets.StoredReservation.Settle | internal/agentbudget/postgres.go:47-63 | Settles once; an impossible report charges the whole reservation |
| JobQueue.StepKeepsInv | internal/jobqueue/postgres.go:57-276 | Pending means attempts left, claimed means at most max, dead means exactly max and a letter; every statement keeps this |
| JobQueue.RunKeepsInv | internal/jobqueue/postgres.go:57-276 | The same over every run |
| JobQueueTheorems.ReapSplitsStaleClaims | internal/jobqueue/postgres.go:215-276 | A reap leaves no stale claim, turns each into pending or dead by its attempts, and touches nothing else |
| JobQueueTheorems.OneLetterPerBurial | internal/jobqueue/postgres.go:230-250 | Each burial adds exactly one letter |
| JobQueueTheorems.AttemptsCountClaims | internal/jobqueue/postgres.go:57-70 | The attempts column counts the claims since creation or replay |
| JobQueueTheorems.FinishedRowsStay | internal/jobqueue/postgres.go:57-335 | A completed or cancelled row never changes again, whatever workers, reapers, bookings and operators do |
| JobQueueTheorems.CompletedForGood | internal/jobqueue/postgres.go:98-113 | Completing a claimed job finishes its row, leaves all others alone, and lasts through every run |
| JobQueueTheorems.ClaimedAtMostMaxAttempts | internal/jobqueue/postgres.go:57-133 | Between replays a job is claimed at most max_attempts times |
| JobQueueTheorems.StatusChangeCosts | internal/jobqueue/postgres.go:57-276 | Every change of status uses up a bounded measure |
| JobQueueTheorems.JobsComeToRest | internal/jobqueue/postgres.go:57-276 | Without replay a job changes status only finitely often, at most by its measure |
| JobQueueTheorems.DelayGrowsToAnHour | internal/jobqueue/postgres.go:338-346 | The retry delay starts at 30 seconds and doubles up to an hour, where it stays from the eighth attempt |
| JobQueueTheorems.SplitFailBreaksTheBound | internal/jobqueue/postgres.go:117-149 | With Fail split in two, a reap and a claim in between leave a pending job without attempts |
| JobQueueTheorems.LateRetryKeepsInvIff | internal/jobqueue/postgres.go:136-149 | The retry write keeps the queue sound exactly when it does not meet a claim that has used the last attempt |
| SplitFail.StepKeepsInv | internal/jobqueue/postgres.go:117-201 | With Fail as a read and a later write, every step keeps: at most max - 1 retries read, and one claim more for each written |
| SplitFail.ClaimedLessThanTwiceMax | internal/jobqueue/postgres.go:117-201 | With Fail in two statements a job is claimed at most 2 * max - 1 times between replays |
| SplitFail.BoundIsReached | internal/jobqueue/postgres.go:117-201 | For every max the table admits, some run claims a job 2 * max - 1 times |
| SplitFail.PendingHasAttemptUnlessLate | internal/jobqueue/postgres.go:117-149 | A pending job is out of attempts only if a retry was written |
| SplitFail.JobsComeToRest | internal/jobqueue/postgres.go:57-276 | Also with Fail in two statements a job changes status only finitely often |
| TimelyFail.StepKeepsInv | cmd/worker/main.go:154-219 | With reads and writes within the batch's schedule and reaps after the lease, a live claim stays its worker's through every statement |
| TimelyFail.TimelyFailIsOneStep | internal/jobqueue/postgres.go:117-201 | Then the queue with Fail in two statements runs exactly as the queue with Fail in one |
| TimelyFail.ClaimedAtMostMaxInTime | internal/jobqueue/postgres.go:117-201 | So with the shipped timeouts a pending job has an attempt left and a job is claimed at most max_attempts times between replays |
| JobTable.Table.ClaimBatch | internal/jobqueue/postgres.go:57-95 | Claims distinct unlocked due jobs, earliest first, and passes one over only for a full batch of earlier ones; a claimed row has the time and one attempt more, every other row stays |
| JobTable.SelectDue | internal/jobqueue/postgres.go:60-66 | The selection of a batch |
| JobTable.Table.Complete | internal/jobqueue/postgres.go:98-113 | A claimed job becomes completed with all other fields as before; everything else, and every other answer, leaves the table as it is |
| JobTable.Table.Fail | internal/jobqueue/postgres.go:117-133 | Retries with back-off or buries with a letter, as one step |
| JobTable.Table.RequeueStaleClaims | internal/jobqueue/postgres.go:215-276 | A claim older than the lease is pending at once while it has attempts left and dead when it has none, every other row stays; the counts add up to the stale claims |
| JobTable.Table.ReplayDeadLetter | internal/jobqueue/postgres.go:310-335 | A dead job becomes pending with fresh attempts |
| JobTable.ReapInTwoStatements | internal/jobqueue/postgres.go:227-263 | Burying and then giving back treats every stale claim exactly once |
| Lease.ProcessBatch | cmd/worker/main.go:154-171 | The semaphore loop starts jobs in order, as soon as a slot is free |
| Lease.StartsInTime | cmd/worker/main.go:154-171 | Job k starts by floor(k / slots) times the longest job |
| Lease.BatchEndsInTime | cmd/worker/main.go:154-171 | The batch ends by ceil(n / slots) times the longest job |
| Lease.FullBatchIsASchedule | cmd/worker/main.go:154-171 | The bound is reached |
| Lease.LeaseHoldsIff | internal/jobqueue/postgres.go:215-263 | No schedule lets a reap see a live claim as stale if and only if the bound fits into the lease |
| Lease.ShippedLeaseHolds | cmd/worker/main.go:24-37 | 10 jobs, 4 slots and 30 + 5 seconds end within 105 seconds, well inside 300 |
| Lease.ReapSparesLiveClaims | cmd/worker/main.go:154-219 | A reap at any time before a job's last write leaves its claim as it is |
| Reminders.BothJobsAreInserted | internal/scheduling/repository.go:736-783 | For a new booking neither job insert meets an existing key |
| Reminders.StepKeepsCoherent | internal/scheduling/repository.go:546-551 | Every booking transaction, worker and reaper keeps reminders true to their bookings |
| Reminders.CancelledStaysSilent | internal/scheduling/repository.go:710-714 | After a cancellation commits, no reminder of the booking is ever pending or claimed again |
| Reminders.UnclaimedTellsTheStart | internal/jobqueue/postgres.go:377-390 | A reminder never claimed always carries the booking's current start |
| Reminders.EveryBookingHasAReminder | internal/scheduling/repository.go:764-780 | Every booking has its reminder job in every reachable state |
| Decimals.ParseOfPrint | internal/channels/demohttp/sse.go:87 | A printed id parses back |
| Frames.ChunksDoNotMatter | web/widget/kontor.js:438-442 | Splitting what arrived and later the rest equals splitting everything |
| Frames.FramesOfText | internal/channels/demohttp/sse.go:85-93 | A stream of frames comes apart into exactly those frames |
| Frames.ReadOfBody | web/widget/kontor.js:452-458 | A printed event reads back as its id, kind and payload, trimmed and on one line |
| Frames.PayloadSurvivesIff | internal/channels/demohttp/sse.go:86-87 | The payload survives if and only if it is one trimmed line |
| Frames.NewlinesDropOut | internal/channels/demohttp/sse.go:86-87 | Newlines drop out of a payload and everything between them stays |
| EventStream.EventsAfter | internal/conversations/events.go:23-50 | The first events of the log past the id, up to the limit |
| EventStream.HeaderRoundTrip | internal/channels/demohttp/sse.go:115-128 | The resume header a client sends is the cursor the server reads, as long as an id can be that large |
| EventStream.HeaderSigns | internal/channels/demohttp/sse.go:115-128 | No header is the start of the stream; a plus sign is read and a negative id refused |
| EventStream.StreamEvents | internal/channels/demohttp/sse.go:70-110 | A stream opens with a comment, sends the events past the cursor in order and without gaps, a hundred a poll up to what the log holds then, one heartbeat for each that was due, and says when it ends for its age |
| EventStream.PollsCatchUp | internal/channels/demohttp/sse.go:70-110 | Polls that see the log as it stands catch up by a hundred events each |
| EventStream.Widget.Receive | web/widget/kontor.js:436-444 | One chunk: split, keep the rest, handle the frames in order |
| EventStream.Widget.HandleFrame | web/widget/kontor.js:452-466 | Accepts a frame, whole and as the last, exactly when it has an id later than the last; the last id never falls and the buffer stays |
| EventStream.ChunkingDoesNotMatter | web/widget/kontor.js:436-444 | However the text is cut into chunks, the client ends in the same state |
| EventStream.SessionAdvances | web/widget/kontor.js:420-450 | One connection, broken anywhere, advances the client by a contiguous part of the log, and to its end if all arrived |
| EventStream.WatcherCatchesUp | web/widget/kontor.js:420-450 | A session that has polled often enough since the log last grew, and whose text all arrives, brings the client to the end of the log |
| EventStream.ResumeIsExactlyOnce | web/widget/kontor.js:420-466 | Over any disconnects the accepted events are a prefix of the log: no gap, no duplicate, in order |
| EventStream.ResumeReachesTheEnd | web/widget/kontor.js:420-466 | After any disconnects, one connection read to the end leaves no event out |

## Left out

- HTTP handlers, onboarding, identity, password hashing, encryption, the Telegram and HubSpot clients, metrics, bootstrap wiring, the operator console and all rendering: plumbing and user interface.
- JSON Schema validation, base64, SHA-256, HMAC and the time zone database: replaced by ideal functions and stated hypotheses about zones; the schemas enter only through the fields later decoding relies on.
- The text tests for consent and for a request for a human (internal/conversations/store.go:410-440): whether a message is a consent is an arbitrary input of the protocol.
- The in-memory confirmation store (internal/tools/confirmations.go): unlike the database store it does not keep a single live proposal.
- The clarification counter, escalation and dead-letter writes of internal/app/service.go: they only add easy members.
- 64-bit and float limits (UnixNano outside 1678-2262, ids beyond 2^53 in the widget, duration overflow) are not modelled, except the overflow check of the estimator and the range of ids in the resume header.
- Isolation below "each transaction is atomic", serialization retries, and waits on rows other than schedule locks.
- Engine.FindSlots: requires that adding a day goes forward, as it does in every zone that stays on its side of the date line; otherwise the loop of the source goes on until its context ends. Cancellation of the context and unknown zone names are not modelled. On dates with irregular midnights a limited answer is only known to hold that many reachable slots.
- Engine.IsAvailable: the same requirement on the slot's own day.
- SlotMerge.FindSlotsOfAll: the same requirement for every staff member; distinct staff ids are the table's primary key.
- ScheduleLocks.TouchedLocalDates: the same requirement on the window; dates are day numbers instead of text.
- BookingRepository.Repository.CreateBookingOnce: the same requirement on the slot's own day; takes no locks because it is one step, the locks are LockProtocol; audit rows, customer contact data and response text are not modelled; buffers are whole minutes as in the services table.
- SkippedMidnight.WalksWholeIff: for one change per zone, offsets from 12 hours west to 14 hours east, and gaps of at most three hours; a midnight that is read twice is covered by Engine.FindSlots only.
- LockProtocol.OverlappingWritersExclude: for windows whose dates have unique midnights.
- Dst.RuleCoversItsHours: from 18 hours before the date's midnight in UTC to 42 hours after it the zone has one change at most, on whole wall-clock minutes, of at most three hours and away from midnight, with offsets of at most 15 hours, and the clock never shows the date at another time.
- LockProtocol.NoDeadlock: covers the schedule locks alone, not booking rows and idempotency keys.
- Gateway.DerivedKeyNamesTheAppointment: for ids without the separator character.
- Gateway.DerivedKeyNamesTheChange: the same.
- Decisions.SchemaMeans: patterns, formats, additional properties and lengths other than the key's are not part of it.
- BookingRepository.Repository.AdminCreateBookingOnce: the service of the row is the id of the catalog row the request names.
- Runner.Run: history text given to the model is not modelled beyond the event log, and tool results reach the model only through it.
- Spend.ChargeCoversSpend: assumes that attempts cost at most the estimate, reports are true, and an unreported failure costs at most the prompt.
- JobQueue.StepKeepsInv: Fail is one step; SplitFail has it as two, and TimelyFail shows that within the worker's deadlines two are as good as one.
- TimelyFail.TimelyFailIsOneStep: a statement that missed its deadline has no effect afterwards, and claim, worker and reaper read one clock.
- Recalibration.RecalibrationIsSafeIff: for calls that keep the assumptions of Spend.ChargeCoversSpend, without its silent successes; the sum of the iterations does not overflow an integer column.
- JobTable.Table.Fail: lookup and update are one step.
- Lease.ShippedLeaseHolds: handlers honour their timeout, and the clock of the claim is the clock of the worker.
- Reminders.CancelledStaysSilent: without dead-letter replay and with reminders enqueued only by booking creation.
- EventStream.ResumeIsExactlyOnce: ids become visible in increasing order, and white space to trim is the usual ASCII set, the no-break space and the byte order mark.
- Frames.ReadOfBody: event kinds are single lines.
