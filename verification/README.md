# ShareSub gateway: a Dafny model of its state machines

ShareSub shares OpenAI accounts between members of plans. This project models the parts of
its Go backend where the state is intricate, and proves what they keep over every run. One
module stands for one component.

- **Admission** (`AccountTraffic`, `TrafficInvariant`, `TrafficSlots`, `TrafficRate`,
  `TrafficQuiesce`, `TrafficAdmission`): the account traffic controller as a machine whose steps
  are its critical sections. `TrafficController` is the object itself, with its loops, proved to
  take exactly these steps.
- **Concurrency history** (`ConcurrencySeries`, `ConcurrencyIntegral`, `ConcurrencyRun`,
  `ConcurrencyFlush`, `ConcurrencyRetention`, `ConcurrencyCollector`, `TrafficHistory`,
  `PlanMinutes`, `PlanChart`, `ChartedHistory`): request time per minute, the flush protocol and
  what it forgets, both combined with admission, and the chart, up to what a reader of the chart
  sees in any reachable state.
- **Responses WebSocket** (`ReplayBudget`, `ReplayItems`, `ReplayHistory`, `ReplayCollector`,
  `ResponseUsage`, `RelayEvents`, `RelayProgress`, `RelayTurn`, `ReplaySession`): the shared byte
  budget, the replay history, the relay of one attempt, and the session around it.
- **HTTP streaming** (`SseStream`, `SseCopier`, `SseDecisions`, `StateCompletion`,
  `GatewayAccess`, `RouteChoice`, `GatewayLoop`): the SSE copier, the observer of completed
  responses, route selection and the retry loop.
- **Stored protocols and prices** (`QuotaSnapshots`, `QuotaRecords`, `StateJobs`, `ApiKeyLimiter`,
  `LimiterAnswers`, `MembershipPayments`, `TokenRounding`, `VersionedCost`, `PriceList`,
  `PriceExample`).

The modules named after answers, events, decisions, records, choices and lists say what the
outcome of an operation is in terms a caller can see: the calls made before, the tickets out, the
events received, the lines read, the rows stored, the fields of the price list. They spell it out
instead of naming the functions that the operations are written with.

`MapSums` has the order-free sums that loops over Go maps compute, `Units` the ids and durations
that components share, and `Doubles` the rounding of real numbers to double precision.

## Conventions

Every critical section and every SQL transaction or statement is one atomic step. Where the
source changes an object in place, a class does too, and its methods equate the new state with
a function of the old one; the theorems over runs are about these functions. Pointers that are
compared or shared (account states, tickets, quiescers) are references into maps, and the
closures returned by an admission are tickets with `committed` and `released` flags. Account
and plan ids are numbers with 0 for the empty id. Times are integer ticks. The order in which
Go visits a map is arbitrary. JSON texts, sealed tickets and hashes are abstract values with
the fields the code reads; bytes are characters. What clients, upstreams, dialling, hooks and
timers do is a script, an arbitrary input that outcomes are told from; writes to a connection may
fail at any point, and an outcome that is due to a failed write says so.

Where a rate is limited, results assume that times never decrease: the per-minute bound, the exact
answer of an admission call with a rate limit, and the answers of the limiter. The source reads
the clock before taking its lock, so two callers can pass times out of order.

## What the code does not do as one might expect

- An internal probe reservation can refuse a member below its base (`ProbeCanRefuse`);
  `BaseHoldsOverRuns` says when.
- Routes are compared by cross-multiplication, which is not an order for a capacity of zero;
  the exhaustion filter removes such routes first (`ZeroCapacityCycles`, `AvailableIsComparable`).
- Passive quota observations near the edge of the 120-second tolerance can depend on their order
  (`OrderMattersExactly`); an authoritative batch that mentions a window twice changes nothing
  (`ProbeIsAllOrNothing`).
- A closed payment order is not final: an administrator can settle one under review
  (`ClosedChangesByResolution`).
- A Retry-After above 9223372036 seconds overflows and can mean no backoff at all
  (`HugeRetryAfterIsIgnored`); `DelayIsBounded` says when.
- The limiter's fixed windows admit up to twice the limit less one in some minute
  (`OneLessThanTwiceHappens`).
- The price of tokens is computed in double precision and can end below a half micro that should
  round up: six tokens at 1,250,000 a million cost 7.5 micros and are billed 7, where the
  price page's formula has 8 (`HalfMicroIsLost`, `SixTokens`). `AmountOfTokens` says when the bill is the exact price rounded
  half up: always when that price is further than one part in 2^50 from a half micro, and up to
  2^49 micros exactly when the chain of roundings ends on the same side of it.
- The overflow guard of a price compares doubles, so a product of count and unit price from
  2^63 - 512 to 2^63 + 1024 passes it and is stored as a negative number where the conversion
  wraps (`GuardMissesAnInterval`, `SilentOverflow`). `Additive`, `TotalIsClose` and
  `SegmentOfTokens` therefore speak of sound segments, in which no amount is 2^63. `PricedIsAdditive` needs no such condition.
- The price page's example rounds exact prices and does not clip cached tokens beyond the input;
  the bill loses half micros and clips (`ExampleIsBilled`). The page shows it for 50,000 cached of
  100,000 input tokens, where nothing is clipped, but at a price of 70 it shows 4 and 3 are billed
  (`PageNumbers`).
- Leaving an account because a model is blocked there does not count as one of the three
  switches; the loop ends because the account is excluded.

## Model

| member | source | states |
|---|---|---|
| TrafficSlots.SlotsNeverLent | backend/internal/application/account_traffic.go:96-119 | Over every run of admissions, commits, releases, evictions and quiescing under one enabled policy: the slots used beyond the bases never exceed ceiling minus total base, and the members together never exceed the ceiling |
| TrafficSlots.BaseAdmittedExactly | backend/internal/application/account_traffic.go:281-320 | A member below its base is refused by neither concurrency check exactly when members and internal reservations together leave a slot under the ceiling, whatever the others hold |
| TrafficSlots.BaseIsNeverRefused | backend/internal/application/account_traffic.go:281-320 | So it is never refused while fewer internal reservations are out than base slots it has left, and never at all without any |
| TrafficSlots.BaseHoldsOverRuns | backend/internal/application/account_traffic.go:65-119 | Over every run: the next request of a member below its base is turned away for lack of slots exactly when members and internal reservations fill the ceiling of an account that is not being quiesced, and never while fewer reservations are out than base slots it has left |
| TrafficSlots.ProbeCanRefuse | backend/internal/application/account_traffic.go:96-99 | A concrete case where it is refused: one probe under a ceiling of one |
| TrafficSlots.AdmissionKeepsSlots | backend/internal/application/account_traffic.go:281-320 | One accepted member keeps the reserved part free |
| TrafficSlots.BelowBaseLeavesRoom | backend/internal/application/account_traffic.go:305-318 | The slots a member below its base still has fit under the ceiling next to everything in use |
| TrafficSlots.MembersWithinCeiling | backend/internal/application/concurrency.go:93-105 | Under a valid policy, overflow within the shared part means total use within the ceiling |
| TrafficSlots.RunKeepsSlots | backend/internal/application/account_traffic.go:65-176 | The slot invariant and the controller invariant hold after every run from any state that has them |
| TrafficAdmission.AnswerIsExact | backend/internal/application/account_traffic.go:65-123 | After every run: whom an admission call admits and why it refuses the others, told from the tickets out and the policy alone: a marked account, its ceiling, the requests charged to this minute, an admissible policy, the personal maximum, and a free slot of the member's base or of the shared part |
| TrafficAdmission.CallAnswers | backend/internal/application/account_traffic.go:281-320 | The same for one call in any state with the invariants |
| TrafficAdmission.MaximumNeverExceeded | backend/internal/application/account_traffic.go:305-307 | Over every run no member runs more requests than its personal maximum |
| TrafficAdmission.TicketsOfStep | backend/internal/application/account_traffic.go:104-176 | A call puts out a ticket exactly when it admits; commits and releases mark their own ticket; no other step touches one |
| TrafficAdmission.ForgottenExactly | backend/internal/application/account_traffic.go:67-82 | A call forgets an account, at most every ten minutes, exactly when nobody runs on it or holds it and no call has found it for half an hour |
| TrafficRate.RateNeverExceeded | backend/internal/application/account_traffic.go:88-103 | With a fixed limit and non-decreasing admission times, committed plus tentative admissions of an account in any minute never exceed the limit, across eviction, early release and late commit |
| TrafficRate.AdmissionWithinLimit | backend/internal/application/account_traffic.go:100-122 | An admission leaves its own minute within the limit it carried and charges no other account or minute |
| TrafficRate.ChargedIsCounted | backend/internal/application/account_traffic.go:67-74 | What all tickets, also those on evicted states, charge to the current minute is what the indexed state counts |
| TrafficRate.CommitCharges | backend/internal/application/account_traffic.go:137-150 | A commit charges nothing anew; a late one leaves the newer minute of its state alone |
| TrafficRate.ReleaseCharges | backend/internal/application/account_traffic.go:151-174 | A release gives an uncommitted admission back exactly once, a committed one never |
| TrafficQuiesce.StepKeepsInv | backend/internal/application/account_traffic.go:65-264 | Every step keeps: counters equal the unreleased tickets, idle means no active request, marks belong to at most one quiescer, and live tickets point at existing states |
| TrafficQuiesce.HeldIsQuiet | backend/internal/application/account_traffic.go:202-209 | While a quiescer holds its accounts none of them has a live ticket |
| TrafficQuiesce.Exclusive | backend/internal/application/account_traffic.go:202-209 | Two quiescers never have the same account locked |
| TrafficQuiesce.CancelLeavesNothing | backend/internal/application/account_traffic.go:210-231 | Releasing, or cancelling with any run of other steps between its two critical sections, leaves no account marked for this caller; every remaining mark belongs to somebody else |
| TrafficQuiesce.LetGoLeavesNothing | backend/internal/application/account_traffic.go:210-231 | Without steps in between exactly the marks of this caller are cleared |
| TrafficQuiesce.MarkedRefuses | backend/internal/application/account_traffic.go:83-86 | A marked account admits nobody and cleanup keeps its state |
| TrafficQuiesce.SomeoneAdvances | backend/internal/application/account_traffic.go:178-232 | No deadlock: with the tickets drained and nobody holding, some waiting quiescer can take its next account |
| TrafficQuiesce.AdvanceIsAStep | backend/internal/application/account_traffic.go:194-219 | That step is enabled and locks or marks one more account |
| TrafficInvariant.EvictKeepsInv | backend/internal/application/account_traffic.go:67-74 | Cleanup keeps the invariant and every state that is marked or has a live ticket |
| TrafficInvariant.PrepareKeepsInv | backend/internal/application/account_traffic.go:65-123 | One admission call, accepted or refused, keeps the controller invariant |
| TrafficInvariant.CommitKeepsInv | backend/internal/application/account_traffic.go:137-150 | A commit keeps it, late or repeated |
| TrafficInvariant.ReleaseKeepsInv | backend/internal/application/account_traffic.go:151-174 | A release keeps it, repeated or not |
| TrafficController.Controller.constructor | backend/internal/application/account_traffic.go:39-41 | An empty, valid controller |
| TrafficController.Controller.PrepareRequest | backend/internal/application/account_traffic.go:65-123 | The whole new state and the outcome of an admission call, which `TrafficAdmission.AnswerIsExact` spells out |
| TrafficController.Controller.Cleanup | backend/internal/application/account_traffic.go:67-74 | The loop removes exactly the idle unmarked states past their time |
| TrafficController.Controller.CommitTicket | backend/internal/application/account_traffic.go:137-150 | The whole new state of a commit |
| TrafficController.Controller.ReleaseTicket | backend/internal/application/account_traffic.go:151-174 | The whole new state of a release |
| TrafficController.Controller.BeginQuiesce | backend/internal/application/account_traffic.go:178-193 | A new quiescer with sorted ids |
| TrafficController.Controller.MarkNext | backend/internal/application/account_traffic.go:194-222 | Marks the next account, or reports that it is marked by somebody else |
| TrafficController.Controller.LockDrained | backend/internal/application/account_traffic.go:207-209 | A drained account joins the locked ones |
| TrafficController.Controller.ReleaseQuiesced | backend/internal/application/account_traffic.go:257-264 | Clears the marks of the locked accounts |
| TrafficController.Controller.UndoMark | backend/internal/application/account_traffic.go:212-215 | Clears the mark of the account that was being drained |
| TrafficController.Controller.ChangeHistory | backend/internal/application/concurrency_history.go:91-112 | The collector state after counting one request in or out |
| TrafficController.Controller.PendingMinutes | backend/internal/application/concurrency_history.go:140-159 | The collector state and the batch handed to the store |
| TrafficController.Controller.AcknowledgeMinutes | backend/internal/application/concurrency_history.go:160-190 | The collector state after marking saved revisions and dropping idle series |
| TrafficController.Controller.LiveHistory | backend/internal/application/concurrency_history.go:191-206 | The collector state, the minutes and the counts shown to a reader |
| TrafficController.AdmitMember | backend/internal/application/account_traffic.go:281-320 | The two loops of the member rule compute its decision |
| TrafficController.SortedAccounts | backend/internal/application/account_traffic.go:179-191 | Ids without blanks and repeats, strictly sorted |
| TrafficHistory.CountedAndStored | backend/internal/application/account_traffic.go:104-169 | In every interleaving of admissions, releases, quiescing, reads, flushes and cleanups: each series counts exactly the unreleased tickets of a user, and a bucket saved at its revision is in the store with its current value, unless its row was deleted for its age |
| TrafficHistory.InitiallyBoth | backend/internal/application/account_traffic.go:39-41 | The empty system has both invariants |
| TrafficHistory.StepKeepsBoth | backend/internal/application/concurrency_history.go:45-190 | One step of the combined system keeps both invariants |
| PlanMinutes.MinutesAreExact | backend/internal/application/concurrency_history.go:45-112 | In every reachable state of the whole system: the minutes of a plan say exactly how long each user's admitted requests were live in them and how many at once, since the series was created and without a silence of 25 hours, and its counts are the tickets still out |
| PlanMinutes.StepProjects | backend/internal/application/account_traffic.go:104-169 | Every step of admission and flushing is, for each series, one event of its own run or none |
| ConcurrencyRun.BucketsAreExact | backend/internal/application/concurrency_history.go:63-112 | Over every run of a series without a silence of 25 hours: the request time of a user in a minute is exactly the time that user's requests were live in it, the peak is the largest number of requests live at any instant of it, the minutes tile the observed time, and no total exceeds peak times observed time |
| ConcurrencyRun.LivePeakIsMaximum | backend/internal/application/concurrency_history.go:105-111 | That largest number bounds the count after every beginning and end in force in the minute, and is attained by one |
| ConcurrencyRun.RunIsFaithful | backend/internal/application/concurrency_history.go:63-112 | Buckets, integration log and the sequence of beginnings and ends agree after every run |
| ConcurrencyIntegral.ChangeAgrees | backend/internal/application/concurrency_history.go:91-112 | After a change the buckets equal the minute-by-minute integral and peak of the log |
| ConcurrencyIntegral.AdvanceAgrees | backend/internal/application/concurrency_history.go:63-90 | Advancing integrates exactly what was observed; of a longer silence only the last 25 hours |
| ConcurrencyIntegral.CompletedNeverRewritten | backend/internal/application/concurrency_history.go:127-131 | A minute that ended before the last update is never written again |
| ConcurrencyIntegral.ChangeBounded | backend/internal/application/concurrency_history.go:91-112 | Request time stays at most peak times observed time |
| ConcurrencySeries.ChangeOk | backend/internal/application/concurrency_history.go:91-112 | A change keeps the series well formed: counts positive, buckets aligned, revisions consistent |
| ConcurrencySeries.OpenBucket | backend/internal/application/concurrency_history.go:127-131 | The bucket being written is never one whose member map was dropped |
| ConcurrencySeries.AdvanceSeries | backend/internal/application/concurrency_history.go:63-90 | The loop of advance computes its specification |
| ConcurrencySeries.ChangeSeries | backend/internal/application/concurrency_history.go:91-112 | The loop form of a change computes its specification |
| ConcurrencyFlush.FlushIsSafe | backend/internal/application/concurrency_history.go:208-224 | Over every run of updates, reads, cleanups, and flushes that fail, succeed or commit without the caller learning of it, a bucket saved at its revision has its current value in the store, unless its row was deleted after 48 hours |
| ConcurrencyFlush.ChangedStaysPending | backend/internal/application/concurrency_history.go:163-171 | A bucket changed between snapshot and acknowledgement stays pending |
| ConcurrencyFlush.QuietFlushSavesAll | backend/internal/application/concurrency_history.go:140-190 | An undisturbed flush leaves every remaining bucket saved |
| ConcurrencyFlush.DroppedWasIdleAndStored | backend/internal/application/concurrency_history.go:173-189 | A series is dropped only when idle and with everything it held stored, apart from rows deleted for their age |
| ConcurrencyFlush.RecreatedIsFresh | backend/internal/application/concurrency_history.go:45-53 | A recreated series gets an instance that no stored row and no other series has |
| ConcurrencyFlush.CopyMinuteOk | backend/internal/application/concurrency_history.go:114-133 | Publishing a bucket changes no value, also when it drops the member map |
| ConcurrencyFlush.SaveKeepsInv | backend/internal/postgres/concurrency.go:109-128 | Saving a batch writes each row whose account and plan exist and keeps the invariant |
| ConcurrencyRetention.OldBucketsForgotten | backend/internal/application/concurrency_history.go:144-151 | A flush forgets exactly the buckets whose minute is over for 25 hours |
| ConcurrencyRetention.QuietFlushForgets | backend/internal/application/concurrency_history.go:160-190 | An undisturbed flush forgets a series exactly when no request is live in it and its last use is more than 25 hours ago |
| ConcurrencyRetention.NothingIsLeftBehind | backend/internal/application/concurrency_history.go:91-206 | A change, a read and a flush leave no time before them uncounted; changes and reads are uses, a flush is none |
| ConcurrencyCollector.CollectSeries | backend/internal/application/concurrency_history.go:144-157 | Prune, advance and publish of one series, with its pending entries |
| ConcurrencyCollector.AcknowledgeSeries | backend/internal/application/concurrency_history.go:163-171 | The saved revisions of one series |
| ReplayBudget.Reservation.ReplaceWith | backend/internal/openai/responses_websocket_replay_budget.go:39-105 | Succeeds exactly when the new size fits after giving up the sources; moves everything or changes nothing; used bytes stay the sum of all reservations |
| ReplayBudget.Reservation.Resize | backend/internal/openai/responses_websocket_replay_budget.go:31-33 | Succeeds exactly when the new size fits |
| ReplayBudget.Reservation.Release | backend/internal/openai/responses_websocket_replay_budget.go:107-111 | Cannot fail and returns exactly this share |
| ReplayBudget.Reservation.AddUp | backend/internal/openai/responses_websocket_replay_budget.go:85-94 | The overflow and underflow guards never fire while the ledger holds |
| ReplayBudget.Transfer | backend/internal/openai/responses_websocket_replay_budget.go:85-103 | Moving bytes into one reservation changes the total by what it grows beyond what the others gave up |
| ReplayBudget.Budget.constructor | backend/internal/openai/responses_websocket_replay_budget.go:23-25 | A fresh budget is an empty ledger with the default limit for a non-positive one |
| ReplayItems.IncrementalIsBatch | backend/internal/openai/responses_websocket_replay.go:251-304 | Checking only new items against the stored contexts decides the same as checking the whole conversation |
| ReplayItems.CompleteIsAnswered | backend/internal/openai/responses_websocket_replay.go:256-304 | A conversation may be replayed exactly when nothing in it refers to an item stored elsewhere and every tool output is of a known kind, names its call and finds a call of that id |
| ReplayItems.SamePrefixSameContexts | backend/internal/openai/responses_websocket_replay.go:306-323 | A resent history checks exactly like the stored one |
| ReplayItems.ToolContextDelta | backend/internal/openai/responses_websocket_replay.go:256-304 | Computes the contexts and whether every required call id is known |
| ReplayItems.RawPrefix | backend/internal/openai/responses_websocket_replay.go:306-323 | Decides the prefix test up to spelling |
| ReplayHistory.WholeTurn | backend/internal/openai/responses_websocket_replay.go:168-182 | The incremental check of a turn with its output is the check of the whole new conversation, resent or continued |
| ReplayHistory.History.MakePlan | backend/internal/openai/responses_websocket_replay.go:81-123 | A turn may move exactly when its whole input is known, a complete tool context and within the limits, and the planned input is that whole input |
| ReplayHistory.History.Commit | backend/internal/openai/responses_websocket_replay.go:138-207 | The history becomes the whole conversation with the output and its bytes are reserved, or it is given up; the turn's own reservations end empty |
| ReplayHistory.History.Invalidate | backend/internal/openai/responses_websocket_replay.go:209-219 | Forgets the conversation and returns its bytes |
| ReplayCollector.CollectedOnce | backend/internal/openai/responses_websocket_replay.go:348-421 | Every collectable output item is kept exactly once |
| ReplayCollector.RepeatsAddNothing | backend/internal/openai/responses_websocket_replay.go:355-371 | The final event that repeats delivered items adds nothing |
| ReplayCollector.Collector.AddEvent | backend/internal/openai/responses_websocket_replay.go:348-372 | The collected items are those of all events so far; collecting stops exactly when these exceed the limits of count and bytes or do not fit the budget beside the other reservations |
| ReplayCollector.Collector.AddItem | backend/internal/openai/responses_websocket_replay.go:374-421 | A new item is kept once and reserved; collecting stops, and the share is returned, exactly when the items with it exceed a limit or do not fit the budget |
| ResponseUsage.MergeIsBilledAsSum | backend/internal/openai/responses_websocket_relay.go:323-357 | A merged response is billed as the sum of its parts in every counter |
| ResponseUsage.BillingMetrics | backend/internal/openai/responses_websocket_relay.go:345-357 | The counters of a response, images and searches counted from completed output items |
| RelayEvents.StandsNext | backend/internal/openai/responses_websocket_relay.go:186-248 | One more event: the relay's flags say which steer is open and which terminal event is held back, and it sees the end of the turn exactly at the first terminal event that no steer holds back, or when the continuation is put off |
| RelayProgress.LimitMoves | backend/internal/openai/responses_websocket_relay.go:230-240 | Moving on is the explained exit for a rate limit as the first event of a turn that may move |
| RelayProgress.TurnEnds | backend/internal/openai/responses_websocket_relay.go:242-281 | At the end of a turn the exit is what its last event and the state of the client say |
| RelayProgress.StillOpen | backend/internal/openai/responses_websocket_relay.go:100-184 | Where no event has ended the turn, closing is due to an overlap, an unreadable frame, silence or a lost client |
| RelayProgress.CreatePlaced | backend/internal/openai/responses_websocket_relay.go:107-118 | A create is kept for the next turn only while a steer is open or holds a terminal event back |
| RelayTurn.RelayAttempt | backend/internal/openai/responses_websocket_relay.go:22-307 | On every exit: the segments are the terminal responses of the events read and the metrics their sum; controls and events are handed on in order, all of them by a finished turn; and the exit is explained by the reads: it moves on exactly when the first event is a rate limit, the turn may move and the client has sent nothing but controls that can wait; it ends at the first event that ends the turn, as that event says; every other exit has its reason, and the output is that of the events read |
| RelayTurn.Relay.PassOn | backend/internal/openai/responses_websocket_relay.go:120-171 | Controls are queued while the turn may move and otherwise reach this upstream in order |
| RelayTurn.Relay.RecordTerminal | backend/internal/openai/responses_websocket_relay.go:213-229 | Each terminal response is one segment; a steered one is kept for the continuation |
| RelayTurn.Relay.MoveAway | backend/internal/openai/responses_websocket_relay.go:230-240 | A rate limit before any output leaves for another account with nothing billed |
| RelayTurn.Relay.Deliver | backend/internal/openai/responses_websocket_relay.go:249-281 | An event goes down in order and the queue goes up once something was delivered |
| RelayTurn.PendingFrames.Append | backend/internal/openai/responses_websocket.go:155-167 | Bounded queue: appended exactly when count and bytes allow |
| RelayTurn.PendingFrames.Flush | backend/internal/openai/responses_websocket.go:169-187 | Delivers the whole queue in order, or keeps it |
| RelayTurn.AttemptReplay.Settle | backend/internal/openai/responses_websocket_relay.go:63-69 | Collected output stays reserved only for a finished turn |
| ReplaySession.RunSession | backend/internal/openai/responses_websocket_session.go:15-449 | A whole session while all others take and return bytes of the budget at every step: it never ends as not safe to replay, it returns its whole share, every turn but the first is started by the client's next create, and it ends in a turn, or between two, for a reason in what was read and which writes failed |
| ReplaySession.Session.Run | backend/internal/openai/responses_websocket_session.go:70-449 | Whatever ends the session, nothing of its share stays reserved, and it went as told |
| ReplaySession.Session.ServeAll | backend/internal/openai/responses_websocket_session.go:70-449 | The loop over turns: which create started which turn, and why there is no further one |
| ReplaySession.Session.RunTurn | backend/internal/openai/responses_websocket_session.go:71-399 | When a turn ends for the next one, every attempt before its last was skipped for a refused dial or an immediate rate limit, the last upstream got every control exactly once in order, the client got exactly the answering attempt's events, and the conversation grew by what the turn adds and the output of these events. The history is kept only if the turn may move, ended well under a response id and the conversation is complete and within the limits, and without a budget exactly then; it is then the whole conversation under that id. A turn that ends the session does so for a reason in its script |
| ReplaySession.Session.TryAccount | backend/internal/openai/responses_websocket_session.go:161-398 | One account with its dialling: the turn goes on with the next account only after a refused dial that a hook answers or after an immediate rate limit, untouched, nothing shown and all controls queued; it ends the session only for a failed dial, a failed write or the explained exit of the attempt |
| ReplaySession.Session.TryAccounts | backend/internal/openai/responses_websocket_session.go:161-399 | The loop over accounts: all before the last were skipped, and the last went as its reads say |
| ReplaySession.Session.Serve | backend/internal/openai/responses_websocket_session.go:70-449 | One turn and the wait for the create that starts the next one: the first create since the turn began |
| ReplaySession.Session.Answer | backend/internal/openai/responses_websocket_session.go:293-398 | One connected attempt: its exit is explained by its reads; it goes on elsewhere exactly when it moves on and a hook agrees, and then showed the client nothing |
| ReplaySession.Session.Conclude | backend/internal/openai/responses_websocket_session.go:367-382 | The history is kept exactly when the answer finished, the turn could be committed, the session is still safe, the output fits, the response has an id and the whole conversation is complete, within the limits and within the budget beside the others; it is then that conversation under that id |
| ReplaySession.Session.Idle | backend/internal/openai/responses_websocket_session.go:406-447 | Between turns controls go straight up in order until a create, and the wait ends without one only at the end of what the client sends, on a failed write or when its time is over; one control that a replay would not repeat ends replaying |
| ReplaySession.RebuildInput | backend/internal/openai/responses_websocket_session.go:121-137 | The rebuilt input of a retry-safe turn is the whole conversation and always complete |
| ReplaySession.Prepare | backend/internal/openai/responses_websocket_session.go:71-118 | Reserving and planning a turn keeps the ledger; a turn is taken for retry-safe only if its frame, input and history make it so, and without a budget exactly then; the session ends here exactly for a frame or an input that cannot be read |
| ReplaySession.KeptIsConversation | backend/internal/openai/responses_websocket_replay.go:125-207 | What commit stores is the conversation, up to spelling |
| ReplaySession.InputIsConversation | backend/internal/openai/responses_websocket_replay.go:125-136 | The planned input is the conversation plus what the turn adds, resent or continued |
| SseStream.WholeIsLineWise | backend/internal/openai/response_protocol.go:187-236 | Rewriting a buffered stretch at once equals rewriting its lines one by one |
| SseStream.SanitizeAll | backend/internal/openai/response_protocol.go:187-193 | The loop over the split lines |
| SseCopier.CopyStream | backend/internal/openai/response.go:162-355 | For any lines, end, timeout and capacity of the client: it fails over exactly when the timeout fires while everything is held back, or when the lines and the end decide so, with that status and body, and then nothing was sent; otherwise the client has the rewritten lines, or what it took of them, the result is the one the lines and the end decide, and an incomplete stream is followed by the failure event |
| SseCopier.CopyLines | backend/internal/openai/response.go:238-300 | The loop over lines: it gives up exactly on a timeout before output or a line that fails over |
| SseDecisions.DecisionIsExact | backend/internal/openai/response.go:238-300 | What one line does to a copy that is held back, told from the lines: the limit, a success without usage, output or failure, a failed response and its status, and the lines that start the output |
| SseDecisions.EndIsExact | backend/internal/openai/response.go:301-352 | How a copy ends that does not fail over: what stands for a missing terminal event of a successful response, and otherwise a clean or broken end |
| SseDecisions.LastResort | backend/internal/openai/response.go:303-317 | An error event that stands for the end fails over exactly if it can be retried and nothing was passed on |
| SseDecisions.WordsAreLast | backend/internal/openai/response.go:238-262 | What the copier knows of the response is what the last response and the last error event say |
| SseCopier.Feed | backend/internal/openai/response.go:238-300 | One line keeps the copy in step and held back exactly as the lines so far decide, or ends it with a failover that sent nothing |
| SseCopier.Finish | backend/internal/openai/response.go:301-352 | The end of the stream: fails over exactly for a stream without a terminal event whose own error can be retried, while everything is still held back; otherwise the rest goes out, unless reading broke off, and the result is the one that the lines and the end decide |
| SseCopier.StartOutput | backend/internal/openai/response.go:202-223 | Everything held back goes out at once |
| StateCompletion.ReadResponse | backend/internal/openai/codex_state.go:48-72 | For any chunking: rejected exactly when a completed event names another model; confirmed exactly when at the end of some read the events so far are completed by the expected model alone, so never unless some event names it; each at most once and never a confirmation after the rejection |
| StateCompletion.ReadProbe | backend/internal/openai/codex_state.go:203-228 | A probe succeeds exactly when the unbroken stream within four megabytes completes with the expected model alone |
| StateCompletion.ObservedBody.Read | backend/internal/openai/codex_state.go:57-72 | After each read the controller has heard what the observer knows; a rejection or confirmation is never taken back |
| StateCompletion.ObservedBody.ReadAgain | backend/internal/openai/codex_state.go:57-72 | Reading on after the end tells the controller nothing new |
| StateCompletion.Completion.Feed | backend/internal/openai/codex_state.go:86-101 | Whatever pieces the stream comes in, the observer follows the whole of it |
| StateCompletion.Completion.ConsumeLine | backend/internal/openai/codex_state.go:102-122 | One more line: closes, extends or overflows the event; memory stays bounded |
| StateCompletion.Completion.Finish | backend/internal/openai/codex_state.go:123-128 | Judges all events, and again changes nothing |
| StateCompletion.LinesRebuild | backend/internal/openai/codex_state.go:86-101 | The lines and the rest are the stream itself |
| GatewayLoop.Respond | backend/internal/httpapi/gateway_handlers.go:138-326 | Terminates, and every ticket is returned; the log of accounts and answers begins with the first route that serves, every entry leads to the next: the same account once after a refreshed token and three times after a wait for capacity, otherwise the next route that serves and was not left, after at most three switches; the last leads to the end; none gets more than five attempts |
| GatewayLoop.TakeTurn | backend/internal/httpapi/gateway_handlers.go:141-325 | One turn of the loop: the request ends or goes on as the log so far says |
| GatewayLoop.Attempt | backend/internal/httpapi/gateway_handlers.go:155-325 | After one attempt the request is over, has fewer retries left on its account, or has left the account: over exactly as the answer says, the attempts of the account and the switches are used up, or no other route serves; only a wait for capacity can also end it |
| GatewayLoop.MoveOn | backend/internal/httpapi/gateway_handlers.go:256-268 | Leaving an account returns its ticket and takes one on the first serving account not yet left, exactly when there is one |
| GatewayAccess.Resolve | backend/internal/application/gateway_access.go:144-227 | The first available route in order that admits and resolves, exactly when every quota can be checked and there is one; otherwise the reason is exact: a failed quota check, no route, exhausted quota, a full account, else a broken one; at most one ticket is held, and none without a route |
| RouteChoice.RouteIsExact | backend/internal/application/gateway_access.go:144-227 | The route of a request, told from the candidates: of those not excluded, with quota left, that admit and resolve, the first one, or with balancing the least used relative to its capacity, then the one of the smallest priority number, then the first |
| RouteChoice.ServedExactly | backend/internal/application/gateway_access.go:158-172 | A request is served exactly when every quota can be checked and such a candidate exists |
| RouteChoice.ReasonIsExact | backend/internal/application/gateway_access.go:173-227 | Otherwise the reason is the first that applies of a failed check, no route, exhausted quota, a full account, a broken one |
| GatewayAccess.OrderedSorts | backend/internal/application/gateway_access.go:183-194 | The balanced order is sorted and a permutation of the available routes |
| GatewayAccess.LeastLoadedFirst | backend/internal/application/gateway_access.go:183-194 | No route is tried before a less loaded one |
| GatewayAccess.NotAfterTransitive | backend/internal/application/gateway_access.go:184-193 | The cross-multiplied comparison orders routes with a capacity |
| GatewayAccess.ZeroCapacityCycles | backend/internal/application/gateway_access.go:184-193 | Without a capacity the comparison goes in a circle |
| GatewayAccess.AvailableIsComparable | backend/internal/application/gateway_access.go:166-172 | The exhaustion filter leaves only routes with a capacity |
| QuotaSnapshots.QuotaStore.RecordSignals | backend/internal/postgres/key_metrics.go:353-414 | The whole new table of one transaction |
| QuotaSnapshots.PassiveRunProgresses | backend/internal/postgres/key_metrics.go:496-537 | Over any run of passive batches no reset moves back and no usage falls while its reset stays |
| QuotaSnapshots.RunObserves | backend/internal/postgres/key_metrics.go:372-396 | After any run of passive batches the row of a window is what its observations make of it, each at the time of its batch, whether or not the row was there before |
| QuotaSnapshots.NoDrift | backend/internal/postgres/key_metrics.go:496-537 | Over any run of passive batches a row keeps its window exactly when it is authoritative or no observation belongs to a later one, and then has the highest usage observed in the window |
| QuotaSnapshots.NoDriftFromFirst | backend/internal/postgres/key_metrics.go:486-490 | The same for a window without a row: its first observation sets it |
| QuotaSnapshots.AnyOrder | backend/internal/postgres/key_metrics.go:510-529 | Two runs that make the same observations, in any order, times and number, agree on the row but for its update time, if none belongs to a later window |
| QuotaSnapshots.AnyOrderFromFirst | backend/internal/postgres/key_metrics.go:486-490 | From no row, they agree on start, reset and usage if both begin with the same window |
| QuotaSnapshots.OrderMattersExactly | backend/internal/postgres/key_metrics.go:510-537 | The order of two observations matters exactly when both belong to a new window that they spell differently, or one does and the other, not later than the row but within the tolerance of the new window, has the higher usage |
| QuotaSnapshots.OrderCanMatter | backend/internal/postgres/key_metrics.go:531-537 | Two observations for which it does, since being within the tolerance is not transitive |
| QuotaSnapshots.AuthorityRespected | backend/internal/postgres/key_metrics.go:496-508 | Once authoritative, only a strictly later authoritative observation changes a window |
| QuotaSnapshots.ProbeIsAllOrNothing | backend/internal/postgres/key_metrics.go:372-413 | An authoritative batch takes effect as a whole exactly when every window occurs once and none has an authoritative row as new; otherwise nothing changes |
| QuotaSnapshots.BaselineFollows | backend/internal/postgres/key_metrics.go:397-412 | The baseline of every row written belongs to the window of that row |
| QuotaRecords.ObservationRecorded | backend/internal/postgres/key_metrics.go:353-414 | One passive observation: the row and the baseline afterwards, told from those before: the kept window and higher usage, a new window from zero usage and its start, a first one from the recorded usage; a refused one changes nothing |
| QuotaRecords.ObservationsInTurn | backend/internal/postgres/key_metrics.go:372-396 | Several observations of one call are recorded one after the other |
| QuotaRecords.ProbeRecorded | backend/internal/postgres/key_metrics.go:366-414 | A probe that takes effect: every reported row and its baseline, a five-hour window that is not reported gone, all else as before |
| StateJobs.RunKeepsInv | backend/internal/postgres/codex_state.go:19-79 | Over any interleaving of instances and late workers: at most one finish per claim, and every row with a version has a ticket sealed for that row |
| StateJobs.FinishedOnce | backend/internal/postgres/codex_state.go:70-74 | After a finish took effect, no work of that claim can finish again |
| StateJobs.LiveTicketOpens | backend/internal/application/codex_state.go:70-100 | A request gets a ticket exactly when its account is enabled, active, on a plan with tickets and still what the request was resolved for, and the row of its fingerprint is live: a live ticket always opens and has the plan's form, and it is the one ticket of its version |
| StateJobs.FinishIsExact | backend/internal/postgres/codex_state.go:70-74 | A finish changes its row exactly when the lease is the work's own and live and the fingerprint unchanged, and no other row; ready work installs version, ciphertext and expiry together, other work keeps the old ticket |
| StateJobs.FinishedTicketIsServed | backend/internal/postgres/codex_state.go:70-74 | Ready work that its holder finishes in time is what requests of that account get until the ticket expires |
| StateJobs.UnreadyKeepsTicket | backend/internal/postgres/codex_state.go:70-74 | Work that is not ready leaves what requests get as it is |
| StateJobs.ClaimIsExclusive | backend/internal/postgres/codex_state.go:49-68 | A claim holds its rows for 180 seconds, in which no other claim takes them, and deletes exactly the rows unused for a day |
| StateJobs.RejectionIsExact | backend/internal/postgres/codex_state.go:76-79 | A rejection of the row's version takes the ticket away at once and lets the job try again after five minutes; any other changes nothing |
| StateJobs.EnrollIsExact | backend/internal/postgres/codex_state.go:34-46 | Enrolling keeps the ticket of an unchanged account, starts over for a changed or unknown one, and fails exactly when eight other jobs are in use |
| StateJobs.RevokedIsGone | backend/migrations/036_account_state_enabled.sql:21-36 | Changed credentials take away every ticket of the account and no other |
| StateJobs.LateRejectionHitsItsTicket | backend/internal/postgres/codex_state.go:76-79 | A rejection clears only the ticket it names, however late |
| StateJobs.Collect | backend/internal/application/codex_state.go:155-254 | Ready exactly when the account was the job's own three times, the probe returned a state of the plan's form and its validation one that is not rejected, with version, ticket and expiry together |
| StateJobs.RefreshRespectsCooldown | backend/internal/postgres/codex_state.go:98-102 | A manual refresh revokes no ticket and makes due exactly the ready jobs of the account that nobody works on |
| StateJobs.JobTable.EnsureStateJob | backend/internal/postgres/codex_state.go:34-46 | The whole new table, or a rollback |
| StateJobs.JobTable.ClaimStateJobs | backend/internal/postgres/codex_state.go:49-68 | At most two due rows, the longest waiting, passing over locked ones |
| StateJobs.JobTable.FinishStateJob | backend/internal/postgres/codex_state.go:70-74 | The whole new table, which `StateJobs.FinishIsExact` spells out row by row |
| StateJobs.EnsureKeepsCount | backend/internal/postgres/codex_state.go:38-41 | An account never has more than eight jobs |
| ApiKeyLimiter.PruningChangesNoAnswer | backend/internal/httpapi/gateway_protection.go:48-153 | On every run with non-decreasing times the pruned limiter answers like one that forgets nothing, for rates, backoffs and blocks |
| LimiterAnswers.AnswerIsExact | backend/internal/httpapi/gateway_protection.go:48-153 | After any calls at non-decreasing times, every answer of the limiter as it runs, told from the calls and answers before it: who is held back by a response and until when, which window is full and until when, which model was blocked within half an hour and not cleared since |
| ApiKeyLimiter.BelowTwiceTheLimit | backend/internal/httpapi/gateway_protection.go:48-69 | By its replies, the limiter as it runs, with pruning, admits no key more than twice its limit less one in any minute |
| ApiKeyLimiter.OneLessThanTwiceHappens | backend/internal/httpapi/gateway_protection.go:59-68 | That bound is met for every limit and key |
| ApiKeyLimiter.BackoffNeverShortens | backend/internal/httpapi/gateway_protection.go:82-88 | A deadline still ahead never moves earlier |
| ApiKeyLimiter.DelayIsBounded | backend/internal/httpapi/gateway_protection.go:71-89 | After a response a key without a live backoff is held back exactly when the time asked for is positive in 64 bits, never longer than five seconds, and for that time, up to five seconds, exactly when it does not wrap or still says five seconds |
| ApiKeyLimiter.HugeRetryAfterIsIgnored | backend/internal/httpapi/gateway_protection.go:76-78 | A huge Retry-After overflows and gives no backoff |
| ApiKeyLimiter.Protection.AdmitAPIKey | backend/internal/httpapi/gateway_protection.go:48-69 | The whole new state and the answer |
| ApiKeyLimiter.Protection.BackoffAPIKey | backend/internal/httpapi/gateway_protection.go:71-89 | The whole new state |
| ApiKeyLimiter.Protection.BlockModel | backend/internal/httpapi/gateway_protection.go:95-105 | The whole new state |
| ApiKeyLimiter.Protection.ModelBlocked | backend/internal/httpapi/gateway_protection.go:107-120 | The whole new state and the answer |
| ApiKeyLimiter.Protection.ClearModel | backend/internal/httpapi/gateway_protection.go:122-129 | The whole new state |
| ApiKeyLimiter.Protection.PruneLocked | backend/internal/httpapi/gateway_protection.go:131-153 | The loops over the three maps |
| MembershipPayments.Payments.ConfirmPayment | backend/internal/postgres/membership_fulfillment.go:10-67 | The whole new database and the result of one confirmation |
| MembershipPayments.Payments.AdjustMembership | backend/internal/postgres/membership.go:78-115 | The whole new database and the result of an adjustment, with the order it resolves |
| MembershipPayments.GrantsAtMostOnce | backend/internal/postgres/membership_fulfillment.go:27-67 | Over any sequence of confirmations, resolutions and other changes, the payments and the resolution of an order together write a membership at most once |
| MembershipPayments.ClosedChangesByResolution | backend/internal/postgres/membership.go:92-103 | A closed order changes exactly when it is under review and an administrator resolves it for its user at the current revision; confirming it again changes nothing |
| MembershipPayments.PaidIsFinal | backend/internal/postgres/membership_fulfillment.go:30-35 | Over any run a closed order keeps its trade number and payment time, and once paid the whole record |
| MembershipPayments.ReviewTouchesNothing | backend/internal/postgres/membership_fulfillment.go:40-64 | An order marked for review leaves every membership alone; a paid one changes only its user's |
| MembershipPayments.PurchaseGives | backend/internal/postgres/membership_fulfillment.go:49-64 | A purchase without an active membership gives the ordered tier for 720 hours from now, one of the active tier adds 720 hours, one of another tier is set aside; nothing else changes |
| MembershipPayments.UpgradeGives | backend/internal/postgres/membership_fulfillment.go:40-48 | An upgrade gives svip until the ordered time while the vip membership is active at the ordered revision and that time is ahead; otherwise it is set aside |
| MembershipPayments.OtherPayments | backend/internal/postgres/membership_fulfillment.go:11-35 | Every other payment changes nothing, and which result it gets |
| MembershipPayments.RepeatedPayment | backend/internal/postgres/membership_fulfillment.go:30-35 | A confirmed payment repeated after any run is confirmed again and changes nothing; another one for the order conflicts |
| MembershipPayments.AdjustmentGives | backend/internal/postgres/membership.go:89-106 | An adjustment goes through exactly at the revision looked at, and with a review exactly if that order of the user waits for it |
| MembershipPayments.RenewalsAddUp | backend/internal/postgres/membership_fulfillment.go:49-58 | n renewals of an active membership extend it by exactly n times 720 hours, in any order |
| MembershipPayments.OneUpgradePerRevision | backend/internal/postgres/membership_fulfillment.go:42-48 | At most one upgrade is fulfilled per revision of a membership, over every run |
| PlanChart.LiveWins | backend/internal/application/concurrency.go:37-44 | A live row replaces the stored one of the same instance and minute, and no other |
| PlanChart.BuildPoints | backend/internal/application/concurrency.go:45-67 | One point per minute that sums the merged rows of that minute, in any order |
| PlanChart.AverageBelowPeak | backend/internal/application/concurrency.go:77-83 | No point that sums up bounded rows has an average above its peak |
| ChartedHistory.ChartPlan | backend/internal/application/concurrency.go:11-29 | For every reachable state at the time the stored rows are read and every later one for the live rows: each point sums up the merged rows of its minute and its average is at most its peak |
| ChartedHistory.ReachableRowsAreGood | backend/internal/application/concurrency_history.go:140-206 | In every reachable state all stored rows and all rows read live have request time of at most peak times observed time |
| ChartedHistory.RunKeepsGood | backend/internal/application/concurrency_history.go:45-190 | Every run keeps all collected, pending and stored minutes bounded |
| PlanChart.MergeRows | backend/internal/application/concurrency.go:37-44 | The merging loop over stored and live rows |
| VersionedCost.PricedIsAdditive | backend/internal/billing/versioned_cost.go:57-81 | If a concatenation and its second part are priced, the first part is, and the whole costs their sum in every component |
| VersionedCost.Additive | backend/internal/billing/versioned_cost.go:57-81 | A concatenation of segments without an amount of 2^63 is priced exactly when both parts are and the sum fits |
| VersionedCost.TotalIsSum | backend/internal/billing/versioned_cost.go:153-160 | The total of a priced request is the sum of its components, and all fit 64 bits |
| VersionedCost.TotalIsClose | backend/internal/billing/versioned_cost.go:92-151 | The total over n sound segments is within 3n micros of the unrounded cost, 1024 more for each segment where a counted thing costs more than 2^53 micros, and one part in 2^50 of what the tokens cost: within 3n + 1 where nothing is that large |
| PriceList.SegmentOfTokens | backend/internal/billing/versioned_cost.go:123-152 | Every token component of a bill against the exact price written out from the fields of the config: each tier, both sides of the long-context limit, each kind of token and the image fallbacks, up to half a micro, one part in 2^50 and a truncated basis point |
| PriceList.SegmentOfImages | backend/internal/billing/versioned_cost.go:114-122 | A priced segment of images costs its count at the price of its size, and its tokens nothing |
| PriceList.SegmentOfSearches | backend/internal/billing/versioned_cost.go:105-123 | A segment without tokens and images costs its searches and needs no model |
| PriceList.ErrorsAreExact | backend/internal/billing/versioned_cost.go:85-89 | Out of range and without a price exactly as the counts and the price list say |
| PriceList.PriceInForce | backend/internal/billing/versioned_cost.go:44-55 | The price in force is the first entry with a price of its own, of the first candidate name that has one |
| PriceList.CheapIsPriced | backend/internal/billing/versioned_cost.go:105-160 | A segment whose amounts are all below 2^60 micros does not overflow |
| PriceList.OneSegment | backend/internal/billing/versioned_cost.go:57-81 | A request of one segment costs what the segment does |
| PriceExample.ExampleIsBilled | frontend/src/pricing.ts:28 | Example and bill of plain standard text differ by what the bill is short on its three components and by what the example takes off for cached tokens beyond the input; away from half micros they are equal exactly when those are worth less than one and a half micros; for small prices without clipping, exactly when no half micro is lost |
| PriceExample.SixTokens | backend/internal/billing/versioned_cost.go:92-104 | Six tokens at 1,250,000 a million are billed 7 micros; the price page's formula has 8 |
| PriceExample.PageNumbers | frontend/src/pricing.ts:28 | With the page's own numbers and a price of 70, 3 micros are billed and 4 shown |
| TokenRounding.AmountOfTokens | backend/internal/billing/versioned_cost.go:92-104 | The stored token amount is the exact price rounded half up when that is further than one part in 2^50 from a half micro, and up to 2^49 micros exactly when the chain ends on the same side of the half micro; there it is at most one micro off; always within half a micro and one part in 2^50 |
| TokenRounding.ChainIsClose | backend/internal/billing/versioned_cost.go:97-98 | The five double-precision operations together are off by at most one part in 2^50 |
| TokenRounding.SmallIsClear | backend/internal/billing/versioned_cost.go:97-98 | Below 2^50 units, about 112589 micros, only exact half micros are too close to one |
| TokenRounding.HalfMicroIsLost | backend/internal/billing/versioned_cost.go:97-98 | Every count and price whose product is 7,500,000 or 3,500,000 at the standard factor is billed a micro less than half up |
| VersionedCost.GuardMissesAnInterval | backend/internal/billing/versioned_cost.go:105-112 | The overflow guard of searches and images fires exactly for products above 2^63 + 1024; exactly those from 2^63 - 512 to that pass it and are stored negative; below, the stored amount is the product up to 512, and the product itself up to 2^53 |
| Doubles.RoundsToLimit | backend/internal/billing/versioned_cost.go:106-107 | Which whole numbers become 2^63 in double precision, and how far smaller ones move |
| VersionedCost.SilentOverflow | backend/internal/billing/versioned_cost.go:105-112 | Two priced search totals that are negative, without an error, one of them for an exact price that would fit |
| VersionedCost.PriceRequest | backend/internal/billing/versioned_cost.go:57-81 | The loop over segments, stopping at the first error |
| VersionedCost.PriceSegment | backend/internal/billing/versioned_cost.go:83-162 | One segment: its price, factors and errors, each component in the operations and roundings of the code, which `PriceList` spells out field by field |
| VersionedCost.LookUp | backend/internal/billing/versioned_cost.go:44-55 | The first candidate name with a priced entry |

## Left out

- `quiesceBinding`: it repeats `quiesce` until a database read agrees, without a bound of its own.
- `ReacquireGatewayAccess`: a single pinned route through the same admission step.
- The turn lifecycle flag that rejects an overlapping `response.create`: it does not follow a create that was queued during steering, so nothing about strict turn exclusion is claimed.
- The texts and codes of errors, `pendingError`, the result status and the first-token times of a relayed turn.
- Session model inheritance, fast policy and request rewriting: they change what is sent, not which account sends it.
- Dialling retries after a 401 keep the same account; a hook's reply is part of the script, its checks are folded into it.
- ConcurrencyRun.BucketsAreExact: of a silence longer than 25 hours only the last 25 hours are integrated; `ConcurrencyIntegral.AdvanceAgrees` states that case.
- PlanMinutes.MinutesAreExact: the same silence is excluded, and so are minutes that a flush has pruned.
- TrafficSlots.SlotsNeverLent: assumes one policy and ceiling for the account throughout the run; a policy change in between is not modelled.
- ReplaySession.RunSession: other sessions act between the reads and budget operations of this one, but not between the items that one event adds.
- TrafficQuiesce.SomeoneAdvances: states that a waiting quiescer can step, not that the scheduler lets it.
- QuotaSnapshots.PassiveRunProgresses: quota resets, rebinds and removed windows are not events of the run.
- StateJobs.Collect: SHA-256 and AES are injective abstractions; versions and leases are fresh numbers instead of random ids; the plan is already normalised, and the pattern of model names is not checked.
- StateCompletion.ReadResponse: only ASCII white space is trimmed around event data, and JSON parsing is a table of event texts.
- RelayTurn.RelayAttempt: which of the two sides is read next is left open, so of a kept create it is said that a steer was open or held at some time, not that it was so when the create came; timers fire where the script says.
- SseCopier.CopyStream: the rewrite of a line is a table, reading lines within the size limit is not modelled, the timeout is told by the line before which it fires, and the times in the metrics are not kept.
- VersionedCost.PriceSegment: doubles have an unbounded exponent, which makes no difference to the numbers that occur; products of factors do not wrap at 64 bits, which a published configuration cannot reach.
- PriceExample.ExampleIsBilled: the page's conversion of its three integers to JavaScript numbers is exact only below 2^53 micros and is not modelled; tiers other than the standard one have no example.
- VersionedCost.PriceRequest: model name normalisation is an input, the list of candidate names.
- MembershipPayments.Payments.AdjustMembership: the owner limit override, and the checks of the administrator's input, are not kept.
- MembershipPayments.Payments.ConfirmPayment: audit events and notifications are not written.
- PlanChart.BuildPoints: user names and the sorted member list are not built.
- Revisions of buckets do not wrap at 64 bits.
- The images, models and compact handlers, which repeat the responses loop with fewer branches, and `copySSEAsJSON`.
- The shutdown registry, the EasyPay amount parser, configuration validation, OAuth, mail, administration, dashboards and the rest of the frontend: little state, or foreign protocols.
