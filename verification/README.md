# Verification of the trading assistant's stateful core

This project models the parts of the repository that must stay right over long, interrupted and
concurrent use, and proves what they promise:

* the **email outbox**: several senders, an operator and crashes acting on one table, and the
  collector that turns the observation log and the health journal into reminders;
* the **execution store**: three compare-and-swap transactions over intents, selections, reservations
  and an append-only audit log;
* the **observation log**: an append protocol built on a marker file, directory and file
  synchronisation, and a paged reader with an anchored cursor;
* the **backtest engine**, its accounting, its equity curve and the prices it trades at;
* the **conclusion index**: win counts behind a rounded rate, and evidence records read back by their
  validator;
* the **manual fill ledger** and its aggregation by strategy stage;
* the **numeric loops**: a rebalance solved by bisection, the replay around it, and the hourly context
  over EMA, RSI and MACD.

Code that only computes is written as functions.  Code that changes state step by step is written as
classes and loops, and each such method is tied to a function of its inputs or of the old state; the
theorems are lemmas about those functions and about runs of any length.

Conventions.  A transaction is one step that commits or changes nothing.  A hash is the datatype of what
it covers, which makes it injective, except the client order id, which is any function of the full key and
may collide.  The publication fence of the log is a mutex that an appending writer and a sending sender
take in turn.  Money is exact reals; in the backtest, products and quotients are parameters, so its results
also hold for rounded ones.  Clocks, the network, file faults and the operator are inputs.

Where the code does not do what its own text says, the code is followed:

* `reserve_mutation` reports a healthy database as corrupt when the caller rebuilt its intent at another
  time, because the fingerprint leaves out the creation time and the stored-bytes check does not.
  `CorruptionReportedExactlyWhenBytesDiffer` says exactly when.
* `append_cycle` synchronises a directory entry only in the call that created the directory, so an append
  may report success and still be lost if an earlier call created the directory and failed.
  `AcknowledgedAppendIsLost` is such a run, and `AcknowledgedAppendsSurvive` says exactly when.
* The evidence validator refuses the record of an engine run that peaked above its start and ended below
  zero (`NegativeEndingIsRefused`); `OnlyDrawdownCanRefuse` and `EvidenceIsAccepted` say when it accepts.
* A rebalance target may exceed the whole budget by the tolerance 1e-12, and then borrows cash even at no
  cost (`ToleratedTargetBorrows`); `BorrowsExactly` says when a replay borrows.

## Model

| member | source | states |
|---|---|---|
| Delivery.StepKeepsFence | mu_strategy/notifications/service.py:261-299 | every step of senders, crashes and operator keeps the claim fence: of the live senders of an event at most one holds the row's current attempt number while the row is unknown |
| DeliveryRuns.AcceptedAtMostOnce | mu_strategy/notifications/service.py:261-299 | in every interleaving, with crashes anywhere and truthful resolutions, the server accepts each event at most once |
| DeliveryRuns.CallsAreBounded | mu_strategy/notifications/store.py:201-230 | with any operator, at most three transport calls per event under increasing attempt numbers; attempts are the attempts started less those given back |
| DeliveryRuns.ConfirmedIsFinal | mu_strategy/notifications/store.py:201-219 | a confirmed event is never sent again and stays confirmed |
| DeliveryRuns.UnknownWaitsForTheOperator | mu_strategy/notifications/service.py:262-299 | an event left unknown is never sent again until the operator resolves it |
| DeliveryRuns.DyingSenderLeavesUnknown | mu_strategy/notifications/service.py:275-299 | a sender killed inside the second transaction leaves the committed unknown reservation and no live claim on it |
| Outbox.ChangeKeepsBox | mu_strategy/notifications/store.py:158-246 | every change keeps event ids unique, attempts in 0..3 and equal to what the history accounts for, and a result only with an attempt |
| Outbox.RecordNeverFails | mu_strategy/notifications/store.py:169-187 | the check for a result without an attempt never fires on a table written by the store |
| Outbox.FirstEligible | mu_strategy/notifications/store.py:201-206 | a claim takes the first row, in row order, that is unsuppressed, below the limit, due, and pending or retryable |
| SignalStreams.ObserveKeeps | mu_strategy/notifications/service.py:108-151 | observing keeps the lifecycle: unsuppressed entries are active in their symbol's stream, and an entry has at most one invalidation |
| SignalStreams.ObserveFailsExactly | mu_strategy/notifications/service.py:111-147 | an observation is refused exactly when it is in order and contradicts the last result of its timestamps, is ready without a signal identity, or announces a signal without trigger price or initial stop; otherwise its stream, and no other, becomes what the observations alone determine |
| SignalStreams.InvalidateKeeps | mu_strategy/notifications/service.py:162-174 | withdrawing records the one invalidation, suppresses the entry, clears the stream and keeps the lifecycle |
| SignalStreams.InvalidateSucceeds | mu_strategy/notifications/service.py:162-174 | withdrawing an active reminder always succeeds |
| HealthJournal.EventsSinceIsExact | mu_strategy/service_health.py:241-246 | reading past a cursor returns exactly the later events, or fails exactly when one of them was dropped or the cursor is ahead |
| HealthJournal.EmitExtends | mu_strategy/signal_service.py:206-209 | recording an event keeps the retained window the last hundred of everything that happened |
| HealthJournal.WrittenJournalIsContiguous | mu_strategy/service_health.py:226-230 | every journal the supervisor writes passes the contiguity check of its decoder |
| CollectorRuns.IdsMeans | mu_strategy/notifications/service.py:53-64 | the identity map of a log exists exactly when no cycle identity was reused with other content, and then lists exactly its cycles |
| CollectorRuns.ConsumeIsExact | mu_strategy/notifications/service.py:53-65 | consuming any page extends the consumed map by exactly its cycles and refuses every reused identity |
| CollectorRuns.HealthEventsAreExact | mu_strategy/notifications/service.py:176-193 | each reportable event past the cursor gets its one alert; the poll fails exactly on a retention gap or a vanished journal |
| CollectorRuns.RuntimeStepKeeps | mu_strategy/notifications/service.py:195-210 | reporting the runtime never fails and numbers its transitions without gap or repetition |
| CollectorSystem.SweepSettles | mu_strategy/notifications/service.py:76-101 | the sweep never fails; a reminder stays active only with its source, and unsuppressed only before its deadline |
| Refusals.ReadObservationsFailsExactly | mu_strategy/notifications/service.py:53-72 | the log tail is refused exactly when an identity was reused with other content or a sighting contradicts the stream that the sightings before it made, whatever the outbox holds |
| CollectorSystem.CollectIsExact | mu_strategy/notifications/service.py:40-106 | a poll fails exactly on a reused identity, a contradicting observation or lost health history; otherwise the database is exact up to both new cursors and every reminder is settled |
| CollectorRows.CollectRows | mu_strategy/notifications/service.py:40-106 | a poll adds and suppresses rows, and changes no delivery state, attempt count or due time of any |
| CollectorSystem.LoseSourceKeeps | mu_strategy/notifications/service.py:229-239 | reporting an unreadable source never fails and leaves no reminder active |
| NotificationWorld.RunsAreExact | mu_strategy/notifications/service.py:40-349 | over any mix of appends, health events, polls, senders, operator and crashes, the consumed cycles are those of the log before the cursor, the health alerts those of the events before theirs, and the lifecycle and the claim fence hold |
| NotificationWorld.SentOnCompleteEvidence | mu_strategy/notifications/service.py:281-349 | every transport call for an entry, in every run: in the state of the call the entry is unsuppressed, the active event of its stream and the only open entry of its symbol, the whole log is consumed and its last cycle shows the signal; an earlier check of this very database and log was inside the review window (what the check does otherwise is `CheckDecides`) |
| NotificationWorld.ClearedStays | mu_strategy/notifications/service.py:281-298 | from the check to the end of the send the write lock and the publication fence keep the database and the log as they were checked |
| NotificationWorld.RunsFollowTheProtocol | mu_strategy/notifications/service.py:261-299 | every run of the whole system is, step by step, a run of the senders' protocol, so that the protocol's theorems hold of the system |
| NotificationWorld.AcceptedOnce | mu_strategy/notifications/service.py:261-299 | in the whole system, with a truthful operator, the server accepts each event at most once |
| NotificationWorld.EntriesCanBeJudged | mu_strategy/notifications/service.py:129-151 | every stored entry has a deadline and its own evidence |
| LastCheck.CheckDecides | mu_strategy/notifications/service.py:281-349 | the row after the last check, from the source's conditions alone: withdrawn exactly when it already was, its window is over, or a healthy, current and wholly consumed source does not confirm its signal; otherwise cleared under such a source, and given back pending, unsuppressed and due after the pause in every other case |
| LastCheck.ReviewableIsCleared | mu_strategy/notifications/service.py:309-349 | a reviewable entry under a healthy, current source is cleared |
| LastCheck.BusyPostpones | mu_strategy/notifications/service.py:286-291 | a sender that finds the log being written gives the entry back, open and due after the pause |
| Announcements.NewsIsAnnounced | mu_strategy/notifications/service.py:108-151 | an observation that is news is refused exactly without trigger price or initial stop; otherwise its new reminder is the active event of its stream, unsuppressed and due exactly while the review window is open |
| PollAnnouncements.ReadObservationsFeeds | mu_strategy/notifications/service.py:53-72 | reading the log tail is observing, in order, the sightings that the log and the snapshot determine |
| PollAnnouncements.NewsIsSendable | mu_strategy/notifications/service.py:40-106 | after any poll every sighting that was news has a reminder of its own, due exactly while its window is open, unless a later sighting of the poll replaced or withdrew it or its source was lost |
| Withdrawals.ObservationWithdraws | mu_strategy/notifications/service.py:108-174 | which observations withdraw the active reminder of their symbol, and for which reason; every other leaves the outbox as it was |
| Withdrawals.WithdrawalMeans | mu_strategy/notifications/service.py:162-174 | a withdrawal is mailed exactly when the reminder is confirmed or unknown, and the reminder keeps its first suppression |
| Sweeping.SweepWithdraws | mu_strategy/notifications/service.py:76-101 | the sweep suppresses every active reminder whose window is over and withdraws exactly those whose source is lost, by the stated conditions |
| Sweeping.LostSourceMeans | mu_strategy/notifications/service.py:229-239 | an unreadable source is reported once, as that, and every active reminder is withdrawn for it |
| ServiceReports.PollReports | mu_strategy/notifications/service.py:176-193 | after a poll exactly the faults, recoveries and stops since the last one have a report, each due, naming its problems |
| ServiceReports.RuntimeIsReported | mu_strategy/notifications/service.py:195-210 | a runtime state is reported exactly when it is a fault not yet known of this run, or running after a fault, against what the journal told last |
| OutboxViews.EnqueueMeans | mu_strategy/notifications/store.py:158-167 | recording is idempotent, refused only for an identity used for another alert, and touches no other row |
| OutboxViews.SuppressMeans | mu_strategy/notifications/store.py:193-199 | a row is suppressed once, keeps its first reason, and nothing else changes |
| OutboxViews.ClaimMeans | mu_strategy/notifications/store.py:201-210 | a claim never fails, takes the first due row and leaves it unknown and not due; nothing is claimed exactly when nothing is due |
| OutboxViews.FinishMeans | mu_strategy/notifications/store.py:212-219 | an attempt is finished exactly while its row is unknown, and is due again, if at all, one, two or four minutes later by its attempts |
| OutboxViews.DelayDoubles | mu_strategy/notifications/store.py:212-219 | the pause is a minute at first, doubles, and never exceeds an hour |
| OutboxViews.ResolveMeans | mu_strategy/notifications/store.py:232-237 | an operator's answer is accepted exactly for an unknown row, and leaves it confirmed or failed and not due |
| OutboxViews.DeferMeans | mu_strategy/notifications/store.py:221-230 | giving an unknown reservation back uncounts its attempt and makes the row due again after the pause, not before |
| OutboxViews.RetryMeans | mu_strategy/notifications/store.py:239-246 | an operator's retry is accepted exactly for an unsuppressed known failure below the limit, and makes it due at once |
| NotificationService.EmailAlerts.Observe | mu_strategy/notifications/service.py:108-151 | the in-place observation computes the specified tables, whose meaning is `NewsIsAnnounced`, `ObservationWithdraws` and `ObserveFailsExactly` |
| NotificationService.EmailAlerts.Invalidate | mu_strategy/notifications/service.py:162-174 | the in-place withdrawal computes the specified tables |
| NotificationService.EmailAlerts.Collect | mu_strategy/notifications/service.py:40-106 | the poll's loops compute the specified tables or roll everything back |
| NotificationService.EmailAlerts.PrepareEntry | mu_strategy/notifications/service.py:309-349 | the in-place last check computes the specified tables and answer, whose meaning is `CheckDecides` |
| ExecutionInvariants.RunKeepsInvariant | mu_strategy/execution/store.py:90-517 | over all runs: reserved exactly with a reservation, all reservations bind the selected intent, nothing orphaned, one cancel slot, distinct client ids |
| ExecutionReplay.RunIsAccounted | mu_strategy/execution/store.py:927-983 | replaying an action's events from nothing rebuilds its selection and all reservations with their states; sequences are 1..n; logged states are automaton paths |
| ExecutionReplay.OutcomesOverRuns | mu_strategy/execution/store.py:425-517 | a reservation reaches at most one terminal outcome, and two dispatches are separated by a state that proves nothing was sent |
| ExecutionReplay.OneSubmitPerAction | mu_strategy/execution/store.py:217-404 | an action has at most one submit reservation, with the client order id of its own key |
| ExecutionReplay.ExclusiveSlots | mu_strategy/execution/store.py:901-925 | client order ids stay distinct even if the truncated hash collides, and a lineage has at most one cancel that was not rejected |
| ExecutionReplay.FrozenOnceReserved | mu_strategy/execution/intents.py:482-512 | the selected intent never changes after the first reservation |
| ExecutionReplay.CorruptionReportedExactlyWhenBytesDiffer | mu_strategy/execution/store.py:745-899 | on a database written only by the store a corruption is reported exactly when a reserving caller's intent agrees in fingerprint and differs in creation time |
| ExecutionReplay.RebuiltIntentIsReportedCorrupt | mu_strategy/execution/store.py:217-404 | a concrete run in which a healthy database is reported corrupt |
| ExecutionAudit.PathsAreExactlyRounds | mu_strategy/execution/audit.py:381-407 | the automaton's paths are exactly repeated reserve, dispatch, proven non-send rounds with an optional outcome |
| ExecutionAudit.TerminalOnce | mu_strategy/execution/audit.py:381-407 | a terminal state can only end a path |
| ExecutionAudit.DispatchesAreSeparated | mu_strategy/execution/audit.py:381-407 | after a dispatch, another one needs a proven non-send in between |
| ExecutionAnswers.RunAnswers | mu_strategy/execution/store.py:90-517 | on every reachable database, exactly when each of the three transactions commits and what it then answers and leaves, by the rows alone: create, reuse as stored, or supersede while unreserved; the existing reservation as it stands, or a new one while its client id or cancel slot is free; a move from exactly the expected state |
| ExecutionAnswers.RepeatAnswersThePresent | mu_strategy/execution/store.py:293-313 | a reserve request repeated after any further calls commits, changes nothing, and answers the reservation in the last state the log gives it |
| ExecutionAnswers.RepeatReuses | mu_strategy/execution/store.py:90-210 | an intent recorded again is reused as it was first answered |
| ExecutionAnswers.RepeatIsRefused | mu_strategy/execution/store.py:425-517 | a transition repeated is refused, as its expected state has passed |
| ExecutionStore.SqliteExecutionStore.RecordIntent | mu_strategy/execution/store.py:90-210 | the in-place transaction and its rollback compute the specified tables and answer |
| ExecutionStore.SqliteExecutionStore.ReserveMutation | mu_strategy/execution/store.py:217-404 | the in-place transaction and its rollback compute the specified tables and answer, whose meaning is `RunAnswers` |
| ExecutionStore.SqliteExecutionStore.TransitionReservation | mu_strategy/execution/store.py:425-517 | the in-place compare-and-swap and its rollback compute the specified tables |
| ObservationLog.Live | mu_strategy/observations.py:430-458 | from any disk, a bare one included, over any appends, operation failures, power losses and restarts: an unmarked image holds only whole cycles, every acknowledged append since the directory was last lost is in every image that has the directory, and everything can be lost exactly while the directory's entry is not synchronised |
| ObservationLog.AcknowledgedAppendsSurvive | mu_strategy/observations.py:430-458 | an acknowledged append is in every later image unless, and the entry is unsynchronised exactly if, an earlier call created the directory and failed before synchronising it |
| ObservationLog.JsonlObservationRepository.AppendCycle | mu_strategy/observations.py:430-458 | one append: on success its record and directory entries are durable as far as this call synchronised them; on any failure the log is unchanged or marked |
| ObservationLog.JsonlObservationRepository.ReadBatch | mu_strategy/observations.py:482-539 | a marked or torn log is refused, otherwise the page is exactly the whole records from the cursor |
| ObservationLog.AcknowledgedAppendIsLost | mu_strategy/observations.py:430-458 | a run in which a reported success is lost with its unsynchronised directory |
| ObservationLog.EveryImageIsAnOutcome | mu_strategy/observations.py:430-458 | the power losses of the disk model reach every image it may leave |
| LogReader.ReadBatch | mu_strategy/observations.py:482-535 | at most limit whole decodable records and the cursor after them, or an error exactly for a bad cursor, anchor or record |
| LogReader.CyclesConcat | mu_strategy/observations.py:460-480 | the meaning of a log is compositional in its records |
| LogReader.PageExtendsPrefix | mu_strategy/observations.py:482-535 | consecutive pages join: the consumed prefix grows by exactly the cycles returned |
| LogReader.AppendKeepsCursor | mu_strategy/observations.py:482-535 | appending never disturbs a cursor or what its prefix means |
| BacktestAccounting.RunAccounted | mu_strategy/backtest.py:63-230 | ending equity is starting equity plus all results, and all trades are accounted |
| BacktestAccounting.TradeIsAccounted | mu_strategy/backtest.py:233-451 | every fill of a trade is sized from the equity its predecessors left, one fill per stage, and it settles to the marked equity at the exit price less the exit fee; its fees and its return on margin are those of its fills and exit |
| BacktestAccounting.ExactPnl | mu_strategy/backtest.py:413-451 | in exact arithmetic a result is size times the move from the average entry, less all fees |
| BacktestInduction.RunKeeps | mu_strategy/backtest.py:63-230 | what every event keeps, every run keeps; a supported configuration never fails on a valid series |
| BacktestRuns.RunIsExplained | mu_strategy/backtest.py:63-230 | one close sample for each bar 1..n-1, whose value the trade list determines; ordered times; last sample is ending equity; trades strictly in order; all prices inside their candles |
| BacktestAudit.AuditIsClean | mu_strategy/commands/all_existing_data_backtests.py:343-368 | the audit of any run over a valid series finds no price outside its 15-minute candle and no such candle missing; with hourly candles around the series it finds nothing at all |
| BacktestAudit.AuditPriceRanges | mu_strategy/commands/all_existing_data_backtests.py:343-368 | the audit loops count exactly the events, the misplaced prices and the missing candles |
| BacktestAccounting.AddFollowsItsPlan | mu_strategy/backtest.py:297-346 | a plan is consumed once; it is filled only on the bar right after its signal, at the next stage, sized from the settled equity, and not below its trigger |
| BacktestAccounting.PlanIsForNextBar | mu_strategy/backtest.py:349-391 | managing a position disregards the plan there was and touches no fill; the new plan is for the next bar and dropped at any other |
| BacktestStops.RunIsBars | mu_strategy/backtest.py:63-230 | every bar of every run does what its candle demands of the book before it: which signals and limit orders enter and at which price, which add is filled, when a position ends, and how its stop and plan move |
| BacktestStops.StopsFire | mu_strategy/backtest.py:249-294 | a held bar whose low reaches the stop in force, or outside the window the liquidation price, ends the trade in the result there, at the lesser of open and threshold and for that reason |
| BacktestStops.SurvivorsStayAbove | mu_strategy/backtest.py:249-294 | a position that outlives a bar stayed above its stop and liquidation price, on its entry bar as later |
| BacktestStops.EndsAtTheClose | mu_strategy/backtest.py:217-230 | what is open after the last bar is settled at its close |
| BacktestStops.LiquidationTakesTheMargin | mu_strategy/backtest.py:285-294 | in exact arithmetic the liquidation price is where the loss equals the margin, zero without leverage |
| BacktestEngine.RunBacktest | mu_strategy/backtest.py:63-230 | the engine's loop computes the specified run, whose meaning is `RunIsBars` and `StopsFire` |
| BacktestEvidence.RunIsSound | mu_strategy/backtest.py:63-230 | every engine result starts and ends its curve at its equities and is flat without trades |
| WinCount.CompatibleWinCountBounds | mu_strategy/research/candidate_conclusions.py:609-646 | the constant-size candidate search returns exactly what trying every win count returns |
| WinCount.Scan | mu_strategy/research/candidate_conclusions.py:609-646 | the reference: the least and the greatest compatible count, or nothing when there is none |
| WinCount.RoundTwice | mu_strategy/research/candidate_conclusions.py:649-655 | rounding a fraction first on a scale finer than its denominator never changes how it rounds |
| WinCount.QuotedIsExact | mu_strategy/research/candidate_conclusions.py:624-645 | the division rounded to digits(n)+20 significant digits cannot change the quoted rate |
| Evidence.DrawdownCoversTotalLoss | mu_strategy/experiments/strategy_ladder.py:436-444 | the aggregate drawdown is at least as deep as an aggregate loss while no window ends below zero |
| Evidence.QuotedFraction | mu_strategy/research/candidate_conclusions.py:572-591 | quoting a rate gives the integer rate the validator computes |
| EvidenceAccepted.EvidenceIsAccepted | mu_strategy/experiments/strategy_ladder.py:800-825 | every produced record is accepted while no window of the default cell ends below zero, whatever the other cells hold |
| EvidenceAccepted.OnlyDrawdownCanRefuse | mu_strategy/research/candidate_conclusions.py:167-269 | of all checks only the drawdown check can refuse the record of sound windows |
| RefusedWindow.NegativeEndingIsRefused | mu_strategy/research/candidate_conclusions.py:229-232 | a concrete run of the engine peaks above its start and ends below zero, and its record is refused |
| EvidenceAccepted.ShareIsAccepted | mu_strategy/research/candidate_conclusions.py:237-251 | the quoted top-n share passes the coverage bound of the largest compatible win count and the all-winning bound |
| EvidenceMeaning.AcceptsExactly | mu_strategy/research/candidate_conclusions.py:167-269 | a record is accepted exactly when some win count explains its rate and the sign of its return, its share covers the top trades for some win count, its drawdown covers its loss and its nine cells agree with it |
| EvidenceMeaning.ProducedMeans | mu_strategy/experiments/strategy_ladder.py:800-825 | a produced record quotes the nearest quanta of the return, drawdown, win count and top share of all trades of its default cell |
| Robustness.ShareIsAtLeastItsPart | mu_strategy/research/robustness.py:65-90 | the n largest of W winners make up at least min(n, W) / W of a positive net result |
| Robustness.AllWinningShare | mu_strategy/research/robustness.py:65-90 | without losers the share is at most one |
| Robustness.RankedIsSorted | mu_strategy/research/robustness.py:77-81 | ranking the winners is a descending rearrangement |
| Robustness.TopShareMeans | mu_strategy/research/robustness.py:74-90 | the share times the net result is the sum of the first n winners in whatever descending order |
| Robustness.MaxDrawdown | mu_strategy/models.py:327-336 | the loop computes the deepest fall below the running peak |
| Robustness.DrawdownIsDeepest | mu_strategy/models.py:327-336 | no sample lies deeper below an earlier one than the drawdown |
| Robustness.DrawdownIsReached | mu_strategy/models.py:327-336 | some sample lies exactly that deep below an earlier one |
| Robustness.DrawdownCoversLoss | mu_strategy/models.py:327-336 | a curve that ends at zero or above fell at least as deep as it lost |
| LongOnly.RunLongOnly | mu_strategy/experiments/strategy_ladder.py:202-305 | each trade spans one uninterrupted target, entered at its first open plus slippage with the equity its predecessors left and left at the open after it, or the last close, less slippage; no target goes unheld while the account is above zero; the curve has the mark the trades give at every close; from a positive start the result is sound evidence |
| FillReplay.ProjectInOrder | mu_strategy/manual_positions.py:150-184 | the loop over the sorted fills computes the specified replay, whose meaning is `ProjectMeans` |
| FillReplay.ProjectionConserves | mu_strategy/manual_positions.py:150-184 | a projected quantity is live buys less live sells and never negative |
| FillReplay.RenumberingDecidesAlike | mu_strategy/manual_positions.py:150-184 | renumbering a history without reordering it changes no decision, quantity or average |
| FillOrder.TimelineExists | mu_strategy/manual_positions.py:150-156 | the sorted fills are the last revisions of exactly the fills of the history, by execution time and then by first submission |
| FillOrder.TimelineIsUnique | mu_strategy/manual_positions.py:150-156 | there is only one such order |
| FillOrder.ProjectMeans | mu_strategy/manual_positions.py:150-184 | a history is refused exactly when, along its timeline, some sell exceeds the units held before or some buy follows selling out, and for the first of these; otherwise the units held are the outcome |
| FillOrder.AverageMeans | mu_strategy/manual_positions.py:158-176 | a buy weighs the average by units, a sell leaves it |
| LedgerRuns.PredictionIsExact | mu_strategy/manual_positions.py:338-344 | the check with the predicted number accepts exactly what replays with the number the table gives |
| LedgerRuns.RunKeeps | mu_strategy/manual_positions.py:269-430 | over all runs of saves: numbered rows, request ids and fill revisions that never collide, positions that replay |
| LedgerRuns.ReachableLedgerReads | mu_strategy/manual_positions.py:217-254 | every reachable ledger passes all checks of reading: rows belong to positions, states and management records are well formed and numbered, and every position replays, with quantity live buys less live sells |
| LedgerRuns.RepeatChangesNothing | mu_strategy/manual_positions.py:269-430 | a saved fill, state or management request repeated later changes nothing and answers the same; other content under its id is refused |
| LedgerRuns.SavedStays | mu_strategy/manual_positions.py:303-345 | rows are only added, and a saved request is among them |
| LedgerRuns.ConfirmedMappingIsCurrent | mu_strategy/manual_positions.py:114-119 | a confirmed management record maps exactly the current live buys at their current revisions |
| LedgerStore.ManualPositionLedger.Save | mu_strategy/manual_positions.py:269-345 | the in-place save computes the specified tables or changes nothing; when is `SaveMeans` |
| LedgerStore.ManualPositionLedger.SaveState | mu_strategy/manual_positions.py:347-377 | the in-place confirmation against both revision counters |
| LedgerStore.ManualPositionLedger.SaveManagement | mu_strategy/manual_positions.py:379-430 | the in-place freeze against all three revision counters |
| LedgerAnswers.SaveMeans | mu_strategy/manual_positions.py:269-345 | on every reachable ledger a new fill is accepted exactly when it is sound, its position and revision are the expected ones, and its timeline stays playable; what is then stored |
| LedgerAnswers.StateMeans | mu_strategy/manual_positions.py:347-377 | a state is confirmed exactly for units held and against the last fill and state, and is stale otherwise |
| LedgerAnswers.ManagementMeans | mu_strategy/manual_positions.py:379-430 | management inputs are confirmed exactly for units held, against the last fill, state and inputs, with a mapping of all live buys that can stand |
| StageMappings.ProjectsMeans | mu_strategy/position_management.py:33-58 | a complete mapping projects exactly when along the timeline the stages never fall and are those from one to the confirmed one |
| PositionManagement.ProjectionPartitions | mu_strategy/position_management.py:33-58 | the stages hold exactly the live buys, in order, once each, with their units and cost |
| PositionManagement.StagesMatchLedger | mu_strategy/position_management.py:33-58 | for a position that only bought, the stages add up to its recorded quantity and average entry price |
| PositionManagement.ProjectStages | mu_strategy/position_management.py:47-57 | the loop builds the specified aggregates |
| Rebalance.NetIsBracketed | mu_strategy/experiments/source_strategies.py:96-108 | sixty halvings leave an affordable value and an unaffordable one a 2^-60 part of the equity apart |
| Rebalance.NetIsClose | mu_strategy/experiments/source_strategies.py:99-108 | the value found is below any exact solution by at most that part |
| Rebalance.RebalanceConserves | mu_strategy/experiments/source_strategies.py:93-114 | value after plus costs is the equity before; cash is never negative for a target within the budget, and short by at most its excess otherwise |
| Rebalance.OverBudgetBorrows | mu_strategy/experiments/source_strategies.py:94-112 | whatever the legs, holdings and equity, a target summing to at most one never borrows and one over the budget, a condition on its sum and the cost alone, always does |
| Rebalance.DoublesAreDecided | mu_strategy/experiments/source_strategies.py:94-95 | a sum above one that is a double is over the budget at any cost up to nine tenths |
| Simulation.Simulate | mu_strategy/experiments/source_strategies.py:80-121 | the replay reports, close by close, the account that its targets, opens and costs determine, liquidated at the end; it fails exactly on bad bounds, cost or target |
| Simulation.OpeningMeans | mu_strategy/experiments/source_strategies.py:93-114 | after a rebalance each symbol is worth its own weight of one net value, and the costs are those of the turnover to it |
| Simulation.ReplayConserves | mu_strategy/experiments/source_strategies.py:80-121 | the last sample is the capital plus all market moves on what was held, less all costs |
| Simulation.BudgetKeepsReplay | mu_strategy/experiments/source_strategies.py:80-121 | while no target exceeds the whole budget, no cash balance and no sample is negative |
| Simulation.BorrowsExactly | mu_strategy/experiments/source_strategies.py:94-112 | a replay whose targets are each within or over the budget borrows exactly when one is over |
| Simulation.ToleratedTargetBorrows | mu_strategy/experiments/source_strategies.py:94-112 | a one-day replay of a target accepted by the tolerance borrows |
| Indicators.ComputeEma | mu_strategy/indicators.py:4-16 | the loop computes the specified average |
| Indicators.ComputeRsi | mu_strategy/indicators.py:19-52 | the loops compute the specified strength index |
| Indicators.EmaIsCausal | mu_strategy/indicators.py:4-16 | an average never depends on later values |
| Indicators.RsiIsCausal | mu_strategy/indicators.py:19-52 | a strength index never depends on later values |
| Indicators.AveragesNotNegative | mu_strategy/indicators.py:55-59 | the smoothed averages are never negative, so the quotient is defined |
| Indicators.HistogramIsCausal | mu_strategy/indicators.py:62-75 | a histogram value never depends on later values |
| IndicatorMeaning.EmaMeans | mu_strategy/indicators.py:4-16 | an average starts at the first value and moves two parts in period + 1 of the distance |
| IndicatorMeaning.AveragesMean | mu_strategy/indicators.py:28-50 | the averages begin with the first period's moves, and each change then counts for one part in period |
| IndicatorMeaning.RsiMeans | mu_strategy/indicators.py:19-59 | the index is neutral before the period is complete, then the gains' share of gains and losses, within 0 to 100 |
| IndicatorMeaning.RegimeIsRead | mu_strategy/strategy.py:152-163 | a bar is red exactly when its last closed hour is weak, and green exactly when that is strong and not weak |
| MarketContext.BuildHourlyContext | mu_strategy/core/market_context.py:11-35 | on ascending series each bar gets the regime of the last hourly candle closed by its open, else yellow |
| MarketContext.NoLookahead | mu_strategy/core/market_context.py:19-35 | changing or appending candles not yet closed never changes a bar's regime |

## Left out

- SMTP, the exchange's REST interface, the HTTP server, argument parsing, subprocesses and rendering: I/O; of the transport only "confirmed means accepted, failed means not, unknown means either" is kept.
- SQL text, SQLite locking and operating-system file locks: a transaction is one step, a lock a mutex.
- Validation of single fields, JSON decoding, redaction and digests: easy and without state; decoding a log record is an arbitrary partial function.
- Health reconciliation by the operator: it moves the health cursor past events that are then never reported, by design.
- The waiting window of a log that is being appended to, before the source is reported as lost.
- Computing the runtime state and healthiness from a health snapshot: both come with the snapshot.
- The transaction that pins the delivery target, and the loop bound of one delivery call: runs of any length are covered.
- `deliver` as a sequential loop: it is modelled as the steps of concurrent senders, between any two of which the others may act.
- Actor, source-scan and correlation metadata of audit events beyond their identity.
- Reading the whole log at once: the paged reader is modelled.
- The content of the retest level, the entry signal and filters, the stop rule and the add rule: arbitrary functions of the bar, as the results do not depend on them.
- Floating-point error: sums are exact everywhere.  In the backtest, products and quotients may be rounded in any way.
- Adverse-tick slippage of a baseline path: it changes cells other than the default one, whose results the evidence theorem does not restrict.
- Metric strings: a quoted metric is an integer number of quanta, so a negative zero is zero.
- Simulation.BorrowsExactly: speaks of targets that sum to at most one or are over the budget; at costs up to nine tenths no double lies between, at higher costs whether such a target borrows depends on the rounding of the search.
- Evidence.DrawdownCoversTotalLoss: needs windows that do not end below zero; `RefusedWindow.NegativeEndingIsRefused` shows that the code needs it too.
- Selecting and sorting execution bars and choosing replay targets; order counts, Sharpe ratios and annualised returns.
- Frozen management configurations, leverage and anchor prices: stored and compared, without effect on the properties here.
- Candidate explanations of management checks, and reviewing a position against market data.
- Trading calendars and time zones: the trading window is an arbitrary predicate on bar time.
