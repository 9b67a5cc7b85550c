# Verified model of the paper auto-trading engine

AlgoEdge trades three index underlyings on paper. A canonical strategy turns candles into entry and exit
events; a polling driver re-runs it every few minutes on a freshly fetched, overlapping window and acts on
at most one event a cycle; a risk manager decides whether it may; a simulated account takes the fill; and
several indices run at once under locks. Around that core stand a research simulator with walk-forward
selection, the accounting of live fills, and the lifecycle of live orders. This project models those parts
in Dafny and proves what they promise each other.

The files, from the bottom up (one module a file, same name):

- `Common` holds what all share. A missing number (None or NaN) is `Option.None`, prices are reals,
  timestamps are whole seconds in the exchange's time zone.
- `Indicators` computes the indicator frame as whole series and proves that none of them looks ahead.
- `Strategy` is the bar-by-bar position tracker, as a walk over rows (one row per usable bar) and as the
  program's loop proved to compute it; `StrategyTheorems` has prefix stability, seeded resume, alternation.
- `IndicatorLaws` says what the indicators compute in closed form, and `EntryRules` what every entry and exit of a run
  from raw bars is in terms of the bars.
- `Account` and `Risk` are the mutable simulated account and risk manager with the functions specifying them.
- `AutoTrader` is one cycle: `Cycle` is the specification, `RunCycle` the program's form.
  `CycleTheorems` says what one cycle guarantees from any account in step, `RunTheorems` what whole runs keep.
- `Gates` spells out what a cycle asks and at what price it fills, `Bookings` what it books into the risk manager.
- Three comparisons of whole runs rest on these: `Restart` with the run that is never restarted, `Incremental`
  with one batch run over the series, and `PaperSession` with the research simulator under the paper-session
  rules; `Parity` compares the money with the backtest. `Example`, `ExampleRun`, `ExampleSession` and
  `ExampleNights` work out the inputs on which a property fails without its condition.
- `Dashboard` interleaves the cycles of several indices in atomic steps under the per-index locks and the guard.
- `Backtest`, `Simulator`, `SimulatorRules` and `WalkForward` are the trade pairing and metrics, the research
  simulator and what its options mean, and the walk-forward search.
- `Pnl` and `Reconciliation` are FIFO matching and the expected-position ledger; `LiveOrders` the signal states,
  the signal service and one live order attempt with an arbitrary broker.

Code that updates state is a method (on a class where the program has one), proved against a function; the
theorems are about those functions.

Facts about the code that the proofs brought out:

- For an account that started in step with its data, the branch for an exit with no open position is never
  reached (`CycleKeepsStep`, `RunsKeepStep`).
- A PUT's cash moves opposite to its realised P&L (`RoundTripCash`, `FillLaws`).
- In the square-off window an account that is already flat ends flat exactly if it opens no entry (`OpensIff`,
  `SquareOffFlattens`). The entry cutoff lying before the square-off time, as it does by default, rules an entry
  out; with limits that put it later one is opened (`CutoffIsNeeded`).
- A held account looks for its exit on the forming bar, so the driver can fill a target where the finished bar, and
  with it the batch, has the stop. The fills are the batch's exactly if no early exit is of that kind
  (`FillsArePrefixIff`, `EarlyTargetDiffers`); their number, order and times are the batch's in any case
  (`StaysCaught`).
- A restart loses the levels of a position, but no outcome shows it: each is that of the run without the restart
  (`RestartsDoNotMatter`).
- On a square-off bar that touches a level the simulator exits at the level and the driver at the close; otherwise
  they agree over whole sessions (`DriverIsSimulator`, `LevelsPartThem`).
- Signal records outlive the process only in a database. With one, no signal is sent twice (`DurableSendsOnce`), and
  an order that filled, filled partly or was lost to a crash blocks every later order for its underlying and
  direction, because nothing here ever moves such a record on; one whose verification timed out blocks none
  (`BlockedIff`). Without one, a crash clears the records, and a signal it struck during verification is sent again
  (`SentFromMemoryIff`, `CrashSendsTwice`).
- No index fills two events of one bar, also when its cycles run on different timeframes, as long as an entry is stale
  by the next morning (`InterleavingsAreSafe`). Every intraday bar length sees to that, and daily bars stamped at
  midnight start no entry (`EveryTimeframeFits`); daily bars stamped inside the session can be filled twice
  (`DailyEntryTwice`).
- Walk-forward selection without the exit cutoff does leak; a two-variant input shows it (`LeaksWithoutCutoff`).
- The entry count restored from a snapshot without one is exact or one too high, and exactly when is known
  (`RestoredEntriesSafe`).

## Model

| member | source | states |
|---|---|---|
| Indicators.DropInvalidAscending | src/fno_signals/strategy.py:66-82 | dropping unusable bars keeps the time order |
| Indicators.DropInvalidConcat | src/fno_signals/strategy.py:52-82 | a bar's validity depends on that bar alone, so cutting the raw window cuts the clean one |
| IndicatorLaws.DropsExactlyUnusable | src/fno_signals/strategy.py:52-82 | the clean window is the raw one without the bars that lack a positive open, high, low or close or have the high below the low, and nothing else is changed |
| IndicatorLaws.EmaIsDecayedSum | src/fno_signals/indicators.py:7-9 | the exponential average is the sum of its values, the first weighing (1 - alpha)^i and every later one alpha (1 - alpha)^age with alpha = 2 / (length + 1) |
| IndicatorLaws.EmaInRange | src/fno_signals/indicators.py:7-9 | it stays within every range its values stay in |
| IndicatorLaws.RmaIsDecayedSum | src/fno_signals/indicators.py:12-29 | Wilder's average is the mean of the first values decaying by 1 - 1/length a bar plus every later value weighing 1/length when new |
| IndicatorLaws.TrueRangeIsSpan | src/fno_signals/indicators.py:32-38 | the true range is the span of the bar together with the close before it |
| IndicatorLaws.ChangeSplits | src/fno_signals/indicators.py:46-50 | a change is its gain less its loss, one of which is zero |
| IndicatorLaws.RsiIsShare | src/fno_signals/indicators.py:51-62 | relative strength is the average gain's share of all movement in percent, above 50 exactly when it exceeds the average loss |
| IndicatorLaws.VwapIsTurnoverOverVolume | src/fno_signals/indicators.py:121-141 | the session average is the day's turnover at typical prices over the day's volume so far, and exists exactly where both do |
| IndicatorLaws.BandsAroundMiddle | src/fno_signals/indicators.py:78-98 | the basic bands lie the multiple of the average true range above and below the middle of the bar, and tracking starts in a downtrend |
| Indicators.Rma | src/fno_signals/indicators.py:12-29 | the array loop computes Wilder's recurrence seeded with the mean of the first values, missing before it |
| Indicators.RsiInRange | src/fno_signals/indicators.py:46-62 | relative strength lies in 0..100 wherever both averages exist, and is 100 exactly when there is no average loss |
| Indicators.BandTurns | src/fno_signals/indicators.py:99-115 | one bar of the band loop as a ratchet: the upper band falls or stays unless the previous close broke above it, the lower band mirrors it, the line is the band of the direction, and the direction turns exactly on a close beyond the band the line was on |
| Indicators.UpperBandHolds | src/fno_signals/indicators.py:99-115 | over any stretch of bars without a close above it the upper band never rises and a downtrend goes on |
| Indicators.LowerBandHolds | src/fno_signals/indicators.py:99-115 | over any stretch without a close below it and without coinciding bands the lower band never falls and an uptrend goes on |
| Indicators.WindowBandsStart | src/fno_signals/indicators.py:78-98 | the bands of every window exist from the end of the first average true range on, where those laws begin to hold |
| Indicators.Supertrend | src/fno_signals/indicators.py:78-118 | the four-array loop computes the band recurrence, restarting while the average true range is missing |
| Indicators.FramePrefix | src/fno_signals/strategy.py:85-96 | no look-ahead: cutting the bars cuts every indicator column and changes no earlier value |
| Indicators.PineRma | research/phase6/indicators_extra.py:16-38 | the research loop computes the average seeded by the first run of values without a gap and smoothed over gaps, on every series |
| Indicators.PineStartsIff | research/phase6/indicators_extra.py:16-38 | it has a value exactly from the end of the first such run on and never loses it: a later gap only repeats the last result |
| Indicators.PineIsRma | research/phase6/indicators_extra.py:16-38 | on every series without a missing value it is the canonical average |
| Strategy.BuildRows | src/fno_signals/strategy.py:99-132 | the setups, the session filter and the one-bar shift that detects where a setup starts |
| Strategy.RowsPrefix | src/fno_signals/strategy.py:99-132 | no look-ahead through the setups and the setup-edge shift |
| Strategy.Advance | src/fno_signals/strategy.py:209-278 | one pass of the loop body on its own variables is one step of the position tracker |
| Strategy.Track | src/fno_signals/strategy.py:196-278 | the seeded loop reports the positions and emits the events of the walk from the seed, nothing for the bars before it |
| Strategy.Run | src/fno_signals/strategy.py:135-301 | the whole run, from raw bars, seeded or plain; a position without a start time is an error |
| EntryRules.EntryRule | src/fno_signals/strategy.py:44-49 | every entry of every run from raw bars: a setup starts on its bar in session, its stop is the multiplier times that bar's average true range or the minimum if larger, target times stop multiplier is stop times target multiplier, and its strike is the nearest, halves up |
| EntryRules.DistancesFrom | src/fno_signals/strategy.py:44-49 | stop and target distances exist exactly from the end of the first average true range on |
| EntryRules.SetupsExclude | src/fno_signals/strategy.py:99-120 | a bullish and a bearish setup never hold on one bar, whatever the thresholds |
| EntryRules.ExitIsFirstTouch | src/fno_signals/strategy.py:209-216 | the event after an entry is its exit on the first later bar that reaches its stop or target, level included, at the stop if that is reached; while no bar does the position stays open |
| StrategyTheorems.WalkConcat | src/fno_signals/strategy.py:143-148 | walking two stretches of bars in turn is walking them together, events and position |
| StrategyTheorems.EventsAscending | src/fno_signals/strategy.py:143-148 | at most one event a bar, in strictly rising time order: no exit and re-entry on one bar |
| StrategyTheorems.EventsAlternate | src/fno_signals/strategy.py:209-278 | entries only from flat with stop and target on opposite sides of the price, exits only of the held position at one of its own two levels |
| StrategyTheorems.BarEmitsIff | src/fno_signals/strategy.py:209-278 | over a whole replay a bar enters if and only if it was flat before, is in session, has usable distances and a setup starts on it, and exits if and only if a held stop or target is touched; price, side and distances are stated |
| StrategyTheorems.StopBeatsTarget | src/fno_signals/strategy.py:209-216 | over a whole replay, a bar that touches the stop emits one event, the exit at that stop, and ends flat, even if it touches the target too or a setup starts on it |
| StrategyTheorems.PrefixStable | src/fno_signals/strategy.py:135-301 | the run on the first k raw bars has exactly the bars, positions and events of the full run up to there, for every k and every seed |
| StrategyTheorems.SeededResume | src/fno_signals/strategy.py:161-168 | a replay resumed after any time from the position held there emits exactly the later events |
| StrategyTheorems.SeededRunResumes | src/fno_signals/strategy.py:161-168 | the same from raw bars, seeded with the position the full run itself reports |
| StrategyTheorems.NearestStrike | src/fno_signals/indicators.py:144-147 | the strike is a multiple of the step at most half a step away, halves up |
| Account.SimulatedAccount.Fill | src/algoedge/order_manager.py:96-149 | the account after a CALL/PUT fill, its P&L, its refusals and its division by zero |
| Account.SimulatedAccount.Place | src/algoedge/order_manager.py:191-211 | a refusal becomes a failed order; nothing else is caught |
| Account.FillLaws | src/algoedge/order_manager.py:96-149 | a fill keeps the account well formed, is refused exactly for the other side or for nothing to exit, an entry keeps the book value and an exit moves it by the P&L (CALL) or its opposite (PUT); index and contract are those of the opening fill, and everything else stays until the position is closed |
| Account.RoundTripCash | src/algoedge/order_manager.py:103-111 | over a round trip cash gained equals realised P&L exactly for a CALL or an unchanged price |
| Risk.RiskManager.Check | src/algoedge/risk_manager.py:168-242 | the chain of early returns rolls the day over, gives the reason of the first closed gate, allows an entry if and only if every entry gate is open, and a risk-reducing exit if and only if hours, size and a position allow it |
| Risk.DecidesByFirstClosed | src/algoedge/risk_manager.py:168-242 | every question is answered by the first closed of the sixteen gates in the program's order, with that gate's reason, and passes if none is closed |
| Risk.RiskManager.Record | src/algoedge/risk_manager.py:124-140 | the counters, the loss streak and the halt after a trade |
| Risk.RiskManager.CountEntry | src/algoedge/risk_manager.py:142-148 | the entry counter, after a day roll-over |
| Risk.RiskManager.ResetConsecutiveLossHalt | src/algoedge/risk_manager.py:164-166 | the explicit reset lifts the halt and clears the streak and nothing else |
| Risk.ExitAllowedIff | src/algoedge/risk_manager.py:180-187 | a risk-reducing exit is allowed if and only if it is in hours, within the size limits and there is a position: no switch, halt, counter or cooldown can trap it |
| Risk.EntryAllowedIff | src/algoedge/risk_manager.py:193-242 | an entry is allowed if and only if every gate is open |
| Risk.HaltedIff | src/algoedge/risk_manager.py:128-140 | without an explicit reset the manager is halted exactly when some losing streak of the whole history reached the limit, whatever trades, questions or days came later |
| Risk.PeakIsReached | src/algoedge/risk_manager.py:132-140 | the peak that statement speaks of is the longest streak at any moment of the history |
| Risk.CountersCountToday | src/algoedge/risk_manager.py:113-148 | the daily counters are exactly the fills, entries and P&L since the day last changed, and the cooldown runs from the last exit of any day |
| Risk.RestoredEntriesSafe | src/algoedge/risk_manager.py:277-289 | over every day of fills of one account booked into the risk state, the count derived from that state's fill counter for an old snapshot is its entry counter, or one more exactly when the day began with an exit and has an odd number of fills |
| AutoTrader.AccountSyncedEvents | src/algoedge/auto_trader.py:436-475 | the strategy restarted after the account's mark from its real position, levels re-derived when lost |
| AutoTrader.ScanPass | src/algoedge/auto_trader.py:263-282 | one pass settles the scan or expires the oldest event, and then fewer bars lie ahead of the mark |
| AutoTrader.ScanBacklog | src/algoedge/auto_trader.py:258-282 | the bounded loop always leaves by a break and computes the scan |
| AutoTrader.CloseNow | src/algoedge/auto_trader.py:381-410 | the forced close: account, risk state and square-off date |
| AutoTrader.CommitNow | src/algoedge/auto_trader.py:336-378 | the check and fill of one event: account and risk state change only on a placed order, exits at their level or late at the latest price |
| AutoTrader.RunCycle | src/algoedge/auto_trader.py:172-378 | one whole cycle on the mutable account and risk manager |
| Gates.CycleFillsAt | src/algoedge/auto_trader.py:330-378 | every cycle: an entry is filled at its bar's close exactly if every gate, spelled out, is open by the count taken inside the guard; an exit exactly if hours, size and a position allow it, at its level when fresh and at the latest close when late |
| Gates.ForcedCloseIff | src/algoedge/auto_trader.py:191-222 | a close is forced exactly in hours on a held position: one of an earlier day once the data has a bar from today, any other from the square-off time on and once a day; otherwise a position of an earlier day waits |
| Gates.CycleTells | src/algoedge/auto_trader.py:262-295 | a cycle that does nothing says how many stale entries it expired and the last of them, or that nothing is new, or that there never was anything, and leaves the account else as it was |
| Bookings.CycleBooks | src/algoedge/auto_trader.py:355-410 | every cycle leaves the risk state it met with the steps of its outcome applied: a question for a blocked event, a question and a trade for a filled one with its P&L, a trade for a forced close, and nothing else |
| Bookings.RunBooks | src/algoedge/auto_trader.py:355-410 | over every run with one shared risk manager, restarts and other indices in between, the risk state is that of the steps read off the outcomes |
| Bookings.RunHaltsIff | src/algoedge/risk_manager.py:124-140 | so it is halted exactly when some streak of losing closes in that history reached the limit, and the counters are those of the history's last day |
| Bookings.HaltedOnLosses | src/algoedge/risk_manager.py:124-140 | in a run on its own the manager is halted if and only if at some moment as many outcomes as the limit had closed at a loss since the last that closed at a profit |
| Bookings.DayIsSummed | src/algoedge/risk_manager.py:113-148 | the day's P&L is the sum of what the day's outcomes report, its trades and entries those they filled |
| CycleTheorems.LevelsOfEntry | src/algoedge/auto_trader.py:459-475 | levels re-derived at the entry bar are the ones the entry announced, whichever row the replay started from and whatever position it was seeded with |
| CycleTheorems.LevelsSurviveRestart | src/algoedge/auto_trader.py:459-467 | for an entry of any run, plain or seeded, they are the same on every longer raw window with the same start |
| Restart.CycleIgnoresLevels | src/algoedge/auto_trader.py:413-475 | a cycle on an account holding the levels of its entry bar and one on the account a restart leaves give the same outcome and risk state and accounts alike |
| Restart.RunsStayAlike | src/algoedge/auto_trader.py:413-467 | over every run with restarts: while a position is held the mark is its entry bar and the levels are that bar's, and the run without the restarts holds the same account |
| Restart.RestartsDoNotMatter | src/algoedge/auto_trader.py:459-467 | erasing every restart from a run leaves every outcome and every risk state as it was, whatever risk state each cycle starts from; forced closes, expiries and blocked cycles included |
| Restart.RestartsDoNotMatterThreaded | src/algoedge/auto_trader.py:459-467 | the same with one risk state carried through the run, whatever else changes it between the cycles, and the risk state at the end is the same too |
| CycleTheorems.NextMatchesPosition | src/algoedge/auto_trader.py:224-243 | the next unprocessed event is an entry exactly when flat and an exit exactly when held |
| CycleTheorems.ScanLaws | src/algoedge/auto_trader.py:238-282 | the mark rises strictly over exactly the expired events, each a stale entry of a flat account; a held position's exit is never expired, only taken late |
| CycleTheorems.CommitLaws | src/algoedge/auto_trader.py:336-378 | blocked leaves the account untouched; allowed always fills, at the stated price, and marks the event done |
| CycleTheorems.ForceCloseLaws | src/algoedge/auto_trader.py:381-410 | a forced close of a held account is always placed and leaves it flat |
| CycleTheorems.CycleKeepsStep | src/algoedge/auto_trader.py:73-378 | from an account in step no cycle on any data, clock, switch or count fails an order, crashes, or finds an exit with nothing to close, and the account stays in step |
| CycleTheorems.OpensIff | src/algoedge/auto_trader.py:284-353 | a flat account ends a cycle with a position if and only if an entry is ready and every entry gate is open, the cutoff among them |
| CycleTheorems.SquareOffFlattens | src/algoedge/auto_trader.py:210-222 | from the square-off time on, with a bar from today, a completed cycle ends flat if and only if it does not find the account flat and open an entry; with the cutoff before the square-off time it always ends flat |
| Example.CutoffIsNeeded | src/algoedge/auto_trader.py:210-222 | with the square-off time moved before the cutoff a fresh account ends such a cycle with a position |
| CycleTheorems.MissedSquareOffFirst | src/algoedge/auto_trader.py:191-209 | a position from an earlier day is closed, at today's latest close, before any strategy event is acted on; until then nothing happens |
| CycleTheorems.CycleKeepsSettled | src/algoedge/auto_trader.py:307-313 | after today's square-off nothing reopens the account today |
| RunTheorems.RestoreAccountState | src/algoedge/auto_trader.py:483-547 | the restored account, untouched when any field of the snapshot is missing or malformed |
| RunTheorems.RestoresWhatWasSaved | src/algoedge/auto_trader.py:483-547 | a row restores exactly if saving some account writes it, the two newer fields aside, and then it restores that account without levels and index label |
| RunTheorems.RestartLosesOnlyLevels | src/algoedge/auto_trader.py:483-547 | saving and restoring keeps all but the levels and the index label |
| RunTheorems.RunsKeepStep | src/algoedge/auto_trader.py:73-378 | position sync over every run of cycles with restarts and any other risk activity in between |
| RunTheorems.SquaredOffStaysFlat | src/algoedge/auto_trader.py:186-222 | over runs, a square-off date of today means flat |
| RunTheorems.SquareOffOverRuns | src/algoedge/auto_trader.py:113-123 | over runs, a cycle from the square-off time on with a bar from today ends flat if and only if it opens no entry from flat, which a cutoff before the square-off time rules out |
| Incremental.SeedIsBatchPosition | src/algoedge/auto_trader.py:436-456 | an account in sync is seeded with exactly the position the batch holds, lost levels included |
| Incremental.SyncedPending | src/algoedge/auto_trader.py:224-237 | what is left to process is exactly the rest of the batch's events |
| Incremental.CycleCatchesUp | src/algoedge/auto_trader.py:258-378 | one cycle, forming bar or not, fills the batch's next event at its time and of its sort or leaves the account where it was; only a gate holds an event of a finished bar back |
| Incremental.CycleFillsIff | src/algoedge/auto_trader.py:284-378 | the event a cycle owes is filled if and only if every gate of its kind is open |
| Incremental.StaysCaught | src/algoedge/auto_trader.py:224-237 | on any polling schedule, forming bars, blocked cycles and restarts included, the fills are the batch's events in order, at their times, entry for entry and exit for exit |
| Incremental.ExitsCompared | src/algoedge/auto_trader.py:248-262 | an exit on a forming bar is an exit on the finished bar, and the same one if and only if the forming bar touched the stop or the finished bar does not |
| Incremental.FillsArePrefixIff | src/algoedge/auto_trader.py:224-262 | on any such schedule the fills are exactly a prefix of the batch's events, prices included, if and only if every exit filled early meets that condition |
| Incremental.FillIsBatchIff | src/algoedge/auto_trader.py:224-262 | fill by fill: what one poll fills is the batch's event of its place if and only if that poll meets it, whatever the others did |
| Incremental.PlainPollAgrees | src/algoedge/auto_trader.py:248-257 | a poll of a flat account, and a poll without a forming bar, always meets it |
| ExampleRun.EarlyTargetDiffers | src/algoedge/auto_trader.py:248-262 | a run on which it fails: the forming bar's target is filled where the batch has the finished bar's stop |
| Incremental.IncrementalIsBatch | src/algoedge/auto_trader.py:86-98 | polled once at each bar close the fills are exactly the events of one run over the whole series: bar, kind, price, stop, target |
| Parity.CyclePays | src/algoedge/auto_trader.py:355-410 | an entry sets the average price to its fill, an exit and a forced close realise the move from it on what they close, anything else leaves both |
| Parity.RealizedIsOwnTrips | src/algoedge/auto_trader.py:355-378 | on any polling schedule the realised paper P&L is the quantity times the points of the round trips the driver itself filled |
| Parity.RealizedIsBacktest | src/algoedge/auto_trader.py:148-151 | where every early exit agrees with its finished bar, it is the quantity times the backtest's net points over the events filled so far |
| Parity.PaperEqualsBacktest | src/algoedge/auto_trader.py:91-98 | polled at each bar close, paper realises exactly the quantity times the backtest's net points of the whole series |
| PaperSession.DriverIsSimulator | research/phase6/engine.py:463-473 | over whole sessions, forced closes included, the driver polled at each bar close holds what the paper-session simulator holds and fills as often, and its fills are exactly the simulator's if and only if no square-off bar touches a level of the position it closes |
| ExampleSession.LevelsPartThem | research/phase6/engine.py:146-171 | a session of three polls on which the fills differ: the driver squares off at the close where the simulator exits at the stop |
| Dashboard.StepKeeps | src/algoedge/web_server.py:395-445 | every atomic step of every cycle keeps the lock, count, position and fill invariant |
| Dashboard.RunsKeepInv | src/algoedge/web_server.py:427-445 | so does every interleaving from an idle system |
| Dashboard.InterleavingsAreSafe | src/algoedge/web_server.py:408-415 | at every moment no more accounts are open than the limit, the entry counter is within the cap, and no index has filled two events of one bar, on whatever timeframes its cycles run and in whatever order the indices sampled their times |
| Dashboard.CounterCountsEntries | src/algoedge/risk_manager.py:113-148 | in every run the entry counter is the number of entries filled, over all indices, since it was last reset, on top of what the run started with if it never was |
| Dashboard.EntriesAreCapped | src/algoedge/risk_manager.py:217-222 | so since then no more entries were filled, over all indices, than the cap |
| Dashboard.EntryIsLater | src/algoedge/auto_trader.py:238-245 | a fresh entry comes after everything its account acted on, whatever window shows it, because it would be stale by the next morning |
| Dashboard.EveryTimeframeFits | src/algoedge/auto_trader.py:45-57 | an entry is stale by the next morning on every window whose bars are at most a third of the time from midnight to the opening, as all intraday ones are, and none starts on daily bars stamped at midnight |
| ExampleNights.DailyEntryTwice | src/algoedge/auto_trader.py:238-282 | without that it fails: with daily bars stamped inside the session, five cycles on two timeframes fill one daily entry on two days |
| Dashboard.ExitSeesItsPosition | src/algoedge/web_server.py:516-522 | an exit is never refused for want of a position, although the count was read account by account before the cycle |
| Dashboard.NoWaitCycle | src/algoedge/web_server.py:408-415 | no chain of threads waiting for locks ever closes |
| Dashboard.SomeCycleProceeds | src/algoedge/web_server.py:395-445 | while any cycle is under way some cycle can take a step |
| Backtest.Pair | src/algoedge/backtest.py:36-73 | one-pass pairing computes the pairing function; with square-offs it is the research form |
| Backtest.OneTradePerExit | src/algoedge/backtest.py:37-41 | one trade per exit, each from the entry just before it, in order |
| Backtest.RunTrades | src/algoedge/backtest.py:37-41 | every event list of the strategy qualifies |
| Backtest.TripOfPair | src/algoedge/backtest.py:52-71 | each round trip is its entry price against its exit level worsened by the slippage, in the direction of the entry, with the entry's time and strike and the exit's time and kind |
| Backtest.TradesAreStopOrTarget | src/algoedge/backtest.py:36-60 | before slippage every trade of a strategy run loses exactly its stop distance or gains exactly its target distance |
| Backtest.PairedInOrder | src/algoedge/backtest.py:36-73 | trades paired from an alternating event list in time order are entered one after the other |
| Backtest.SlippageCost | src/algoedge/backtest.py:43-47 | slippage lowers net points by exactly its size times the number of trades |
| Backtest.MaxDrawdown | src/algoedge/backtest.py:135-143 | the one-pass drawdown is the largest fall between two points of the equity curve, the start included |
| Backtest.MaxConsecutiveLosses | src/algoedge/backtest.py:124-132 | the one-pass count is the length of the longest run of losses |
| Backtest.ExpectancyIsAverage | src/algoedge/backtest.py:228-242 | expectancy by win and loss rates equals the average trade |
| Backtest.DirectionsPartition | src/algoedge/backtest.py:257-258 | CALL and PUT trades partition the count and the net points |
| Simulator.SimulateBar | research/phase6/engine.py:133-188 | one pass of the simulator's loop body is one step of its tracker |
| Simulator.Simulate | research/phase6/engine.py:122-189 | the loop emits the tracker's events |
| Simulator.SimulateRefinesRun | research/phase6/engine.py:84-189 | with every option off the events are the canonical run's, on every input |
| Simulator.ClosedByFirstBarOfNextDay | research/phase6/engine.py:138-145 | with a square-off time a position still open is closed on the first bar of the next day in the data, and nothing is opened on it |
| Simulator.SimEventsZigzag | research/phase6/engine.py:192-217 | entries and closing events alternate under every option, so pairing loses nothing |
| Simulator.SimTradesInOrder | research/phase6/engine.py:192-217 | so the trades of every variant are entered one after the other |
| Simulator.FillModelOnlyMovesLevels | research/phase6/engine.py:161-171 | the exit-fill assumption changes the price of exits and nothing else |
| Simulator.GapAwareIsHonest | research/phase6/engine.py:163-168 | a gap never improves a stop and never worsens a target |
| SimulatorRules.SimEntryRule | research/phase6/engine.py:93-160 | every entry of every variant: in session, not past the cutoff, on a bar the filter allows for its side and where the filtered setup starts, with its levels where the rule puts them |
| SimulatorRules.SimEntersIff | research/phase6/engine.py:147-159 | bar by bar a variant enters if and only if it was flat, the bar is in session and not past the cutoff, a filtered setup starts on it and a guarded variant has usable distances |
| SimulatorRules.SimExitRule | research/phase6/engine.py:133-175 | every closing event: a touched stop first, then a touched target, filled at the level, the close or, gap-aware, the open where the bar opens beyond the level; else the open of a new day or the close from the square-off time on |
| Simulator.HaltsAtThree | research/phase6/engine.py:257-261 | the one-pass count of streaks of three |
| Simulator.HaltCountIsLive | research/phase6/engine.py:241-244 | it is exactly how often the live halt trips when reset after each trip, whatever the days |
| WalkForward.Search | research/phase6/engine.py:346-347 | the two binary searches: the first place at, or after, a day |
| WalkForward.Pick | research/phase6/engine.py:333-359 | the indexed lookup returns exactly the list-order filter of the original trades |
| WalkForward.LookupIsFilter | research/phase6/engine.py:351-352 | re-sorting the slice by list position restores the plain filter |
| WalkForward.WindowBounds | research/phase6/engine.py:361-378 | all the windows that fit and no other, refusing an invalid plan |
| WalkForward.WindowsInOrder | research/phase6/engine.py:364-368 | test follows its train directly, and test blocks are disjoint when the step is at least their length |
| WalkForward.WindowShape | research/phase6/engine.py:361-378 | a rolling train block has exactly its length, an anchored one starts at the warm-up, every test block has its length, and windows are one step apart |
| WalkForward.BestIsMaximal | research/phase6/engine.py:435-438 | no variant ranks above the one selected, ties going to the baseline |
| WalkForward.SelectVariant | research/phase6/engine.py:429-438 | the selection of one window from its train trades |
| WalkForward.PickIsBest | research/phase6/engine.py:321-324 | with the cutoff, through the train view alone: a pick other than the baseline has enough train trades and at least one, no qualifying variant averages more, an equal baseline or an equal earlier variant is preferred, and the baseline is the pick when nothing qualifies |
| WalkForward.ChosenIsTrainView | research/phase6/engine.py:403-408 | the trades scored are those entered and closed inside the train block |
| WalkForward.NoLeakage | research/phase6/engine.py:403-408 | with the cutoff a pick depends on nothing else: any other change of any variant's trades leaves it |
| WalkForward.LeaksWithoutCutoff | research/phase6/engine.py:407-408 | without the cutoff two inputs with the same train view get different picks |
| WalkForward.Measure | research/phase6/engine.py:429-448 | one window: the pick on its train block, and its and the baseline's trades on the test block |
| WalkForward.MeasuredIs | research/phase6/engine.py:426-440 | a window reports its pick and the trades the pick and the baseline entered on its test days, each from its own list |
| WalkForward.Walk | research/phase6/engine.py:414-449 | every window that fits, selected on its train block and measured on its test block, and the out-of-sample trades of the picks and of the baseline, in window order |
| WalkForward.OutOfSampleNet | research/phase6/engine.py:440-449 | the out-of-sample net is the sum of what the windows report |
| WalkForward.NoTradeTwice | research/phase6/engine.py:409-412 | whatever the windows pick, trades counted in an earlier test block were entered on an earlier day than those of a later one when the step is at least the test length |
| WalkForward.OutOfSampleInOrder | research/phase6/engine.py:414-449 | so the whole out-of-sample list of a walk is in strictly rising order of entry and counts no trade twice |
| WalkForward.TestAfterTrain | research/phase6/engine.py:364-368 | a test block holds only trades entered after every day of its train block |
| Pnl.FifoMatch | src/algoedge/pnl.py:81-121 | the nested loops compute the book of trades and open lots |
| Pnl.MatchLaws | src/algoedge/pnl.py:98-116 | matching one order keeps lots on one side, conserves quantity, and its profit is the change in lot cost less the cash |
| Pnl.FifoConservation | src/algoedge/pnl.py:81-121 | for every history and symbol: lots one-sided and positive, their signed sum the net quantity, realised P&L the cash flow plus the signed cost of open lots |
| Pnl.ClosedInOrder | src/algoedge/pnl.py:63-71 | on chronological histories closed entries then open lots are in opening order: first in, first out |
| Pnl.TripsFromOrders | src/algoedge/pnl.py:81-121 | every round trip is made of a confirmed order and a later one of the other side: prices, times and direction are theirs, and its P&L is its own price difference in its own direction times its quantity |
| Pnl.NetIsEarnedLessCosts | src/algoedge/pnl.py:31-56 | the net total is the gross less the costs, and the gross without a cost model |
| Pnl.SplitCosts | src/algoedge/cost_model.py:32-47 | splitting a round trip over two lots costs exactly one more brokerage for two legs, with its tax |
| Pnl.LegsTaxed | src/algoedge/pnl.py:102-106 | the transaction tax is on what was sold and the stamp duty on what was bought, which is the exit of a long and the entry of a short round trip |
| Reconciliation.ComputeExpectedPositions | src/algoedge/reconciliation.py:28-62 | the map of non-zero net expected quantities |
| Reconciliation.PartialCountsFilled | src/algoedge/reconciliation.py:52-58 | on every history a partial fill counts as a full order of its filled quantity would |
| Reconciliation.ExpectedIsOpenOfFilled | src/algoedge/reconciliation.py:28-62 | for histories of complete fills, partial ones included, the map is exactly what the FIFO book has open once each partial fill is taken for what it filled |
| Reconciliation.LedgersAgreeIff | src/algoedge/reconciliation.py:28-62 | on every history the two ledgers agree on a symbol exactly when what FIFO skips nets to zero |
| Reconciliation.ExpectedIsOpen | src/algoedge/reconciliation.py:28-62 | for confirmed histories the map is exactly the FIFO book's open quantities |
| LiveOrders.LifecycleNeverReverses | src/algoedge/signal_state.py:49-104 | no legal sequence of states ever goes back or repeats one, but for further partial fills |
| LiveOrders.NeverSkips | src/algoedge/signal_state.py:49-104 | a lifecycle that has reached a step has been in every one before it |
| LiveOrders.EndsIff | src/algoedge/signal_state.py:33-40 | a lifecycle ends exactly when closed, rejected, failed, or handed to reconciliation or a halt, which may interrupt every step from arrival to exit |
| LiveOrders.FailsFrom | src/algoedge/signal_state.py:49-78 | where a lifecycle may fail and to what |
| LiveOrders.IngestLaws | src/algoedge/signal_pipeline.py:145-177 | a signal is accepted if and only if none of its underlying, direction and minute is on record, it is at most 120 seconds old and complete |
| LiveOrders.SignalService.Submit | src/algoedge/signal_pipeline.py:145-177 | duplicate, expiry and field checks in order, a duplicate leaving the record alone |
| LiveOrders.SignalService.Advance | src/algoedge/signal_pipeline.py:179-200 | moves a known signal along a legal transition and changes nothing otherwise |
| LiveOrders.SignalService.CheckDuplicateOrder | src/algoedge/signal_pipeline.py:202-222 | finds an in-flight signal of the underlying and direction if and only if there is one |
| LiveOrders.LiveDesk.PlaceLiveOrder | src/fno_signals/main.py:116-358 | one attempt under any gate, broker and crash: it never raises an illegal transition, crashes exactly where something it calls does, and leaves the stated record, order row and risk counters |
| LiveOrders.SentIff | src/fno_signals/main.py:145-247 | an order is sent if and only if the signal is new and well formed, nothing is in flight and every gate is open |
| LiveOrders.SentExactlyWhen | src/fno_signals/main.py:145-247 | the same with every gate spelled out: new and complete signal, nothing in flight, no gate block, trading on and neither switched off nor halted, hours, cutoff, cooldown, day's trades and loss, lot size and open positions within limits, contract, liquidity and operator |
| LiveOrders.RecordLeft | src/fno_signals/main.py:145-358 | for each state exactly which attempts leave their signal in it |
| LiveOrders.RowLeft | src/fno_signals/main.py:266-284 | an order row is written exactly for an order with an id whose verification came back, with the outcome verified |
| LiveOrders.LiveBooks | src/fno_signals/main.py:286-325 | with the risk state kept, it is at every moment that of one question an attempt checked and one trade a filled or partly filled order |
| LiveOrders.NeverTwoInFlight | src/fno_signals/main.py:122-127 | over any sequence of attempts, whatever survives a crash, no underlying and direction has two orders in flight on record |
| LiveOrders.RowsAreSent | src/fno_signals/main.py:273-284 | order rows are of signals sent, at most one each |
| LiveOrders.DurableSendsOnce | src/algoedge/signal_pipeline.py:145-160 | with a database no signal is ever sent twice |
| LiveOrders.SentFromMemoryIff | src/algoedge/signal_pipeline.py:111-143 | without one, an attempt is sent if and only if it is well formed, the gates are open, and since the last crash no attempt had its signal and no order of its underlying and direction is held against it |
| LiveOrders.TwiceOnlyAcrossCrash | src/algoedge/signal_pipeline.py:111-143 | so without a crash the two agree and nothing is sent twice |
| LiveOrders.CrashSendsTwice | src/algoedge/signal_pipeline.py:111-143 | and across a crash during verification the same signal is sent twice |
| LiveOrders.OneSignalTwice | src/fno_signals/main.py:57-61 | under the limits the program runs with, a concrete signal that goes to the broker twice |
| LiveOrders.BlockedIff | src/fno_signals/main.py:171-358 | with a database, over any history an order is held back as a duplicate if and only if an earlier one of its underlying and direction was sent and filled, partly filled, or was lost to a crash |

## Left out

- Floating point: prices are reals, so rounding, infinities and NaN arithmetic beyond a missing value are not modelled.
- Time zones, daylight and naive timestamps: times are whole seconds in the exchange's zone, and fetched indexes are taken as strictly ascending.
- Settings with a length below 1, a zero stop multiplier or a strike step of 0, for which the program's own arithmetic is undefined.
- The option symbol's text, the entry-price column and the per-bar signal columns of a run, which repeat what its events say.
- Unsupported index, timeframe, variant or action names, exceptions while fetching, and the text of reasons and messages.
- Alerts, audit rows, logging and the network. A restart is a saved and restored account snapshot; of a database only whether signal records outlive a crash is modelled, and it takes every write.
- AutoTrader.RunCycle: the entry's contract resolution and the open-position counts are inputs of the cycle.
- Restart.RestartsDoNotMatter: for windows of one series with a fixed start and a constant quantity, where a window that starts later would re-derive the levels from other indicator values.
- Incremental.StaysCaught: for windows with a fixed start, a constant quantity, at each poll an owed event that is still fresh, and no forced close; stale events and forced closes are covered by RunTheorems, Restart and PaperSession.
- Incremental.IncrementalIsBatch: as for StaysCaught, polled at each bar close, with no cycle blocked.
- PaperSession.DriverIsSimulator: polled at each bar close under one set of limits and without restarts; every day that is over has a bar ending at or after the square-off time, bars are intraday and end within trading hours, and only an entry after the cutoff may be blocked.
- Dashboard.StepKeeps: evaluating a poll and committing a plan are single atomic steps, the times sampled by the cycles of one index do not run backwards, a window shows no bar of a later day than its cycle's, and an entry on it is stale by the next morning.
- The average-direction filter's arithmetic and the median bar length in the simulator: the filter's verdict per bar and the bar length are inputs.
- Backtest.MaxDrawdown: takes the points in order of entry; the sort by entry time before it is not modelled, nor are the hour and regime breakdowns and the profit factor.
- WalkForward.Walk: a baseline that is not among the variants counts as one without trades, where the program raises an error.
- Pnl.FifoMatch: quantities are whole units, so the 1e-9 threshold is zero.
- LiveOrders.LiveDesk.PlaceLiveOrder: the reconciliation gate, the open positions, the operator and the broker are arbitrary inputs, ids are structured values, and a crash can strike the contract lookup, the order call or its verification.
- The reconciliation gate, the token service, the failure monitor, daily summaries, the research promotion gate and candle segments, the legacy RSI strategy and reports: smaller state machines and roll-ups that would add only easier members.
