# A verified model of the event-sourced core

This Dafny project models the durable core of the trading engine and proves what it is
relied upon for. Everything stateful in the engine follows one pattern: append an event to
one shared log, then apply it to memory; after a crash, fold the same apply function over the
log. The claims here are about that pattern over whole runs: any sequence of calls, any
answer of the venue, any other writer on the log, a crash after any persisted event, any
retry. Beside it stand two algorithmic cores of the research side: the experiment registry
with its lineage walks, and the validation stages.

`dafny verify dfyconfig.toml` checks the whole project (Dafny 4.11).

## How the model is laid out

Each component comes as functions of a memory and a log (the specification), laws that say
what each of its calls means without naming those functions, lemmas about histories and runs,
and a class whose fields change in place and whose methods are proved to compute the
functions.

| layer | specification | laws, histories and runs | class |
|---|---|---|---|
| bytes of the log file | `Codec`, `LogFile`, `StoreModel` | `LogFile`, `StoreLaws`, `StoreRuns` | `EventStore` |
| the log itself | `EventLog`, `Records` | `EventLog` | `EventLog.SharedLog` |
| execution states | `ExecutionStates`, `ExecutionMachine` | the same, `MachineLaws` | `ExecutionMachine` |
| orders | `OrderStates`, `Orders` | `OrderLaws`, `OrderHistory`, `OrderRuns`, `OrderRestart` | `OrderManager` |
| positions | `PositionStates`, `Pnl`, `Positions` | `PositionLaws`, `PositionHistory`, `PositionRuns` | `PositionManager` |
| portfolio | `Portfolio`, `Sums` | `Portfolio`, `PortfolioLaws` | `PortfolioManager` |
| accounting | `Accounting` | `AccountingLaws`, `AccountingRuns`, `EngineRuns`, `LedgerRuns` | `AccountingSync` |
| crash healing | | `AccountingHealing`, `ExitHealing`, `CrashHealing`, `SyncHealing`, `PassHealing`, `PassRuns`, `PassCrashes`, `StrandedMargin` | |
| money | `PositionMoney` | `FillTrail`, `TrailRuns`, `PositionCycle` | |
| venue order ids | `OrderIdMapping` | the same, `MappingLaws` | `OrderIdMapping` |
| experiments | `Lifecycle`, `Registry`, `Lineage` | the same, `RegistryLaws` | `ExperimentRegistry` |
| validation | `Validation`, `Stages` | the same, `ValidationLaws`, `StageLaws` | methods in the modules |

The hardest results, and where to start reading: `PassRuns.ReachableBookingHeals`,
`PassCrashes.ReachableCrashesHeal`, `PositionCycle.CloseTelescopes` and `PositionCycle.RoundTrip`,
`StoreModel.CrashThenRetry`, `OrderRestart.RestartIsInvisible`, `PositionRuns.RunBalances`,
`Lineage.GetDescendants`, `Stages.WalkForwardImpliesSingle`.

## Conventions

- Amounts are Dafny reals. The rounding of the default decimal context to 28 digits is
  abstracted away, and with it ratios such as a hit rate are exact.
- SHA-256 is any function to 32 bytes; the JSON envelope is a serialiser with a parser that
  inverts it. No property needs more of them.
- The venue is an environment: its replies, errors and fills are inputs.
- A fill's quantity is positive, as the adapters deliver it. Timestamps are opaque texts.
- Where whole histories matter the venue reports them in one order, prices are positive, no
  two fills share an id, and no id is another's with `:open` behind it (`FillTrail.Venue`).
- Idempotency keys of orders, positions, portfolio and accounting are tuples; the text keys
  whose injectivity the source argues for (execution machine, venue mapping, minted ids) are
  modelled as text, and injectivity is proved.
- A crash keeps a prefix of the events a call appends (at the byte layer: any prefix of the
  bytes) and loses the memory. There is one writer, and one live manager of each kind.
- Target leverage is any real but zero.

## What turned out false, and when exactly it holds

- Rolling a failed append back restores the file if and only if the file cursor stood at the
  end of the file (`StoreModel.RollbackExact`). Two failed appends leave a torn tail, which
  opening cuts off (`StoreRuns.TwoFailuresStillOpen`); two failed appends, then one that is
  acknowledged, leave a file that cannot be opened (`StoreRuns.TwoFailuresBreakTheFile`).
- Booking a fill heals from a crash if and only if the cut is not between a position's
  creation and its mapping, nor between a close and the release of its margin
  (`PassHealing.BookingHeals`). In the second window the margin is lost to every later run
  (`StrandedMargin.StrandedForGood`), although app/runtime/accounting.py:39-51 says any crash
  heals on the next pass.
- Showing a clean pass again to the same process changes nothing if and only if no close
  among its fills is overdue (`PassHealing.RepeatedPass`). `PassHealing.ClashReopens` shows
  how one gets overdue: an exit under an id its position had taken for an entry. Where the
  venue's ids are distinct it does not happen (`PassRuns.ReachablePassRepeats`).
- A governance decision cut between its two entries leaves the experiment in review for good
  (`Registry.InterruptedForGood`); trying again is refused.
- A trigger that is stale in some state becomes legal in a state that may follow if and only
  if it is a cancel request or the acknowledgement of a retried cancel
  (`OrderStates.StaleBecomesLegal`). So a stale status from the venue never hides a legal one
  (`OrderStates.StaleNeverHidesALegalUpdate`). Only venue statuses go through the rank rule
  (order_manager/manager.py:351-363; cancelling, at 476-487, does not use it), so this is a
  remark on the table and no failing input of the code.
- An entry fill offered to a position that is being entered is recorded if and only if its
  id is neither on record for the position nor the marker of the fill that opened it
  (`PositionRuns.EntryIsTaken`); the marker takes the name of another possible fill
  (`PositionRuns.MarkerHidesAFill`).
- A venue token resolves back to the id that recorded it if and only if the id is not empty
  (`OrderIdMapping.HandedOutResolves`).
- A release frees a position's margin if and only if the position was never released before
  or holds none (`Portfolio.ReleaseFrees`); margin taken after a release stays for good
  (`Portfolio.ReallocatedMarginIsStuck`, and `Portfolio.SecondReleaseDoesNot` for the run).

Two remarks on what the source does not promise. The entry ledger books no rebates: a
negative entry fee costs nothing and earns nothing (`PositionMoney.OfCharge`), while a
negative exit fee raises the profit. Passing the single validation pass implies neither
passing folds nor passing regimes (`Stages.SingleImpliesNeither`).

## Model

| member | source | states |
|---|---|---|
| `Codec.DecodeInvertsEncode` | event_store/codec.py:31-34 | decoding at the start of an encoded record, whatever follows it, gives the record and its length |
| `Codec.DecodeIsExact` | event_store/codec.py:91-125 | whatever decodes is byte for byte the encoding of what was decoded, so no two records share bytes |
| `Codec.PrefixIsIncomplete` | event_store/codec.py:48-56 | every proper prefix of a record is reported incomplete, never as corruption |
| `StoreLaws.RecordLayout` | event_store/codec.py:25-34 | every byte of a record: magic, version, id and length with the most significant byte first, payload, checksum over all in front of it |
| `StoreLaws.DecodeReports` | event_store/codec.py:91-125 | which bytes are reported incomplete, of wrong magic, of another version, of wrong checksum, or as which record, for every buffer and offset |
| `LogFile.ScanFile` | event_store/store.py:95-156 | the offset loop computes the recursive scan, with its torn tail, its corruption errors and its termination by bytes consumed |
| `LogFile.ScanIsCanonical` | event_store/store.py:113-156 | accepted bytes are exactly the concatenated encodings of the returned records, whose ids strictly increase |
| `LogFile.ScanAcceptsExactly` | event_store/store.py:95-156 | a scan gives these records and this tail if and only if the file is their encodings followed by such a tail |
| `LogFile.CutRecord` | event_store/codec.py:44-56 | a clean file followed by any prefix of one more record scans to the old events, or to the new one too when every byte is down |
| `StoreLaws.RefusedMeans` | event_store/store.py:113-156 | a refused file holds intact records up to the offset that is reported, and at that offset the damage that is reported |
| `StoreModel.LookupFinds` | event_store/store.py:240-245 | the last-wins index built on opening finds the same event as first-writer-wins lookup in the log |
| `StoreModel.AppendRefinesLog` | event_store/store.py:299-336 | an append behaves as the abstract keyed append, whatever the operating system does to the write, and a failed one changes no memory |
| `StoreLaws.AppendAnswers` | event_store/store.py:168-184 | an append is acknowledged exactly when its key is free, the format can hold it, the writes add up to the record and the sync succeeds; what the file, the cursor and the memory are in every other case |
| `StoreModel.RollbackExact` | event_store/store.py:314-328 | a failed append leaves the file as it was if and only if the cursor stood at the end of the file |
| `StoreModel.ReopenAgrees` | event_store/store.py:222-245 | opening the file afresh computes the events, both indexes and the next id that are in memory |
| `StoreModel.CrashThenRetry` | event_store/store.py:222-245 | after a cut at any byte of a record, reopening shows the old events or the new one too, and retrying under the key leaves exactly one |
| `StoreRuns.RunIsSane` | event_store/store.py:283-336 | over any run of appends, duplicates, failures that start at the end of the file, restarts and crashes inside a write, memory and a fresh opening agree |
| `StoreRuns.RunIsNumbered` | event_store/store.py:299-336 | over such runs the ids go on counting from one without a gap |
| `StoreRuns.RunFromEmptyFile` | event_store/store.py:197-245 | the same from the first opening of an empty file on, without a condition on the store it starts from |
| `StoreRuns.TwoFailuresStillOpen` | event_store/store.py:314-328 | after two failed appends in a row, each four bytes in, the file still opens, with the old bytes and the old events |
| `StoreRuns.TwoFailuresBreakTheFile` | event_store/store.py:314-336 | when a third append is then acknowledged, the file it leaves cannot be opened |
| `EventStore.EventStore.OpenFile` | event_store/store.py:197-245 | opening scans, truncates a torn tail and builds the indexes the model of opening prescribes, or refuses the file |
| `EventStore.EventStore.WriteFull` | event_store/store.py:168-184 | the write loop puts every byte down despite short writes, or a prefix when the system gives up |
| `EventStore.EventStore.AppendEvent` | event_store/store.py:283-336 | the object's new state and answer are those of the modelled append |
| `EventStore.EventStore.GetByKey` | event_store/store.py:351-354 | looking a key up through both indexes finds the event the log holds under it |
| `EventLog.AppendedKeepsOrder` | event_store/store.py:299-336 | a keyed append keeps ids increasing and keys unique, and the log only grows |
| `EventLog.FindIsUnique` | event_store/store.py:351-354 | where keys are unique a lookup finds the only event that carries the key |
| `Text.MintedInjective` | order_manager/ids.py:10-11 | a minted id determines its sequence number and its suffix |
| `Text.DecimalReads` | order_manager/ids.py:10-11 | the numeral in a minted id reads as its number, has digits only and no zero in front |
| `ExecutionStates.EmergencyKillIsFinal` | execution_state_machine/transitions.py:41-111 | after an emergency kill only that state and stopped occur |
| `ExecutionStates.ReconcileBeforeReady` | execution_state_machine/transitions.py:41-111 | between a soft or hard kill and any later ready there is a reconciling |
| `ExecutionStates.NoStopInFlight` | execution_state_machine/transitions.py:41-111 | from an in-flight state to stopped every path passes a kill state, ready or flat |
| `ExecutionStates.TriggersLead` | execution_state_machine/transitions.py:41-111 | the table by trigger: from which states each kill, stop, resume and trading step is legal, and where it leads |
| `MachineLaws.RequestAnswers` | execution_state_machine/machine.py:125-199 | on every reachable log: a known id gets its own stored event, a new one is taken exactly along an edge, by one event under the text key of machine and request |
| `ExecutionMachine.NamespacedKeyInjective` | execution_state_machine/machine.py:36-47 | the length-prefixed key determines machine id and request id, for arbitrary texts |
| `ExecutionMachine.ReplayIsPath` | execution_state_machine/machine.py:92-110 | the states a replay visits are a path of the table that ends in the replayed state |
| `ExecutionMachine.RunIsGood` | execution_state_machine/machine.py:125-199 | for any interleaving of machines, writers, crashes and restarts every machine's events are a path from the initial state to its state in memory |
| `ExecutionMachine.KilledForGood` | execution_state_machine/transitions.py:41-111 | in a machine's persisted history, after any run with crashes and restarts, only that state and stopped follow an emergency kill |
| `ExecutionMachine.ReconciledBeforeReady` | execution_state_machine/transitions.py:41-111 | in such a history a reconciling stands between a soft or hard kill and any later ready |
| `ExecutionMachine.NeverStoppedInFlight` | execution_state_machine/transitions.py:41-111 | in such a history no machine went from an in-flight state to stopped without a kill state, ready or flat between |
| `ExecutionMachine.RepeatedRequest` | execution_state_machine/machine.py:143-199 | a repeated request id gets the original outcome and appends nothing, however much later and after whatever restarts |
| `ExecutionMachine.ExecutionStateMachine.Construct` | execution_state_machine/machine.py:81-110 | a new instance holds the replayed state, and a history that breaks the table is refused |
| `ExecutionMachine.ExecutionStateMachine.Transition` | execution_state_machine/machine.py:125-199 | log, state and answer are those of the modelled request |
| `OrderStates.TerminalMeansNoEdge` | order_manager/states.py:86-88 | the terminal states are those without a way out |
| `OrderStates.TriggersLead` | order_manager/states.py:51-76 | the table by trigger: from which states each is legal, and where it leads |
| `OrderStates.StaleBecomesLegal` | order_manager/states.py:104-124 | being stale hides a later legal use of exactly two triggers, the cancel request and the acknowledgement of a retried cancel |
| `OrderStates.StaleNeverHidesALegalUpdate` | order_manager/states.py:104-124 | a venue status ignored as stale is illegal in every state of the same or a higher rank |
| `OrderStates.MinTargetRankIsMinimum` | order_manager/states.py:122-124 | the least target rank is a lower bound over a trigger's edges, and attained |
| `OrderHistory.NeverBack` | order_manager/manager.py:204-299 | along every history ranks only rise and finished orders keep their snapshot |
| `OrderHistory.IgnoredForGood` | order_manager/manager.py:351-377 | a status once ignored as stale is never one a later state of that order would take |
| `OrderHistory.FillsAreConserved` | order_manager/manager.py:253-297 | filled quantity is the sum over the distinct persisted fills, and filled orders reach their amended quantity |
| `OrderRuns.RunIsGood` | order_manager/manager.py:153-156 | over runs with crashes the log replays without error to the live orders and next number, memories differing at most in late fills |
| `OrderRuns.IdsAreNeverReused` | order_manager/manager.py:170-176 | no id is handed to the venue twice, across calls, crashes and restarts |
| `OrderRuns.OrdersNeverGoBack` | order_manager/manager.py:561-598 | between any two points of a run no order is lost, no rank falls, and fills stay conserved |
| `OrderRestart.RestartIsInvisible` | order_manager/manager.py:204-299 | after any run, a manager rebuilt from the log gives the answers, the log and the transmissions of the live one over every later run, crashes and other writers included |
| `OrderLaws.PlaceBooks` | order_manager/manager.py:381-427 | placing, for every answer: recorded under a new id before one transmission; rejected exactly when the venue says so, acknowledged for any other answer, failed without one |
| `OrderLaws.AmendBooks` | order_manager/manager.py:431-474 | amending: who may be amended, the intent before the transmission, and quantity and limit as the venue names them and nothing else |
| `OrderLaws.CancelBooks` | order_manager/manager.py:476-515 | cancelling: pending before the transmission, cancelled exactly when the venue says so, failed without an answer, an error for a rejection |
| `OrderLaws.CancelAllBooks` | order_manager/manager.py:517-559 | cancelling everything: exactly the live orders the venue names are cancelled and returned, in the order of their first mention |
| `OrderLaws.FillBooks` | order_manager/manager.py:561-598 | a fill: added once, filled exactly when the quantity is reached, remembered after the end, an error before the acknowledgement |
| `OrderLaws.StatusBooks` | order_manager/manager.py:348-377 | a venue status: which of them moves an order from which state, changes nothing, or is an error |
| `OrderLaws.ResyncBooks` | order_manager/manager.py:634-651 | resynchronising: the rule for statuses on what was found, nothing for nothing found, errors else |
| `OrderManager.OrderManager.Construct` | order_manager/manager.py:119-158 | the rebuilt object holds the replayed memory, or there is none when the history does not replay |
| `OrderManager.OrderManager.ApplyEvent` | order_manager/manager.py:204-301 | one event is applied once, with its integrity checks |
| `OrderManager.OrderManager.Place` | order_manager/manager.py:381-429 | new state, transmission and answer of placing, for every reply of the venue |
| `OrderManager.OrderManager.Amend` | order_manager/manager.py:431-474 | new state, transmission and answer of amending |
| `OrderManager.OrderManager.Cancel` | order_manager/manager.py:476-515 | new state, transmission and answer of cancelling |
| `OrderManager.OrderManager.CancelEverything` | order_manager/manager.py:517-559 | the loop over the venue's list of cancelled orders computes the modelled fold |
| `OrderManager.OrderManager.TakeFill` | order_manager/manager.py:561-598 | new state and answer of a reported fill, duplicates and late fills included |
| `OrderManager.OrderManager.Resync` | order_manager/manager.py:634-651 | new state and answer of a resynchronisation |
| `PositionStates.TerminalMeansNoEdge` | position_manager/states.py:91-93 | the terminal states are those without a way out |
| `PositionStates.VerdictsAre` | position_manager/manager.py:283-297 | what becomes of every trigger in every state: along the documented edges, too early an error, else old news |
| `PositionStates.NoEntryAfterExit` | position_manager/states.py:53-80 | once an exit is recorded no entry fill is legal any more |
| `Pnl.AverageCarriesNotional` | position_manager/pnl.py:83-89 | the new average times the new quantity is the notional of both parts |
| `Pnl.AverageStaysBetween` | position_manager/pnl.py:83-89 | the new average lies within every bound on the old average and the new price |
| `PositionHistory.BooksBalance` | position_manager/manager.py:158-281 | on every history average, filled, remaining, profit, R, fees and funding are what the entry fills, legs and payments add up to |
| `PositionHistory.PnlTelescopes` | position_manager/pnl.py:72-76 | realised profit of the legs is exit notional less entry cost less leg fees |
| `PositionRuns.RunBalances` | position_manager/manager.py:300-485 | over runs with crashes the log replays to the live books, and every position's books balance |
| `PositionHistory.ProcessedExactly` | position_manager/manager.py:190-262 | what a position remembers is exactly the ids of its recorded entries and exits and the marker of the fill that opened it |
| `PositionRuns.EntryIsTaken` | position_manager/manager.py:333-383 | while a position is entered a fill is recorded exactly when its id is none on record for it and not the opening fill's marker; otherwise nothing changes |
| `PositionRuns.MarkerHidesAFill` | position_manager/manager.py:333-381 | the fill that gets lost: named like the opening fill's marker, on record nowhere, and never taken |
| `PositionLaws.CreateBooks` | position_manager/manager.py:300-331 | a position is created for a positive quantity and stop distance only, under the next minted id, empty, by one record |
| `PositionLaws.EntryBooks` | position_manager/manager.py:333-383 | an entry fill: when it is taken, the state it leads to, and quantity, average and fees with it; what is refused or known |
| `PositionLaws.LegIsFair` | position_manager/pnl.py:30-76 | a leg: R times stop distance times intended notional is price move times quantity, positive exactly above the average; a fee costs its share of the closed notional in stop distances; percentage and profit |
| `PositionLaws.ExitBooks` | position_manager/manager.py:385-439 | an exit along an edge persists one such leg, with its reason, and the position is less by it |
| `PositionLaws.ExitRefused` | position_manager/manager.py:385-415 | every other exit: late ones are remembered and nothing more, early ones and impossible ones are errors |
| `PositionLaws.MoveBooks` | position_manager/manager.py:450-468 | a move without a fill changes the state along its edge, by one record, and nothing else |
| `PositionLaws.FundingBooks` | position_manager/manager.py:470-483 | a funding payment is added once per id |
| `PositionManager.PositionManager.Construct` | position_manager/manager.py:88-112 | the rebuilt object holds the replayed books, or there is none |
| `PositionManager.PositionManager.ApplyEvent` | position_manager/manager.py:158-281 | one event is applied once, with its integrity checks |
| `PositionManager.PositionManager.Create` | position_manager/manager.py:300-331 | new state and answer of creating a position |
| `PositionManager.PositionManager.TakeEntryFill` | position_manager/manager.py:333-383 | new state and answer of an entry fill with its two durable steps |
| `PositionManager.PositionManager.TakeExit` | position_manager/manager.py:385-439 | new state and answer of an exit, late fills included |
| `PositionManager.PositionManager.TakeFunding` | position_manager/manager.py:470-483 | new state and answer of a funding payment |
| `PositionManager.PositionManager.Move` | position_manager/manager.py:450-468 | new state and answer of a transition without a fill |
| `Portfolio.RunIsBalanced` | portfolio_manager/manager.py:100-185 | over runs with duplicates, refusals and restarts assets equal equity, margins are the sums over positions, and open positions are those with margin in use |
| `PortfolioLaws.RunIsSums` | portfolio_manager/manager.py:100-185 | over runs every cumulative figure is the sum over the distinct booked requests, and cash, reserved and used are deposits less withdrawals plus profits plus funding less fees |
| `PortfolioLaws.LedgerIsSums` | portfolio_manager/manager.py:100-159 | the same on every log, by its records, with equity and assets |
| `PortfolioLaws.MarginIsSums` | portfolio_manager/manager.py:117-138 | a position has in use what was allocated since its last release, reserved what was reserved less what was allocated since |
| `PortfolioLaws.MarksAreLast` | portfolio_manager/manager.py:151-154 | the marks are those of the latest update |
| `PortfolioLaws.FirstAnswer` | portfolio_manager/manager.py:187-313 | the first request under a name: booked by its own record when its amount is proper and covered, else refused with the error that says which |
| `PortfolioLaws.LaterAnswer` | portfolio_manager/manager.py:90-94 | the same name again changes nothing and is answered |
| `PortfolioLaws.WithdrawalIsPaid` | portfolio_manager/manager.py:198-211 | a first withdrawal is paid exactly when cash covers it, and lowers cash and nothing else by it |
| `Portfolio.DuplicatesDropOut` | portfolio_manager/manager.py:90-94 | a run, restarts and other writers included, ends in the ledger and log it ends in when duplicates, refusals and restarts are left out, and no two requests left share a key |
| `Portfolio.ReleaseFrees` | portfolio_manager/manager.py:244-257 | a release leaves a position without margin exactly when it was never released before or holds none |
| `Portfolio.ReallocatedMarginIsStuck` | portfolio_manager/manager.py:244-257 | on every run releases stay on record, and from then on the position's margin in use never falls |
| `Portfolio.SecondReleaseDoesNot` | portfolio_manager/manager.py:213-257 | the run that fails: reserved, allocated, released, reserved and allocated again, the second release is answered and twenty stay in use |
| `PortfolioManager.PortfolioManager.constructor` | portfolio_manager/manager.py:50-85 | the rebuilt ledger is the replayed one |
| `PortfolioManager.PortfolioManager.ApplyEvent` | portfolio_manager/manager.py:100-159 | one event updates the ledger in place, once |
| `PortfolioManager.PortfolioManager.Handle` | portfolio_manager/manager.py:187-313 | new state and answer of every request: amount check, duplicate check, funds check, in this order |
| `AccountingRuns.MappingStays` | app/runtime/accounting.py:198-199 | an order's position is decided once, and no later record changes it |
| `EngineRuns.RunIsSound` | app/runtime/accounting.py:175-199 | over runs of orders, levels, passes over fills, ledger requests and crashes anywhere, the desk in memory is the one a new process builds |
| `LedgerRuns.RunIsBalanced` | portfolio_manager/manager.py:178-185 | over every run of the whole engine, with crashes after any event, the ledger stays balanced, with no negative margin |
| `AccountingLaws.LevelsBook` | app/runtime/accounting.py:211-226 | levels are recorded once per order, by one record, as the execution gave them |
| `AccountingLaws.FirstMatch` | app/runtime/accounting.py:442-456 | the position found is the first mapped one of the symbol, on the other side, live and with something left, and none only if there is none |
| `AccountingLaws.FirstFillBooks` | app/runtime/accounting.py:263-322 | the first fill of an order: the terms of the position it opens, the mapping, the fill in it, margin times leverage equal to the notional taken from cash when covered, the fee, and the notes |
| `AccountingLaws.FirstFillRefused` | app/runtime/accounting.py:271-295 | when there is no position to open, and which note says so |
| `AccountingLaws.IntoBooks` | app/runtime/accounting.py:297-322 | a later fill into its position: fill, margin, fee and notes |
| `AccountingLaws.MarginBooks` | app/runtime/accounting.py:313-322 | a first margin booking raises the used margin by m with m times leverage equal to quantity times price, covered by cash; uncovered, the fee alone is charged |
| `AccountingLaws.AttributionBooks` | app/runtime/accounting.py:324-346 | which position an exit goes to, and its durable mapping |
| `AccountingLaws.PartialBooks` | app/runtime/accounting.py:347-372 | an exit that completes nothing: profit by side at the average price, counted once, noted while the position waits |
| `AccountingLaws.CompletionBooks` | app/runtime/accounting.py:347-392 | the exit that completes a close: profit by side, one fair leg, the position closed, and its margin back in cash |
| `AccountingLaws.OneFillBooks` | app/runtime/accounting.py:230-261 | which fills are noted as unknown or raised, and whether and for what quantity the others close or enter |
| `AccountingLaws.PassInOrder` | app/runtime/accounting.py:230-261 | a pass books its fills one by one in order, and so stand its notes |
| `AccountingHealing.IntoHeals` | app/runtime/accounting.py:297-322 | booking a fill into its mapped position heals from a cut after any of its events, with or without sufficient funds |
| `ExitHealing.CloseHeals` | app/runtime/accounting.py:347-392 | booking an exit again, with the accumulators as they were before it, heals from a cut exactly when the cut is not between close and release; `PassHealing.BookingHeals` starts them empty |
| `SyncHealing.SettledForGood` | app/runtime/accounting.py:29-37 | what a process has settled may be shown to it again, in any order and any number of times: nothing is appended and nothing changes |
| `SyncHealing.CatchesUp` | app/runtime/accounting.py:74-82 | a new process, with nothing counted and on any later log, books the settled history without appending and then counts what the old one counted |
| `SyncHealing.PassIsCurrent` | app/runtime/accounting.py:230-246 | a clean pass over a longer history settles all of it, if no exit carries an id its live position has |
| `PassHealing.BookingHeals` | app/runtime/accounting.py:39-51 | a booking cut after any of its events heals when a new process, with nothing counted, books the history and the fill: exactly outside the two windows |
| `PassHealing.SyncHeals` | app/runtime/accounting.py:230-246 | a pass by a process with any earlier passes behind it, cut short outside the windows and started over by a new process, ends as the uninterrupted pass |
| `PassCrashes.PassCutHeals` | app/runtime/accounting.py:230-246 | the same said of the log: a new process on any part of the pass's log, cut outside the windows, ends the pass as the old one would have |
| `PassCrashes.CrashesHeal` | app/runtime/accounting.py:39-51 | a pass cut short any number of times outside the windows, process after process, over a history that may grow between them, ends as if the first process had gone through |
| `PassHealing.RepeatedPass` | app/runtime/accounting.py:354-372 | the same pass twice in one process changes nothing the second time exactly when no close among its fills is overdue |
| `PassHealing.ClashReopens` | app/runtime/accounting.py:354-390 | the corner where it does: an exit under an id the position had taken for an entry leaves a counted-out position alive, and the next pass closes it |
| `TrailRuns.RunIsTracked` | app/runtime/accounting.py:230-392 | over runs with crashes every position entry, and every ledger entry of a watched position, is backed by one of the venue's fills |
| `PassRuns.RunIsCurrent` | app/runtime/accounting.py:230-246 | at every point of a run with clean passes over growing histories, the running process has settled the last one it saw |
| `PassRuns.ReachablePassRepeats` | app/runtime/accounting.py:29-37 | at every such point anything seen may be shown again |
| `PassRuns.ReachableBookingHeals` | app/runtime/accounting.py:39-51 | at every such point a booking heals in a new process exactly outside the two windows |
| `PassRuns.ReachableSyncHeals` | app/runtime/accounting.py:230-246 | at every such point a pass cut short outside the windows heals in a new process |
| `PassCrashes.ReachableCrashesHeal` | app/runtime/accounting.py:39-51 | at every such point a pass cut short any number of times outside the windows heals |
| `StrandedMargin.WindowStrands` | app/runtime/accounting.py:372-392 | a process that starts on a log cut right behind a close finds the position dead with all the margin it had before the booking |
| `StrandedMargin.StrandedForGood` | app/runtime/accounting.py:347-392 | no run of orders, passes, crashes and requests returns that margin, short of a release of that position by name |
| `FillTrail.TakenIsEntry` | app/runtime/accounting.py:263-322 | a venue fill a live position remembers is one of its entry fills |
| `FillTrail.DeadHoldsNothing` | app/runtime/accounting.py:382-392 | a closed position holds no margin, unless its close is the last thing on the log |
| `PositionMoney.LedgerByPosition` | portfolio_manager/manager.py:100-159 | on every log cash, profit, funding and fees are those of the log without the position, plus its own, less the margin it holds |
| `PositionMoney.ProfitsAddUp` | app/runtime/accounting.py:347-358 | the profits on the log are those of the distinct exits on the log at the position's one average price: proceeds less cost for a long, cost less proceeds for a short, less the fee |
| `PositionMoney.EntriesAddUp` | position_manager/manager.py:216-262 | quantity and notional of the recorded entries are those of the venue's distinct fills on the log |
| `PositionMoney.FeesUpWhenDead` | app/runtime/accounting.py:315-322 | a closed position has every fee of its entries on the ledger, when entries come before exits in the venue's order |
| `PositionCycle.CloseTelescopes` | app/runtime/accounting.py:347-392 | over any run with re-shown fills, other positions, requests, and crashes anywhere but between the close and its release: profit is exit less entry notional for a long, entry less exit notional for a short, less exit fees; a closed position holds nothing and was charged exactly its entry fees |
| `PositionCycle.SettledCloses` | app/runtime/accounting.py:382-392 | once a process has settled exits for all that was filled the position is closed |
| `PositionCycle.RoundTrip` | app/runtime/accounting.py:263-392 | once the running process has seen a history whose exits add up to the entries, the position is closed without margin, and cash and realised profit exceed those of a log without it by the telescoped amounts |
| `AccountingSync.AccountingSync.constructor` | app/runtime/accounting.py:175-199 | both maps are rebuilt from the log and the accumulators start empty |
| `AccountingSync.AccountingSync.RecordExecutionLevels` | app/runtime/accounting.py:211-226 | the loop records each order's levels once |
| `AccountingSync.AccountingSync.FindOpenPosition` | app/runtime/accounting.py:442-456 | the first mapped position that matches is found, and none only if none matches |
| `AccountingSync.AccountingSync.BookEntry` | app/runtime/accounting.py:263-322 | state and notes of booking an entry fill through the three managers |
| `AccountingSync.AccountingSync.BookExit` | app/runtime/accounting.py:324-392 | state and notes of booking an exit fill through the three managers |
| `AccountingSync.AccountingSync.Sync` | app/runtime/accounting.py:230-261 | state and notes of a whole pass, whatever single fills raise |
| `OrderIdMapping.KeyInjective` | hyperliquid_adapter/mapping.py:74-88 | the key determines account and token, for arbitrary texts |
| `OrderIdMapping.RunIsInverse` | hyperliquid_adapter/mapping.py:103-180 | on every run, for any minting and any other writer, the maps are mutually inverse, are what the log rebuilds, and forget nothing |
| `OrderIdMapping.RunFromNothing` | hyperliquid_adapter/mapping.py:90-131 | the same from an empty log on, without a condition on the mapping it starts from |
| `OrderIdMapping.HandedOutResolves` | hyperliquid_adapter/mapping.py:134-188 | a token handed out resolves back to its id exactly when the id is not empty |
| `OrderIdMapping.CollidingIdIsRefused` | hyperliquid_adapter/mapping.py:162-171 | an id whose token belongs to another id is refused and nothing changes |
| `OrderIdMapping.RecordingAgain` | hyperliquid_adapter/mapping.py:145-147 | recording again gives the durable token and appends nothing, even if minting has changed |
| `MappingLaws.RecordAnswers` | hyperliquid_adapter/mapping.py:134-180 | what recording answers and stores for every id and token: known, new, empty, or under a key that is taken |
| `OrderIdMapping.OrderIdMapping.RecordOrder` | hyperliquid_adapter/mapping.py:134-180 | state and answer of recording, refused without a store |
| `OrderIdMapping.OrderIdMapping.Resolve` | hyperliquid_adapter/mapping.py:184-188 | an id is found exactly for a recorded token, and it is the one that has this token |
| `OrderIdMapping.OrderIdMapping.KnownToken` | hyperliquid_adapter/mapping.py:190-194 | a token is found exactly for a recorded id, and it is the one that resolves to this id |
| `Registry.GovernanceSafety` | alpha_engine/registry/registry.py:143-251 | over runs with crashes the log replays to the records, what is past approval has seal, evidence and decision, and none of these ever changes |
| `RegistryLaws.CreateLeaves` | alpha_engine/registry/registry.py:255-301 | when an experiment is created, the record it starts as and the entry |
| `RegistryLaws.SealLeaves` | alpha_engine/registry/registry.py:303-326 | when a seal is taken, and that it is the only change |
| `RegistryLaws.AttachLeaves` | alpha_engine/registry/registry.py:328-381 | when evidence is taken, and that it is the only change |
| `RegistryLaws.TransitionLeaves` | alpha_engine/registry/registry.py:383-430 | a transition is taken exactly from a state that leads to its target, never into a decided one, into sealed evidence only with some |
| `RegistryLaws.DecisionLeaves` | alpha_engine/registry/registry.py:432-482 | when a decision is taken, the record it leaves and its two entries |
| `Registry.DecisionIsTaken` | alpha_engine/registry/registry.py:432-482 | a decision is taken exactly for an experiment in review without one |
| `Registry.InterruptedForGood` | alpha_engine/registry/registry.py:459-482 | an experiment whose decision was cut in two stays in review for good |
| `Registry.CutInterrupts` | alpha_engine/registry/registry.py:474-482 | the cut after the decision entry produces such an experiment |
| `Lifecycle.WayToApproval` | alpha_engine/registry/lifecycle.py:74-94 | sealed evidence and review are the only way into approval |
| `Lifecycle.CameFrom` | alpha_engine/registry/lifecycle.py:74-94 | the map by target: which states lead into each |
| `Lineage.HistoryIsOrdered` | alpha_engine/registry/registry.py:152-155 | in every log that replays, parents are older than their children |
| `Lineage.GetAncestors` | alpha_engine/registry/registry.py:571-599 | the walk ends, meets no cycle, and gives the ancestors root first |
| `RegistryLaws.AncestorsClimb` | alpha_engine/registry/registry.py:571-599 | the ancestors start at a root, each is the parent of the next, the last that of the experiment |
| `Lineage.GetDescendants` | alpha_engine/registry/registry.py:601-627 | the worklist walk ends, meets no cycle, and gives once each, level by level and in order, exactly the experiments that have the root among their ancestors |
| `Lineage.SortedIds` | alpha_engine/registry/registry.py:664-669 | the ids of a set, each once, by creation time and then id |
| `RegistryLaws.SortedByCreation` | alpha_engine/registry/registry.py:664-669 | that order is by time of creation and then id, both character by character |
| `ExperimentRegistry.ExperimentRegistry.Construct` | alpha_engine/registry/registry.py:124-141 | the rebuilt records are the replayed ones, or the log is refused |
| `ExperimentRegistry.ExperimentRegistry.ApplyEntry` | alpha_engine/registry/registry.py:143-251 | one entry updates a record in place, with every malformed-log check |
| `ExperimentRegistry.ExperimentRegistry.CreateExperiment` | alpha_engine/registry/registry.py:255-301 | new state and answer of creating |
| `ExperimentRegistry.ExperimentRegistry.SealExperiment` | alpha_engine/registry/registry.py:303-326 | new state and answer of sealing |
| `ExperimentRegistry.ExperimentRegistry.AttachEvidence` | alpha_engine/registry/registry.py:328-381 | new state and answer of attaching evidence |
| `ExperimentRegistry.ExperimentRegistry.ChangeState` | alpha_engine/registry/registry.py:383-430 | new state and answer of a transition |
| `ExperimentRegistry.ExperimentRegistry.ApplyGovernanceDecision` | alpha_engine/registry/registry.py:432-482 | new state and answer of a decision with its two entries |
| `ExperimentRegistry.ExperimentRegistry.Descendants` | alpha_engine/registry/registry.py:601-627 | for a registry reached through its calls the dual of the ancestor walk, unconditionally |
| `Validation.CountIsComplete` | alpha_engine/validation/runner.py:118-151 | every sample is counted once in exactly one way, and hits are among the signals |
| `Validation.CountIgnoresOrder` | alpha_engine/validation/runner.py:118-151 | the counters do not depend on the order of the samples |
| `ValidationLaws.TallyCounts` | alpha_engine/validation/runner.py:118-151 | hits are the indices with a long into a rise or a short into a fall, the sum is long outcomes less short outcomes, and the rest are counts of indices |
| `ValidationLaws.MirrorImage` | alpha_engine/validation/runner.py:133-147 | swapping long and short while negating every outcome leaves the tally as it is |
| `ValidationLaws.VerdictCounts` | alpha_engine/validation/runner.py:81-187 | a verdict in those counts: rate, mean, every criterion by cross-multiplication, and the pass |
| `Validation.RunValidation` | alpha_engine/validation/runner.py:81-187 | an error exactly for no samples or a malformed criterion, else a verdict that passes exactly if every criterion does |
| `Validation.PassingAdds` | alpha_engine/validation/runner.py:152-164 | two tallies that pass pass together |
| `Stages.FoldBoundaries` | alpha_engine/validation/walk_forward.py:82-94 | contiguous ranges from first to last sample, sizes at most one apart, the larger first, none empty when there are enough samples |
| `StageLaws.SpreadIsLargest` | alpha_engine/validation/walk_forward.py:198-199 | the spread is the largest difference between the hit rates of two folds, missing below two rates |
| `Stages.ByTimeIsStable` | alpha_engine/validation/walk_forward.py:192 | samples of the same moment keep their order |
| `Stages.ByTimeSorts` | alpha_engine/validation/walk_forward.py:192 | the sorted samples are chronological and are the same samples |
| `Stages.RunWalkForward` | alpha_engine/validation/walk_forward.py:149-221 | an error exactly for the source's caller errors, else a verdict per fold and a pass exactly if every fold passes |
| `Stages.WalkForwardImpliesSingle` | alpha_engine/validation/walk_forward.py:191-204 | passing for any number of folds implies passing the single pass on the same samples |
| `Stages.GroupByRegime` | alpha_engine/validation/regime_stratification.py:172-178 | the groups partition the labelled samples and the rest is counted |
| `StageLaws.GroupsSplit` | alpha_engine/validation/regime_stratification.py:172-178 | a group holds exactly its regime's samples, as often as they occur, and labelled and unlabelled add up |
| `Stages.RunRegimes` | alpha_engine/validation/regime_stratification.py:141-199 | a verdict per regime, and a pass exactly if every sample is labelled and every regime passes |
| `Stages.RegimesImplySingle` | alpha_engine/validation/regime_stratification.py:180-189 | passing every regime implies passing the single pass |

## Left out

- Validation of payloads, forbidden field names, key lengths and schema versions on append: single-branch checks.
- File locking, fsync and read-only readers of the log: one writer, and a crash that leaves a prefix of the bytes being written.
- A rollback whose own truncation fails, and persist failures inside the managers: the managers are modelled over appends that succeed.
- Corruption of a length field in the middle of a file that points past its end: it reads as a torn tail, as in the source, so rejection of all corruption is not claimed.
- The order manager driving an execution machine, and its reject reason, which is always empty.
- Exchange ids made of blanks only: an exchange id counts as missing when it is absent or empty.
- Two live managers, machines or mappings with the same id on one log.
- Non-positive fill quantities.
- The order, position, portfolio and accounting keys as text; portfolio keys are plain colon joins and are not injective for arbitrary ids.
- Mark-to-market, exposure and heat: the source sums a position with an entry and an exit order twice.
- `PositionCycle.CloseTelescopes`: requests other than funding that name the watched position come only from the accounting; entries after a first exit, which change the average price, are not part of the statement.
- `PositionCycle.RoundTrip`: the passes of the run complain of nothing, and the running process has seen the whole history.
- `PassHealing.SyncHeals`: the fills before the crash are booked without a complaint; a fill once refused for lack of funds may be booked by a later pass.
- `PassCrashes.CrashesHeal`: the uninterrupted pass complains of nothing, and no crash comes behind a creation or close.
- `PassRuns.RunIsCurrent`: the completed passes complain of nothing; a fill that was noted and skipped may be booked later, by whichever process sees it then.
- Venue reads that fail while fills are fetched, beyond the note they leave.
- The registry's storage bytes and its torn tail; specification, evidence and decision contents; whitespace beyond space, tab and line ends in identifiers; list and fingerprint queries.
- Evaluation functions that raise or keep state, and acceptance values that are not numbers beyond their rejection; a text that reads as not-a-number, on which the comparison itself raises.
- HTTP, messaging, metrics, signing, venue wire formats, risk limits and provider fail-safes.
