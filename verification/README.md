# Verified core of the CTCC-V2 trading controller

This project models the decision logic of CTCC-V2, a controller that analyses markets, trades on paper,
trades on an exchange's demo account under a portfolio budget, and can write to a live account behind a
durable safety protocol. It proves, for all inputs and all runs, what that logic promises, and where the
code does less than its documentation it proves exactly when the promise holds.

The modules follow the program.

| part | modules | source |
|---|---|---|
| live write protocol | `LiveProtocol`, `LiveInvariant`, `LiveResume`, `LiveSafety`, `LiveAccounts`, `LiveOutcome`, `LiveExactness`, `LiveRoutes`, `LiveProtection` | `app/okx_live` |
| paper broker and its persistence | `PaperGrid`, `PaperBook`, `PaperLedger`, `PaperTick`, `PaperBroker`, `PaperService`, `PaperTerms` | `app/paper` |
| demo pricing, sizing, allocation | `ExecutionPrice`, `DemoSizing`, `DemoAllocator`, `DemoRisk` | `app/demo_automation`, `app/risk` |
| demo finalisation | `TradeOutcome`, `PnlEvents`, `DemoFinalisation`, `OutcomeLaws`, `Ordering` | `app/demo_automation/service.py` |
| soak session | `SoakSession`, `SoakStops` | `app/observability/service.py` |
| estimators | `Matrices`, `CausalState`, `FilterLaws`, `Elimination`, `CausalTrend`, `TrendMoments`, `TrendExists`, `Conformal`, `EstimateLaws` | `app/indicators` |
| evidence fusion | `Evidence`, `MathematicalCore`, `CoreLaws`, `MathematicalConfirmation`, `MirrorSymmetry` | `app/analysis`, `app/strategies`, `app/domain` |

`Reals` and `Options` hold shared arithmetic and the optional value.

`LiveAccounts`, `PaperTerms`, `DemoRisk`, `OutcomeLaws`, `FilterLaws`, `EstimateLaws` and `CoreLaws` say what the
operations compute in plain numbers and record fields, apart from the definitions the operations are built from: on
which account an order is sent, at what price and fee it fills, what a reservation loses at its stop, what a report
nets, how an observation moves the filter, what a straight line looks like to the trend, and who decides a snapshot.

## How the code is modelled

- The live protocol is a step system. Any number of processes share one database and one account; every
  `await` is two steps, the remote effect and the continuation. Between steps the clock may move, other
  coroutines may disarm, stop or latch, the operation may be cancelled and the process may restart. A database call
  may fail before or after it takes effect; the exchange may accept, refuse or answer ambiguously.
- An observer beside the live step system notes every answer an operation receives; it changes nothing and lets
  results speak of the accounts, latches and rows that were read before an arm or a write.
- The paper broker, its service, the demo state and the soak session are classes whose methods update
  their fields in the source's order; each method ends in the state its specification function gives, or
  in the promised property itself.
- Money is real arithmetic with the source's quantize, floor and ceiling steps written out. Estimators are
  exact reals; the square root is any function with its defining property.

## Where the code does less than it says

- One order call per arm (`place_order` and `_disarm_local`): false. Four routes lead to a second call, each
  exhibited from every idle armed state: an explicit refusal stored by an operation that is then cancelled
  (`TwoCallsReachable`) or loses the database's answer (`TwoCallsByLostAnswer`), a clear cancelled right
  after marking (`TwoCallsByCutClear`), and a clear by another process (`TwoCallsByOtherClear`). For an idle
  armed process on a clear latch that has already called, the next order run calls again if and only if
  nothing is unresolved (`SecondCallExactly`); every earlier order of the arm was then refused or resolved on
  a stable flat account (`TwoCallsInOneArm`). With one process, no cancellation and no lost answer the
  promise holds (`OneCallPerArm`).
- One-to-one protection: `_reconciled_positions_protected` implies it if and only if no two open positions
  share instrument, side, margin mode and direction, and no protection order is left over while nothing is open
  (`OneToOneExactly`). `TwinsReported` and `LeftoverReported` are snapshots that are reported protected and are
  not one to one: the report returns at once when nothing is open, before it counts orders.
- Memory equals database in the paper service: false after two kinds of save. One is cut off before it is
  stored by task cancellation, which `except Exception` does not catch, so memory keeps the new state. The other
  is stored and loses its answer, so the handler rolls memory back while the store keeps the new state. From
  agreement, a call ends in agreement if and only if it is neither an accepted mutation nor a tick that filled
  or closed something with such a save; the reset of an empty book is the one harmless mutation (`ServeExactly`,
  `CutSaveExactly`, `CutTickExactly`, `LostSaveExactly`, `LostTickExactly`). Once they differ, a call with any
  other save brings them together if and only if it stores the state it leaves in memory, restores or restarts
  (`ServeSound`). A rollback gives back what `state` showed, which is memory itself if and only if cash and
  starting balance are on the 1e-8 grid (`RollbackExactlyOnGrid`).
- Conservation of cash across restores: truncation is toward zero, so a restored snapshot stays conserved if and
  only if its starting balance is on the grid or its cash is not negative (`RestoreConservesExactly`);
  `OverdrawnRestored` is a run that loses a grid unit.
- Re-checks after lot rounding: at given prices they can never refuse if and only if the limit is not below
  the reference (`RechecksIdleExactly`); for a candidate that was priced this means long, or short at the
  reference itself (`PricedRechecksExactly`). `PricedShortRefused` is a short priced at 99.5 from 100 whose
  order is refused.
- "A wick cannot receive more influence than an ordinary sample" in the state filter: a step of the filter
  keeps that if and only if 2.5 times the predicted level variance is at most the observation variance times
  the size of the innovation's z-score (`OutlierInfluenceExactly`). On the first step of every window it fails
  for all z-scores of size above 2.5 up to 12, on either side (`FirstWickGetsMore`).
- Finite-sample coverage: the conformal rank covers the requested share of any n + 1 residuals held out in
  turn if and only if the rank was not capped (`GuaranteeExactly`). A calibration size of twenty passes the
  guard and never publishes (`PublishedExactly`).
- One profit event per closed trade: the event is kept exactly while every later recording of the same pass
  finds it inside the retention window and no more than five minutes ahead (`OneEventPerTrade`);
  `FirstEventLost` is a pass that loses one.
- Validated snapshots can be refused as confirmations, exactly when status, score, confidence and
  reliability reach the medium grade without a validated component (`ConfirmationExactly`); snapshots built
  by the core never are.
- Stronger evidence never lowers the risk grade: false exactly when it turns doubt about an opposed direction
  into opposition (`GradeMonotone`).
- A soak safety stop takes effect, and asks for the emergency stop, exactly when the event that announces
  it can be written first (`SafetyStop`).
- One end per soak session when several stops overlap: guaranteed if and only if the session does not disarm
  automatically or has fewer than two stops (`EndsOnceExactly`); otherwise the end is written once more for each
  stop that was waiting for its disarm when the session first ended (`EndsExactly`).

## Model

| member | source | states |
|---|---|---|
| LiveInvariant.EffectKept | app/okx_live/service.py:1617-1786 | Whatever a remote call does (success, refusal, ambiguity, failure before or after commit), the protocol invariant survives |
| LiveResume.ContinueOk | app/okx_live/service.py:559-777 | Every continuation after an await keeps the history, the process and what other processes rely on; on which accounts it goes on is stated by `OrdersOnCleanAccounts` and `ReadDecides` |
| LiveSafety.StepKept | app/okx_live/service.py:341-534 | Every step of every process, including cancellation, restart, disarm and latch, keeps the invariant |
| LiveSafety.RunKept | app/okx_live/service.py:559-777 | The invariant holds after every finite run |
| LiveSafety.TwoCallsInOneArm | app/okx_live/service.py:637-690 | Two order calls under one arm mean the earlier was explicitly refused or resolved on a stable flat account, through one of three named interruptions |
| LiveSafety.SentAloneAndOnce | app/okx_live/service.py:565-690 | Over every run an order is sent only while its own intent is the one unresolved intent, and no idempotency key is written twice |
| LiveSafety.NothingUnresolvedMeansAllKnown | app/okx_live/service.py:1653-1728 | When no intent is unresolved, every order ever sent was refused, confirmed by an exact observation, or resolved on a stable flat account |
| LiveSafety.EveryEndIsSeen | app/okx_live/service.py:456-534 | Over every run an order whose intent no longer blocks was refused, was seen final with no order and either nothing else or one exactly protected position, or was cleared after two or more equal reads without position, order or algo order |
| LiveSafety.EndsAreFinal | app/database/repositories/okx_live_execution.py:39-45 | In every run confirmed, rejected and ambiguous intents keep their status, an acknowledged one becomes confirmed or ambiguous at most, and reconciliation is never taken back |
| LiveSafety.RowsExactly | app/database/repositories/okx_live_execution.py:47 | The rows an operator quotes are the reserved, acknowledged and ambiguous intents that are not reconciled, with status and time |
| LiveSafety.StoppedIsDisarmed | app/okx_live/service.py:1818-1843 | In every reachable state a stopped process is disarmed and at most one process holds the write guard |
| LiveSafety.StopLiftedOnlyByProvenClear | app/okx_live/service.py:389-534 | Within a process the stop is lifted only by a clear that saw two or more identical flat polls, left nothing unresolved and found the latch version moved by itself alone |
| LiveSafety.ClearMarksExactlyTheQuotedSet | app/okx_live/service.py:405-454 | Marking happens only when the unresolved rows equal what the operator quoted, and leaves none |
| LiveSafety.LatchVersionGrows | app/okx_live/service.py:1829-1843 | No step lowers the latch version, and the latch never changes without moving it |
| LiveSafety.CancelledOk | app/okx_live/automation.py:133-143 | Cancelling a task at any await keeps the invariant although no handler runs |
| LiveSafety.RestartedOk | app/okx_live/service.py:1025-1042 | A process that restarts with empty memory keeps the invariant |
| LiveAccounts.RunWatched | app/okx_live/service.py:341-1024 | Over every run the noted answers of every running operation are exactly the good answers of its path so far, and every noted arm and write has its whole path behind it |
| LiveAccounts.OrdersOnCleanAccounts | app/okx_live/service.py:559-664 | Over every run each order call follows exactly eleven answers of its own operation; both account reads are capable with no position, order or algo order and have lost less than the limit's share of the equity the arm started from, latch and intents read clear, and the call falls before the arm's end |
| LiveAccounts.ArmsOnCleanAccounts | app/okx_live/service.py:341-360 | Over every run each arm starts from the guard, a capable account with no position, order or algo order and positive equity, a clear latch and no unresolved intent |
| LiveAccounts.WritesOnReadAccounts | app/okx_live/service.py:779-1024 | Over every run each cancellation, close and leverage change follows exactly the answers of its kind: a close on exposure, after the latch is written when a position is unprotected; a leverage change on an empty account within its arm |
| LiveAccounts.ReadDecides | app/okx_live/service.py:1254-1294 | An order's account read goes on, stops or gives up, each exactly: on when clean and above the loss limit, stop on an unprotected position or a loss at or past the limit |
| LiveAccounts.BadReadStopsAndLatches | app/okx_live/service.py:1285-1294 | A read at or past the loss limit, or of an unprotected position, ends stopped, disarmed and latched once the latch is stored, with nothing sent |
| LiveAccounts.ArmsEnd | app/okx_live/service.py:1814-1827 | An arm ends exactly at its time, at once on a disarm, and with every stop |
| LiveOutcome.SettledOrStopped | app/okx_live/service.py:664-777 | Over every run an operation that ends after its exchange write leaves its outcome stored as confirmed or rejected, or the process stopped; the one exception is a refusal whose own recording failed |
| LiveOutcome.AnswerDecides | app/okx_live/service.py:1730-1786 | A refused write is recorded as rejected and an unknown one as ambiguous, an unusable acknowledgement stops, and only an accepted order counts as a submission |
| LiveOutcome.OrderObservationDecides | app/okx_live/service.py:690-777 | What is seen after an acknowledged order records it as confirmed, or stops, or stops and latches, each exactly, in the fields of the snapshot |
| LiveOutcome.WriteObservationDecides | app/okx_live/service.py:779-956 | After any other acknowledged write an unprotected position stops and latches and an unconfirmed effect stops, and nothing else does |
| LiveOutcome.FailureDecides | app/okx_live/service.py:664-671 | A failure before the order call is recorded as rejected exactly when it was explicit |
| LiveExactness.OneCallPerArm | app/okx_live/service.py:341-360 | One process, no cancelled task and no lost database answer: at most one order call per arm in every interleaving |
| LiveExactness.AnArmedProcessCanCall | app/okx_live/service.py:559-690 | From every idle armed state with nothing unresolved an order call is reachable, so the results above are not vacuous |
| LiveExactness.UnresolvedBlocks | app/okx_live/service.py:1265-1273 | While anything is unresolved an order run leaves the whole history as it was: nothing is sent |
| LiveExactness.SecondCallExactly | app/okx_live/service.py:559-690 | For a reachable idle armed process with an earlier call of its arm, on a clear latch, the order run calls again under that arm if and only if nothing is unresolved, and then every earlier call of the arm has escaped |
| LiveExactness.CutKeepsTheArm | app/okx_live/service.py:664-671 | A refusal stored by a task that is then cancelled leaves the process armed exactly as it was |
| LiveExactness.TwoCallsReachable | app/okx_live/service.py:1763-1786 | From every idle armed state that interruption yields two order calls under one arm |
| LiveExactness.ArmingReachesIt | app/okx_live/service.py:341-360 | Arming a flat account with positive equity leads from the start to such a state |
| LiveRoutes.LostAnswerKeepsTheArm | app/okx_live/service.py:664-671 | A refusal stored by a call whose database answer is lost leaves the process armed exactly as it was |
| LiveRoutes.TwoCallsByLostAnswer | app/okx_live/service.py:1763-1786 | From every idle armed state a lost database answer yields two order calls under one arm |
| LiveRoutes.TwoCallsByCutClear | app/okx_live/service.py:389-534 | So does a clear of the same process that is cancelled right after marking |
| LiveRoutes.TwoCallsByOtherClear | app/okx_live/service.py:389-534 | So does a completed clear by another process |
| LiveProtection.Reconcile | app/okx_live/service.py:1446-1477 | The loop reports protected exactly when nothing is open, or intents could be loaded, no order is pending, algo ids are distinct and as many as positions, and every position is accounted for; a raised error has a witness position |
| LiveProtection.GuardMeans | app/okx_live/service.py:1536-1590 | A guarding algo order is one of the snapshot's, carries its intent's client id, and stands and exits as the next row spells out |
| LiveProtection.ProtectsExactly | app/okx_live/service.py:1479-1590 | An intent accounts for a position if and only if its one order is a live, untouched pair of market exits at the promised prices and trigger, between the position's and the promised size, selling out of a long below the target or buying out of a short above it, reduce-only on a net position |
| LiveProtection.ProtectedMeansOneToOne | app/okx_live/service.py:1446-1534 | Without twin positions and without an order left over, a protected report is a one-to-one correspondence with no orphan protection order |
| LiveProtection.OneToOneExactly | app/okx_live/service.py:1446-1534 | From a protected report such a correspondence exists if and only if no two open positions are twins and no order is left over with nothing open |
| LiveProtection.TwinsReported | app/okx_live/service.py:1446-1534 | A snapshot with two equal positions and two distinct algo orders on one intent is reported protected, and no one-to-one correspondence exists |
| LiveProtection.LeftoverReported | app/okx_live/service.py:1450-1451 | With nothing open, a snapshot with one protection order is reported protected, and the order guards nothing |
| PaperGrid.QTowardZero | app/paper/engine.py:18-22 | Quantizing never grows an amount and never flips its sign |
| PaperLedger.FillBalanced | app/paper/engine.py:232-264 | A fill leaves cash less what positions contributed as it was |
| PaperLedger.FillOwnership | app/paper/engine.py:248-264 | A fill gives the filled order exactly one position and no other order any |
| PaperLedger.CloseExact | app/paper/engine.py:266-287 | The realized profit of a close is exact: its final truncation drops nothing |
| PaperLedger.RestoreExact | app/paper/engine.py:62-79 | Restoring a snapshot gives back every order and position and the quantized balances |
| PaperLedger.RestoreConservesExactly | app/paper/engine.py:62-79 | Restoring a conserved snapshot conserves cash if and only if its start is on the grid or its cash is not negative |
| PaperLedger.DoKeptExactly | app/paper/engine.py:62-191 | Conservation, ownership and grid survive an operation if and only if it does not restore an overdrawn snapshot |
| PaperLedger.LedgerKept | app/paper/engine.py:62-191 | Conservation, grid and ownership survive every sequence of operations, including restores of every earlier snapshot that is not overdrawn |
| PaperLedger.ConservedFromAnyStart | app/paper/engine.py:43-292 | From any starting balance, over every such run, cash is start plus realized profit minus fees of open positions, exactly |
| PaperLedger.ConservedFromStart | app/paper/engine.py:212-287 | From an on-grid start the same after every run, whatever it restores |
| PaperLedger.OverdrawnRestored | app/paper/engine.py:62-79 | A fill on a balance of half a grid unit, saved and restored, is no longer conserved |
| PaperLedger.RollbackExactlyOnGrid | app/paper/engine.py:65-66 | A rollback changes nothing if and only if cash and start are on the grid |
| PaperLedger.SlippageIsAdverse | app/paper/engine.py:289-292 | Slippage never helps: buys cost at least the price, sells bring at most the price, opening or closing |
| PaperLedger.RoundTripNeverGains | app/paper/engine.py:232-297 | Opening at the market and closing at the same price never realizes a gain, long or short, despite truncation |
| PaperTick.TickShape | app/paper/engine.py:142-179 | A tick acts on every order and position on its own; the new positions are those the marketable orders open, one each and in their order, marked or closed like the older ones |
| PaperTick.TickSettles | app/paper/engine.py:136-187 | Afterwards no pending limit of the symbol is marketable (in prices: `NothingIsCrossed`) and every open position of it, just filled or older, is marked and strictly between its stop and target |
| PaperTick.TickLeavesOthers | app/paper/engine.py:142-157 | Orders and positions of other symbols are untouched |
| PaperTick.TickTwice | app/paper/engine.py:136-187 | Repeating a tick at the same price is the identity on the whole book |
| PaperTerms.NothingIsCrossed | app/paper/engine.py:142-150 | After a tick every pending long limit of the symbol lies strictly below the price and every pending short limit strictly above it |
| PaperTerms.TickFillsExactly | app/paper/engine.py:142-153 | A tick fills exactly the pending orders of its symbol that were long with price at most the limit or short with price at least it, and changes no other order |
| PaperTerms.TickFillTerms | app/paper/engine.py:146-153 | Whatever a tick fills is filled at its own limit with the maker fee |
| PaperTerms.FillTerms | app/paper/engine.py:232-264 | A fill appends one position with the order's side, size and bracket at the fill price, and takes exactly its fee from cash |
| PaperTerms.SlippedIs | app/paper/engine.py:289-292 | Slippage is the stated basis points of the price, against the trader |
| PaperTerms.CloseTerms | app/paper/engine.py:266-287 | A close pays the profit of the move on its side less the taker fee, each exact up to a grid unit, and nothing else into cash |
| PaperTerms.TickClosesExactly | app/paper/engine.py:156-179 | A tick closes exactly the open positions of the symbol whose stop or target the price has reached, with the reason of the side it reached, and marks the rest |
| PaperTerms.MarkTerms | app/paper/engine.py:156-165 | A mark shows the price and the unrealized profit at it, each up to a grid unit |
| PaperTerms.SubmitTerms | app/paper/engine.py:88-126 | An accepted request becomes one order with its own fields on the grid, filled at once as taker when it is a market order |
| PaperTerms.CancelTerms | app/paper/engine.py:128-134 | A cancellation succeeds exactly on a pending order and changes its status alone |
| PaperTerms.CloseRequestTerms | app/paper/engine.py:189-191 | A requested close succeeds exactly on an open position and changes no other and no order |
| PaperBroker.PaperBroker.constructor | app/paper/engine.py:43-60 | A new broker holds the starting balance and nothing else |
| PaperBroker.PaperBroker.FillOrder | app/paper/engine.py:232-264 | The field updates end in the specified fill |
| PaperBroker.PaperBroker.CloseOpen | app/paper/engine.py:266-287 | The field updates end in the specified close |
| PaperBroker.PaperBroker.SubmitOrder | app/paper/engine.py:88-126 | Succeeds exactly when the specification does, with the same error otherwise, and an error changes nothing |
| PaperBroker.PaperBroker.CancelOrder | app/paper/engine.py:128-134 | Only a pending order is cancelled; every refusal leaves the book alone |
| PaperBroker.PaperBroker.ClosePosition | app/paper/engine.py:189-191 | Only an open position is closed; every refusal leaves the book alone |
| PaperBroker.PaperBroker.FillIfMarketable | app/paper/engine.py:142-153 | One order is filled exactly when it is pending and marketable, which `TickFillsExactly` gives in prices; the others stay |
| PaperBroker.PaperBroker.FillPass | app/paper/engine.py:142-153 | The first loop of a tick, with the ids it filled in order |
| PaperBroker.PaperBroker.MarkAt | app/paper/engine.py:156-179 | One position is marked and closed exactly when its bracket is reached; the others stay |
| PaperBroker.PaperBroker.MarkPass | app/paper/engine.py:155-179 | The second loop of a tick, with the ids it closed in order |
| PaperBroker.PaperBroker.TickOnce | app/paper/engine.py:136-187 | Both loops compose to the specified tick, whose effect `TickFillsExactly` and `TickClosesExactly` give in prices, and report its fills and closes |
| PaperBroker.PaperBroker.RestoreFrom | app/paper/engine.py:62-79 | In-place replacement by a snapshot |
| PaperBroker.PaperBroker.ResetAll | app/paper/engine.py:81-86 | Reset to the starting balance |
| PaperService.QuietTick | app/paper/execution_service.py:107-134 | A tick without fill or close changes nothing but marks and unrealized profit, so skipping its save is safe |
| PaperService.TickSavesExactly | app/paper/execution_service.py:100-134 | A tick is stored exactly when something filled or closed, or marks are due with a position open, and what is stored is what memory shows |
| PaperService.RecoveryInSync | app/paper/execution_service.py:54-84 | Recovery brings memory and store together from any stored book, and from an empty store once the first save is stored, answered or not |
| PaperService.AlwaysInSync | app/paper/execution_service.py:100-170 | Over every run without a call whose save parts a visible change, memory and durable state agree after every call, harmless cuts, failed saves, restores and restarts included |
| PaperService.InSyncAfterRecovery | app/paper/execution_service.py:54-170 | From the construction of a new broker with any starting balance and recovery on, memory and durable state agree over every such run |
| PaperService.ServeExactly | app/paper/execution_service.py:100-245 | From agreement, a call ends in agreement if and only if it is not a visible change whose save was cut off unstored or was stored with its answer lost |
| PaperService.CommitsOrRollsBack | app/paper/execution_service.py:223-245 | For every kind of save: new state on both sides, or what was shown before on both, or exactly one named side holding the new one; a broker error changes nothing |
| PaperService.MutationShows | app/paper/execution_service.py:223-245 | Every accepted mutation but the reset of an empty book shows in the durable fields |
| PaperService.CutSaveExactly | app/paper/execution_service.py:234-245 | After a save cut off before it is stored, both agree if and only if that reset was the mutation |
| PaperService.CutTickExactly | app/paper/execution_service.py:107-134 | After a tick whose save is cut off before it is stored, both agree if and only if the tick filled and closed nothing |
| PaperService.LostSaveExactly | app/paper/execution_service.py:234-245 | After a mutation whose save is stored and raises, both agree if and only if it was the reset of an empty book |
| PaperService.LostTickExactly | app/paper/execution_service.py:107-134 | After a tick whose save is stored and raises, both agree if and only if the tick filled and closed nothing |
| PaperService.ServeSound | app/paper/execution_service.py:54-245 | Whatever saves do, both books stay well formed, and conserved from an on-grid start; once they differ, a call without a parting save makes them agree if and only if it stores what it leaves in memory, restores or restarts |
| PaperService.AlwaysSound | app/paper/execution_service.py:54-245 | Both books stay well formed over every run, and conserved from an on-grid start, whatever is cut off or lost |
| PaperService.PaperExecutionService.MutateOnce | app/paper/execution_service.py:223-245 | The object's mutate-then-persist ends in the specified service state for every kind of save |
| PaperService.PaperExecutionService.TickAndPersist | app/paper/execution_service.py:100-134 | Saves exactly when something filled or closed, or marks are due with a position open, and ends in the specified state for every kind of save |
| PaperService.PaperExecutionService.Recover | app/paper/execution_service.py:54-84 | Restores the stored state, or stores the first one; memory and store then agree |
| ExecutionPrice.AcceptableExactlyInside | app/demo_automation/execution_quality.py:42-82 | At any positive price beyond the stop the reward/risk floor is met if and only if the price balances inside the target |
| ExecutionPrice.BoundaryIsBalance | app/demo_automation/execution_quality.py:134-157 | The closed-form boundary is exactly where that balance turns |
| ExecutionPrice.LimitIsBest | app/demo_automation/execution_quality.py:144-163 | The limit is aligned, inside both boundaries, and no aligned price inside both is better |
| ExecutionPrice.PricedExactlyWhenMarketable | app/demo_automation/execution_quality.py:152-179 | On a usable reference a limit is returned exactly when the best aligned one is marketable; the two final re-checks never refuse |
| ExecutionPrice.FoundWheneverOneExists | app/demo_automation/execution_quality.py:112-179 | Some aligned, allowed and marketable price implies a limit is returned |
| ExecutionPrice.FillsAreGood | app/demo_automation/execution_quality.py:182-194 | Every positive fill at the limit or better and inside the stop meets the reward/risk floor and the slippage cap |
| ExecutionPrice.PricedInNumbers | app/demo_automation/execution_quality.py:112-179 | A limit is found exactly when the reference is worthwhile and some multiple of the tick at or beyond it is worthwhile after costs and within the allowed basis points; and it is the furthest such multiple |
| ExecutionPrice.FillsInNumbers | app/demo_automation/execution_quality.py:182-194 | Every fill at the limit or better wins at the target at least the required ratio of what it loses at the stop, costs included, within the allowed basis points of the reference |
| ExecutionPrice.QualityInNumbers | app/demo_automation/execution_quality.py:42-82 | The reported gross ratio times the risk is the reward, and the net ratio the same after costs on both sides |
| DemoSizing.BucketPlan | app/demo_automation/capital_bucket.py:50-70 | Slots times target margin never exceed equity, the position cap never exceeds what is available, and there is at least one slot |
| DemoSizing.QuantityBounds | app/risk/engine.py:60-77 | The engine's quantity keeps the loss within the risk budget and the notional within its cap |
| DemoSizing.QuantityIsLargest | app/risk/engine.py:60-72 | Every grid quantity that respects the budget, the cap and the minimum is at most the engine's |
| DemoSizing.RoundingShrinks | app/demo_automation/service.py:1999-2013 | Lot rounding never buys more than the approved quantity |
| DemoSizing.LotsAreLargest | app/demo_automation/service.py:2006-2007 | Every whole number of lots worth no more than the approved quantity is at most the rounded one |
| DemoSizing.RechecksAreIdle | app/demo_automation/service.py:1249-1380 | With the limit at or above the reference no budget re-check after rounding can refuse |
| DemoSizing.RecheckCanFail | app/demo_automation/service.py:1341-1380 | For every limit below the reference, whatever stop and cost, there are a budget and a ticket at those prices whose re-check refuses |
| DemoSizing.RechecksIdleExactly | app/demo_automation/service.py:1249-1380 | At given limit, reference, stop and cost the re-checks are idle over all budgets, tickets and portfolios if and only if the limit is not below the reference |
| DemoAllocator.ReservationFits | app/demo_automation/service.py:1095-1380 | A reservation fits the remaining risk, margin, slots and bucket, long or short; `ReservationTerms` says what its shares measure |
| DemoAllocator.AdmissionInBudget | app/demo_automation/service.py:596-602 | Admitting what fits keeps every budget, and the max with zero never changes the equity left |
| DemoAllocator.TakeKeepsBudget | app/demo_automation/service.py:811-928 | One candidate, whatever the answer of the exchange, keeps every budget |
| DemoAllocator.Process | app/demo_automation/service.py:811-928 | One candidate's bookkeeping ends in the specified tally |
| DemoAllocator.Scan | app/demo_automation/service.py:556-602 | The loop with its breaks ends in the specified tally, whose orders `ScanBacks` and `ScanEnds` give |
| DemoAllocator.ScanKeepsBudget | app/demo_automation/service.py:556-602 | Every suffix of a scan keeps the budgets it found |
| DemoAllocator.ScanStaysInBudget | app/demo_automation/service.py:556-605 | For every ranked list: risk cap, position limit and bucket hold, equity left plus new margin is the initial equity, attempts stay within the run's limit; in losses at the stops: `ScanLossCapped` |
| DemoRisk.ReservationTerms | app/demo_automation/service.py:1341-1380 | For every reservation the booked risk share times equity is contracts times contract value times the stop distance from the limit, plus cost on the notional; margin times leverage is the notional, and the margin share times equity the margin |
| DemoRisk.ReservationNeeds | app/demo_automation/service.py:1095-1340 | Whatever is reserved met no legacy trade, a free slot, an approving engine, a usable instrument and its minimum size |
| DemoRisk.ScanLossCapped | app/demo_automation/service.py:556-602 | For every scan the summed losses at the stops of the admitted orders, on top of what was open, stay within the risk cap of equity |
| DemoRisk.ScanBacks | app/demo_automation/service.py:556-602 | The trades a scan adds book, one by one, the losses at the stops of the orders it admits |
| DemoRisk.ReservationFitsTier | app/demo_automation/service.py:1097-1367 | Each order's loss at its stop also fits its tier's share of equity and what the portfolio has left |
| DemoRisk.ReservationIsLargest | app/demo_automation/service.py:1275-1340 | No larger whole number of lots fits the risk, notional and contract limits |
| DemoRisk.RiskLimitIs | app/demo_automation/service.py:1097-1102 | The risk share behind a reservation is the smaller of the tier's and what the portfolio has left |
| DemoRisk.BucketLimitIs | app/demo_automation/service.py:1205-1236 | With buckets the notional limit is the smallest of order cap, leveraged available equity and leveraged bucket |
| DemoRisk.MarginLimitIs | app/demo_automation/service.py:1182-1236 | Without buckets the margin share is the smaller of the tier's and what the portfolio has left |
| DemoRisk.BucketIsLargest | app/demo_automation/capital_bucket.py:50-70 | Above one bucket no more whole buckets fit into equity than the plan counts |
| DemoRisk.TakeCounts | app/demo_automation/service.py:1588-1890 | Each answer of the exchange counts, stops and reserves exactly as it should: only an unconfirmed leverage is no attempt, only a usable fill is reserved |
| DemoRisk.ScanEnds | app/demo_automation/service.py:556-602 | A stopped run, a lock or an exhausted attempt budget ends an executing scan where it stands |
| DemoAllocator.LongOrdersPassEveryRecheck | app/demo_automation/service.py:1095-1380 | From quote to lot-rounded order no long candidate is refused by a budget re-check |
| DemoAllocator.PricedRechecksExactly | app/demo_automation/execution_quality.py:112-179 | For every candidate that gets a limit, the re-checks are idle over all its tickets and budgets if and only if it is long or priced at the reference |
| DemoAllocator.PricedShortRefused | app/demo_automation/service.py:1249-1380 | A short from 100 with stop 101 and target 90 is priced at 99.5, and its ticket is refused after rounding |
| TradeOutcome.LatestReportDecides | app/demo_automation/service.py:2399-2442 | Each closing order counts once, with the last of its latest eligible reports, and every eligible order counts |
| TradeOutcome.ClosingOutcome | app/demo_automation/service.py:2399-2442 | The loop over reports gives latest close, summed net result and order ids of those matches |
| PnlEvents.NormaliseKeeps | app/demo_automation/service.py:2491-2561 | Ids become distinct, nothing outside the window survives, and of a distinct list everything inside does |
| PnlEvents.NormaliseIdempotent | app/demo_automation/service.py:2491-2561 | Normalising twice at one time finds the same events |
| PnlEvents.RecordExactly | app/demo_automation/service.py:2444-2489 | Afterwards the new event is the only one with its id, the others are the normalised ones, and the list is sorted |
| DemoFinalisation.SettlementExactly | app/demo_automation/service.py:2225-2278 | With every outcome known the settled list holds exactly one outcome per trade gone past the grace window, in closing order |
| DemoFinalisation.AllOrNothing | app/demo_automation/service.py:2225-2301 | Either exactly the gone trades are removed and no safety flag moves, or nothing is removed or recorded and automation ends disarmed, stopped and locked |
| DemoFinalisation.Settled | app/demo_automation/service.py:2276-2301 | Settling moves the event list, the active trades and the loss counter each on its own, and no safety flag or session |
| DemoFinalisation.EventSurvives | app/demo_automation/service.py:2276-2301 | After k recordings the event of outcome j is there, alone under its id, exactly when every later recording found it inside the window |
| DemoFinalisation.OneEventPerTrade | app/demo_automation/service.py:2444-2489 | The same for the whole finalisation |
| DemoFinalisation.StaleEventLost | app/demo_automation/service.py:2276-2301 | An outcome that closed before the retention window loses its event as soon as the same pass records another |
| DemoFinalisation.FirstEventLost | app/demo_automation/service.py:2491-2561 | Two trades that closed ten days apart and settle in one pass: with any grace and retention below that, no event of the first is left |
| DemoFinalisation.LossesAreTrailingRun | app/demo_automation/service.py:2288-2294 | The loss counter is the trailing run of losing same-session closes in closing order, continued from before when all lose |
| DemoFinalisation.TrailingRunUnique | app/demo_automation/service.py:2288-2294 | That run is determined by the results alone |
| OutcomeLaws.ChargeLowers | app/demo_automation/service.py:2426-2431 | A charge lowers the net of a report by its size, and a fee that is not negative changes nothing |
| OutcomeLaws.RebateRaises | app/demo_automation/service.py:2428-2431 | A rebate raises it by its size, and a negative one changes nothing |
| OutcomeLaws.FundingAdds | app/demo_automation/service.py:2420-2431 | Funding and realised profit add with their sign, and nothing else counts when the other fields are missing |
| OutcomeLaws.FillFeeStandsIn | app/demo_automation/service.py:2425-2430 | A fill fee stands in for a missing fee or rebate, and its sign says for which |
| OutcomeLaws.OutcomeIsTheSum | app/demo_automation/service.py:2399-2442 | An outcome's net is the sum of the nets of the deciding reports, each order once |
| OutcomeLaws.OutcomeExactly | app/demo_automation/service.py:2399-2442 | There is an outcome exactly when a filled closing report of the instrument with a profit is not older than the trade; it closes with the latest and names their orders |
| OutcomeLaws.SettledTrade | app/demo_automation/service.py:2276-2301 | A gone trade leaves an event with the sum of its deciding reports, exactly while no later recording of the pass expires it, and its closing time as its cooldown and at most the last closing time |
| OutcomeLaws.WindowExactly | app/demo_automation/service.py:2491-2512 | Recording keeps exactly the other events from one retention period back to five minutes ahead |
| DemoFinalisation.Automation.NormaliseEvents | app/demo_automation/service.py:2491-2561 | The in-place loop ends in the specified list |
| DemoFinalisation.Automation.RecordEvent | app/demo_automation/service.py:2444-2489 | The in-place update ends in the specified list |
| DemoFinalisation.Automation.FinalizeActiveTrades | app/demo_automation/service.py:2225-2301 | The whole mutation of the state ends in the specified state |
| SoakSession.Soak.Finish | app/observability/service.py:835-868 | Takes effect exactly on a running session, and auto-disarms exactly when that call succeeds; inside the loop no other end overlaps it, since a stop waits for the loop |
| SoakSession.Soak.SafetyStop | app/observability/service.py:765-790 | Stops a running session, and engages the emergency stop, exactly when the announcing event could be written |
| SoakSession.Soak.Checkpoint | app/observability/service.py:444-452 | Completes only with the submission budget spent and nothing open |
| SoakSession.Soak.RunAndCount | app/observability/service.py:454-482 | A run makes no more attempts than the session has left, and all reported attempts are counted |
| SoakSession.Soak.AfterRun | app/observability/service.py:474-486 | A run that made more attempts than its budget stops the session for the exceeded limit, exactly when that could be announced; one within budget never does |
| SoakSession.Soak.ExecuteRun | app/observability/service.py:441-537 | An exception ends an execute session, every round counts a run, and counted attempts stay equal to made ones while it goes on |
| SoakSession.Soak.FinishForLimit | app/observability/service.py:750-763 | An execute session completes at a limit only on a flat snapshot |
| SoakSession.Soak.Rounds | app/observability/service.py:399-419 | The loop ends within the run limit and keeps the session's invariant |
| SoakSession.Soak.Loop | app/observability/service.py:399-439 | A loop that ends with the session still running saw the operator's stop or failed to write the safety event |
| SoakSession.Soak.Stop | app/observability/service.py:323-332 | Whatever still runs becomes stopped; an ended session keeps its end |
| SoakSession.Session | app/observability/service.py:399-868 | In every world: runs within the run limit, attempts within the submission limit and each made right after a check that read a safe, protected account above the loss limit; the over-limit branch therefore never taken, running left exactly once, completed only flat |
| SoakStops.AlwaysCoherent | app/observability/service.py:323-332 | In every interleaving of stops the session runs exactly until its first end is written, and never again |
| SoakStops.ThroughMeansEnded | app/observability/service.py:323-332 | A stop that returns leaves an ended session, and it stays ended |
| SoakStops.EndsExactly | app/observability/service.py:835-851 | The end is written once, and once more for each other stop that was disarming when the session first ended |
| SoakStops.TwoEnds | app/observability/service.py:835-851 | Two overlapping stops both write the end, and the later reason replaces the earlier |
| SoakStops.EndsOnceExactly | app/observability/service.py:323-332 | At most one end in every interleaving if and only if the session does not disarm automatically or has fewer than two stops |
| Matrices.CongruencePsd | app/indicators/causal_state.py:44-75 | A P A' is symmetric positive semidefinite whenever P is |
| CausalState.PredictedPsd | app/indicators/causal_state.py:67-75 | Prediction keeps the covariance symmetric positive semidefinite |
| CausalState.UpdatedPsd | app/indicators/causal_state.py:78-108 | So does the Joseph update with its clean-up, with diagonal at least epsilon, and averaging mirrored entries changes nothing |
| CausalState.UpdateInPlace | app/indicators/causal_state.py:78-108 | The in-place loops over the matrix end in the specified update |
| CausalState.Weigh | app/indicators/causal_state.py:180-200 | Down-weighting never shrinks the observation variance, and the variance divided by is positive |
| CausalState.EveryStepIsSound | app/indicators/causal_state.py:171-220 | For every observation sequence each predicted and stored covariance is positive semidefinite and each divisor positive |
| CausalState.SummaryBounds | app/indicators/causal_state.py:222-268 | Shock and confidence lie in the unit interval without their clamps, z-scores within twenty, deviations positive |
| CausalState.EstimateBounds | app/indicators/causal_state.py:111-283 | An estimate exists exactly for windows of at least twenty within the data, and every one has shock and confidence in the unit interval, positive deviations and z-scores within twenty |
| CausalState.FilterAll | app/indicators/causal_state.py:171-220 | The loop over observations is the specified filter, whose steps `StateLaw` and `MotionTracked` give in numbers |
| CausalState.EstimateState | app/indicators/causal_state.py:111-283 | The whole estimate from log prices, drift and scale; none for a window below twenty or longer than the data; what it publishes is stated by `EstimateLaw` |
| CausalState.CorrectionIsTheFilters | app/indicators/causal_state.py:180-208 | The level correction studied below is gain times innovation as the filter applies it |
| CausalState.OutlierInfluenceExactly | app/indicators/causal_state.py:114-119 | On every step of the filter an outlier above or below moves the level no more than a threshold sample if and only if the stated variance ratio holds |
| CausalState.FirstWickGetsMore | app/indicators/causal_state.py:171-208 | On the first step of every window each outlier of up to twelve deviations, above or below, moves the level further than a threshold sample |
| CausalState.GainIsOptimal | app/indicators/causal_state.py:198-213 | In every direction any other gain leaves more variance than the filter's, by exactly the innovation variance times the squared difference of the gains |
| CausalState.ResidualAfterUpdate | app/indicators/causal_state.py:205-208 | After the update the innovation that remains is its observation-noise share; `StateLaw` says so of the stored state |
| FilterLaws.StateLaw | app/indicators/causal_state.py:171-208 | On the stored state: variance times the remaining surprise is noise times the surprise, and velocity and acceleration move by their covariance with the level over the variance times the surprise, measured from constant-acceleration motion |
| FilterLaws.ColumnLaw | app/indicators/causal_state.py:67-75 | The covariances that steer it, from the entries of the stored covariance and the noise scale |
| FilterLaws.LevelMovesTowards | app/indicators/causal_state.py:205-208 | The level never moves away from an observation nor past it |
| FilterLaws.CovarianceLaw | app/indicators/causal_state.py:78-108 | In every direction an observation takes away exactly the squared covariance with the level over the variance, before the diagonal is raised to epsilon |
| FilterLaws.NoiseLaw | app/indicators/causal_state.py:180-200 | Beyond 2.5 deviations the noise grows with the square of the surprise, below it stays |
| FilterLaws.ScoreLaw | app/indicators/causal_state.py:185-220 | Each step's score, shock and outlier count, in deviations |
| FilterLaws.MotionTracked | app/indicators/causal_state.py:171-220 | On a quadratic series started at its own state every innovation is zero and level, velocity and acceleration stay exact |
| FilterLaws.StartLaw | app/indicators/causal_state.py:161-167 | The filter starts on the first price with the drift as velocity and four, one and a quarter variances |
| FilterLaws.ScaleLaw | app/indicators/causal_state.py:141-147 | The observation scale is the largest of its candidates |
| FilterLaws.EstimateLaw | app/indicators/causal_state.py:222-283 | What is published: rates, deviations, z-scores cut at twenty, the larger of latest and averaged shock, and confidence from significance and calm |
| Elimination.PivotRow | app/indicators/causal_trend.py:35-38 | The pivot is the first row of largest size from the column on |
| Elimination.ReduceKeeps | app/indicators/causal_trend.py:35-61 | A column step keeps exactly the same solutions and makes one more identity column |
| Elimination.SolveIsTheSolution | app/indicators/causal_trend.py:31-62 | Whatever is returned is the one and only solution of the given system |
| Elimination.ReduceInPlace | app/indicators/causal_trend.py:35-61 | The loops of one column swap, divide and clear the rows in place as specified, or stop on a small pivot |
| Elimination.SolveInPlace | app/indicators/causal_trend.py:31-62 | The nested loops that rewrite rows compute that |
| CausalTrend.SampleRange | app/indicators/causal_trend.py:104-111 | Weights lie between one and three and no sample lies right of the endpoint |
| CausalTrend.NormalMeansOrthogonal | app/indicators/causal_trend.py:113-140 | The equations say exactly that weighted residuals are orthogonal to 1, x and x squared |
| CausalTrend.FitIsMinimal | app/indicators/causal_trend.py:133-143 | The returned quadratic beats every other one, by exactly the weighted square of their difference |
| CausalTrend.ErrorWithinVariation | app/indicators/causal_trend.py:145-152 | Squared error never exceeds variation about any level |
| CausalTrend.ClampsAreIdle | app/indicators/causal_trend.py:154-178 | R-squared and confidence need no clamp and the zero branch is dead |
| CausalTrend.ShiftInvariant | app/indicators/causal_trend.py:102-165 | Adding a constant to all log prices changes no output |
| CausalTrend.QuadraticRecovered | app/indicators/causal_trend.py:133-171 | On a parabola the fit returns its endpoint derivatives, full R-squared, no residual, and the next step as prediction |
| CausalTrend.BuildSamples | app/indicators/causal_trend.py:106-111 | The sample loop |
| CausalTrend.Accumulate | app/indicators/causal_trend.py:147-152 | The loop sums squared error and variation together |
| CausalTrend.FitTrend | app/indicators/causal_trend.py:87-199 | The whole estimate, loops included |
| TrendExists.GoodBlockSolves | app/indicators/causal_trend.py:31-62 | Elimination succeeds on every symmetric dominant system whose reduced block is bounded away from singular |
| TrendExists.AnchoredSolves | app/indicators/causal_trend.py:113-142 | No pivot of a sample set with both ends and a middle bar is small |
| TrendExists.TrendExactly | app/indicators/causal_trend.py:96-142 | A trend is missing if and only if the window is below five or longer than the data |
| EstimateLaws.CurveTrend | app/indicators/causal_trend.py:87-199 | On prices that follow a quadratic the trend of the newest window is its slope and bend at the newest bar |
| EstimateLaws.LineEstimate | app/indicators/causal_trend.py:87-199 | On a line: the step as velocity and usual return, ratio of full size, full confidence, the direction of the step |
| EstimateLaws.TrendSays | app/indicators/causal_trend.py:143-199 | Every published trend: rates per bar, mean squares of returns and residuals, ratios held at ten, and a direction called beyond a tenth of the usual return |
| EstimateLaws.MeanIsBest | app/indicators/causal_trend.py:145-146 | R-squared compares with the level of least variation |
| Conformal.QuantileExactly | app/indicators/conformal_return.py:30-40 | The quantile is a residual, and the only number with fewer than rank below and at least rank at or below |
| Conformal.HeldOutGuarantee | app/indicators/conformal_return.py:34-39 | Of any n + 1 residuals held out in turn, at least the requested share is covered by the quantile of the rest |
| Conformal.GuaranteeExactly | app/indicators/conformal_return.py:34-39 | That guarantee holds for all residuals at or above the floor if and only if the rank needs no cap |
| Conformal.IntervalSound | app/indicators/conformal_return.py:100-130 | A published half-width is a residual at its rank, the interval is proper, coverage is a share, direction follows the bounds |
| Conformal.PublishedExactly | app/indicators/conformal_return.py:57-105 | An interval is published if and only if the arguments are acceptable and the calibration size is not twenty |
| Conformal.ResidualsTruncate | app/indicators/conformal_return.py:73-86 | Residuals equal those computed when the prices ended earlier |
| Conformal.ComparisonCausal | app/indicators/conformal_return.py:88-97 | No comparison depends on prices after its own bar |
| Conformal.IntervalShiftInvariant | app/indicators/conformal_return.py:43-130 | The interval calibrated on trend fits does not depend on the unit of prices |
| EstimateLaws.CurveInterval | app/indicators/conformal_return.py:43-130 | On prices that follow a quadratic the interval predicts its next step, is as narrow as the floor and has covered every comparison |
| EstimateLaws.RankIsLeast | app/indicators/conformal_return.py:34-39 | The rank is the least whole number that reaches the level's share of n + 1, from one to n |
| EstimateLaws.HitExactly | app/indicators/conformal_return.py:90-97 | A residual counts as covered exactly when fewer than rank of the earlier ones lie below it |
| EstimateLaws.CoverageSays | app/indicators/conformal_return.py:88-105 | The published coverage times the comparisons is the number of covered ones from the twenty-first residual on |
| EstimateLaws.IntervalSays | app/indicators/conformal_return.py:100-130 | A published interval is centred on the prediction from all prices and leans as its bounds do |
| EstimateLaws.PublishedInNumbers | app/indicators/conformal_return.py:57-105 | Published exactly for a window of at least five, a size above twenty, a level between one half and one and enough prices |
| Conformal.Calibrate | app/indicators/conformal_return.py:71-86 | The residual loop with its early return |
| Conformal.CountHits | app/indicators/conformal_return.py:90-97 | The prequential loop counts exactly the covered comparisons |
| Conformal.EstimateInterval | app/indicators/conformal_return.py:43-130 | The whole interval, loops included |
| Evidence.MeanWithin | app/analysis/mathematical_core.py:306-314 | A weighted mean stays between any bounds its counted signals share |
| Evidence.DisagreementBound | app/analysis/mathematical_core.py:315-325 | Disagreement is at most (1 - m^2) / 2 for mean m |
| MathematicalCore.ComponentExact | app/analysis/mathematical_core.py:248-279 | Aggregation needs no clamp and its component passes its field bounds |
| MathematicalCore.FuseExact | app/analysis/mathematical_core.py:282-330 | Score is the convex combination, coverage the total weight, consensus at least (1 + score^2) / 2, no clamp used |
| MathematicalCore.BallotIsExecutable | app/analysis/mathematical_core.py:289-305 | Weight in the executable vote comes from a validated component of positive reliability |
| MathematicalCore.InstabilityUnit | app/analysis/mathematical_core.py:333-353 | Instability is a weighted mean of risks in the unit interval |
| MathematicalCore.SnapshotValid | app/analysis/mathematical_core.py:356-428 | For every set of bounded views the snapshot passes all validators of the domain record |
| MathematicalCore.StatusExactly | app/analysis/mathematical_core.py:404-416 | For every set of views each status holds if and only if its condition on the published fields does |
| MathematicalCore.TextureNeverDecides | app/analysis/mathematical_core.py:22-35 | Structure, momentum, volume and trend strength never change status, score, confidence, coverage, consensus or instability |
| CoreLaws.VelocityDominates | app/analysis/mathematical_core.py:178-184 | A velocity ratio of full size gives a signal its sign and at least three fifths of its size, whatever the acceleration |
| CoreLaws.AccelerationAdds | app/analysis/mathematical_core.py:202-208 | Acceleration moves a signal by at most a fifth |
| CoreLaws.DerivativeSays | app/analysis/mathematical_core.py:172-193 | The trend's signal and reliability, from confidence, fit and shock |
| CoreLaws.StateSays | app/analysis/mathematical_core.py:196-215 | The state filter's signal and reliability, three deviations being full size |
| CoreLaws.ConformalSays | app/analysis/mathematical_core.py:218-245 | The interval's signal: full size on the side it excludes zero on, otherwise prediction over size plus half-width |
| CoreLaws.StructureSide | app/analysis/mathematical_core.py:115-145 | Structure's sign follows the bias, breaks and price against volume-weighted average only where the bias is neutral |
| CoreLaws.StructureTrust | app/analysis/mathematical_core.py:115-145 | Structure is trusted by half without a trend, fully at a strength of 35, evenly in between, and by calm |
| CoreLaws.MomentumSide | app/analysis/mathematical_core.py:148-169 | Momentum's sign is the histogram's, and the oscillator never turns it |
| CoreLaws.MomentumTrust | app/analysis/mathematical_core.py:148-169 | Momentum is trusted by the volume between a quarter and all of it, and by calm |
| CoreLaws.ComponentCounts | app/analysis/mathematical_core.py:248-279 | A component's reliability mixes the timeframes at 35, 30, 25 and 10 hundredths, and its signal is the weighted mean |
| CoreLaws.HigherTimeframeWins | app/analysis/mathematical_core.py:16-21 | Of two timeframes trusted alike that say opposite things, the higher one decides |
| CoreLaws.RiskIsLargest | app/analysis/mathematical_core.py:333-353 | A timeframe's risk is the largest of shock, volatility and data risk |
| CoreLaws.InstabilityCounts | app/analysis/mathematical_core.py:333-353 | Instability mixes the risks of the timeframes present in the same hundredths, and is full without any |
| CoreLaws.SnapshotFuses | app/analysis/mathematical_core.py:356-428 | Score, coverage and consensus come from trend, state and a validated interval at a third each, the auxiliary score from structure and momentum at a half each, and each confidence is the product of coverage, consensus, size of score and stability |
| CoreLaws.VelocitiesDecide | app/analysis/mathematical_core.py:356-428 | When all velocities agree at full size and intervals exclude zero on their side, the score has their sign and at least three fifths of the size, and the snapshot calls their side exactly when calm, covered and confident; for both sides |
| CoreLaws.CoverageExactly | app/analysis/mathematical_core.py:58-86 | The nominal level lies in the Wilson interval if and only if it passes the score test and there are thirty comparisons |
| CoreLaws.IntervalsValidated | app/analysis/mathematical_core.py:89-112 | The interval family is validated exactly when there is an interval and every one has a proven record |
| CoreLaws.IntervalsReported | app/analysis/mathematical_core.py:97-112 | Its published metric is the plain mean of the observed shares |
| MathematicalCore.AggregateComponent | app/analysis/mathematical_core.py:248-279 | The accumulation loop over timeframes |
| MathematicalCore.MeasureInstability | app/analysis/mathematical_core.py:333-353 | The accumulation loop over risks |
| MathematicalCore.BuildSnapshot | app/analysis/mathematical_core.py:356-428 | The whole fusion, loops included; who decides it is stated by `SnapshotFuses` and `VelocitiesDecide` |
| MathematicalConfirmation.ConfirmationExactly | app/domain/strategy.py:35-79 | For any validated snapshot the confirmation passes its validators if and only if strong status, score, confidence and reliability come with a validated component |
| MathematicalConfirmation.BuiltConfirmationValid | app/strategies/mathematical_confirmation.py:30-118 | For every set of bounded views both confirmations pass, and so does the low-grade one of a missing core or direction |
| MathematicalConfirmation.VerdictExactly | app/strategies/mathematical_confirmation.py:50-100 | For every set of views a direction is confirmed if and only if the core called it, or lacked coverage alone; only a direction the core called is graded medium or high |
| MathematicalConfirmation.RefusedConfirmation | app/domain/strategy.py:64-67 | A family of validated snapshots whose confirmation is refused |
| MathematicalConfirmation.Mirrored | app/strategies/mathematical_confirmation.py:50-100 | Long and short are mirror images: one is confirmed exactly when the other is opposed |
| MathematicalConfirmation.GradeMonotone | app/domain/strategy.py:35-79 | Stronger evidence lowers the risk grade if and only if it turns doubt about an opposed direction into opposition |
| MathematicalConfirmation.RecordSays | app/strategies/mathematical_confirmation.py:30-118 | The confirmation carries the core's own numbers seen from its direction, and reliability is coverage times consensus times stability |
| MathematicalConfirmation.VerdictSays | app/strategies/mathematical_confirmation.py:50-100 | Each verdict and each grade holds exactly under its condition on the published numbers and the core's status |
| MathematicalConfirmation.BonusSays | app/strategies/mathematical_confirmation.py:64-101 | The bonus reaches k points exactly when unblocked auxiliary evidence points the same way with confidence of k fifths |
| MirrorSymmetry.FamiliesOdd | app/analysis/mathematical_core.py:115-245 | Turning a view upside down negates every family's signal and keeps its reliability |
| MirrorSymmetry.FuseFlipped | app/analysis/mathematical_core.py:282-330 | Opposite votes fuse to the opposite score with the same coverage and consensus |
| MirrorSymmetry.SnapshotMirrored | app/analysis/mathematical_core.py:356-428 | The snapshot of a mirrored market is the mirrored snapshot: no family, weight or threshold prefers a side |
| MirrorSymmetry.ConfirmationMirrored | app/strategies/mathematical_confirmation.py:50-118 | Long on the mirrored snapshot is, field by field, short on the snapshot |

## Left out

- REST and WebSocket clients, exchange parsers, migrations, dashboards, routers and logging: input, output and plumbing.
- Settings validation: used as bounds on settings only, since it is a list of single-branch checks.
- Strategy evaluators, score tiers, ranking and the structural leverage ladder: candidates reach the allocator in any order, with any leverage of at least one and any earlier gate outcome.
- Live service as an object: arm, stop, clear and the writes are steps of a transition system over values, not methods of a class, because every await is a boundary where other tasks and processes act.
- Live reads inside one reconciliation: the account, positions, orders and algo orders of one snapshot are read in one step.
- Live unresolved-intent query: its limit of a thousand rows is not modelled; neither is the loss of the advisory lock when a database connection drops.
- Live background stop, latch and disarm: may happen at any step, which allows more interleavings than the code has.
- Hashes and identifiers: digests are injective, generated order ids are new and never equal to a given one.
- Decimal precision of 28 or 50 digits and logarithms: log prices are inputs and arithmetic is exact, except for quantize, floor and ceiling.
- Medians and mean squares of the state filter: drift, deviation and scale of the returns are inputs.
- Paper rows with equal timestamps: the store gives lists back in the order they were saved, whereas rows of one tick may come back in another order.
- Paper loads that fail: they change nothing, and at startup they end the process.
- Paper order strategy, score, reasons and timestamps: carried by the source and never read by the ledger.
- Finalisation of malformed stored trades and events: records that fail to parse are skipped by the source and absent here.
- Finalisation clock: each recording reads an arbitrary time, so the results hold for any clock.
- Soak preflight, wait intervals and persisted session recovery after a restart: the session starts running, and every external call may fail at any step.
- SoakSession.Soak.Stop: one stop at a time; stops that overlap each other are modelled in `SoakStops`.
- Soak overlap of two sessions: a stop of one session that is still waiting while the next is started is not modelled.
- SoakSession.Soak.Refresh: the account checks before protection are one arbitrary verdict per snapshot, because each only selects the stop's reason.
- Demo emergency stop when the order call itself raises: the code does not engage it, so nothing is claimed.
- Benchmark and evaluation scripts: file comparisons over packages outside the repository.
