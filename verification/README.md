# Kiwit paper-trading kernel: a verified model

This project models the paper-trading kernel of Kiwit and proves what its protocols, its
exact-decimal arithmetic and its offline auditors promise. Amounts are reals, so every directed
rounding of the original (floor and ceiling to a tick, to whole units, to whole lots, half-even to
eight decimals) is a named function; instants are integer microseconds; a database transaction is
one atomic step whose failure leaves the state as it was. Objects that change in place are classes
whose methods are proved equal to a step function on values, and the theorems are about all runs of
those step functions.

Five groups of results, by file:

* **Bank Nifty desk.** `OptionsRisk`, `OptionsSizing`, `SizingOutcomes`: fees, fills, exit levels
  and the whole-lot size with its explanation. `CallLedger`, `CallAdmission`, `CallBilling`: paid
  model calls, from reservation to application, under interleaving, and what they cost.
  `DeskSession`, `DeskLedger`, `DeskEntries`, `DeskExits`, `SessionOutcomes`, `Desk`: the session
  state machine, when it starts, buys, sells and settles, and its books. `DeskLog`: the event log
  determines the books. `DeskScans`, `PlanOutcomes`: scans and the plans sized on them. `Replay`,
  `AuditOutcomes`: the fill auditor, complete for everything the desk logs, and what a match
  attests. `WalkExit`, `WalkOutcomes`: the tape walk, which refines the desk's monitor.
  `NextMorning`: a run after which they differ. `EvidencePortfolio`, `PortfolioOutcomes`: the
  opportunity stream, classified without remainder.
* **Simulator.** `Simulator`, `SimulatorLedger`, `OrderOutcomes`, `SimulatorLog`: order lifecycle,
  conservation, loss bound, what each command makes of each order, idempotent event log.
* **Sizing to fill.** `SizingChain`, `RiskOutcomes`: when a plan is accepted and approved, and when
  an order submitted by the decision core passes the simulator's fill gate on a quote no worse than
  the one that priced it.
* **Point-in-time data.** `History`, `HistoryOutcomes`, `HistoryReplay`, `ReplayFrames`,
  `ReplayGenerator`, `Datasets`, `LiveDatasets`, `DatasetRows`: stable queries, complete replay
  frames, purged datasets that later data cannot change, also while they are built, and what their
  rows hold.
* **Operations.** `Orchestrator`, `TickOutcomes`: the arming latch across processes. `ReportLease`,
  `DeliveryOutcomes`: report delivery under a lease. `Chunker`, `ChunkOutcomes`: overlapping chunks
  that rejoin to the document.

`Common` holds the option and result types, the exchange clock and text order; `Rounding` the
rounding functions and the arithmetic lemmas about them.

Findings the proofs turned up, each stated by a theorem below:

* The fill auditor recomputes an entry from the budget of the scan, not of the session that bought
  it. It still marks every logged event as a match, whatever the clocks read and however much the
  session lost between scan and entry, because a plan was sized at its own price cap
  (`DeskScans.EveryEventMatches`, `DeskScans.OfferStillFits`).
* The offline walk and the desk name the same exit reason except on a later day before 15:15 when
  the position does not record its trading day (`WalkExit.ReasonsAgreeIff`;
  `NextMorning.ReasonsDiffer` reaches such a case).
* The guards "stop has no positive net risk" and "target exceeds bounded search" never fire
  (`OptionsRisk.NetRiskPositive`, `OptionsRisk.ExitLevels`), nor does the reward check repeated by
  plan validation (`DeskLedger.RewardNeverShort`) or the dataset's own leakage checks
  (`LiveDatasets.ChecksAlwaysHold`).
* Raw provenance is complete for every queried bar unless the same raw bytes were first stored with
  a later receipt time than a new row's availability (`History.BackedIff`;
  `History.LateReceiptUnbacked` is such a recording).
* A RUN given to a restarted process before its first tick on a day that another process has warmed
  is void; it takes a second RUN (`Orchestrator.RunBeforeFirstTickIsVoid`). The documentation
  (`docs/SESSION_ORCHESTRATOR.md`, line 19) asks for one fresh RUN; the model follows the code.
* The decision core's cost allowance does not cover every short: an order with a far stop can be
  submitted and then refused by the simulator's risk gate at the very prices it was sized on
  (`SizingChain.UncoveredShortRefused`). `SizingChain.RiskHalfIff` gives the exact condition for
  any filling quote, a comparison of plan, quote and fill rules; every long plan, and every short
  whose stop is at most twice its entry under a fee of at most one half, meets it
  (`SizingChain.CoveredPlansFit`), also on later quotes no worse (`SizingChain.LaterQuoteFits`).

## Model

| member | source | states |
|---|---|---|
| OptionsRisk.FeesClosedForm | src/kiwit/options_risk.py:14-59 | the line items of the fee schedule always add up to the fixed order cost plus one rate times the notional, the form that sizing divides by |
| OptionsRisk.StopBounds | src/kiwit/options_risk.py:78-83 | the stop in force is non-negative, below the fill, and less than a tick below the percentage stop |
| OptionsRisk.NetRiskPositive | src/kiwit/options_risk.py:78-83 | whatever the profile, stop and quantity, leaving at the stop loses money after both fees, so the guard against it is unreachable |
| OptionsRisk.TargetIsLeast | src/kiwit/options_risk.py:85-95 | a tick price reaches the percentage floor and the demanded net reward if and only if it is at or above the returned target: the target is the least such tick |
| OptionsRisk.TargetMeetsDemands | src/kiwit/options_risk.py:85-95 | the first target tried already meets the floor and the net reward demanded, and lies above the fill |
| OptionsRisk.ExitLevels | src/kiwit/options_risk.py:67-112 | the three-step search as written returns the closed-form levels; its only refusals are an invalid profile and costs that consume the reward, never the exhausted search |
| OptionsRisk.CostsAreDrag | src/kiwit/options_risk.py:95-112 | the round-trip cost is what both fees take off the gross reward |
| OptionsSizing.QuantityIsLargestFit | src/kiwit/options_risk.py:115-131 | a positive number of whole lots is at most the sized quantity if and only if its entry cost, its loss at the percentage stop, the depth and the freeze limit all allow it |
| OptionsSizing.SizedEntryIsBounded | src/kiwit/options_risk.py:115-131 | a sized entry costs at most a quarter of the capital and no more than the cash, and its net loss at the rounded stop exceeds the risk budget by less than a tick per unit |
| OptionsSizing.OneLotThreshold | src/kiwit/options_risk.py:140-152 | for a session that has not traded, with depth and freeze room, one lot is sized exactly when the capital reaches the unrounded minimum-capital estimate |
| OptionsSizing.PrintedEstimateIsExact | src/kiwit/options_risk.py:151-226 | rounding the printed estimate up to a paisa keeps the threshold exact for capital in whole paise |
| OptionsSizing.UnitsAreLeastCapacity | src/kiwit/options_risk.py:123-184 | the units that sizing rounds to lots are the least of the seven separate capacities the explanation lists |
| OptionsSizing.LeastCapacity | src/kiwit/options_risk.py:174-184 | the running minimum over the seven limits is the least capacity |
| OptionsSizing.BindingCodes | src/kiwit/options_risk.py:186-191 | the binding list holds exactly the limits that attain the least capacity, and the fee reserve first when a fee-bound limit attains it |
| OptionsSizing.Diagnose | src/kiwit/options_risk.py:140-234 | the explanation agrees with the size: each limit with its own capacity, the binding ones marked, and the quantity that sizing returns |
| SizingOutcomes.SizeMeans | src/kiwit/options_risk.py:115-131 | whole lots are at most the size if and only if their cost fits a quarter of the capital and the cash, their loss at the percentage stop with both fees a hundredth of the capital and what the day may still lose, and their units both depths and less than the freeze size |
| SizingOutcomes.FeeReserveMeans | src/kiwit/options_risk.py:159-191 | the fee reserve is named if and only if nothing can be bought and fixed order costs use up one of the four budgets |
| CallLedger.SpendSafe | src/kiwit/banknifty.py:359-423 | over every interleaving of reserve, settle, apply, reject and reconcile, with any clock readings, any thirty days are charged at most 50 and any day at most 5 |
| CallLedger.RunKeepsValid | src/kiwit/banknifty.py:352-423 | over every interleaving the table stays in budget, events stay bounded, and rows only move forward: identities fixed, charges never rise, finished states final |
| CallLedger.EventHistory | src/kiwit/options_policy.py:123-150 | one event of a day gets at most three calls, at least 120 seconds apart, never two in flight, and none after an applied BUY |
| CallLedger.AppliedAtMostOnce | src/kiwit/banknifty.py:949-955 | over every run a call is applied at most once, exactly when it ends up applied, and never after it was interrupted, rejected, failed or applied |
| CallLedger.RefusedApplyBecomesRejected | src/kiwit/banknifty.py:1357-1370 | a refused entry rolls back to the same table; the rejection that follows is final and no later transaction applies that decision |
| CallLedger.ReserveKeepsBudget | src/kiwit/banknifty.py:384-399 | an admitted reservation fits the daily and the rolling budget of every window it falls in |
| CallLedger.ReservationCoversItsWindows | src/kiwit/banknifty.py:384-399 | the rolling check leaves room for the reservation in every thirty-day window that contains its date, also when later dates are already charged |
| CallLedger.ReserveKeepsEvents | src/kiwit/options_policy.py:123-150 | an admitted attempt keeps the limits on attempts, spacing and flights of every event |
| CallLedger.CircuitOpenIff | src/kiwit/banknifty.py:376-383 | the circuit is open exactly when the three latest calls of the day all failed and the latest of them was scanned under fifteen minutes ago |
| CallLedger.OpenCircuitReservesNothing | src/kiwit/banknifty.py:376-399 | over any run in which the circuit is open at every reservation of a day, the day gains no call, whatever else workers do |
| CallLedger.CallStore.Reserve | src/kiwit/banknifty.py:359-399 | the store reserves a call exactly when the gate, the budgets, the circuit breaker and the event allow one, and otherwise changes nothing |
| CallLedger.CallStore.SettleResponse | src/kiwit/banknifty.py:412-423 | settling a response lowers the charge to its usage, or fails the call at the full reservation when the usage exceeds it |
| CallLedger.CallStore.Claim | src/kiwit/banknifty.py:949-955 | the compare-and-set claims a decision once, and only from the completed state |
| CallLedger.CallStore.Reconcile | src/kiwit/banknifty.py:401-410 | exactly the calls unfinished for ten minutes become interrupted and keep their charge |
| CallAdmission.ReservedIff | src/kiwit/banknifty.py:359-399 | a call is reserved if and only if the session runs on today's date without a halt, its event may be tried, the three latest calls did not just fail, another 0.2 fits the day's 5 and the thirty days' 50, and no call took the same two minutes |
| CallAdmission.ReservationIs | src/kiwit/banknifty.py:359-399 | a reservation appends one call at the full 0.2, with its date, slot and event, and touches no other |
| CallAdmission.TransactionLeaves | src/kiwit/banknifty.py:401-410 | application claims a completed call, rejection ends one, recovery interrupts what is unfinished after ten minutes; every other call keeps its row |
| CallBilling.SettledRow | src/kiwit/banknifty.py:412-423 | an accountable response completes the call at 5 and 30 a million tokens with its action; any other response, or a failure after dispatch, fails it at 0.2; one never sent fails it at nothing |
| CallBilling.SpentIsOwed | src/kiwit/banknifty.py:359-423 | over every run and any dates, recorded spend equals what the settlements cost, counted from the operations alone, plus 0.2 for each call never answered |
| CallBilling.MoneySafe | src/kiwit/banknifty.py:359-423 | whatever the interleaving and the clocks, the settled calls of any thirty days cost at most 50 and of any day at most 5 |
| DeskLedger.FillMovesDrift | src/kiwit/banknifty.py:796-839 | a partial or full fill changes cash plus remaining cost against capital plus realized P&L by its own quantization error only, at most half a unit in the eighth decimal |
| DeskLedger.MonitorKeepsSound | src/kiwit/banknifty.py:849-927 | a monitor transaction keeps the books sound: balance, whole lots, entry cap, flat when completed |
| DeskLedger.EntryIsBounded | src/kiwit/banknifty.py:956-1043 | whatever plan the model picks, an accepted entry spends at most a quarter of the capital and no more than the cash, risks less than the budget plus a tick per unit, and aims for the demanded multiple of that risk |
| DeskLedger.PlanIsBounded | src/kiwit/playbooks.py:411-465 | the same bounds for any plan that plan validation accepts |
| DeskLedger.RewardNeverShort | src/kiwit/playbooks.py:411-465 | accepted exit levels always carry the reward the profile asks for, so the repeated check never fails |
| DeskLedger.GateAgreesWithEntry | src/kiwit/options_policy.py:53-82 | in an otherwise allowed moment the gate that pays for a call is open exactly when the later entry checks refuse nothing |
| DeskEntries.EntryAcceptedIff | src/kiwit/banknifty.py:956-1014 | a BUY is accepted if and only if the session is flat, enabled, not halted, under ten entries, past its cooldown and off its limits, in the entry window; quote and spot are current and the spread at most two percent; plan, setup and calendar authorize it; its quantity fits at a price under its cap; and its exits can be placed |
| DeskEntries.EntryLeaves | src/kiwit/banknifty.py:1014-1043 | an accepted BUY takes price and fees from the cash, counts one entry, and holds the plan's units at the slipped ask with stop, least paying target and deadline; nothing else changes |
| DeskEntries.BuyTakesEffectIff | src/kiwit/banknifty.py:943-1043 | a BUY changes the desk only for a session running on its scan's day and a completed BUY call, and then session, call and log together |
| DeskExits.MonitorSellsIff | src/kiwit/banknifty.py:867-909 | a position is sold exactly when the quote can carry an exit and a reason demands one, in order: session stop, pending reason, price at or under the stop, at or over the target, underlying at its level on a fresh sample, deadline |
| DeskExits.MonitorStops | src/kiwit/banknifty.py:867-927 | the session is stopping, and completed once flat, exactly when its day or 15:15 has passed, the worker is off, trading is halted, or it was stopped |
| DeskExits.SaleLeaves | src/kiwit/banknifty.py:786-845 | a sale takes as many whole lots as bid and position allow at the slipped bid, moves cash and P&L by it, closes the position when nothing is left, and otherwise leaves its reason pending on the rest |
| DeskExits.HeldKeeps | src/kiwit/banknifty.py:880-927 | a position that is not sold keeps everything; the session shows what selling out would leave while the quote is fresh |
| DeskExits.OtherPositionHeld | src/kiwit/banknifty.py:849-927 | a quote fetched for a position that is gone sells nothing |
| Desk.BooksBalance | src/kiwit/banknifty.py:558-700 | in every reachable state cash plus remaining entry cost equals capital plus realized P&L within 0.5e-8 per recorded exit, the open quantity is positive whole lots, entries are at most ten, completed sessions are flat, and spend is in budget |
| Desk.RunKeepsValid | src/kiwit/banknifty.py:558-1061 | every interleaving of start, stop, monitor, apply, settle and reserve keeps all sessions balanced, only the latest one holding a position, and every entry on an applied call of its own |
| SessionOutcomes.LimitsValidIff | src/kiwit/paper_session.py:54-64 | limits are accepted if and only if capital and percentages lie in their ranges with their decimals; trade percentages default to the session's |
| SessionOutcomes.StartIs | src/kiwit/banknifty.py:558-634 | a start keeps the day's session, resumed if it is completed, untraded, not resumed before and it is before 15:00, and refuses other limits; on a new day it opens a flat session unless the last is unreconciled, it is no market day or past 15:00, the worker is not ready, or trading is halted |
| SessionOutcomes.SettlementAnswered | src/kiwit/banknifty.py:649-675 | a settlement is taken if and only if its evidence is well formed, none is logged for the position, and the position is open past its contract's expiry; a repeat is recognised and other evidence refused |
| SessionOutcomes.SettlementLeaves | src/kiwit/banknifty.py:676-690 | a settlement pays the attested value of all units left less its costs, books it against what they still cost, and leaves the session flat and completed |
| Desk.Service.Start | src/kiwit/banknifty.py:558-634 | start opens, resumes or refuses a session as its limits, calendar and previous sessions dictate |
| Desk.Service.Close | src/kiwit/banknifty.py:786-847 | one close sells the whole lots the bid depth takes, moves cash, cost and P&L by that fill, keeps a residual pending and logs the exit |
| Desk.Service.Monitor | src/kiwit/banknifty.py:849-927 | the locked monitor step picks the first exit reason in the order of the code and leaves exactly the specified state and log |
| Desk.Service.Buy | src/kiwit/banknifty.py:929-1061 | a BUY either claims its call and opens the position, or refuses and rolls the claim back, changing nothing |
| Desk.Service.SettleExpired | src/kiwit/banknifty.py:649-700 | settlement of an expired residual happens once; a repeat with the same evidence is recognised, with different evidence refused |
| DeskLog.LogDeterminesBooks | src/kiwit/banknifty.py:786-847 | when sessions open on non-decreasing dates, cash, realized P&L and entry count of each session are the tallies of its logged events, and units bought equal units sold plus units open |
| Replay.ReplayFills | src/kiwit/options_replay.py:13-75 | the one-pass auditor returns a status for every event as specified from the events before it |
| Replay.ExitsMatch | src/kiwit/options_replay.py:46-69 | in the log of any run, every exit and settlement of a matched entry is a match, through any partial exits, and every other is unreplayable; none is a mismatch |
| Replay.FillMatches | src/kiwit/banknifty.py:796-839 | the desk's own fill passes the auditor's checks, and the auditor then holds what the desk holds |
| Replay.SettlementMatches | src/kiwit/banknifty.py:677-698 | the desk's settlement passes the auditor's check |
| AuditOutcomes.EntryMatchesIff | src/kiwit/options_replay.py:24-46 | an entry matches if and only if its plan was authorized and current, fits the recorded session and can place its exits there, and the position is that plan's at the slipped ask with its fees, stop and target |
| AuditOutcomes.ExitMatchesIff | src/kiwit/options_replay.py:47-70 | an exit matches if and only if it sold as many whole lots as were held and bid, at the slipped bid, with the P&L of their share of the cost, and says truly whether anything is left |
| AuditOutcomes.SettlementMatchesIff | src/kiwit/options_replay.py:53-70 | a settlement matches if and only if it takes all that is held and its P&L is the settled value less costs and remaining cost |
| AuditOutcomes.CleanAuditIsSound | src/kiwit/options_replay.py:13-75 | in any log whose events all match and whose positions are entered once, no position was sold or settled for more units than it was entered with, and none without an entry |
| DeskScans.EveryEventMatches | src/kiwit/options_replay.py:13-75 | in the log of every run of scans, reservations, entries, monitors and settlements, in any order and with any clock readings, every entry, exit and settlement replays as a match |
| DeskScans.OfferStillFits | src/kiwit/playbooks.py:280-330 | a plan sized at its price cap fits the budget of its scan on every later quote at or under the cap on which the session of the day affords it |
| DeskScans.OfferedEntryMatches | src/kiwit/options_replay.py:24-46 | an entry bought from a plan of a scan of that session passes every check the auditor makes of it |
| DeskScans.StepKeepsCurrent | src/kiwit/banknifty.py:558-634 | no operation parts a scan from the limits it was taken under: a scan of the latest session's day keeps carrying that session's limits |
| DeskScans.SelectPlans | src/kiwit/playbooks.py:228-407 | for each playbook, in order, the first of its candidates that can be sized on the capped quote and given exit levels |
| PlanOutcomes.OfferedIff | src/kiwit/playbooks.py:268-340 | a candidate yields a plan if and only if it is routed, outlives the day, has a current quote at most two percent wide, carries a lot at the ask raised by half a percent, and its exits can be placed; the plan carries that quantity and the raised fill as its price cap |
| PlanOutcomes.FirstIs | src/kiwit/playbooks.py:268-345 | a playbook offers the first of its candidates that yields a plan, and none only if none does |
| PlanOutcomes.OffersJoin | src/kiwit/playbooks.py:242-345 | each playbook in turn adds at most its one plan |
| DeskScans.DecisionWorker.TakeScan | src/kiwit/banknifty.py:1205-1260 | a scan of a running session freezes its limits, cash and realized P&L together with the plans sized on them |
| DeskScans.DecisionWorker.Reserve | src/kiwit/banknifty.py:359-399 | a reserved call is bound for good to the scan it was reserved with |
| DeskScans.DecisionWorker.Buy | src/kiwit/banknifty.py:949-1043 | a decision buys only a plan of its own scan, as the entry transaction accepts it, or changes nothing |
| WalkExit.QuoteRowsOrdered | src/kiwit/options_evidence_gates.py:98-105 | the rows walked are the selected observations, all of them, in recording order |
| WalkExit.ReconstructExit | src/kiwit/options_evidence_gates.py:107-155 | the loop as written sells the specified fills, records the specified gaps, and reports closed exactly when nothing is left |
| WalkOutcomes.RowsWalked | src/kiwit/options_evidence_gates.py:98-117 | the walk takes every row of the position's symbol from the entry to two days later whose quote was taken since the entry and at most 90 seconds before, as often as recorded, and no other |
| WalkOutcomes.RowComesTo | src/kiwit/options_evidence_gates.py:118-152 | each row is a named gap, passed over, or a sale of the whole lots bid at the slipped bid for the first reason that applies, decided in the walk's order |
| WalkExit.WalkRefinesDesk | src/kiwit/options_evidence_gates.py:80-155 | for a tape whose rows of the position's own contract are unexpired and of the session's day (or of any later day when the position records its day), the walk yields exactly the fills of the desk's monitor over those rows, partial fills and pending reasons included, with the worker enabled, no halt and no session P&L limit; rows of a changed contract make no difference |
| WalkExit.RowInStep | src/kiwit/options_evidence_gates.py:120-150 | one observation: walk and desk sell the same and stay in step, or both are done |
| WalkExit.ReasonsAgreeIff | src/kiwit/options_evidence_gates.py:80-95 | walk and desk name the same reason if and only if the day is recorded, or the row is of the session's day, or it is past 15:15, or a session stop is pending |
| NextMorning.ReasonsDiffer | src/kiwit/options_evidence_gates.py:80-95 | a run of the desk (start, scan, reservation, decision, entry at 14:00) ends holding a position whose next quote is at 10:00 the following day: the walk names a playbook time exit, the desk a session stop, for the same units at the same price |
| EvidencePortfolio.RunPortfolio | src/kiwit/options_evidence_gates.py:284-355 | the loop with its running cash, P&L, exit times and counters computes the specified desk |
| EvidencePortfolio.NothingUnclassified | src/kiwit/options_evidence_gates.py:284-355 | every opportunity is counted exactly once, as a trade, a policy hold, a veto or an exclusion |
| EvidencePortfolio.PortfolioSound | src/kiwit/options_evidence_gates.py:300-343 | cash is the capital plus the trades' net P&L, no exchange date holds more trades than the cap, and each trade comes at least the cooldown after the exit before it |
| PortfolioOutcomes.OpportunityBecomes | src/kiwit/options_evidence_gates.py:299-341 | an opportunity becomes a trade if and only if it is not excluded, the policy takes it, no limit stops it, and the tape offers a payable entry with a finished exit; the trade earns turnover less all costs; otherwise exactly one count grows, for the first reason that applies |
| PortfolioOutcomes.StreamInOrder | src/kiwit/options_evidence_gates.py:295-298 | the stream holds every timed opportunity once, by time and then by identifier |
| PortfolioOutcomes.CapitalIs | src/kiwit/options_evidence_gates.py:285-288 | the capital is the first recorded one that is not zero; without any nothing is replayed |
| SimulatorLedger.LossWithinBudget | src/kiwit/paper_simulator.py:184-262 | an order closed on a quote no worse than its stop realizes at least minus its risk budget, net of both fees, slippage and tick rounding |
| SimulatorLedger.RiskIsProjectedLoss | src/kiwit/paper_simulator.py:209-230 | the risk the entry gate measures is exactly what leaving at the projected stop would lose |
| SimulatorLedger.ExitNoWorseThanProjected | src/kiwit/paper_simulator.py:184-192 | a quote no worse than the stop executes no worse than the projected stop |
| SimulatorLedger.RunKeeps | src/kiwit/paper_simulator.py:138-266 | in every reachable state cash plus held notional and entry fees is the capital plus realized P&L, orders only move forward and keep their fills, and cash of long-only accounts is never negative |
| SimulatorLedger.OpeningKeeps | src/kiwit/paper_simulator.py:209-242 | opening ties up exactly what leaves the cash and records a fill that passed the gate |
| SimulatorLedger.ClosingKeeps | src/kiwit/paper_simulator.py:243-262 | closing releases what was tied up, adjusted by the net result, appends the one exit fill, and stays within the loss bound when the quote did not gap |
| SimulatorLedger.EquityIsExplained | src/kiwit/paper_simulator.py:268-281 | reported equity always equals capital plus realized plus unrealized P&L |
| SimulatorLedger.PortfolioSplits | src/kiwit/paper_simulator.py:268-281 | for any cash and orders, equity is cash plus held notional, fees and unrealized P&L |
| SimulatorLedger.PaperSimulator.Submit | src/kiwit/paper_simulator.py:98-144 | submitting checks session, approval, values and geometry in order and stores a pending order once |
| SimulatorLedger.PaperSimulator.OnQuote | src/kiwit/paper_simulator.py:170-266 | one quote fills, rejects, cancels, marks or closes every order of its instrument in identifier order, or fails as a whole |
| SimulatorLedger.TouchOrders | src/kiwit/paper_simulator.py:194-266 | the loop over working copies applies the specified change to each order with the money so far, and abandons all of it at the first unrepresentable price |
| OrderOutcomes.QuoteDecides | src/kiwit/paper_simulator.py:194-266 | a first-time quote closes a held order if and only if its exit price has reached stop or target, its session is over or it was to leave, naming the stop before the target, at the adverse side slipped and rounded against the trader; it opens, rejects, cancels or leaves a pending one, marks the rest, and leaves other instruments alone |
| OrderOutcomes.QuoteAnswers | src/kiwit/paper_simulator.py:194-266 | a quote answers with the orders it concerns, as it left them, in stored order |
| OrderOutcomes.QuoteTakenIff | src/kiwit/paper_simulator.py:170-192 | a quote is taken if and only if it is current, two-sided, in time order and fills at positive prices, or repeats a logged one |
| OrderOutcomes.SubmitTakenIff | src/kiwit/paper_simulator.py:98-144 | a submission is taken if and only if it lies in a known session with a matching approval of whole lots, an earlier signal, positive ordered prices and an unused identifier; it adds that pending order only |
| OrderOutcomes.CancelTakenIff | src/kiwit/paper_simulator.py:146-154 | a cancellation is taken exactly for a known pending order, and cancels that one |
| OrderOutcomes.SessionEnds | src/kiwit/paper_simulator.py:156-168 | the session's end cancels what is pending and sends what is open to its next quote, for the orders whose session has ended |
| OrderOutcomes.RealizedIsResults | src/kiwit/paper_simulator.py:98-266 | over every run realized P&L is the sum of the closed orders' results |
| OrderOutcomes.UnrealizedIs | src/kiwit/paper_simulator.py:268-281 | unrealized P&L is what the held orders gain at their marks, long or short, less their entry fees |
| OrderOutcomes.RunById | src/kiwit/paper_simulator.py:194-266 | in every reachable state the orders stand in identifier order, the order in which they compete for the cash |
| SimulatorLog.RecordsSurvive | src/kiwit/paper_simulator.py:76-96 | a recorded answer survives every later command |
| SimulatorLog.FailuresLeaveNoTrace | src/kiwit/paper_simulator.py:76-96 | any run ends with the account, clock and log of its successful commands alone, and those get the same answers without the failed ones |
| SimulatorLog.IdentityIsSpent | src/kiwit/paper_simulator.py:76-96 | after a success, whatever runs in between, a command with the same event identity changes nothing: it gets the stored answer if it puts the logged request, and is refused as a conflict if it puts another |
| SimulatorLog.RetriesChangeNothing | src/kiwit/paper_simulator.py:76-96 | interleaving any retries of commands that succeeded gives the same final state and the same answers as the run without them |
| SizingChain.CalculatePlan | src/kiwit/sizing.py:61-151 | the step-by-step calculation yields the specified plan, with a positive quantity exactly when no reason was given |
| SizingChain.PlanIsLargest | src/kiwit/sizing.py:119-145 | a positive number of whole lots is at most the planned quantity if and only if its planned loss fits the risk budget, its entry the capital, and its count the limit |
| SizingChain.Evaluate | src/kiwit/risk.py:15-52 | the risk engine as written computes the specified assessment, reasons in order |
| SizingChain.EngineBounds | src/kiwit/risk.py:15-52 | what the engine approves is whole lots whose loss fits the throttled budget, the open-risk share and the correlated-risk share |
| SizingChain.PolicyWithinEngine | src/kiwit/risk_policy.py:100-137 | what the policy approves is at most its quantity limit, whole lots, within the engine's budget and the per-trade maximum |
| RiskOutcomes.PlanAcceptedIff | src/kiwit/sizing.py:78-145 | a plan is accepted if and only if inputs and costs are usable, the prices are ordered, the reward meets the demanded multiple of the loss, and one lot fits budget, capital and count |
| RiskOutcomes.PlanPricesAre | src/kiwit/sizing.py:100-119 | entry, stop and target are tick prices, each rounded against the trader, the stop and the target their distances away |
| RiskOutcomes.DistanceIs | src/kiwit/sizing.py:103-105 | the stop distance is the multiple of the average true range or the fraction of the entry |
| RiskOutcomes.ReachIs | src/kiwit/sizing.py:107-112 | the target lies the reward multiple of the rounded distance away |
| RiskOutcomes.EngineRefusesIff | src/kiwit/risk.py:15-52 | each refusal of the engine stands for its own condition on equity, positions, drawdown, daily and weekly loss, unit risk, lot, open and correlated risk; it approves exactly when none holds, with the most whole lots the budget, halved from the throttle on, can lose |
| RiskOutcomes.OpenRiskSums | src/kiwit/risk.py:44-46 | open risk is the sum over the positions, in whatever order they are taken |
| RiskOutcomes.PolicyApprovesIff | src/kiwit/risk_policy.py:100-137 | the policy approves if and only if gates are open, the book is sound, the engine approves, a lot is permitted and its loss stays within the per-trade maximum |
| SizingChain.UnitRiskCovered | src/kiwit/unified_backtest.py:149-217 | for long plans, and shorts whose stop is at most twice the entry under a fee of at most one half, the unit risk at the fill is covered by the distance plus the allowance of four times slippage and fee plus two ticks |
| SizingChain.GeometryHolds | src/kiwit/paper_simulator.py:209-223 | on the quote that priced it, every accepted plan, long or short, fills at a positive price between its stop and its target |
| SizingChain.RiskHalfIff | src/kiwit/unified_backtest.py:147-221 | for an accepted plan and any quote that fills it, no configuration of the risk engine and no book lets an order be submitted that the risk half of the fill gate then refuses, if and only if the unit risk measured at the fill is at most the one sizing charged |
| SizingChain.CoveredPlansFit | src/kiwit/unified_backtest.py:149-217 | every long plan meets that condition, and every short whose stop is at most twice its entry under a fee of at most one half, on any quote |
| SizingChain.LaterQuoteFits | src/kiwit/unified_backtest.py:110-221 | the condition carries over from the quote that priced the plan to every later one that is no worse, as long as the price is inside the stop |
| SizingChain.OnlyCashCanRefuse | src/kiwit/paper_simulator.py:203-242 | on the quote that priced it or any later one no worse, a submitted order fails the geometry only when the price has reached the stop; where the per-unit condition held at pricing, it is admitted if and only if the price is inside the stop and the cash suffices |
| SizingChain.UncoveredShortRefused | src/kiwit/unified_backtest.py:147-221 | a concrete short whose stop is ten times its entry fails the condition, is submitted with budget 96 and would risk 101 on the quote that priced it, so no amount of cash admits it |
| SizingChain.ShortStopBounded | src/kiwit/sizing.py:108-119 | a reward multiple of at least one keeps an accepted short's stop within twice its entry, because its target is positive |
| SizingChain.SubmittedOrderFills | src/kiwit/paper_simulator.py:203-242 | while pending, on such a later quote before its session ends, the order is touched without error, and under the per-unit condition opens when the price is inside the stop and the cash suffices, and is rejected otherwise |
| History.OrderCandles | src/kiwit/marketdata/canonical.py:164-171 | one pass over the batch yields one bar a slot in key order, or the conflict |
| History.OrderedFailsIff | src/kiwit/marketdata/canonical.py:164-171 | a batch is refused exactly when two of its bars fill one slot with different values |
| History.OrderedCovers | src/kiwit/marketdata/canonical.py:164-171 | the result draws only on the batch and holds a bar equal in value to each of its bars |
| History.OrderedInOrder | src/kiwit/marketdata/canonical.py:164-171 | the result is strictly ordered by display key, open and close |
| History.RecordKeeps | src/kiwit/marketdata/history.py:91-140 | recording changes no stored row and adds only bars of its own batch with the batch's availability |
| HistoryOutcomes.RecordTakenIff | src/kiwit/marketdata/history.py:91-140 | a batch is recorded if and only if it names its source, holds no two different bars for a slot, all its bars had closed, and none contradicts or antedates what is stored |
| HistoryOutcomes.RecordLeaves | src/kiwit/marketdata/history.py:91-140 | a recording leaves what was there, each new bar under its key with the batch's availability, the bytes with their first receipt, a link of every bar to them, and the count of new bars |
| History.PastQueriesStable | src/kiwit/marketdata/history.py:91-172 | no run of recordings, accepted or rejected, changes what any query answers as of an instant before all their availabilities |
| History.QueriesOnlyGrow | src/kiwit/marketdata/history.py:148-172 | as of any instant a run only adds bars: the earlier answer survives in order, and each new bar belongs to a batch of the run available by then |
| History.NoHindsight | src/kiwit/marketdata/history.py:148-172 | a query returns exactly the stored bars of the instrument and interval that open in the range, close by its end and by the cutoff, and were available by the cutoff |
| History.QueryResolves | src/kiwit/marketdata/history.py:174-203 | when every row is backed, whatever a query returned resolves to raw batches as of the same instant |
| HistoryOutcomes.ProvenanceIs | src/kiwit/marketdata/history.py:174-203 | provenance is refused for the first bar that cannot be traced, for its reason; otherwise it names every received batch that supports any of the bars and no other |
| History.BackedIff | src/kiwit/marketdata/history.py:107-139 | a recording of new rows keeps every row backed if and only if the same raw bytes were not already stored with a later receipt |
| History.LateReceiptUnbacked | src/kiwit/marketdata/history.py:107-203 | bytes first received at 10 and a bar recorded from them at 5: the bar is served as of 5 and its provenance refused |
| History.HistoricalStore.Write | src/kiwit/marketdata/history.py:91-140 | a batch is inserted row by row; a conflicting or backdated row restores everything |
| History.HistoricalStore.Candles | src/kiwit/marketdata/history.py:148-172 | the read returns, oldest first and once each, exactly the stored bars of the series that opened in the range and were closed and available by the cutoff; it refuses an empty range or interval |
| HistoryReplay.HistoryQuality | src/kiwit/marketdata/history.py:217-267 | the gap report lists exactly the opens due and absent, the bars not due, and its reasons |
| HistoryOutcomes.GapReport | src/kiwit/marketdata/history.py:217-267 | missing is every due open without a bar, unexpected every bar not due, of another length or closed after the cutoff, and each reason stands for its own defect |
| HistoryOutcomes.SnapshotIs | src/kiwit/marketdata/history.py:278-293 | a snapshot holds exactly the bars readable at its clock, in order, with their gap report, and a reason of its own when there are none |
| HistoryReplay.SessionClock | src/kiwit/marketdata/history.py:300-335 | a declared session opens and closes at its local times, on its own exchange date |
| HistoryOutcomes.ReplayRefused | src/kiwit/marketdata/history.py:310-326 | a replay is refused exactly for an interval not positive, an empty range, no declared session in range, or an interval that does not divide one |
| ReplayFrames.ReplayTicks | src/kiwit/marketdata/history.py:300-335 | a replay has a frame for each candle close of each declared session in range and no other, in strictly increasing order |
| ReplayGenerator.FrameSource.Next | src/kiwit/marketdata/history.py:300-335 | each step of the generator yields the next frame of the replay of the store as it stands at that step, raises the refusal once at its first step, and ends after the last frame |
| ReplayFrames.FramesGrow | src/kiwit/marketdata/history.py:300-335 | of two frames of one exchange date, with any recordings between them, the later read from the grown store holds every bar of the earlier |
| ReplayFrames.CompleteFrame | src/kiwit/marketdata/history.py:217-293 | a frame of a session replayed from its opening carries no reason exactly when it holds one bar for every interval since the opening, without a gap |
| LiveDatasets.Build | src/kiwit/ml/datasets.py:128-173 | the row loop over the generator, with others recording before every frame and every label query, returns the rows and exclusion counts of what each read saw |
| Datasets.KeptIff | src/kiwit/ml/datasets.py:137-159 | a frame yields a row if and only if its features are ready, the horizon ends inside the split and the session, and the bars visible before the split end open at the window's whole minutes and only there |
| Datasets.RowsArePointInTime | src/kiwit/ml/datasets.py:137-173 | a row's features come from bars closed and available at its instant in the store its frame was read from; its outcome bars open no earlier, close by the horizon, and were available before its split ended in the store its labels were read from |
| DatasetRows.KeptRowIs | src/kiwit/ml/datasets.py:141-173 | a row holds the features of its frame, the horizon's bars, one for each whole minute in order, and their labels against the close of the newest bar of the frame |
| DatasetRows.ExcludedFor | src/kiwit/ml/datasets.py:137-160 | each exclusion stands for the first condition that fails: features, split horizon, session, outcome data |
| DatasetRows.BuiltRowsAre | src/kiwit/ml/datasets.py:128-173 | whatever is recorded during a build, every frame of its range gives one row or one exclusion, and each row is computed from one of those frames as it was read |
| LiveDatasets.ChecksAlwaysHold | src/kiwit/ml/datasets.py:195-208 | the build's own leakage checks never fail, whatever is recorded while it runs |
| LiveDatasets.LaterDataNeverInterferes | src/kiwit/ml/datasets.py:137-173 | recordings made before and all through the build, accepted or rejected, that become available at or after a split's end leave every sample of that split and the earlier ones as a build on the untouched store gives it: rows, features, labels and exclusions |
| LiveDatasets.FinishedDatasetsAreFixed | src/kiwit/ml/datasets.py:128-207 | with recordings before and during the build available at or after the test end, it returns the very dataset of the untouched store |
| Orchestrator.EntriesAllowedIff | src/kiwit/session_orchestrator.py:152-216 | a tick allows entries if and only if the boot is armed by itself, healthy, warm or warming now, the instant is between the observation delay and the entry cutoff, ticks increase, the binding holds, and every earlier unfinished day closes now |
| Orchestrator.EntriesNeedFinishedPast | src/kiwit/session_orchestrator.py:159-168 | when entries are allowed every earlier stored day is complete |
| Orchestrator.EntriesNeedRun | src/kiwit/session_orchestrator.py:120-141 | from any file on which a boot holds no consent, no interleaving of boots lets it allow entries that day without a RUN by it in between |
| Orchestrator.LatchFailsClosed | src/kiwit/session_orchestrator.py:143-223 | after STOP, an error, failed health, closing, completion or another boot's warm-up, no later tick allows entries that day until a later RUN by that boot |
| Orchestrator.CompleteIsFinal | src/kiwit/session_orchestrator.py:133-150 | completion is absorbing and disarmed over every run, and keeps its report |
| Orchestrator.RunBeforeFirstTickIsVoid | src/kiwit/session_orchestrator.py:175-176 | consent given to a boot before its first tick on a day warmed by another boot is discarded by that tick |
| Orchestrator.TicksIncrease | src/kiwit/session_orchestrator.py:173-177 | answered ticks of a day strictly increase |
| Orchestrator.StepKeeps | src/kiwit/session_orchestrator.py:120-223 | every call keeps the table ordered, completed days unarmed, bindings fixed, and gives consent only by RUN |
| TickOutcomes.TickAnswersIff | src/kiwit/session_orchestrator.py:152-216 | a tick answers if and only if earlier days are complete or close now, the calendar declares the day, the binding holds and time moved on; phase, consent, warm-up, report and what the backend is told follow from the session's times and the adapters' answers |
| TickOutcomes.UnfitTickDisarms | src/kiwit/session_orchestrator.py:113-190 | stale, future-dated, failing or unreadable health in the active window ends disarmed and blocked, or in error, and from the open on the backend is told that entries are not allowed |
| TickOutcomes.SweepLeaves | src/kiwit/session_orchestrator.py:159-168 | an unfinished earlier day is closed exactly when every day before it is complete or closes now; all other rows stay |
| TickOutcomes.ControlTakesEffectIff | src/kiwit/session_orchestrator.py:120-141 | control takes effect if and only if the operator is named, the day declared, unfinished and bound to this configuration, and a RUN inside its window; it sets or clears that day's consent and records itself |
| Orchestrator.SessionOrchestrator.Control | src/kiwit/session_orchestrator.py:120-141 | RUN and STOP change the day's consent as specified or are refused without effect |
| Orchestrator.SessionOrchestrator.Tick | src/kiwit/session_orchestrator.py:152-216 | the tick as written, with the backend's answers as input, leaves the specified file, answer and observation |
| Chunker.ChunkDocument | src/kiwit/rag.py:98-139 | the buffered loop with its emits yields the specified chunks, and refuses exactly the invalid sizings |
| Chunker.ChunksRejoin | src/kiwit/rag.py:105-139 | dropping from each later chunk its leading min(overlap, previous length) words and joining gives back all words in order; every chunk after the first adds a word |
| Chunker.ChunksWithinSize | src/kiwit/rag.py:128-139 | no chunk is longer than the target, or than the overlap plus the longest paragraph |
| ChunkOutcomes.ChunksAreFull | src/kiwit/rag.py:128-139 | every chunk but the last ends at a paragraph, and only because the next one would take it past the target |
| ChunkOutcomes.RangeIs | src/kiwit/rag.py:105-116 | with or without page marks, a range is the least and the greatest page of the parts, and none when no part has one |
| Chunker.PageRangesHold | src/kiwit/rag.py:105-126 | with page markers that never go back, each chunk's page range contains the true page of each of its words and ends on the page of its last word |
| ReportLease.ClaimsAreSpaced | src/kiwit/options_operations.py:91-115 | over all interleavings two claims of one report are at least five minutes apart, so sends overlap only if the first outlived its lease, and attempts never outnumber claims |
| ReportLease.SentIsFinal | src/kiwit/options_operations.py:93-115 | a sent report's row never changes again |
| ReportLease.LateFinishDiscarded | src/kiwit/options_operations.py:108-115 | once another worker has claimed the report, the earlier worker's result is discarded |
| ReportLease.RowSteps | src/kiwit/options_operations.py:91-115 | a step leaves a row alone, leases it when it is unsent and due, or records the result of the lease it carries |
| ReportLease.PickedFirst | src/kiwit/options_operations.py:93-98 | the claimed report comes first, by attempts, next attempt and date, among those due |
| DeliveryOutcomes.ClaimLeases | src/kiwit/options_operations.py:91-103 | a claim leases exactly one report that is unsent, unleased and due, under a fresh lease of five minutes, or does nothing |
| DeliveryOutcomes.FinishRecords | src/kiwit/options_operations.py:104-115 | a finish records status, attempt, instant and a retry a quarter of an hour after the claim on the row that still carries its lease, and changes nothing else |
| DeliveryOutcomes.PrepareAdds | src/kiwit/options_operations.py:66-88 | preparing a day adds its report once, pending and due at once |
| ReportLease.ReportDesk.Acquire | src/kiwit/options_operations.py:90-103 | claiming leases the first due report for five minutes |
| ReportLease.ReportDesk.Complete | src/kiwit/options_operations.py:108-115 | completing records status, attempts and the retry time exactly when the lease is still held |

## Left out

- Decimal precision: values are exact reals; the 28- and 50-digit contexts, non-finite values and overflow are not modelled.
- JSON, SHA-256, UUIDs and SQL: identifiers are positions or opaque values, hashes are the hashed value itself, tables are sequences or maps, and mutual exclusion of transactions is assumed.
- Network, broker, mail and model adapters: their answers, including raised errors, are inputs.
- Clocks: every operation takes the instant it read; nothing assumes they agree or increase, unless a lemma says so.
- CallBilling.MoneySafe: a response whose usage exceeds the reservation, or cannot be read, is charged 0.2 as the original does; what the provider bills for it is not bounded.
- SimulatorLedger.RunKeeps: cash is shown non-negative for long orders only; a short order can overdraw the account.
- SimulatorLedger.LossWithinBudget: a quote beyond the stop may lose more than the budget, as the original documents.
- WalkExit.WalkRefinesDesk: covers rows up to the contract's expiry, and later days only when the position records its trading day; `WalkExit.ReasonsAgreeIff` gives the exact condition for the rest.
- DeskLog.LogDeterminesBooks: assumes sessions open on non-decreasing dates, because the log is tallied by date.
- Chunker.PageRangesHold: the range may start before the first word's page, because kept words carry one page; only containment and the exact end are claimed.
- Chunk text: page markers, paragraph splitting and whitespace are outside; text before the first page marker is dropped by the original before paragraphs exist.
- HistoryReplay.HistoryQuality: missing and unexpected opens are sets; the original sorts them into tuples.
- Datasets: feature and label formulas are function inputs; class balance, warnings, fingerprints and walk-forward folds are omitted.
- Plan selection: sizing, the price cap, the exit levels and the choice are modelled; the order of candidates, playbook routing, trigger bounds, chart setups and the event calendar are inputs, and the checks of a plan's identity and life at entry are one boolean.
- Legacy positions without a remaining entry cost, marks and detail texts in events, learning summaries and daily report contents.
- Bank Nifty observe and readiness loops and the scan's broker calls, worker health, alerts and incidents: shallow branches around the transactions modelled here.
- `PaperDecisionCore` bookkeeping: the portfolio snapshot handed to the risk engine is an input; the critic and meta engines are boolean gates.
- `assess_market`, `strategy_readiness` and `decision_reason_codes`: read-only summaries that would add only easy members.
- Tape parsing in `walk_exit`: each observation arrives with its contract and quote; lookup and parsing errors are outside.
- Evidence portfolio: entry search on the tape is an input that answers with an offer; confidence intervals are omitted.
- Report backlog: reports are inserted one at a time, without the batch limit of twenty.
