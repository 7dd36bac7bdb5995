# CashGuard: a verified model of its ledgers, simulations and protocols

CashGuard is a cash-only trading platform. This project models the parts of it that hold money
or decide about it, and proves what they keep over every input, every run and every
interleaving. Run `dafny verify dfyconfig.toml` to check it.

Figures that the platform keeps as decimals are exact reals here, with each rounding step
written out (`Decimals`): half-even and toward-zero at eight places, half-even at two, half-up
in a database column. Code that changes state is a class or a method with loops, proved equal
to a specification function; the main results are lemmas about those functions.

| modules | what they model |
|---|---|
| `Decimals`, `Outcomes`, `Rearranging` | rounding, results, sequences that are rearrangements |
| `PaperPolicy`, `PaperLedger`, `PaperLedgerProofs`, `PaperLedgerOutcomes`, `PaperEngine` | the paper fill policy and the paper ledger: cash, positions, average cost, trades, partial orders |
| `CashReservation`, `CashReservationProofs` | admissions of live buys against stale cash readings, as interleaved steps |
| `Backtest`, `BacktestProofs`, `BacktestSessions`, `BacktestEntries`, `BacktestTrades`, `OverdrawnRun`, `Metrics`, `DataContract` | the bar-by-bar backtester, runs of it that end in debt, its measures, and the check on its input |
| `WalkForward` | the walk-forward window scan and the choice of parameters |
| `Portfolio`, `PortfolioProofs`, `PortfolioRun` | the rebalancer and its calendar-driven run |
| `CanonicalRecords`, `DatasetCache` | canonical price records and the crash-prone three-write publish |
| `RedisLock` | the Redis lease: SET NX EX, compare-and-delete, lost messages, dead workers |
| `BrokerRecord`, `BrokerRecordProofs`, `BrokerRecordReadings` | what a broker's record proves about a local order |
| `PaperNumeral`, `PaperIntent` | the browser's check of a numeral and its store of paper operations |

## Where the code does not do what one would expect

Each of these is a lemma, with a failing input where one is short and the exact condition under
which the expectation holds.

- The paper book is *not* conserved to 1e-8 a fill once a position's average cost has gone
  through its eight-place column: `PaperLedgerProofs.StoredAverageDrifts` is off by 0.002 after
  one fill. The drift of any run is exactly the sum of its fills' residues
  (`PaperLedgerProofs.DriftIsSumOfResidues`), `PaperLedgerProofs.FillWithinQuantumExactlyWhen`
  says when one fill stays within 1e-8, and `PaperLedgerProofs.BookIsConserved` bounds a run.
- A buy's recorded `cash_used` and the cash it takes are rounded separately; they are the same
  figure if and only if the cost is not a tie or the balance is an even number of quanta
  (`PaperLedgerProofs.CashUsedIsCashTaken`), and `PaperLedgerProofs.CashUsedComesApart` is a
  run of two buys where they differ by one quantum.
- Task runs exclude each other if and only if every kind of run that shares the lock is killed
  before its lease can run out (`RedisLock.ExclusionExactlyWhenLimitBelowTtl`); all deployed
  locks meet this (`RedisLock.DeployedRunsNeverOverlap`).
- Cash admission is safe if and only if clocks are within tolerance *and* an undated cash
  figure is no older than the age assumed for it (`CashReservationProofs.SafeExactlyWithinTolerance`).
- A backtest can end in debt, because a sale's fee can exceed the cash there is and what the
  sale brings in: `OverdrawnRun.EndsInDebt` is such a run. Cash stays non-negative if and only
  if every sale is paid for (`BacktestProofs.CashIsNonNegativeExactlyWhen`). Over all strategies
  and series, a flat commission can lead there if and only if it is more than 1e-16, the least
  a sale can bring in (`OverdrawnRun.CommissionOverdrawsExactlyWhen`), and so can the policy's
  own fee (`OverdrawnRun.PolicyFeeOverdraws`).
- On the equity curve of that run the drawdown tracker reports 149.001 percent and the deepest
  fall is over 181 (`OverdrawnRun.TrackerMissesTheFall`); the tracker's figure is the deepest
  fall if and only if no negative point is a deeper fall from the lowest positive point before
  it (`Metrics.TrackedIsDeepestExactlyWhen`).
- A position half of which was sold at its half target no longer leaves at its target, only at
  its stop or by age; it counts as halved even where half of it rounds to nothing and no share
  was sold (`BacktestTrades.PositionsLeaveWhenDue`).
- Rebalancing can end with negative cash, because the minimum fee of a sale can exceed its
  proceeds (`PortfolioProofs.TinySaleOverdraws`); the cash it returns is non-negative if and
  only if opening cash plus the net proceeds of its sales, known at the open, is at least -0.005
  (`PortfolioProofs.CashStaysNonNegativeExactlyWhen`).
- The loss of a rebalance is not what its trades report: it is that, plus what rounding leaves
  out of the slippage columns, less twice what purchases below their open gained
  (`PortfolioProofs.LossIsWhatTradesReport`). The rounding is at most half a quantum a trade,
  and can make the loss the larger of the two (`PortfolioProofs.OrdinaryBuyIsRounded`); there
  is none when every open is in tenths. A purchase is never below an open that is on the
  eight-place grid or at least 0.00000501, and otherwise always is
  (`PortfolioProofs.BuysCoverTheOpenExactlyWhen`); `PortfolioProofs.CheapBuyIsMisreported` is a
  rebalance that reports as slippage what it gained. One row is exact if and only if its fill
  gained nothing and its slippage needs no more than eight decimals
  (`PortfolioProofs.RowIsExactExactlyWhen`).
- The decision about a history page does not depend on the order of its records
  (`BrokerRecordProofs.HistoryOrderDoesNotMatter`), but the reason for refusing it does
  (`BrokerRecordProofs.ReasonsDiffer`), unless all records of the order that cannot be read are
  refused alike (`BrokerRecordProofs.ReasonIgnoresOrderExactlyWhen`).

## Model

| member | source | states |
|---|---|---|
| PaperPolicy.FillContract | apps/api/app/execution/paper_policy.py:55-99 | A fill is for at most the truncated quantity asked, exactly for it if and only if the profile is standard, never at a better price than the truncated quote, with at least the minimum fee, and all its figures lie on the eight-place grid |
| PaperPolicy.PriceIsAdverse | apps/api/app/execution/paper_policy.py:55-99 | After rounding, buys still fill at or above the quote and sells at or below it, at a positive price |
| PaperPolicy.PolicyDecides | apps/api/app/execution/paper_policy.py:55-99 | What the policy does with any request: refused if and only if it vanishes at eight places, has no liquidity, or half of it vanishes; otherwise the whole or half of it, at ten basis points from the truncated quote and a fee of two, at least a cent |
| Decimals.HalfEvenShift | apps/api/app/execution/paper_engine.py:451-452 | Rounding a balance less a cost agrees with the balance less the rounded cost if and only if the cost is not a tie or the balance is even |
| PaperLedgerProofs.FillConserves | apps/api/app/execution/paper_engine.py:444-502 | Cash plus positions at cost, less realized profit, changes over an accepted fill by exactly the fill's rounding residue: buy fees go into cost, sell fees into realized profit |
| PaperLedgerProofs.ResidueWithinAllowance | apps/api/app/execution/paper_engine.py:444-502 | The residue of one fill is at most one quantum, and with a stored average at most half a quantum more per share held after a buy |
| PaperLedgerProofs.TotalAppend | apps/api/app/execution/paper_engine.py:224-238 | A new snapshot changes a sum over latest positions by exactly that ticker's difference |
| PaperLedgerProofs.BookIsConserved | apps/api/app/execution/paper_engine.py:403-571 | After any sequence of requests, cash plus cost equals starting cash plus realized profit within the rounding allowance (one quantum a fill in session), cash is non-negative, and 0 <= sellable <= owned for every ticker |
| PaperLedgerProofs.StoredAverageDrifts | apps/api/app/db/models/__init__.py:656-677 | With averages kept in their Numeric(20, 8) column, one purchase of a million shares at a cent moves the book by -0.002 |
| PaperLedgerProofs.DriftIsSumOfResidues | apps/api/app/execution/paper_engine.py:403-502 | Over any run, cash plus cost less starting cash and realized profit is exactly the sum of the rounding residues of its accepted fills |
| PaperLedgerProofs.FillWithinQuantumExactlyWhen | apps/api/app/execution/paper_engine.py:444-502 | One fill moves the book by at most 1e-8 beyond its profit in session, when it leaves at most one share, and when it is a sell; any other buy does so if and only if its cash rounding and its average's share-weighted rounding add up to no more |
| PaperLedgerProofs.ResultIsProfit | apps/api/app/execution/paper_engine.py:544-571 | In every reachable ledger the account's result equals realized plus unrealized profit within twice the rounding allowance and half a quantum |
| PaperLedgerProofs.OrdersReconcile | apps/api/app/execution/paper_engine.py:849-1042 | In every reachable ledger an order's filled quantity is the sum of its fills and at most its size, it is filled if and only if nothing remains and rejected if and only if nothing filled, and a buy's cash_used is the cash its fills took within one quantum a fill |
| PaperLedgerProofs.CashUsedIsCashTaken | apps/api/app/execution/paper_engine.py:684-688 | In every reachable ledger, a buy filled when placed records exactly the cash it takes if and only if its cost is not a tie or the balance is an even number of quanta |
| PaperLedgerProofs.CashUsedComesApart | apps/api/app/execution/paper_engine.py:684-688 | After a buy that leaves an odd number of quanta, a buy whose cost is a tie records one quantum less than it takes |
| PaperLedgerProofs.BalanceIsWholeQuanta | apps/api/app/execution/paper_engine.py:444-452 | In every reachable ledger the balance is a whole number of quanta |
| PaperLedgerProofs.OpenPositionNamesItsBuyer | apps/api/app/execution/paper_engine.py:456-471 | An open position names an opening order if and only if every buy since it was last empty came from that order |
| PaperLedgerProofs.ClosingTradeCreditsItsBuyer | apps/api/app/execution/paper_engine.py:487-531 | A request leaves the closed trades alone or adds one to them, and that one credits an order if and only if that order alone bought what was held |
| PaperLedgerProofs.RunIsSound | apps/api/app/execution/paper_engine.py:403-1042 | Every request sequence leaves all tables sound together: conservation, grid, bounds, order agreement and opener agreement |
| PaperLedgerOutcomes.HoldingsAreNet | apps/api/app/execution/paper_engine.py:403-502 | In every reachable ledger, what is held of a ticker, and what may be sold of it, is exactly what its fills bought less what they sold |
| PaperLedgerOutcomes.FollowUpFillsExactlyWhen | apps/api/app/execution/paper_engine.py:849-958 | In every reachable ledger a follow-up changes the tables if and only if its order is partially filled, it asks for more than nothing and at most the remainder, its quote does not vanish, the balance covers a buy, the holding covers a sell and its fee, and the kill switch is known to be off |
| PaperLedgerOutcomes.FollowUpWrites | apps/api/app/execution/paper_engine.py:403-1042 | A follow-up that goes through adds to its order exactly its shares and marks it filled if and only if none remain; it writes one position row, one account row and, for a sell, one trade, each field from its price, quantity, fee and what was held before, and changes no other order |
| PaperLedgerOutcomes.OrderRecordedExactlyWhen | apps/api/app/execution/paper_engine.py:597-690 | In every reachable ledger a new order is recorded if and only if it asks for more than nothing and at most the largest storable quantity, both rounds of risk checks pass, the cash guard covers a buy at what each filled share costs with its fee, the holding covers a sell and its fee, and its id is new |
| PaperLedgerOutcomes.OrderWrites | apps/api/app/execution/paper_engine.py:597-847 | A new order that goes through is recorded as asked for: as rejected with nothing else written if the policy fills none of it, and otherwise with its fill, price, fee and cash and the same rows as a follow-up |
| PaperLedgerOutcomes.AskedIsWhatMoneyBuys | apps/api/app/execution/paper_engine.py:629-639 | The quantity asked is the one named, to eight places, or the most eight-place shares the notional buys at the estimated price |
| PaperLedgerOutcomes.OrderStatesItsFills | apps/api/app/execution/paper_engine.py:684-1042 | After any sequence of requests an order states exactly the shares, the fees and the cash of all its fills, and an average price that accounts for their money to within half a quantum a share and fill |
| PaperEngine.Engine.LatestPositions | apps/api/app/execution/paper_engine.py:224-238 | One pass from the newest row back finds, for every ticker, its newest snapshot, and no other ticker |
| PaperEngine.Engine.Invested | apps/api/app/execution/paper_engine.py:544-552 | The loop sums market value over exactly the newest snapshot of each ticker |
| PaperEngine.Engine.ApplyFillEffects | apps/api/app/execution/paper_engine.py:403-595 | The tables after a fill are those the ledger specification gives, and a refusal leaves all of them alone |
| PaperEngine.Engine.Execute | apps/api/app/execution/paper_engine.py:597-847 | Placing an order leaves the specified tables; every refusal (quantity, oversell, the risk checks before the cash guard, the cash guard, the risk checks after it) comes in that order and has no effect |
| PaperEngine.Engine.FillPartialOrder | apps/api/app/execution/paper_engine.py:849-1042 | A follow-up fill leaves the specified tables and order, or is refused without effect; when it is served and what it then writes are PaperLedgerOutcomes.FollowUpFillsExactlyWhen and FollowUpWrites |
| CashReservation.TakeAdmissionTurn | apps/api/app/execution/cash_reservation.py:66-90 | The turn is taken at the first ask granted; it is given up only at the first refused ask after the wait is over |
| CashReservationProofs.CountedCoversOrder | apps/api/app/execution/cash_reservation.py:93-145 | For one order, what it spent since the reading and may still spend is at most what an admission counts for it; CountedExactlyWhen says when it counts at all |
| CashReservationProofs.CountedExactlyWhen | apps/api/app/execution/cash_reservation.py:93-145 | An order counts, and with its whole cost, if and only if it is a live buy of that venue with a cost, of that or an unnamed account and environment, that is active or was updated, filled, cancelled or rejected no more than 60 seconds before the reading; every other row counts nothing |
| CashReservationProofs.AdmittedExactlyWhen | apps/api/app/execution/cash_reservation.py:49-145 | An admission takes its turn if and only if its cost is known and, with the costs of exactly the buys so counted, is at most the reading |
| CashReservationProofs.CountsFromEarlyEnough | apps/api/app/execution/cash_reservation.py:49-63 | The time an admission counts from, less the tolerance, is never later than the true time of its reading, dated or not |
| CashReservationProofs.PromisedCovers | apps/api/app/execution/cash_reservation.py:123-145 | A reading less the cash promised elsewhere is at most real cash less all open buys, however stale the reading |
| CashReservationProofs.StepKeepsInvariant | apps/api/app/execution/engine.py:415-489 | Every step (reading, admission, commit, abort, fill, ending, late stamp, credit, clock) keeps real cash at or above the unspent cost of all open and admitted buys |
| CashReservationProofs.ScheduleKeepsInvariant | apps/api/app/execution/cash_reservation.py:49-145 | The same over every interleaving from an empty order table |
| CashReservationProofs.CashIsAccountedFor | apps/api/app/execution/engine.py:415-489 | Under every schedule a pool's cash is what it started with and was credited, less what its orders have spent |
| CashReservationProofs.TurnsEndWithTheirTransactions | apps/api/app/execution/engine.py:415-489 | An admission's turn is held, with its order, until its own transaction commits or aborts; only committing it, or recording a sell or a dry run, adds an order, and none is ever dropped |
| CashReservationProofs.OverdrawHappens | apps/api/app/execution/cash_reservation.py:49-63 | Outside the tolerances, for every excess, a concrete schedule promises cash that is not there |
| CashReservationProofs.SafeExactlyWithinTolerance | apps/api/app/execution/cash_reservation.py:49-145 | Every schedule is safe if and only if clock skew is at most 60 seconds and undated age plus skew at most 960 |
| BacktestProofs.EntryRespectsCaps | apps/api/app/backtest/engine.py:465-526 | An entry the capping code lets through respects requested size, position cap, stop-risk cap, required stop, and settled cash with its fee, all at once, at the policy price of the open |
| BacktestEntries.EntryIsLargest | apps/api/app/backtest/engine.py:465-526 | An entry is made if and only if one quantum of shares is within the caps and, beside the fee of the most shares within them, within the cash; and it is then the most shares within the caps, or the most the cash covers beside that fee |
| BacktestEntries.EntryRefusedExactlyWhen | apps/api/app/backtest/engine.py:465-526 | An entry is refused if and only if nothing is asked for, it or the open vanishes at eight places, or a required stop is not between zero and the price |
| BacktestProofs.SellBalances | apps/api/app/backtest/engine.py:757-806 | Selling any part of a position keeps cash, cost, unallocated fee, commission, slippage and share count in balance, although entry fee and slippage are split pro rata |
| BacktestProofs.StepKeepsRunning | apps/api/app/backtest/engine.py:589-888 | One bar keeps the whole loop invariant: balance, at most one pending order and only when flat, entries timely and capped against the account they were sized from, cash accounted for by the recorded entries and sales, curve in step with the account, and sales in step with cash |
| BacktestProofs.RunConserves | apps/api/app/backtest/engine.py:639-958 | Over every series and strategy, final minus initial capital is the sum of trade profits, total commission and slippage are the sums over trades, every share bought is sold, and the curve ends at final capital |
| BacktestProofs.EntriesAreTimelyAndCapped | apps/api/app/backtest/engine.py:639-867 | Every filled entry is the order the strategy asked for on being shown its signal bar and those before; it fills on the next bar, in the same session, at that bar's open, within every cap measured against the account as it stood after the signal; its price and fee are what left the account and what its trades start from; at most one order is pending, from the last bar, and only when flat |
| BacktestSessions.RunKnows | apps/api/app/backtest/engine.py:589-640 | After any number of bars, the bars traded are exactly those in the date range, before any past its end, whose session began at the exchange's open with the last close of the session before known; the session and the history shown are exactly its bars and all bars so far |
| BacktestEntries.AskedExactlyWhenFlat | apps/api/app/backtest/engine.py:819-870 | An order waits after a bar if and only if that bar was traded, ended flat, is of no early-close session and the strategy answered; it was shown exactly the bars so far, their clocks, the previous close, and the cash as the account's worth |
| BacktestEntries.EntersExactlyWhen | apps/api/app/backtest/engine.py:639-700 | A bar adds an entry if and only if an order waited from the bar before it, of the same session, and the caps and the cash leave something to buy; that entry is the largest, with its fee and slippage |
| BacktestTrades.PositionsLeaveWhenDue | apps/api/app/backtest/engine.py:715-817 | After any bar, what is held is what is left of one entry at the levels its signal asked for, and on no traded bar since its entry was it due to leave; every trade closed a position on a bar where its reason was due: at the stop or a lower open; else, until it is halved, at the target, or for half at one risk above the entry; else at the open after the holding limit; its price, quantity, fee, slippage and profit follow from that quote |
| BacktestTrades.EveryTradeIsDue | apps/api/app/backtest/engine.py:715-945 | Every trade of a finished run left when, why and where it was due, or sold at the last traded close a position that was never due |
| BacktestEntries.CurveIsTheAccount | apps/api/app/backtest/engine.py:872-882 | Every point of the curve is the cash after its bar, and that cash with what is held at its close |
| BacktestEntries.StepRefusedExactlyWhen | apps/api/app/backtest/engine.py:589-888 | A bar stops the run with an error if and only if it is traded and its order is bad, or what is held is due to leave at a quote that vanishes, or the strategy asks to sell or for nothing |
| BacktestEntries.CloseOutRefusedExactlyWhen | apps/api/app/backtest/engine.py:890-945 | A run all of whose bars go through is refused if and only if something is still held and the last traded close vanishes at eight places |
| BacktestProofs.CashIsWhatEntriesAndSalesMoved | apps/api/app/backtest/engine.py:639-958 | Final cash is the capital less the price and fee of every entry plus the proceeds of every sale less its fee; each sale is one trade at its exit price, and every trade was bought at the price and on the bar of an entry |
| BacktestProofs.CashIsNonNegativeExactlyWhen | apps/api/app/backtest/engine.py:465-806 | Cash is non-negative after every bar and at the end if and only if every sale's fee was covered by the cash it found and what it brought in; so whenever no fee exceeds its proceeds |
| BacktestProofs.SmallCommissionNeverOverdraws | apps/api/app/backtest/engine.py:745-806 | At a flat commission of at most 1e-16 every strategy and series ends with cash non-negative and every sale paid for |
| OverdrawnRun.EndsWithWhatIsLeft | apps/api/app/backtest/engine.py:528-958 | For any fee and any gap through the stop, an accepted run whose entry uses all cash ends with what its one sale brings in less the fee |
| OverdrawnRun.CommissionOverdrawsExactlyWhen | apps/api/app/backtest/engine.py:745-806 | Some strategy and series end in debt at a flat commission if and only if it is more than 1e-16 |
| OverdrawnRun.PolicyFeeOverdraws | apps/api/app/backtest/engine.py:364-389 | With no commission set, under the policy's own fee, some strategy and series end in debt |
| OverdrawnRun.EndsInDebt | apps/api/app/backtest/engine.py:745-806 | An accepted run with a flat commission of 50, an entry that uses all cash and a gap through the stop ends 49.001 in debt |
| BacktestProofs.NoLookAhead | apps/api/app/backtest/engine.py:589-958 | Two finished runs over series that agree on their first k bars publish the same entries on those bars, the same trades closed on them but for a run's closing sale, and the same curve points of them but for a curve's last |
| BacktestProofs.RunPublishes | apps/api/app/backtest/engine.py:589-958 | What stood after k bars stays in the finished run: entries and trades are only added, dated with later bars, and only the last curve point is rewritten |
| BacktestProofs.EntriesSeeOnlyTheOpen | apps/api/app/backtest/engine.py:639-708 | Two series that agree before bar k, and on its time, session and open, have the same entries after it, whatever its high, low, close and volume |
| Backtest.FillPendingOrders | apps/api/app/backtest/engine.py:639-708 | The loop over pending orders fills them one after another, each against the account the last one left, and stops at the first refusal |
| Backtest.Run | apps/api/app/backtest/engine.py:528-967 | The run is refused for an unsound series or a bar outside every session, and is otherwise the simulation of its bars, whose entries, exits and refusals BacktestEntries and BacktestTrades pin down |
| DataContract.ValidateBarSeries | apps/api/app/backtest/data_contract.py:15-55 | A series passes if and only if lengths agree, times have zones and strictly increase, and in every bar 0 < low <= open, close <= high with volume >= 0 |
| Metrics.MaxDrawdown | apps/api/app/backtest/engine.py:993-1011 | The one-pass figure is the deepest fall from any running peak to its point, and where it runs |
| Metrics.TrackedIsDeepestExactlyWhen | apps/api/app/backtest/engine.py:1003-1010 | That figure is the deepest fall over all pairs of points if and only if no negative point is a deeper fall from the lowest positive point before it; so always while no equity is negative |
| OverdrawnRun.TrackerMissesTheFall | apps/api/app/backtest/engine.py:1003-1010 | On the curve of the run that ends in debt, the tracker can only report 149.001 percent, and the fall from the first point is over 181 |
| Metrics.MaxConsecutiveLosses | apps/api/app/backtest/engine.py:1111-1120 | The counter is the length of the longest contiguous run of trades that did not win |
| Metrics.LongestMissingRun | apps/api/app/backtest/portfolio_engine.py:214-223 | The counter is the length of the longest contiguous run of expected sessions not observed |
| WalkForward.SessionGroups | apps/api/app/backtest/engine.py:1191-1203 | The groups tile the bars: consecutive, covering, each a maximal stretch of one session |
| WalkForward.TilesOneWay | apps/api/app/backtest/engine.py:1191-1203 | There is only one such tiling of a series |
| WalkForward.TakeCompleteSessions | apps/api/app/backtest/engine.py:1219-1226 | The result is the shortest run of whole sessions with the minimum of bars, and none if and only if what is left is too short |
| WalkForward.Scan | apps/api/app/backtest/engine.py:1245-1361 | The scan ends; each window is train, validation and test, each the shortest that meets its minimum, starting exactly where the rule for the next start says; where it ends no further window fits |
| WalkForward.Run | apps/api/app/backtest/engine.py:1176-1361 | Bars are refused unless every session stretch is whole; otherwise the result is the scan of their groups |
| WalkForward.ScanIsDetermined | apps/api/app/backtest/engine.py:1245-1361 | The description of the scan has one solution, so it fixes every window |
| WalkForward.WindowsAreDisjoint | apps/api/app/backtest/engine.py:1351-1361 | Windows run forward in time without sharing a session, and starts are at least the block and at least step bars apart |
| WalkForward.Optimise | apps/api/app/backtest/engine.py:1365-1426 | The choice is the first eligible candidate with the highest validation ratio, absent if and only if none is eligible, and the count is of all eligible ones |
| Portfolio.RebalancePortfolio | apps/api/app/backtest/portfolio_engine.py:734-856 | The sell and buy loops give the specified cash, holdings and trades, and refuse when the policy rejects a fill |
| PortfolioProofs.RebalanceConserves | apps/api/app/backtest/portfolio_engine.py:745-856 | Equity at the open falls by exactly fees and what fills give away, the returned cash is within half a cent of it, and each holding moves by exactly its net shares traded |
| PortfolioProofs.LossIsWhatTradesReport | apps/api/app/backtest/portfolio_engine.py:702-856 | The loss at the open is exactly the sums of the fee and slippage columns, plus what rounding leaves out of the latter (at most half a quantum a trade), less twice what purchases below their open gained (nothing if and only if the policy price of every purchase covers its open, as for opens on the grid or from 0.00000501 on); at a flat rate, or with every open in tenths, it is exactly the columns |
| PortfolioProofs.RowIsExactExactlyWhen | apps/api/app/backtest/portfolio_engine.py:773-841 | A row's slippage column is exactly what its fill gave away if and only if that was no gain and lies on the eight-place grid |
| PortfolioProofs.CostColumnAgreesExactlyWhen | apps/api/app/backtest/portfolio_engine.py:790-843 | A row's cost column is its slippage plus its fee if and only if the slippage is no tie or the fee is an even number of quanta |
| PortfolioProofs.OrdinaryBuyIsRounded | apps/api/app/backtest/portfolio_engine.py:800-849 | A rebalance that buys 1.2373 shares at an open of 100.01 loses 0.000000003 more than it reports |
| PortfolioProofs.BuysCoverTheOpenExactlyWhen | apps/api/app/backtest/portfolio_engine.py:498-524 | The policy price of a buy is at or above its open if and only if the open is on the eight-place grid or at least 0.00000501 |
| PortfolioProofs.CheapBuyIsMisreported | apps/api/app/backtest/portfolio_engine.py:734-856 | A rebalance that buys a thousand shares at an open of 0.00000001497 gains 0.00000497 on the fill and reports it as slippage |
| PortfolioProofs.RebalanceReachesTargets | apps/api/app/backtest/portfolio_engine.py:760-849 | A trade is a sale if and only if its ticker starts above its target, so no ticker is both sold and bought; one above target ends at or above it by less than a share quantum unless fully sold; one below is never lifted above |
| PortfolioProofs.BuyingStopsForAReason | apps/api/app/backtest/portfolio_engine.py:800-849 | A ticker left below target, whose policy price covers its open, is within one share quantum of it, or the cash left does not pay for one more quantum and the fee of at most what it was short of |
| PortfolioProofs.CheapBuyLeavesCash | apps/api/app/backtest/portfolio_engine.py:800-849 | At an open of 0.00000001497 buying stops far short of the target with a third of the cash left |
| PortfolioProofs.SecondAttemptIsSmaller | apps/api/app/backtest/portfolio_engine.py:817-826 | When a buy and its fee exceed cash, the second attempt is for strictly fewer units |
| PortfolioProofs.CashStaysNonNegativeExactlyWhen | apps/api/app/backtest/portfolio_engine.py:760-849 | The cash returned is non-negative if and only if opening cash plus what each over-target sale brings in less its fee, all known at the open, is at least -0.005 (unrounded: at least 0); it is enough that every sale covers its fee |
| PortfolioProofs.TinySaleOverdraws | apps/api/app/backtest/portfolio_engine.py:760-798 | Selling one quantum at 1.00 with no cash leaves cash negative, and the cash returned is -0.01 |
| PortfolioProofs.PolicyFillsExactly | apps/api/app/backtest/portfolio_engine.py:512-524 | The policy fills a whole number of share quanta exactly, so the traded quantity is the planned one |
| PortfolioProofs.FillsExactlyWhen | apps/api/app/backtest/portfolio_engine.py:498-524 | A fill of whole share quanta is priced if and only if a flat rate is used or the open does not vanish at eight places |
| PortfolioProofs.OrdinaryRebalancesGoThrough | apps/api/app/backtest/portfolio_engine.py:734-856 | A rebalance at opens none of which vanishes at eight places is never refused |
| PortfolioRun.MarkToClose | apps/api/app/backtest/portfolio_engine.py:614-632 | A curve point is cash plus all holdings at the close, rounded to cents |
| PortfolioRun.RunSession | apps/api/app/backtest/portfolio_engine.py:580-632 | A session rebalances when one is due at that day's opens with weights from the bars before it, then marks to its closes |
| PortfolioRun.Run | apps/api/app/backtest/portfolio_engine.py:553-643 | The run is refused without more sessions than the minimum history, and otherwise is its sessions in order |
| PortfolioRun.WeightsAreTheStrategysOwn | apps/api/app/backtest/portfolio_engine.py:589-597 | The weight of each ticker is the strategy's own answer for it while they add up to at most 1.0001, and otherwise that answer over their sum, which then add up to one; a ticker it does not name gets none |
| PortfolioRun.RebalancesOncePerPeriod | apps/api/app/backtest/portfolio_engine.py:460-613 | The run starts in cash; on the first tradable session of each month, quarter or year, cash, holdings and trades become those of one rebalance at its opens, to the strategy's own weights, ticker by ticker, on exactly the bars before it; on every other session all three stay as they were; each session adds one point at its closes; each period has exactly one such session |
| PortfolioRun.NoLookAhead | apps/api/app/backtest/portfolio_engine.py:586-613 | Two runs that agree on the dates up to session k, on all bars before it and on its opens alone have the same cash, holdings, trades and rebalance sessions after it |
| PortfolioRun.ResultsOnlyGrow | apps/api/app/backtest/portfolio_engine.py:580-643 | Trades, rebalance sessions and curve points of the first k sessions stay as they are in the finished run |
| CanonicalRecords.OneSpellingPerNumber | apps/api/app/backtest/dataset_cache.py:104-112 | Two decimals have the same canonical form if and only if they are the same number |
| CanonicalRecords.CanonicalRecords | apps/api/app/backtest/dataset_cache.py:115-126 | The loop gives the canonical records, refused if and only if some time is not an integer |
| CanonicalRecords.SortedSorts | apps/api/app/backtest/dataset_cache.py:115-126 | The records are rearranged and end in time order |
| CanonicalRecords.RecordStatesItsRow | apps/api/app/backtest/dataset_cache.py:104-126 | A record states, field by field, the numbers of its row in canonical form, and exists if and only if the time is a whole number |
| CanonicalRecords.CanonicalIsTheRows | apps/api/app/backtest/dataset_cache.py:115-126 | The canonical records are exactly the records of the rows, each as often as it is there, and are refused if and only if one of them has none |
| CanonicalRecords.CanonicalIsIdempotent | apps/api/app/backtest/dataset_cache.py:104-126 | Canonical records in increasing time are their own canonical form |
| CanonicalRecords.CanonicalIgnoresSpellingAndOrder | apps/api/app/backtest/dataset_cache.py:104-126 | Rows stating the same numbers, in other spellings and any order, have the same canonical records when times are distinct |
| DatasetCache.SessioniseFilters | apps/api/app/backtest/dataset_cache.py:292-307 | Sessionising keeps only records in session, in order; SessioniseKeepsExactly says that it keeps all of them |
| DatasetCache.SessioniseKeepsExactly | apps/api/app/backtest/dataset_cache.py:292-307 | Sessionising keeps every record in session as often as it is there, and no other |
| DatasetCache.PreparedExactlyWhen | apps/api/app/backtest/dataset_cache.py:184-220 | A publish is prepared if and only if its time and revision are given, the rows parse and one of them is in session; it then publishes exactly the canonical rows in session, under their identity, with the manifest's counts those of the rows given, kept and left out |
| DatasetCache.LoadsExactlyWhenIntact | apps/api/app/backtest/dataset_cache.py:232-264 | A load returns a dataset if and only if the disk holds it intact: its reference, manifest and object whole, true to their identities and to each other, and the records canonical, sound and all in session |
| DatasetCache.PreparedIsGenuine | apps/api/app/backtest/dataset_cache.py:184-220 | Everything publish prepares passes every check load makes: identities, schema, manifest, parsing, and canonical and sessionised form are fixed points |
| DatasetCache.ScheduleKeepsInvariant | apps/api/app/backtest/dataset_cache.py:184-230 | Under every interleaving of publishers that may die at any write, every reference names a manifest and an object that are present, whole and match their identities |
| DatasetCache.LoadReturnsNewestPublish | apps/api/app/backtest/dataset_cache.py:184-264 | In every such state, load returns exactly the records and manifest of the newest completed publish of that request, and fails only when there is none |
| DatasetCache.LoadAmongPublishers | apps/api/app/backtest/dataset_cache.py:232-264 | A load whose four reads have publishers at work between them returns exactly the records and manifest of the publish that was newest when its reference was read, and fails only when there was none |
| DatasetCache.PublisherCanComplete | apps/api/app/backtest/dataset_cache.py:184-230 | From every reachable state, whatever others did or left behind, a running publisher completes by its own remaining steps, appends its plan, and load then returns its records |
| DatasetCache.SameNumbersSameObject | apps/api/app/backtest/dataset_cache.py:197-204 | Rows stating the same numbers are published under the same content identity |
| DatasetCache.Cache.AtomicWrite | apps/api/app/backtest/dataset_cache.py:388-400 | The target changes to the whole payload, the temporary file is gone, and nothing else changes |
| DatasetCache.Cache.Publish | apps/api/app/backtest/dataset_cache.py:184-230 | What an uninterrupted publish returns is what load then finds, and a refused one writes nothing; when it is refused and what it returns is PreparedExactlyWhen |
| RedisLock.LockKey.Set | apps/api/app/core/redis.py:44-107 | It is granted if and only if no unexpired key is there; the key is then the token's for the lease asked for, and nobody else can take or delete it until that has passed; after a refused one the key is as it was, and unexpired |
| RedisLock.LockKey.Release | apps/api/app/core/redis.py:21-26 | The owner's release of an unexpired key leaves none; another owner's key is never touched |
| RedisLock.ScheduleKeepsInvariant | apps/api/app/core/redis.py:44-107 | Under every schedule of lost requests, lost replies and deaths, with several kinds of use of one lock, a granted, living use's lease outlasts its start by the full lease it asked for and the key is its own until then |
| RedisLock.LeasesNeverOverlap | apps/api/app/core/redis.py:44-107 | No two workers are both inside leases that have not run out |
| RedisLock.LateReleaseIsHarmless | apps/api/app/core/redis.py:21-26 | A release served at any later time leaves a running successor's key as it is |
| RedisLock.RefusedOnlyUnderALease | apps/api/app/core/redis.py:44-107 | Under every schedule a request for the lock is refused only while some other use's lease is running |
| RedisLock.ReleaseFreesTheLock | apps/api/app/core/redis.py:21-26 | Under every schedule, once a release of a use inside its lease is served, the next request for the lock is granted |
| RedisLock.FinishedRunGivesBack | apps/api/app/core/redis.py:44-107 | Under every schedule a run that ends sends one release; served inside the lease it frees the lock, and lost it leaves the key to expire |
| RedisLock.SlowRunsCollide | apps/api/app/core/redis.py:44-107 | When some kind of use is not killed before its lease ends, a concrete schedule has two workers inside |
| RedisLock.ExclusionExactlyWhenLimitBelowTtl | apps/api/app/core/redis.py:44-107 | Runs exclude each other under every schedule if and only if every kind of use of the lock is killed before a lease of its own can run out |
| RedisLock.OwnerLeaseOutlivesItsRun | apps/api/app/services/reconciliation_owner.py:23-38 | Whatever the two settings, the derived lease is at least 30 seconds longer than the run may take, and no longer than 300 seconds unless the run's own limit asks for it |
| RedisLock.DeployedRunsNeverOverlap | apps/api/app/workers/tasks.py:112-1019 | All eleven deployed locks exclude, the reconciliation lock with its two kinds of owner and any settings included |
| BrokerRecordProofs.FinalVerdictIsSound | apps/api/app/execution/broker_record.py:321-370 | A final verdict has 0 <= filled <= ordered and a stated amount no record contradicts, is filled only at equality, and has a price of at least 1e-8 if and only if something filled |
| BrokerRecordReadings.RecordReadExactlyWhen | apps/api/app/execution/broker_record.py:226-285 | A record is believed if and only if nothing it states is about another order, every fact it states in several ways is stated alike, and its figures are sound; its status, filled quantity, single fill, price and time are then those of their own fields |
| BrokerRecordReadings.VerdictExactlyWhen | apps/api/app/execution/broker_record.py:321-370 | One record settles an order if and only if its status is final, it says how much is filled, at most what was ordered and all of it if it says so, in agreement with its own fill, and at a storable price if anything is; the verdict is filled, cancelled or rejected as it says; a record with another status leaves the order open |
| BrokerRecordReadings.SeveralSettleExactlyWhen | apps/api/app/execution/broker_record.py:288-370 | Several records settle an order if and only if all have its one final status, each is a priced fill, the totals they state agree and are what the fills add up to, and that is at most what was ordered and all of it if they say so; the price is the money paid over the shares |
| BrokerRecordReadings.OpenReadExactlyWhen | apps/api/app/execution/broker_record.py:373-379 | An order still listed open is settled, or left open, exactly as its one record says |
| BrokerRecordReadings.CompletableExactlyWhen | apps/api/app/execution/broker_record.py:321-370 | The history may complete a record if and only if it is an open read of a final status that says nothing against the order and lacks only how much is filled, or only at what price |
| BrokerRecordReadings.HistoryOfOneExactlyWhen | apps/api/app/execution/broker_record.py:382-431 | A page with one record of the order settles it if and only if that record does |
| BrokerRecordProofs.SeveralFillsAddUp | apps/api/app/execution/broker_record.py:288-318 | Several records are accepted only if their fills sum to the stated total, and price times total is the money paid within half a price step per share |
| BrokerRecordProofs.JudgeRearranged | apps/api/app/execution/broker_record.py:321-370 | The judgement of the same parts in another order is the same verdict, or a refusal both times |
| BrokerRecordProofs.HistoryOrderDoesNotMatter | apps/api/app/execution/broker_record.py:382-431 | A history page decides the same whatever the order of its records and whatever records of other orders stand among them |
| BrokerRecordProofs.ReasonIgnoresOrderExactlyWhen | apps/api/app/execution/broker_record.py:382-431 | The whole outcome, reason included, is the same in every order of the records if and only if all records of this order that cannot be read are refused alike |
| BrokerRecordProofs.ReasonsDiffer | apps/api/app/execution/broker_record.py:226-252 | A page of one record naming another ticker and one naming the other side is refused for different reasons in its two orders |
| BrokerRecordProofs.HistoryVerdictIsSound | apps/api/app/execution/broker_record.py:382-431 | A verdict from the history is final and sound and rests on at least one record of this order |
| BrokerRecordProofs.CompletionKeepsWhatWasStated | apps/api/app/execution/broker_record.py:338-446 | The history completes only an open read that lacked a number, and agrees with everything that read did state |
| BrokerRecordProofs.AcknowledgementIsSound | apps/api/app/execution/acknowledgement.py:105-167 | An immediate answer settles an order as filled only for its exact size at a storable price, and as ended only with no fill |
| BrokerRecordReadings.AcknowledgedExactlyWhen | apps/api/app/execution/acknowledgement.py:49-167 | An immediate answer is accepted if and only if it names a usable order id and, if it is final, is a fill of exactly the order at a storable price or an end with no fill; every field of the outcome is that of the answer |
| PaperNumeral.MatchedIsWritten | apps/web/lib/paper-operation-intent.ts:39-46 | What the pattern matches is a plain numeral of the digits found |
| PaperNumeral.WrittenIsMatched | apps/web/lib/paper-operation-intent.ts:39-46 | Every plain numeral is matched, with its digits |
| PaperNumeral.WholeFits | apps/web/lib/paper-operation-intent.ts:43-45 | The stripped whole part has at most n digits if and only if its value is below ten to the n |
| PaperNumeral.FractionFits | apps/web/lib/paper-operation-intent.ts:43-45 | The stripped fraction has at most n digits if and only if it is a whole number of n-th decimal places |
| PaperNumeral.AcceptedExactlyWhenStorable | apps/web/lib/paper-operation-intent.ts:39-46 | A text is accepted if and only if it is a plain numeral whose value v has 0 < v < 10^12 and v times 10^8 whole: the server's Decimal(20, 8) field |
| PaperIntent.SessionStorage.CreatePaperIntent | apps/web/lib/paper-operation-intent.ts:66-77 | What is handed back is then readable for that owner and pending; an entry already there is handed back and storage left alone, a new one carries the given id and payload; no other key changes, and a refusal changes nothing |
| PaperIntent.SessionStorage.RecordPaperResult | apps/web/lib/paper-operation-intent.ts:79-86 | It goes through only for the id in storage, which is then readable as recorded and without payload; no other key changes, and a refusal changes nothing |
| PaperIntent.SessionStorage.NewPaperIntent | apps/web/lib/paper-operation-intent.ts:88-92 | It goes through only from the recorded state, after which nothing is stored for the owner; no other key changes, and a refusal changes nothing |
| PaperIntent.SessionStorage.ScrubPaperIntentPayloads | apps/web/lib/paper-operation-intent.ts:94-107 | The loop, rewriting entries in place by position, scrubs every entry under the prefix and no other, and keeps all keys where they were |
| PaperIntent.OneIdOnePayload | apps/web/lib/paper-operation-intent.ts:66-107 | Two entries found in storage at any two times of a history under one operation id are under the same owner's key and hold the same payload while they hold any |
| PaperIntent.EntriesAreGenuine | apps/web/lib/paper-operation-intent.ts:60-107 | Every stored entry is one that was issued, to its owner, with its payload or none |
| PaperIntent.RetryReturnsTheSameOperation | apps/web/lib/paper-operation-intent.ts:66-77 | A second create gets the entry already made, whatever payload and id it brings |
| PaperIntent.UnrecordedEntriesKeepTheirId | apps/web/lib/paper-operation-intent.ts:66-107 | Through any further calls a readable entry keeps its id and does not regain a payload it gave up, until it has been recorded under that id |
| PaperIntent.ScrubRemovesPayloads | apps/web/lib/paper-operation-intent.ts:94-107 | After a scrub nothing under the prefix holds a payload, and a second scrub changes nothing |
| PaperIntent.UnreadableEntriesStayClosed | apps/web/lib/paper-operation-intent.ts:94-107 | Through any further calls what cannot be read is never removed and never readable again, and every create, record and new for its owner is refused |
| PaperIntent.CallsGoThroughExactlyWhen | apps/web/lib/paper-operation-intent.ts:60-92 | Create, record and new go through if and only if the owner's entry is absent or pending with a sound payload, is stored under that id, or is recorded |
| PaperIntent.PayloadIsEightFields | apps/web/lib/paper-operation-intent.ts:48-58 | A payload is accepted if and only if it states exactly eight fields: a ticker of 1 to 50 characters that is not blank, a side, a storable quantity and price, a venue, and the marks of a manual paper order at market |
| PaperIntent.ReadableExactlyWhen | apps/web/lib/paper-operation-intent.ts:31-37 | A stored entry is readable if and only if it is of this version, this owner and a well-formed id, and is pending with a sound payload, recorded, or unresolved |
| PaperIntent.ScrubKeepsExactly | apps/web/lib/paper-operation-intent.ts:94-107 | A scrub leaves each readable entry its owner and id, recorded if it was and otherwise unresolved, replaces each unreadable one, and changes nothing outside the prefix |

## Left out

- PaperLedgerProofs.BookIsConserved: one quantum a fill holds only while averages stay in session; with averages stored at eight places the bound grows with the shares held, because the code's figure does.
- Metrics.MaxDrawdown: starts from a positive first point; the source divides by the first point, and skips an empty curve.
- PortfolioProofs.BuyingStopsForAReason: is stated for an open the policy price covers; below that it is false of the code (`PortfolioProofs.CheapBuyLeavesCash`), because what the cash would pay for is counted at the open and then costs less.
- BacktestProofs.NoLookAhead: a strategy is a function of what it is shown; strategies that keep state of their own are not modelled.
- Decimal's 28-digit context and binary floating point: quotients and products are exact before each stated rounding; only the broker's magnitude limit on stored numbers is modelled.
- Paper engine: audit rows, order events, latency and execution-quality fields, mode and venue refusals; the risk checks other than the cash guard are two Booleans, for those before it and those after; snapshots are ordered by insertion, so ties of timestamps do not arise; ticker case folding and column overflow.
- Backtester: the limit-order branch, excursion figures, exposure, benchmark, Sharpe, Sortino, CAGR and Monte Carlo statistics. In the code the annualised return of a run that ends in debt is a root of a negative number and raises, unless the exponent, 365 over the days spanned, comes out whole; the runs in `OverdrawnRun` span less than a day.
- Walk-forward: the two backtests of a candidate are their results (the slices of bars handed to them are not modelled), and the calendar's sessions, opens and terminal bars are inputs.
- Portfolio run: `_align_research_histories` and the coverage report (histories come aligned), weights for tickers outside the universe, drawdown and weights in curve points, turnover, and the notional, reason and target-weight columns of a trade row.
- Cash reservation: an order spending more than its estimated cost, withdrawals, a row stamped as ended before its true end (a transaction's length counts towards the clock tolerance), and callers that name no environment and so take another lock.
- Redis: server restart and failover, and two uses drawing the same token; a run stopped at its limit is over at once, so the rollback that follows a cancelled reconciliation is not modelled.
- Dataset cache: JSON text, and SHA-256, which stand as constructors that keep their argument; non-finite figures; request normalisation; `clear_cache`.
- Broker records: the text functions (strip, case, numeral and time parsing) are parameters, the same for every read; `has_older_records`.
- Paper intents: a stored text is its parsed value or unreadable; a ticker is trimmed of the space character only and its length counted in characters, where the browser trims all white space and counts code points; change events and subscriptions.
- HTTP, database and task wiring, broker clients, the user interface, the circuit breaker, the live permit and the rate limiters.
