# Verified model of the trading, strategy and market-data core

This project models the parts of the repository where money, orders and market data are at stake, and proves what they
keep. Amounts and prices are real numbers, quantities integers, tables maps keyed by their unique constraints, and each
committed segment of the original is one step.

- **Ledger** (`Ledger`, `Totals`, `Options`): orders, executions and signed positions, and the booking of one fill.
- **Paper trading** (`Paper`, `Matching`, `Admission`, `PositionBound`, `BoundAttained`): placing, cancelling, modifying,
  quotes; which orders are taken and which trade, at what price; the real bound on positions and, for every setting, a run
  that attains it.
- **Live trading** (`Live`, `Replies`, `Reconcile`, `ReconcileTwice`, `Statuses`, `ReconcileLimits`): broker replies as
  inputs and what each makes of an order, the reconciler's three loops, what a second pass keeps, when statuses settle, and
  what is not kept.
- **All of trading in place** (`Session`) and **over every run** (`Runs`): the same operations as a class that updates its
  rows, each method proved equal to its specification function; and invariants of every interleaving.
- **Sessions without flushing** (`Unflushed`, `UnflushedBooks`): what the quote loop and the reconciler do where rows are
  added but not yet found.
- **Strategies** (`Protocol`, `AtMostOnce`, `Accounted`, `Range`, `NeverShort`, `RangeAttained`, `LateAnswer`, `Quarantine`,
  `Windows`, `StrategyCap`, `Signals`, `Tickets`, `Decimals`): the signal-to-order protocol as a transition system with
  durable tables, one volatile work item per worker and crashes that lose it; `Worker` is the worker and the strategy routes as a class whose
  every commit is proved to be the protocol step it stands for.
- **Market data** (`Candles`, `Repaint`, `Resolutions`, `Sma`, `Preview`): the candle aggregator at several intervals, the
  crossover decision, and the agreement of worker and preview.
- **Broker feed** (`Codec`, `Frames`, `Offsets`, `Stream`, `Subscriptions`) and **instrument import** (`Instruments`).
- **Rate limiter** (`RateLimit`).

`dafny verify dfyconfig.toml` checks the whole project.

## Assumptions

- A session reads its own uncommitted writes, as the test sessions do (`backend/tests/conftest.py:17`). Production opens
  sessions with `autoflush=False` (`backend/app/database.py:12`), where the position lookup and the duplicate-trade lookup
  of `backend/app/trading/engine.py:59-82` miss rows added in the same transaction. `Unflushed` and
  `UnflushedBooks` prove for the quote loop and for a reconciler pass exactly when that matters; everywhere else it stays an
  assumption.
- Paper execution ids are fresh. Settings do not change during a run.
- Statements about a second reconciliation pass assume that each broker order id an item carries has one correlation id and
  that no two live orders of a user carry the same broker id.
- Statements about the exposure of a strategy assume that what an edit raises, or a late answer reopens, on an order of the
  strategy is still there to sell, or was allowed to buy (`NeverShort.CalmStep`). Edits that raise nothing, and answers that
  leave a closed order closed, are free. After a rewrite that is not afforded trades alone can break the bound, whatever the
  state, once the strategy's live orders have broker ids of their own (`RangeAttained.RewriteLeavesExactly`).
- Lines of the instrument file name a feed segment, as every parsed line does (`backend/app/market/instruments.py:50-63`).
- "With one worker" is the deployment the worker's own documentation describes; statements about any number of workers say so.

## Where the code and its documentation differ, or a property fails

- The position limit is not kept: resting orders are not counted (`backend/app/trading/engine.py:149-153`). The bound that is
  kept is the limit plus (open orders - 1) full-size orders, it is attained under every setting, and a `modify` that raises a
  quantity breaks every bound (`BoundAttained`).
- FILLED means filled exactly as long as the broker's direct replies do not call an unfilled order TRADED: those replies are
  copied without the fill check the reconciler makes (`Live`, `Runs.EveryRunIsComplete`).
- Without flushing, a quote that crosses two orders of one position without a row fails at the commit and fills neither,
  every time it comes (`Unflushed.QuoteCommitsExactly`), and a reconciler pass that should book two trades of one position
  without a row, or whose trade book lists a trade again that fits again, books nothing, every time: the first order on an
  instrument that fills in two trades is enough (`UnflushedBooks.PassCommitsExactly`, `UnflushedBooks.SplitFillBlocks`).
- A second reconciliation pass keeps the ledger but not every status: an open order keeps its status exactly when the order
  book names it, or it is UNKNOWN, or all its trades are booked (`Statuses.StatusStaysExactly`), and from the second pass on
  nothing changes. Not even the ledger is kept when a broker id carries two correlations (`ReconcileLimits`).
- A completed candle can change, exactly when a quote comes late for its bucket (`Repaint.RepaintExactly`,
  `Repaint.LateQuoteRepaints`), and BUY can follow BUY, exactly when the averages tie just before it and the fast one was
  above before the tie (`Sma.BuyRepeatsExactly`, `Sma.TieBreaksAlternation`).
- The instrument import calls itself idempotent (`backend/app/market/instruments.py:95`); it is so exactly when the lines of
  each security id that one old scalar token holds agree on their token (`Instruments.SecondImportExactly`).
- A subscription change that arrives while the feed loop is sending is not sent, and its wake-up is cleared with the rest
  (`backend/app/market/dhan.py:249-250`), so it waits for the next message or change; the broker's set is
  the desired one exactly when no such change touched a name (`Subscriptions.FeedSession.Connected`).
- A worker crash stops a strategy for good when no second worker is about to send for it (`Quarantine.CrashQuarantines`); one
  that is past its checks is not stopped, it claims the next candle and sends (`Quarantine.SurvivorSends`).
- A late answer to a cancel can reopen an order that the order book has called cancelled, and an edit can raise an open one;
  the strategy can then be sold short exactly when the reopened rest, or the raise, of a SELL is more than is left to sell
  (`RangeAttained.LateRefusalShortsExactly`, `RangeAttained.RaisedSellShortsExactly`; a whole run is
  `LateAnswer.LateAnswerSellsShort`).
- A negative tick size, which nothing excludes, rounds limit prices against the trader (`Tickets.LimitPriceRounds`).

## Model

| member | source | states |
|---|---|---|
| `Ledger.FillAdds` | backend/app/trading/engine.py:98-115 | One fill adds exactly its signed quantity and its own cost to quantity and net cost of a position, through opening, adding, reducing, closing and flipping; a closed position has average 0, and the last price is that of the fill |
| `Ledger.FillSplits` | backend/app/trading/engine.py:102-113 | What is realized and what stays as average is settled case by case: opening and adding realize nothing and move the average between old average and price; reducing, closing and flipping realize exactly the closed quantity times the price difference in the position's direction; reducing keeps the average, a flip leaves the rest at the fill price |
| `Ledger.FillSpends` | backend/app/trading/engine.py:90-95 | A fill adds its quantity and its own amount to the order, which is FILLED and completed exactly when nothing is left of it and PARTIALLY_FILLED otherwise |
| `Ledger.ApplyKeepsSound` | backend/app/trading/engine.py:74-117 | Every execution that is not refused keeps the ledger invariant: fill counters are sums over executions, positions are sums over signed fills and costs, ids are unique per user |
| `Ledger.ProfitIdentity` | backend/app/trading/engine.py:98-116 | In a sound ledger realized plus unrealized profit at any mark is the profit of the raw fills at that mark |
| `Ledger.FillOrderIrrelevant` | backend/app/trading/engine.py:98-116 | Net quantity and cost depend only on which fills there are (order, side, quantity, price), not on their order or their ids |
| `Ledger.SameFillsSameProfit` | backend/app/trading/engine.py:98-116 | Two sound ledgers with the same fills in any order, whatever ids they got, agree on every quantity and on profit at every mark |
| `Paper.CrossingIsFair` | backend/app/trading/engine.py:43-56 | A limit order crosses exactly when its limit reaches the ask for a BUY, the bid for a SELL, or the last price where that side is missing or zero; it then trades at that price, never worse than its limit, and a market order trades at it with exactly the slippage against it |
| `Paper.FillWhole` | backend/app/trading/engine.py:187-191 | Filling all that is left of a crossing paper order is never refused and gives a whole, FILLED order |
| `Paper.PlaceKeepsRules` | backend/app/trading/engine.py:160-194 | Placing keeps ledger and paper rules, never raises INVALID_EXECUTION_QUANTITY, and writes no row but its own new one |
| `Paper.CancelKeepsRules` | backend/app/trading/engine.py:196-203 | Cancelling keeps ledger and paper rules |
| `Paper.ModifyKeepsRules` | backend/app/trading/engine.py:205-219 | Modifying keeps ledger and paper rules and never raises INVALID_EXECUTION_QUANTITY |
| `Paper.FillAllKeepsRules` | backend/app/trading/engine.py:221-235 | The quote loop never fails; each order it passes is filled whole or does not cross and is as before, all others are untouched |
| `Paper.NothingLeftCrossing` | backend/app/trading/engine.py:221-235 | After a quote every open BUY of that user and instrument has its limit below the ask and every open SELL above the bid, with the last price in place of a missing side |
| `Matching.PlacedExactly` | backend/app/trading/engine.py:160-194 | Placing writes the ticket as a paper order; with a quote, a MARKET order and a LIMIT order that reaches the other side are filled whole by one execution at that side (with slippage for MARKET), else nothing trades, an IOC order ends CANCELED and a DAY order rests |
| `Matching.CanceledExactly` | backend/app/trading/engine.py:196-203 | An open paper order can be cancelled, which ends and completes it and changes nothing else; no other order can |
| `Matching.ModifiedExactly` | backend/app/trading/engine.py:205-219 | Modifying gives the new quantity and limit and fills the order whole, by one execution at the other side of the quote, exactly when the new limit reaches it |
| `Matching.QuoteFillsExactly` | backend/app/trading/engine.py:221-235 | A quote fills whole exactly the resting orders of its user and instrument whose limit reaches its other side, leaves all other orders as they are, and trades at that side only |
| `Admission.PaperTaken` | backend/app/trading/engine.py:124-180 | The paper engine takes an order if and only if its client id is new, it has the limit or the fresh quote its type needs, no kill switch is on, and it is within the size, notional, open-order and position limits |
| `Admission.LiveTaken` | backend/app/trading/service.py:61-90 | A live order is written and sent if and only if the gate is open, its client id is new, it has its limit, the quote is fresh, it is within the same limits, and a broker is connected |
| `Admission.RefusalsExplained` | backend/app/trading/service.py:61-90 | Every refusal of either mode has the reason its code names, an order found again has the terms asked for, and a conflict is one that has others |
| `PositionBound.CheckLeavesRoom` | backend/app/trading/engine.py:137-153 | An order that passes the risk check fits under the bound on top of everything that already rests on its side |
| `PositionBound.PlaceKeepsBound` | backend/app/trading/engine.py:160-194 | Placing keeps "position plus same-side resting quantity is within the bound" |
| `PositionBound.FillKeepsBound` | backend/app/trading/engine.py:221-235 | Filling a resting order moves its quantity from the resting side into the position within the bound |
| `PositionBound.CancelKeepsBound` | backend/app/trading/engine.py:196-203 | Cancelling keeps the bound |
| `PositionBound.ModifyKeepsBound` | backend/app/trading/engine.py:205-219 | An edit that does not raise the quantity keeps the bound, also when it fills the order |
| `PositionBound.FillAllKeepsBound` | backend/app/trading/engine.py:221-235 | The quote loop keeps the bound |
| `PositionBound.PositionWithinCap` | backend/app/trading/engine.py:137-153 | The invariant bounds the absolute paper position |
| `BoundAttained.Swing` | backend/app/trading/engine.py:137-153 | With two slots a run swings a position to any size up to the position limit plus one full-size order, on either side, for all settings |
| `BoundAttained.BoundIsReached` | backend/app/trading/engine.py:137-153 | Under every valid setting a run without edits reaches the bound exactly, so no smaller one holds and the position limit alone is not kept |
| `BoundAttained.EditBreaksBound` | backend/app/trading/engine.py:205-219 | Modify runs no risk check: one edit passes any given bound |
| `Live.InsertedWithinLimits` | backend/app/trading/service.py:61-90 | Every order inserted, paper or live, passed kill switch, size, open-order and position checks, the notional check at the quote or without one at its limit price, and the age check of the quote where one is needed |
| `Live.PlaceIsIdempotent` | backend/app/trading/service.py:68-74 | The same request again finds its order at any later quote, another request under that client id is refused |
| `Replies.StatusTexts` | backend/app/trading/dhan.py:20-32 | In any letter case the seven texts TRANSIT, PENDING, PART_TRADED, TRADED, CANCELLED, REJECTED and EXPIRED give their seven statuses, and every other text gives UNKNOWN |
| `Replies.PlacedPending` | backend/app/trading/service.py:80-90 | When it is sent, a live order is a committed PENDING row with the terms of its ticket, open and in sight of the reconciler |
| `Replies.PlacementEnds` | backend/app/trading/service.py:91-105 | An error that leaves the result open makes the order UNKNOWN, open and read by the next reconciler pass; a refusal makes it REJECTED, completed and never read again; an answer gives the broker id and the status it says, and closes the order exactly when that is REJECTED, CANCELLED or EXPIRED; the terms never change |
| `Replies.CancellationEnds` | backend/app/trading/service.py:107-129 | The order is CANCEL_PENDING while the broker is asked; an open result makes it UNKNOWN, a refusal gives its old status back, both still in sight of the reconciler; an answer without status means CANCELLED, any other its word, and only CANCELLED completes it |
| `Replies.ModificationEnds` | backend/app/trading/service.py:131-154 | On any error quantity, limit and version are the old ones, and the status is UNKNOWN if the result is open and else the old one; an answer leaves the new terms and the status it says |
| `Live.LiveRowKeeps` | backend/app/trading/service.py:91-154 | Rewriting a live row without touching its fills keeps ledger, paper rules and position bound |
| `Live.ReplyCompleteness` | backend/app/trading/service.py:91-105 | A broker reply to a placement keeps "FILLED is filled" if and only if it does not call an unfilled order TRADED |
| `Live.CancelCompleteness` | backend/app/trading/service.py:107-129 | The same, exactly, for the reply to a cancellation |
| `Live.ModifyCompleteness` | backend/app/trading/service.py:131-154 | The same, exactly, for a modification with its rollback on errors |
| `Reconcile.LearnKeeps` | backend/app/trading/reconcile.py:89-99 | Learning broker ids keeps every invariant and touches no fill |
| `Reconcile.ImportKeeps` | backend/app/trading/reconcile.py:101-117 | Importing any trade book keeps every invariant and touches only selected orders |
| `Reconcile.JudgeKeeps` | backend/app/trading/reconcile.py:119-134 | Copying any order book keeps every invariant, and FILLED only where the fills are complete |
| `Replies.IndexIs` | backend/app/trading/reconcile.py:83-90 | A pass starts from the broker ids of the selected orders, the later row of the query standing for a shared one |
| `Replies.ItemTeaches` | backend/app/trading/reconcile.py:91-99 | An item gives its order id to the order it is about when that has none; ids are never replaced and nothing else changes |
| `Replies.TradeBooks` | backend/app/trading/reconcile.py:101-117 | A trade does nothing without an order of its broker id, without an id, or when the user has it; else it is booked when it fits, and otherwise makes the order UNKNOWN as an invalid execution |
| `Replies.PassShows` | backend/app/trading/reconcile.py:119-134 | After a pass over any books an order shows what the last item about it says: TRADED makes it FILLED and completed if its fills add up and else UNKNOWN as incomplete, CANCELLED, REJECTED and EXPIRED close it with that status, an unknown text makes it UNKNOWN; without an item it is as the trades left it |
| `Reconcile.PassKeeps` | backend/app/trading/reconcile.py:82-134 | For any books whatever a pass keeps every invariant and leaves orders that were terminal, paper or another user's untouched |
| `ReconcileTwice.FirstPass` | backend/app/trading/reconcile.py:89-117 | After one pass over consistent books every trade of an indexed order is booked or can only be refused |
| `ReconcileTwice.BooksStay` | backend/app/trading/reconcile.py:89-99 | A pass leaves broker ids distinct and correlations consistent |
| `ReconcileTwice.SecondPassChangesNothing` | backend/app/trading/reconcile.py:82-134 | A second pass over the same books, in any row order, leaves executions, fills and positions as the first left them |
| `ReconcileTwice.PassesChangeNothing` | backend/app/trading/reconcile.py:82-134 | So does any number of further passes |
| `Statuses.PassRow` | backend/app/trading/reconcile.py:82-134 | Over settled books a pass rewrites each selected row by one function of the row and of the items and trades that name it, and nothing else |
| `Statuses.StatusStaysExactly` | backend/app/trading/reconcile.py:82-134 | Over consistent books an order still open after the first pass keeps its status in the second if and only if an order-book item carries its correlation id, or it is UNKNOWN, or every trade under its broker id is in the ledger |
| `Statuses.ThirdPassChangesNothing` | backend/app/trading/reconcile.py:82-134 | The second pass reaches a fixed point: a third over the same books changes no row, no status and no execution |
| `Statuses.LaterPassesChangeNothing` | backend/app/trading/reconcile.py:82-134 | Nor does any number of passes after the second |
| `ReconcileLimits.StatusIsNotSettled` | backend/app/trading/reconcile.py:106-117 | Statuses need not settle in one pass: a misfitting trade before a fitting one gives PARTIALLY_FILLED in the first pass and UNKNOWN in the next |
| `ReconcileLimits.SharedIdMovesTrade` | backend/app/trading/reconcile.py:91-99 | With one broker id under two correlations a second pass books the trade on the other order |
| `Unflushed.QuoteCommitsExactly` | backend/app/trading/engine.py:59-71 | In a session that does not flush, a quote does what it should exactly when no two crossing orders open one position without a row; otherwise nothing |
| `Unflushed.CollisionLeavesCrossing` | backend/app/trading/engine.py:221-235 | In that case crossing orders stay open |
| `UnflushedBooks.PassCommitsExactly` | backend/app/trading/reconcile.py:101-117 | In a session that does not flush, the commit of a pass over any trade book succeeds if and only if no trade that the pass has booked is listed again and fits again, and no two executions it should book belong to one position without a row; it then books exactly what a flushing pass books, a status or reason apart where a copy does not fit; otherwise it changes nothing |
| `UnflushedBooks.OnceIsNoCopy` | backend/app/trading/engine.py:76-82 | A trade book that lists each trade once has no such copies, so there the pass does everything that a flushing one does, or nothing |
| `UnflushedBooks.SplitFillBlocks` | backend/app/trading/reconcile.py:101-117 | So the first order on an instrument that is filled by two trades between two passes is never booked |
| `UnflushedBooks.CopiedTradeBlocks` | backend/app/trading/engine.py:74-90 | A trade listed twice that fits twice fails the commit, where a flushing session books it once |
| `Session.TradingSession.FetchPosition` | backend/app/trading/engine.py:59-71 | The position row of an order, added flat when missing |
| `Session.TradingSession.MovePosition` | backend/app/trading/engine.py:98-116 | The in-place update of a position is exactly the specified one |
| `Session.TradingSession.ApplyExecution` | backend/app/trading/engine.py:74-117 | The in-place booking of a fill is exactly the specified one, a refusal changes nothing |
| `Session.TradingSession.Place` | backend/app/trading/engine.py:160-194 | In-place paper placement does exactly what is specified, with its errors and its rollback |
| `Session.TradingSession.Cancel` | backend/app/trading/engine.py:196-203 | In-place paper cancellation does exactly what is specified |
| `Session.TradingSession.Modify` | backend/app/trading/engine.py:205-219 | In-place paper modification does exactly what is specified, rolling back a refused fill |
| `Session.TradingSession.ProcessQuote` | backend/app/trading/engine.py:221-235 | The loop over the queried orders does exactly what is specified and returns how many of them the quote crosses |
| `Session.TradingSession.IndexBrokerIds` | backend/app/trading/reconcile.py:88-88 | The dictionary by broker id |
| `Session.TradingSession.LearnIds` | backend/app/trading/reconcile.py:91-99 | First loop of the pass |
| `Session.TradingSession.ImportTrades` | backend/app/trading/reconcile.py:101-117 | Second loop of the pass |
| `Session.TradingSession.JudgeOrders` | backend/app/trading/reconcile.py:119-134 | Third loop of the pass |
| `Session.TradingSession.ApplyBooks` | backend/app/trading/reconcile.py:82-134 | The three loops together are exactly the specified pass |
| `Session.TradingSession.PlaceAtBroker` | backend/app/trading/service.py:61-105 | Live placement: sent once, only after the row is inserted, the reply written to it, and a broker error raised after that commit |
| `Session.TradingSession.CancelAtBroker` | backend/app/trading/service.py:107-129 | Live cancellation: CANCEL_PENDING before the call, the reply or the old status after it, and the broker's error raised |
| `Session.TradingSession.ModifyAtBroker` | backend/app/trading/service.py:131-154 | Live modification: new terms during the call, restored on an error, which is raised |
| `Runs.StepKeepsGood` | backend/app/trading/engine.py:160-235 | Every operation of users, quotes, broker replies and reconciler keeps the ledger and the paper rules |
| `Runs.EveryRunIsGood` | backend/app/trading/engine.py:74-235 | So they hold after every run from empty tables |
| `Runs.ProfitInEveryRun` | backend/app/trading/engine.py:98-116 | After every run realized plus unrealized profit at any mark is the profit of the raw fills, and quantity their net |
| `Runs.EachTradeOnce` | backend/app/trading/engine.py:76-95 | After every run no execution id is booked twice for a user, and filled quantity is the sum of the order's executions within its quantity |
| `Runs.EveryRunIsBounded` | backend/app/trading/engine.py:137-219 | After every run in which no edit raises a paper order's quantity |position| is at most the position limit plus (open orders - 1) full-size orders |
| `Runs.EveryRunIsComplete` | backend/app/trading/service.py:91-154 | After every run whose direct replies never call an unfilled order TRADED, FILLED means filled to the quantity |
| `Runs.HaltedAddsNothing` | backend/app/trading/engine.py:124-128 | While the kill switch is on for everyone or for a user no step adds an order of that user |
| `Runs.OnlySwitchHalts` | backend/app/trading/engine.py:124-128 | Only the kill switch of a scope turns that scope on or off |
| `Runs.StepAdvances` | backend/app/trading/engine.py:74-235 | For any set of orders: no step but an edit that raises one of them or a broker answer that reopens one takes back a fill of theirs, changes their side, raises their quantity, or opens or fills a terminal one |
| `Runs.StepKeepsRows` | backend/app/trading/service.py:61-154 | Orders never vanish and never move between paper and live |
| `AtMostOnce.StepIsSafe` | backend/app/strategies/service.py:122-265 | Every step of any worker, any crash and any user keeps claims owned by one worker, POSTs prepared and sends unique |
| `AtMostOnce.EveryRunIsSafe` | backend/app/strategies/worker.py:43-98 | So it holds in every run with any number of workers |
| `AtMostOnce.AtMostOneOrder` | backend/app/strategies/service.py:122-137 | No two orders leave for one (strategy, candle) and no order leaves twice; each has its durable claim and row |
| `AtMostOnce.PostIsPrepared` | backend/app/trading/service.py:76-92 | When a POST is possible the STARTED run, the CREATED signal and the order row are committed and nothing was sent for them |
| `Accounted.StepAccounts` | backend/app/strategies/service.py:225-265 | Every step keeps: each order that left is linked to its signal, or that signal is unlinked and CREATED or rejected |
| `Accounted.EverySendIsAccounted` | backend/app/strategies/service.py:242-264 | In every run with any number of workers, an order that left is linked, or its strategy is stranded, or its signal is rejected |
| `Range.ExposureInRange` | backend/app/strategies/service.py:83-90 | The exposure lies between what it is with every open SELL of the strategy filled whole and what it is with every open BUY filled whole |
| `Range.RangeNarrows` | backend/app/strategies/service.py:83-97 | That range only narrows while orders advance: fills, cancels, answers that do not reopen and edits that do not raise a quantity never widen it |
| `NeverShort.RouteFits` | backend/app/strategies/service.py:208-218 | An accepted signal buys where nothing is held and nothing can still be bought, or sells at most the lower end of the range |
| `NeverShort.LinkCovers` | backend/app/strategies/service.py:242-251 | Linking an order that no edit has raised above its signal keeps the range between zero and the last BUY |
| `NeverShort.StepNotShort` | backend/app/strategies/service.py:208-265 | Every step keeps every range between zero and the last BUY, with the room of the order a worker is placing, unless an edit raises an order of a strategy, or a late answer reopens one, by more than is left at either end of the range |
| `NeverShort.ExposureStaysLong` | backend/app/strategies/service.py:83-97 | With one worker, in every run in which each such edit or answer is afforded, exposure over linked executions, and all it can still become by fills, stays between 0 and the last BUY |
| `RangeAttained.EndIsReached` | backend/app/trading/reconcile.py:101-117 | Both ends of the range are reached: reconciler passes that each find one trade take the exposure there |
| `RangeAttained.LeavesExactly` | backend/app/trading/reconcile.py:101-117 | Trades alone can take the exposure of a strategy out of given bounds if and only if its range is not within them |
| `RangeAttained.RewriteLeavesExactly` | backend/app/trading/service.py:91-154 | After any edit or late answer to an order of the strategy, trades alone can take the exposure below zero or above the last BUY if and only if the rewritten row may sell more than was left to sell, or buy more than was allowed |
| `RangeAttained.LateRefusalShortsExactly` | backend/app/trading/service.py:118-129 | A late refusal of a cancel that reopens a SELL lets trades take the strategy short if and only if its unfilled rest is more than is left to sell |
| `RangeAttained.RaisedSellShortsExactly` | backend/app/trading/service.py:131-154 | An accepted edit of an open SELL lets trades take the strategy short if and only if it raises the quantity by more than is left to sell |
| `Signals.RouteExactly` | backend/app/strategies/service.py:99-218 | A signal is dropped if and only if a cap of its day or minute is reached; otherwise suppressed if and only if an order of the strategy rests, a BUY meets any exposure or a SELL none; otherwise handed on, a BUY for the strategy quantity, a SELL for a quantity that is at most that and the exposure and equal to one of them |
| `Signals.ExitIsFlat` | backend/app/strategies/service.py:83-90 | A SELL handed on for a strategy whose quantity covers its exposure, once linked and filled whole, leaves exposure 0 |
| `Signals.PollsExactly` | backend/app/strategies/worker.py:59-73 | A strategy with a STARTED run or a CREATED signal stops in ERROR when it is polled, any other is cleared |
| `Signals.SubmissionWrites` | backend/app/strategies/service.py:225-241 | The live order written for a signal has its side and quantity and the strategy instrument, product and order type, is valid for the day, and is priced by the offset only if the type is LIMIT; signal and order are committed, nothing is sent yet |
| `Signals.RefusalStopsLive` | backend/app/strategies/service.py:253-265 | A refused order fails the run and rejects the signal; a live strategy stops in ERROR, a paper strategy keeps its status |
| `Signals.ActivatesExactly` | backend/app/routers/strategies.py:122-154 | A strategy becomes ACTIVE if and only if it was stopped, is allowed, and has no STARTED run, no CREATED signal and no order in UNKNOWN; otherwise nothing changes |
| `Signals.EveryOpenResultBlocks` | backend/app/trading/service.py:99-105 | In every run with any number of workers: after a POST whose result is open the order is UNKNOWN and in sight of the reconciler and the strategy cannot be activated; after a refusal the order is REJECTED and closed |
| `LateAnswer.LateAnswerSellsShort` | backend/app/trading/service.py:118-129 | That happens: there is a run from empty tables without an edit or a late answer but one refused cancel, which reopens a SELL that the order book had called cancelled, and exposure ends at -1 |
| `Quarantine.StepKeepsQuarantine` | backend/app/strategies/worker.py:59-73 | While a run is unfinished, no worker holds it and none is about to send for its strategy, every step keeps it so, sends nothing for the strategy and does not activate it |
| `Quarantine.QuarantineHolds` | backend/app/routers/strategies.py:122-142 | So it does over every later run |
| `Quarantine.CrashQuarantines` | backend/app/strategies/service.py:132-137 | A worker that dies between its claim and its last commit ends all submissions for its strategy when no other worker has cleared, claimed or is placing or posting for it; one that waits for an answer, declines or links does not matter |
| `Quarantine.PostingSends` | backend/app/strategies/service.py:239-252 | In every state in which a worker is posting for the strategy, whatever happened to others, its next step sends |
| `Quarantine.SurvivorSends` | backend/app/strategies/worker.py:59-93 | And a worker past its checks gets there: a run of two workers in which the second claims the next candle and sends after the first died |
| `Windows.RouteLeavesRoom` | backend/app/strategies/service.py:99-120 | The count check leaves room in the user's minute and day for the signal it lets through |
| `Windows.MinuteAdds` | backend/app/strategies/service.py:112-120 | One more attempt with room keeps every closed minute within the cap |
| `Windows.DayAdds` | backend/app/strategies/service.py:100-111 | One more order with room keeps every India day within the cap |
| `Windows.StepKeepsLimits` | backend/app/strategies/service.py:99-120 | Every step keeps both user caps, also while a signal is decided but not yet committed |
| `Windows.DayStartsAtMidnight` | backend/app/strategies/service.py:42-45 | The day the count check looks back to began at the last midnight of UTC plus five and a half hours |
| `Windows.EveryWindowIsCapped` | backend/app/strategies/service.py:99-120 | With one worker no 60-second span anywhere holds more attempts of a user than configured, no day between midnights of UTC plus five and a half hours more orders |
| `StrategyCap.RouteLeavesRoom` | backend/app/strategies/service.py:99-111 | The count check leaves room in the strategy's own day for the order it lets through |
| `StrategyCap.StepKeepsWithin` | backend/app/strategies/service.py:99-111 | Every step keeps the strategy's own daily cap, also while a signal is decided but not yet committed |
| `StrategyCap.EveryDayIsCapped` | backend/app/strategies/service.py:99-111 | With one worker no day between midnights of UTC plus five and a half hours holds more submitted orders of a strategy than the largest daily limit of the versions that were polled |
| `Tickets.ClientIdsCollide` | backend/app/strategies/service.py:48-50 | Client ids coincide exactly for the same candle and the same ten kept characters of the strategy id |
| `Tickets.ClientIdReads` | backend/app/strategies/service.py:48-50 | A client id reads back: an s, the first ten characters of the strategy id without dashes, the start of the candle as a decimal number |
| `Tickets.TargetFavours` | backend/app/strategies/service.py:53-56 | The target is the last price moved by the offset, down for a BUY and up for a SELL; so with a positive tick no BUY is limited above the last price and no SELL below it |
| `Tickets.LimitPriceRounds` | backend/app/strategies/service.py:53-58 | For any tick size a limit price is a whole number of ticks; with a positive one it is at least one, on the trader's side of the target and less than a tick away; with a negative one on the other side |
| `Worker.StrategyWorker.ClaimRun` | backend/app/strategies/service.py:122-137 | The claim commit is the protocol's claim step |
| `Worker.StrategyWorker.FinishRun` | backend/app/strategies/service.py:278-283 | Ending a run is the protocol's step |
| `Worker.StrategyWorker.ChooseRoute` | backend/app/strategies/service.py:99-218 | The checks in their order give the specified decision |
| `Worker.StrategyWorker.RouteSignal` | backend/app/strategies/service.py:208-238 | Skipped, suppressed or handed on, as specified |
| `Worker.StrategyWorker.SubmitOrder` | backend/app/strategies/service.py:239-265 | Handing the ticket to the order manager is the protocol's submission step |
| `Worker.StrategyWorker.Reject` | backend/app/strategies/service.py:253-265 | The handler of trading errors, as specified |
| `Worker.StrategyWorker.PostOrder` | backend/app/trading/service.py:91-92 | The POST is the protocol's step |
| `Worker.StrategyWorker.TakeReply` | backend/app/trading/service.py:93-105 | The reply commit is the protocol's step |
| `Worker.StrategyWorker.LinkOrder` | backend/app/strategies/service.py:242-252 | The last commit is the protocol's step, its unique constraint included |
| `Worker.StrategyWorker.FailRun` | backend/app/strategies/service.py:199-206 | The handler of unforeseen errors, as specified |
| `Worker.StrategyWorker.PlaceSignal` | backend/app/strategies/service.py:240-265 | From ticket to linked or rejected signal: a run of the protocol |
| `Worker.StrategyWorker.Evaluate` | backend/app/strategies/service.py:122-206 | One evaluation is a run of the protocol, whatever it meets: after the claim comes the end at a gate, at a candle gap or without a crossover, or the routing decision with the side of the crossover over the given candles |
| `Worker.StrategyWorker.RunOnce` | backend/app/strategies/worker.py:43-98 | One round over the active strategies is a run of the protocol and leaves the worker with nothing in memory |
| `Worker.StrategyWorker.ActivateStrategy` | backend/app/routers/strategies.py:122-154 | Activation happens only without stranded runs, unresolved signals and UNKNOWN orders |
| `Worker.StrategyWorker.PauseStrategy` | backend/app/routers/strategies.py:157-166 | Pausing sets the status to PAUSED and nothing else |
| `Worker.StrategyWorker.UpdateStrategy` | backend/app/routers/strategies.py:83-118 | An edit is accepted if and only if the strategy is stopped, a name it carries is not blank and no other strategy of the user has it, and the resulting periods and interval are in order; every field is then what the edit carries or what it was, the name trimmed, in a new version in DRAFT; an edit that carries nothing or is refused changes nothing, and names stay distinct |
| `Worker.OutcomeExactly` | backend/app/strategies/service.py:170-193 | After the gates a gap between enough candles skips, no crossover ends without a signal, and a crossover goes on with its side, as ready as a fresh quote and an active instrument make it |
| `Worker.TrimmedIs` | backend/app/routers/strategies.py:92-95 | Trimming takes white space from both ends and nothing else, and leaves nothing exactly of a blank name |
| `Sma.DecisionIs` | backend/app/strategies/evaluator.py:15-29 | There is a decision exactly for 2 <= fast < slow < number of closes; it reports the means of the last closes and of those one earlier, and is BUY or SELL exactly on an upward or downward crossing of them |
| `Sma.OldClosesIrrelevant` | backend/app/strategies/evaluator.py:15-29 | A decision depends on the last slow_period + 1 closes only |
| `Sma.RescaledDecision` | backend/app/strategies/evaluator.py:15-29 | Any positive scaling and any shift of prices leaves the decision, a reversal swaps BUY and SELL |
| `Sma.BuysAlternate` | backend/app/strategies/evaluator.py:24-28 | Two BUYs have a SELL between them unless the averages were equal just before the second |
| `Sma.SellsAlternate` | backend/app/strategies/evaluator.py:24-28 | The mirror image |
| `Sma.SignalsAlternate` | backend/app/strategies/evaluator.py:24-28 | Between two equal signals lies the opposite one unless the averages tied just before the second; so over closes whose averages never tie BUY and SELL strictly alternate |
| `Sma.BuyRepeatsExactly` | backend/app/strategies/evaluator.py:24-28 | A BUY repeats the previous signal if and only if the averages are equal just before it, last stood apart with the fast one above, and there was a signal before |
| `Sma.SellRepeatsExactly` | backend/app/strategies/evaluator.py:24-28 | The mirror image |
| `Sma.TieBreaksAlternation` | backend/app/strategies/evaluator.py:24-28 | With a tie they need not: a concrete series |
| `Candles.PutAllAt` | backend/app/market/candles.py:30-49 | What one quote does to one candle, whatever the other intervals |
| `Candles.CandleIsFold` | backend/app/market/candles.py:23-50 | A candle exists exactly when its bucket was quoted, and is first, highest, lowest and last price and summed inflow of exactly those quotes |
| `Candles.CandleAggregator.Ingest` | backend/app/market/candles.py:23-50 | The loop over intervals, in place, is the specified step |
| `Repaint.CompleteExactly` | backend/app/market/candles.py:36-40 | In order, a candle is complete exactly when a later one of its series exists |
| `Repaint.RepaintExactly` | backend/app/market/candles.py:35-50 | A quote rewrites a completed candle exactly when it falls into its bucket, and then it is older than an earlier quote |
| `Repaint.NoRepaint` | backend/app/market/candles.py:35-50 | With non-decreasing timestamps a completed candle never changes again |
| `Repaint.LateQuoteRepaints` | backend/app/market/candles.py:43-49 | After one quote of a bucket and one of a later bucket, any third that comes late for the first bucket changes the close of its completed candle |
| `Resolutions.VolumeIsFlow` | backend/app/market/candles.py:24-28 | Over any group of buckets the candles of an interval hold exactly the volume quoted there |
| `Resolutions.BucketHolds` | backend/app/market/candles.py:18-21 | A quote falls into the bucket that starts at a multiple of the interval and holds its time |
| `Resolutions.VolumeConserved` | backend/app/market/candles.py:24-28 | Total volume is the same at every interval |
| `Resolutions.FlowTelescopes` | backend/app/market/candles.py:24-28 | With a rising cumulative volume it is the last reading minus the first |
| `Resolutions.BucketsNest` | backend/app/market/candles.py:18-21 | The bucket of a bucket is the coarse bucket when the fine interval divides the coarse one |
| `Resolutions.CoarseIsMerge` | backend/app/market/candles.py:29-49 | A coarse candle has the extremes and the summed volume of its fine candles, in any order of quotes |
| `Resolutions.EndsMerge` | backend/app/market/candles.py:41-47 | In order it opens with its earliest and closes with its latest fine candle |
| `Preview.SameStarts` | backend/app/strategies/service.py:170-176 | Up to a completed candle a later table has the same completed candles with the same closes |
| `Preview.WorkerReads` | backend/app/strategies/service.py:170-176 | The worker reads at most slow + 1 completed candles up to the one it evaluates, in order, with their closes, and leaves out only older ones |
| `Preview.PreviewReads` | backend/app/routers/strategies.py:175-184 | The preview reads at most its limit of completed candles, in order, with their closes, and leaves out only older ones |
| `Preview.ListReports` | backend/app/routers/strategies.py:185-196 | The preview's loop gives the specified reports |
| `Preview.PreviewAgrees` | backend/app/routers/strategies.py:175-196 | What the worker decides at a completed candle is what the preview reports for it, action, close and averages, at any later time at which it still lists the worker's candles; and it reports nothing else for it |
| `Codec.Sizes` | backend/app/market/dhan.py:26-32 | The seven structures have the sizes their format strings give |
| `Codec.PackUnpack` | backend/app/market/dhan.py:26-32 | A structure reads back what was written, whatever follows |
| `Codec.UnpackPack` | backend/app/market/dhan.py:26-32 | Bytes are what their values write |
| `Frames.DepthRoundTrip` | backend/app/market/dhan.py:131-137 | Depth levels read back as written |
| `Frames.FrameRoundTrip` | backend/app/market/dhan.py:140-179 | A frame of any packet kind decodes to that packet, whatever padding its length covers |
| `Frames.DecodedIsEncoding` | backend/app/market/dhan.py:140-179 | Every accepted frame is the encoding of the packet it decodes to |
| `Offsets.FieldsLie` | backend/app/market/dhan.py:26-32 | Every field of an accepted frame is the bytes at its own place, lowest byte first: the header in the first eight, then per response code 2, 4, 5, 6, 8 and 50 each price, quantity, time, interest and depth level at its offset; a frame is refused exactly when it is shorter than 16, 50, 12, 16, 162 or 10 bytes |
| `Offsets.FirstRefused` | backend/app/market/dhan.py:186-194 | Which error the first packet of a message meets: a short header, a length field below 8, one beyond the message, or too few bytes for the code |
| `Stream.DecodeFrames` | backend/app/market/dhan.py:182-198 | The offset loop ends and decodes as specified |
| `Stream.MessageRoundTrip` | backend/app/market/dhan.py:182-198 | A message of packets decodes to exactly those packets |
| `Stream.AcceptedIsMessage` | backend/app/market/dhan.py:182-198 | Every accepted message is the message of the packets it decodes to |
| `Stream.DecodeAppends` | backend/app/market/dhan.py:182-198 | decode(a + b) is decode(a) followed by decode(b), errors of b included, when a decodes |
| `Stream.LengthsAddUp` | backend/app/market/dhan.py:186-197 | Packet lengths add up to the message |
| `Stream.CutMessage` | backend/app/market/dhan.py:187-194 | A cut message decodes exactly when cut between packets, to the packets before the cut; elsewhere it is refused as truncated |
| `Subscriptions.SortSorts` | backend/app/market/dhan.py:117-117 | Sorting gives an ordered rearrangement |
| `Subscriptions.TextOrder` | backend/app/market/dhan.py:117-117 | Security ids are ordered as in a dictionary |
| `Subscriptions.ItemOrder` | backend/app/market/dhan.py:34-43 | Items are ordered by segment, in the order of the exchange codes, and then by security id, and have one key exactly when both agree |
| `Subscriptions.BatchesCut` | backend/app/market/dhan.py:118-128 | Batches carry every name in order, none is empty or over the limit, and there are ceil(n / size) of them |
| `Subscriptions.SubscriptionMessages` | backend/app/market/dhan.py:112-128 | The batching loop is as specified, unsupported request codes are refused |
| `Subscriptions.LastItemWins` | backend/app/market/dhan.py:227-228 | The desired table has exactly the keys of the given items, each with the last of them |
| `Subscriptions.FeedSession.ReplaceSubscriptions` | backend/app/market/dhan.py:227-229 | The loop builds that table and raises the change flag |
| `Subscriptions.FeedSession.Synchronise` | backend/app/market/dhan.py:239-250 | After a turn of the loop, replaying all messages sent gives exactly the names desired when it began; they are the names desired now if and only if no replacement came meanwhile or it changed no name, and the change flag is down either way |
| `Subscriptions.FeedSession.Connected` | backend/app/market/dhan.py:239-256 | After any number of turns with any replacements before and during them the broker holds the names the last turn began with, so those desired now if and only if no replacement came during that turn or it changed no name; what is desired is a function of the replacements alone |
| `Instruments.CandidateReads` | backend/app/market/instruments.py:120-127 | The symbols tried are the plain one, then with the security id, then with 2, 3 and so on after it |
| `Instruments.CandidatesDiffer` | backend/app/market/instruments.py:120-127 | The symbols tried for one line all differ |
| `Instruments.FirstFree` | backend/app/market/instruments.py:120-127 | The probing ends for every finite table, at the first free symbol |
| `Instruments.Probe` | backend/app/market/instruments.py:120-127 | The probing loop finds it |
| `Instruments.ImportLine` | backend/app/market/instruments.py:112-141 | One line of the import, as specified |
| `Instruments.ImportInstruments` | backend/app/market/instruments.py:94-143 | The index loop and the row loop together are the specified import |
| `Instruments.ImportKeepsUnique` | backend/app/market/instruments.py:94-143 | For every table and file identities stay unique, no row is lost, and created + updated + skipped is the number of lines |
| `Instruments.ImportIsSo` | backend/app/market/instruments.py:94-143 | After an import every row shows the last line that belongs to it or is as before, and where a token belongs never changes |
| `Instruments.CreatesNothing` | backend/app/market/instruments.py:115-143 | An import creates nothing if and only if every token of the file is found in the table it starts from |
| `Instruments.SecondImportExactly` | backend/app/market/instruments.py:94-143 | A second import creates nothing, and leaves the table as it was, if and only if for each old scalar token held by one row the lines with its security id whose own token is not in the table all carry one token |
| `Instruments.OldTokensBreakIdempotence` | backend/app/market/instruments.py:109-119 | The smallest failing case: one old row and two lines |
| `RateLimit.AllowsExactly` | backend/app/rate_limit.py:11-17 | A check is allowed exactly when fewer than the limit of accepted checks lie less than the window before it |
| `RateLimit.CountsRecent` | backend/app/rate_limit.py:15-16 | Once pruned, the queue is as long as the count of the window over the whole history |
| `RateLimit.RateLimiter.Check` | backend/app/rate_limit.py:11-17 | A check is accepted exactly when the whole accepted history would allow it, and only its own key changes |
| `RateLimit.RateLimiter.CheckAll` | backend/app/rate_limit.py:11-17 | A new limiter under any sequence of checks accepts exactly what the rule over whole histories admits, so every span is within the limit |
| `RateLimit.EverySpanIsLimited` | backend/app/rate_limit.py:11-17 | Whatever is checked, no span of the window's length anywhere in time holds more than the limit of accepted checks of a key |

## Left out

- Float rounding (`round(..., 8)`) and IEEE decoding: prices are exact reals, four-byte floats stay four bytes.
- Timestamps of rows: an order carries whether its completion time is set, not the time.
- Stale concurrent writes of two sessions to one row: each committed segment is atomic and sees the tables as they are.
- Trades that arrive after a broker reports CANCELLED, REJECTED or EXPIRED: such orders leave the selected set, so no
  eventual import is claimed.
- The exposure of orders that never got linked to their signal (an ambiguous SELL that fills later): exposure is over linked
  orders, as the code counts it; `Accounted.EverySendIsAccounted` says which orders can be missing.
- Worker.StrategyWorker.Evaluate: the gates before the candle window (engine switch, user, MFA, live gate, candle lag) are
  one input, since each is one branch that ends the run; the candle rows are the result of a query, an input too.
- Worker.StrategyWorker.RunOnce: the newest completed candle of each strategy is the result of a query, an input.
- Status texts are compared letter by letter in ASCII; the few other letters whose capital is an ASCII letter are not folded.
- Version rows and audit rows of strategies; fields of an edit that are null, which the route refuses.
- Field-by-field normalisation of a master file line: lines come parsed, unsupported ones as missing.
- Merging of partial feed packets, reconnect delays, supervisor and health reporting.
- HTTP, OAuth, WebSocket transport, Redis bus, authentication, encryption, frontend, migrations and deployment.
