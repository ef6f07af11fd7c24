# A verified model of the trading platform's hard core

This project models, in Dafny, the parts of the platform whose correctness cannot be seen in any one
function, and proves what they keep:

- the **paper exchange** of `apps/api/src/trading.ts`: a margin account with positions and resting
  orders that is loaded, charged funding, filled, exited, liquidated, edited and saved;
- the **traffic control** of `apps/api/src/trafficControl.ts`: the idempotency protocol and the
  fixed-window rate limiter, both on in-memory tables that expire and evict;
- the **quantile thresholds** of `apps/api/src/prediction-thresholds.ts`;
- two loops of `apps/api/src/index.ts`: backward candle paging and the outcome of a prediction;
- the **grid arithmetic** of `apps/py-strategy-service/grid/math.py`.

## How it is built

Amounts, quantities and prices of the paper exchange are whole numbers of 1e-8 units; a product or a
ratio is an exact real until `FixedPoint.Round` (the nearest unit, halves away from zero) puts it
back on the grid. Every drift is therefore stated as a bound. The other modules compute on exact
reals with their own rounding written out.

Each thing the program changes in place is a class: `PaperBook.PaperState` and `PaperBook.PaperOrder`
(the account and its order rows), `PaperStore.Store` (the stored account behind the API),
`MemoryTable.Table`, `RateLimit.Limiter`, `Idempotency.Responses`. Each of their methods is proved to
change the object's value exactly as a function says (`Engine`, `Spot`, `MemoryTable`, `RateLimit`,
`Idempotency`), and the theorems are about runs of those functions. Loops stay loops:
`CandlePaging.PageBack`, `Outcome.Scan`, `GridMath.ComputeQty`, `GridLevels.NearestLevels`.

| module | what it holds |
|---|---|
| `FixedPoint`, `PaperTypes`, `Wrappers` | numbers, the account's data, options and results |
| `Fills`, `MarkToMarket`, `Equity` | one fill, and the identities it keeps |
| `Prices`, `Orders`, `Loading`, `Margin` | fill prices and fees, one order's books, load and save, the margin gate |
| `Engine` | every step and call of the perpetual engine, as functions |
| `Accounts`, `Ledger`, `PriceFloor` | what steps, calls and whole runs keep, and how low marks may be for it |
| `GateSoundness`, `GateExact` | what the margin gate guarantees, and exactly when as long as the orders stay as they were |
| `GateNumbers`, `PlacedGate`, `RestingGate` | exactly when it does for the engine's two steps: placing an order, a resting order's turn |
| `Funding`, `OrderHistories`, `RunEquity`, `PassEquity` | funding over many passes, every order and the equity after a whole run, the equity over a pass |
| `PaperBook`, `PaperStore` | the mutable account and its API |
| `Spot` | the spot side |
| `MemoryTable`, `RateLimit`, `Idempotency` | the in-memory tables and the two protocols |
| `IdempotencyLimits`, `IdempotencyBudget` | what the idempotency protocol assumes, and what a second handler takes |
| `Quantiles`, `PercentileRank` | quantiles, winsorizing, bands, ranks |
| `CandlePaging`, `Outcome` | the two loops |
| `GridMath`, `GridLevels` | order quantities and price levels |

Words the tables below use. An account is *well formed at a floor* (`StoredOk`, `LoadedOk`) when it has one
position per symbol with a positive quantity, balanced orders with falling numbers below the next one, and
at most 200 of them; at a floor of one or more its prices are positive besides, its long entries at the floor
or above it, and its fees paid not negative. At floor zero marks need only be positive, and nothing is asked
of the policy. At a higher one the marks are at or above the floor and the policy *can sell there*: fees are
not negative, slippages lie in [0, 10000) bps, margin ratios are positive and in order, and each slippage
leaves at least half a unit of the floor (`PolicyFits`, `FloorOk`). A run is *undisturbed* for an
idempotency key when none of the key's rows expires or is evicted during it, none of its connections closes
early, and no other key names its lock or is named by it. A run of hits is *regular* for a rate-limited key
when the clock does not run backwards, the key's windows all have one length, and its row is never evicted
before it expires.

## What came out

Properties that hold only under a condition are stated with that condition, and the other side is
shown by a lemma of its own:

- No fill of the engine is at a price better than the mark it sees, so no fill raises the equity
  valued there (`Equity.FillNeverEnriches` and the price lemmas beside it).
- No pass raises the equity at its own marks by more than the funding received less the fees, up to the
  drift of its fills (`PassEquity.PassNeverEnriches`).
- The margin gate judges a fill without the amount it realizes and without what it does to the orders. What
  that means is exact for each of the engine's two steps, for fills that increase exposure, over all accounts
  that can pay the fee and are let through:
  - **Placing an order** leaves every such account passing the gate's own test exactly when what the fill
    realizes covers what the listed remainder pledges (`PlacedGate.PlaceHoldsExactly`). For an order that does
    not trade through the position that is exactly when it fills at once
    (`PlacedGate.PlainPlaceHoldsExactly`); for one that fills at once, exactly when it does not flip the
    position at a loss (`PlacedGate.FilledAtOnceHoldsExactly`).
    `GateSoundness.RemainderEscapesTheGate` places an order that leaves its account 200 units short.
  - **A resting order's turn** does so, for given positions, exactly when it does not flip the position at a
    loss, or its pledge covers the loss: the pledge released is at least the loss, and initial margin and
    pledge are at least the whole units of maintenance margin, the loss and 2.5 units together
    (`RestingGate.TurnHoldsExactly`). Beside any other positions it does exactly when that holds at every
    exposure they can add (`RestingGate.TurnHoldsBesideExactly`); it always does when the turn releases the
    loss and three units more (`RestingGate.AmpleRelease`). A pledge may cover a loss
    (`RestingGate.PledgeCoversFlip`), and may cover it only as long as nothing else is held
    (`RestingGate.NeighbourBreaksTurn`). In `GateSoundness.FlipEscapesTheGate` the turn itself leaves an
    account due for liquidation.
- The gate takes a negative balance for zero. Without asking that the fee can be paid, each of these holds
  exactly when besides the gate does not let the fill through on an empty balance
  (`PlacedGate.PlaceHoldsAlwaysExactly`, `RestingGate.TurnHoldsAlwaysExactly`);
  `GateSoundness.DebtEscapesTheGate` is an account in debt that buys and is due for liquidation.
- An edit takes the quantity asked for exactly when it is above what is filled; editing down to the
  filled quantity revives the old remainder (`Orders.ResizeKeepsOrder`, `Orders.ResizeToFilledRevives`).
- A sell price is above zero exactly on the marks of which the slippage leaves half a unit
  (`Prices.SellFloorAt`), so on every positive mark exactly up to a slippage of 50% (`Prices.SellFloor`).
  Below that mark an order is sold, or a position liquidated, at a price of zero, and the account written
  is not well formed (`PriceFloor.SellOneBreaks`, `PriceFloor.LiquidationBreaks`). Accounts stay well
  formed at a floor, whatever is called, exactly when the policy can sell there
  (`PriceFloor.FloorExactly`); conservation, liquidation, exits and funding need no such condition.
- A liquidation closes every position exactly when each has a mark above zero, or an entry price above zero
  in its place (`Accounts.LiquidationClosesAllExactly`); a row with neither is left standing.
- One resting spot order that cannot be paid for fails the whole pass over the spot orders
  (`Spot.SpotPassIsRun`), and with it every call that starts with that pass.
- Two idempotency keys are safe together exactly when neither is the other's name followed by
  `:lock` (`IdempotencyLimits.SafeExactlyWhenApart`); the key pattern allows such names.
- A second handler of one key can start in three ways, and a run has room for one exactly when it may close a
  connection early and has seven events, lasts as long as a lock and has six, or has three for each row of a
  full table and six more, so that the lock is evicted (`IdempotencyBudget.OneHandlerExactly`).
- The sliding bound of the rate limiter is one better than twice the limit, and is reached
  (`RateLimit.SlidingBound`, `RateLimit.SlidingBoundReached`).
- From eleven values on, winsorizing by the default one percent moves none of the five bands
  (`Quantiles.BandsIgnoreWinsorizing`).
- The rank function's final `null` is never reached, whatever the bands (`PercentileRank.RankTotal`).
- A level that is not positive makes a prediction's profit leave its own excursions; the exact
  condition is `Outcome.BoundsExactly`.
- Paging a window within its bounds may leave out a candle exactly at the window's start, when the next one
  lies a millisecond later: it does exactly when everything from that millisecond on was collected and the
  loop stopped there (`CandlePaging.SmallWindowComplete`, `CandlePaging.StartMissedExactly`), as it does when
  the first request brings just these (`CandlePaging.PageBack`, `CandlePaging.StartIsMissed`). On Bitget,
  where a request spans at most 90 days, the same holds when no gap is longer than that and the requests
  suffice (`CandlePaging.GaplessWindowComplete`).
- The order quantity is the least admissible one for every input exactly when the step is a whole
  number of millionths (`GridMath.StepIsSafeExactly`).

## Model

| member | source | states |
|---|---|---|
| `Fills.FillKeepsHeld` | apps/api/src/trading.ts:2530-2602 | A fill moves the signed position by its effective change (a reduce-only fill never opens or flips), fills the absolute value of it, never more than asked, and leaves a positive quantity or nothing |
| `Fills.FillKeepsEntry` | apps/api/src/trading.ts:2530-2602 | A fill keeps the direction and enters at no less than the lower of entry and fill price, a partial close at the old entry exactly, or opens in its own direction at the fill price |
| `MarkToMarket.FillStep` | apps/api/src/trading.ts:2530-2602 | For an open, add, reduce, close, flip or clamped fill and every mark: realized plus open profit changes by what the traded units earned from fill price to mark, within half a unit plus half a unit of price per coin left |
| `MarkToMarket.MarkToMarketIdentity` | apps/api/src/trading.ts:2530-2602 | Over any sequence of fills from flat and for every mark, realized plus open profit equals the sum of change times (mark minus price), within the summed drift |
| `Equity.UnrealizedIsOpenPnl` | apps/api/src/trading.ts:1755-1762 | The snapshot's unrealized profit of a position is its exact open profit to the nearest unit, long and short |
| `Equity.FillCostsItsFee` | apps/api/src/trading.ts:1923-1995 | An accepted fill, booked, changes the account's equity valued with the symbol at the fill price by its fee alone, up to the fill's drift and one unit |
| `Equity.FillNeverEnriches` | apps/api/src/trading.ts:1923-1995 | A fill at a price no better than the mark's lowers the equity valued at the mark by at least its fee, up to the fill's drift and one unit |
| `Equity.TouchNeverEnriches` | apps/api/src/trading.ts:2287-2345 | A resting order's fill never raises the equity valued at the marks of the pass, beyond drift and one unit, for any slippages that are not negative |
| `PassEquity.PassNeverEnriches` | apps/api/src/trading.ts:2263-2437 | A pass over an account whose positions all have marks raises its equity at those marks by no more than funding received less fees paid, plus the drift of its fills, for any slippages that are not negative |
| `Equity.PlacedPriceNotBetter` | apps/api/src/trading.ts:2656-2690 | A new order that executes at once fills at a price no better than the market's, for any slippages that are not negative |
| `Equity.ExitPriceNotBetter` | apps/api/src/trading.ts:2351-2376 | A take-profit or stop-loss fills at a price no better than the mark, for any slippages that are not negative |
| `Prices.AggressiveNotBetter` | apps/api/src/trading.ts:1817-1824 | A market, stop or liquidation price is no better than the mark |
| `PaperTypes.ReplaceIsUpdate` | apps/api/src/trading.ts:2521-2528 | Replacing a position keeps one row per symbol, sets that symbol and leaves every other symbol as it was |
| `Prices.SellFloor` | apps/api/src/trading.ts:1817-1824 | Every positive mark gives a positive aggressive sell price exactly when the slippage is at most 5000 bps |
| `Prices.SellFloorAt` | apps/api/src/trading.ts:1817-1824 | At a mark, the aggressive sell price is above zero exactly when the slippage leaves half a unit of the mark |
| `Prices.TriggeredPriceFits` | apps/api/src/trading.ts:1826-1851 | From a mark at or above a floor the policy can sell at, and limits and triggers that are positive and for a buy at or above it, every fill price resolved is positive, and for a buy at or above the floor |
| `Orders.TouchLeavesMoreThanOne` | apps/api/src/trading.ts:1861-1871 | A touch asks for between one unit and the remainder, leaves nothing or more than one unit, and takes all of the rest on a second touch or a market order |
| `Orders.RecordFillKeepsOrder` | apps/api/src/trading.ts:1997-2016 | A recorded fill keeps filled plus remaining equal to original, adds exactly its quantity, and finishes the order exactly when at most one unit is left |
| `Orders.ResizeKeepsOrder` | apps/api/src/trading.ts:2848-2869 | An accepted edit keeps the order's books; the order takes the new quantity exactly when that is above what is filled, else it is unchanged |
| `Orders.ResizeToFilledRevives` | apps/api/src/trading.ts:1650-1656 | An accepted edit down to the filled quantity leaves the old remainder open |
| `Orders.HistoryKeepsOrder` | apps/api/src/trading.ts:1672-1680 | Over every possible history of fills and accepted edits the books balance, the fill count is right, and a limit order that is not reduce-only ends within two fills |
| `Orders.AverageIsVwap` | apps/api/src/trading.ts:1997-2016 | Over every possible history, average fill price times filled quantity is the sum of the fills' notionals, within half a unit of price per coin and fill |
| `OrderHistories.RunFollow` | apps/api/src/trading.ts:2604-2917 | Over any run at a positive floor, from an account with no orders or only such, every order got its books from a fresh order by a possible history of fills and accepted edits |
| `OrderHistories.ReachableAverage` | apps/api/src/trading.ts:1997-2016 | So for every order such a run reaches the average price times what it filled is the sum of its fills' notionals within the slack, its fill count is their number, and a limit order that is not reduce-only has two at most |
| `Loading.CoerceTwice` | apps/api/src/trading.ts:374-490 | Loading is idempotent on any record |
| `Loading.LoadStored` | apps/api/src/trading.ts:374-490 | Loading what the engine stored lifts a negative balance to zero and gives an account well formed at the same floor; if that is positive no row is dropped |
| `Loading.SaveLoadRoundTrip` | apps/api/src/trading.ts:504-523 | A well-formed loaded account with a non-negative balance comes back from saving and loading unchanged |
| `Accounts.OrderFillSound` | apps/api/src/trading.ts:1923-1995 | A fill through the gate fills at most what was asked and leaves a position of its own symbol that is well formed at the floor, or none; with fees not negative it charges no negative fee; a refused one fills nothing |
| `Accounts.BookKeeps` | apps/api/src/trading.ts:2333-2338 | Booking a fill keeps the account well formed and sets only the filled symbol |
| `Accounts.PushKeeps` | apps/api/src/trading.ts:1629-1632 | Listing a balanced order with the next number keeps at most 200 orders with falling numbers below the next one |
| `Accounts.TouchFromKeeps` | apps/api/src/trading.ts:2287-2345 | The loop over resting orders keeps the account well formed at the floor |
| `Accounts.ExitAllCloses` | apps/api/src/trading.ts:2347-2423 | The loop over take-profits and stop-losses keeps the account well formed at the floor, closes every position past an exit and touches no other, whatever the policy |
| `Accounts.LiquidationCompletes` | apps/api/src/trading.ts:2069-2137 | A liquidation of an account whose positions all have a mark closes each of them, writes one finished reduce-only order for each with the next numbers, counts once, and a second one does nothing, whatever the policy |
| `Accounts.LiquidationClosesAllExactly` | apps/api/src/trading.ts:2082-2090 | A liquidation leaves no position exactly when every one has a mark, or an entry price in its place, above zero |
| `Accounts.ReconcileSettles` | apps/api/src/trading.ts:2263-2437 | After a pass the account is well formed at the floor, and, whatever the policy, no position with a known mark is past its take-profit or stop-loss there |
| `Ledger.ReconcileConserves` | apps/api/src/trading.ts:2263-2437 | For every account, any marks and any policy, a pass of funding, fills, exits and liquidation never changes balance minus realized minus funding plus fees; with fees not negative it never lowers the fees paid |
| `Ledger.CallKeepsDeposit` | apps/api/src/trading.ts:374-380 | Any call under any policy raises that total by exactly the negative part of the stored balance, if it writes at all |
| `Ledger.CallKeepsStored` | apps/api/src/trading.ts:2604-2763 | Any call with any arguments on an account well formed at a floor leaves one, for marks at or above the floor and a policy that can sell there |
| `Ledger.RunKeepsStored` | apps/api/src/trading.ts:2604-2917 | Every account reachable by such calls is well formed at the floor |
| `PriceFloor.FloorExactly` | apps/api/src/trading.ts:1817-1824 | Every call with marks at or above a floor keeps accounts well formed there exactly when each of the three slippages leaves half a unit of the floor |
| `PriceFloor.SellOneBreaks` | apps/api/src/trading.ts:2672-2763 | If the market or stop slippage does not, selling one unit at the floor writes an order without a price |
| `PriceFloor.LiquidationBreaks` | apps/api/src/trading.ts:2069-2137 | If the liquidation slippage does not, liquidating one unit at the floor writes a closing order without a price |
| `Ledger.RunConservesDeposit` | apps/api/src/trading.ts:1873-1888 | Over any run, with any marks, from an account with no negative fees paid and under a policy without negative fees, balance minus realized minus funding plus fees changes only by what reloading forgave |
| `Ledger.CallContinues` | apps/api/src/trading.ts:2604-2917 | After any call storage is well formed at every floor that the call's marks and the policy allow, if it was before, and the total is kept or raised by the forgiven debt |
| `RunEquity.RunExplained` | apps/api/src/trading.ts:2530-2602 | Over any run at a positive floor, valued at any marks, realized plus open profit moves by what the run's fills earned from their prices to the marks, within their summed drift, and every holding by what was traded in its symbol |
| `RunEquity.RunEquityIdentity` | apps/api/src/trading.ts:1873-1888 | After any such run the equity is the deposit and what was forgiven, funding, less fees, plus the profit there was and what the fills earned, within their drift |
| `RunEquity.RunFromNothing` | apps/api/src/trading.ts:1873-1888 | After any such run from an empty account the equity is the balance, the columns and the fills' earnings alone, and every holding is the sum of its trades |
| `GateSoundness.ImaginedAccount` | apps/api/src/trading.ts:1890-1921 | The account the gate values is the real one with fee and position applied, the realized amount ignored and a negative balance taken for zero |
| `GateSoundness.GateOverlooks` | apps/api/src/trading.ts:1764-1805 | The valuation judged and the one a fill leaves are the same function of the same positions and marks; the balances differ by exactly the overlooked amount, and the pledges are those of the orders left |
| `GateSoundness.GateGap` | apps/api/src/trading.ts:1764-1805 | The equity a fill leaves differs from the one judged by exactly what was overlooked, the margin by no more, and what passed still passes when that is no loss |
| `GateSoundness.RestingGateSound` | apps/api/src/trading.ts:2318-2344 | A resting order's accepted increase at a price above zero, with no loss overlooked, leaves an account with margin available and not due for liquidation at the gate's marks |
| `RestingGate.TurnHoldsExactly` | apps/api/src/trading.ts:2287-2345 | For positions and a touched order that increases exposure: every well-formed account with them that can pay the fee and whose turn fills the order passes the gate's test afterwards, exactly when the order does not flip the position at a loss or its pledge covers that |
| `RestingGate.UnsafeTurnFails` | apps/api/src/trading.ts:2318-2344 | If neither, there is an account with at most one other order whose turn fills it and that fails afterwards |
| `RestingGate.TurnHoldsBesideExactly` | apps/api/src/trading.ts:2287-2345 | For the position of the symbol alone, beside any others: exactly when the pledge covers the loss at every exposure that other positions can add |
| `RestingGate.AmpleRelease` | apps/api/src/trading.ts:2318-2344 | A turn that releases the loss and three units more leaves every such account passing, whatever else it holds |
| `RestingGate.PledgeCoversFlip` | apps/api/src/trading.ts:2318-2344 | Ten coins from 100 and a stop to sell twenty-one at 98 flip at a loss of 20, and every account passes |
| `RestingGate.NeighbourBreaksTurn` | apps/api/src/trading.ts:2318-2344 | Four coins from 20 and a stop to sell five at 18: every account with these alone passes, and one that holds another position besides does not |
| `RestingGate.TurnHoldsAlwaysExactly` | apps/api/src/trading.ts:1906-1920 | Without asking that the fee can be paid, exactly when besides the gate does not open on an empty balance beside the order's own pledge |
| `GateSoundness.PlainIncreaseOverlooksNothing` | apps/api/src/trading.ts:1906-1920 | An increase that does not flip, on an account that can pay the fee, overlooks nothing |
| `GateExact.GateHoldsExactly` | apps/api/src/trading.ts:1890-1921 | With the orders left as they were, for a held position and a fill that increases exposure: every well-formed account with that position that can pay the fee and is let through passes afterwards, exactly when the fill does not trade through the position at half a unit of loss or more |
| `GateExact.LossIsFlip` | apps/api/src/trading.ts:2575-2602 | An increase realizes a loss exactly when it trades through the position at a price worse than its entry by half a unit or more over the position |
| `GateExact.FlipBreaksGate` | apps/api/src/trading.ts:1906-1920 | For each such flip there is a balance that can pay the fee, is let through and fails afterwards |
| `GateExact.GateHoldsAlwaysExactly` | apps/api/src/trading.ts:1890-1921 | With the orders left as they were and without asking that the fee can be paid, the same holds exactly when besides the gate refuses the fill on an empty balance |
| `GateExact.DebtBreaksGate` | apps/api/src/trading.ts:1906-1920 | For each fill let through on an empty balance there is a debt it is let through with and that fails afterwards |
| `GateSoundness.FlipEscapesTheGate` | apps/api/src/trading.ts:2318-2344 | A well-formed account with a resting stop order: its turn of the pass fills it, realizes 500 of loss and leaves the account due for liquidation at that mark |
| `GateSoundness.DebtEscapesTheGate` | apps/api/src/trading.ts:2318-2344 | A well-formed account in debt, long ten coins: the turn of its resting order buys one more and leaves 119 of margin missing and the account due for liquidation |
| `GateSoundness.PlacedGateSound` | apps/api/src/trading.ts:2692-2717 | A new order's accepted increase at a price above zero, with no loss overlooked, leaves, with the orders there were before, an account that passes |
| `PlacedGate.PlaceHoldsExactly` | apps/api/src/trading.ts:2692-2763 | For a position and a ticket that executes at once and increases exposure: every well-formed account with that position that can pay the fee and whose order is placed passes the gate's test with the row listed, exactly when what the fill realizes is at least what the remainder pledges |
| `PlacedGate.RemainderBreaksGate` | apps/api/src/trading.ts:2692-2726 | If the fill realizes no loss but less than that, there is an account with at most one other order that is let through and fails once the row is listed |
| `PlacedGate.PlainPlaceHoldsExactly` | apps/api/src/trading.ts:2692-2726 | For an order that does not trade through the position, exactly when nothing more than a unit of it is left to fill |
| `PlacedGate.FilledAtOnceHoldsExactly` | apps/api/src/trading.ts:2692-2726 | For an order that fills at once, exactly when it does not flip the position at a loss |
| `PlacedGate.PlaceHoldsAlwaysExactly` | apps/api/src/trading.ts:1906-1920 | Without asking that the fee can be paid, exactly when besides the gate refuses the fill on an empty balance |
| `PlacedGate.PlaceChecks` | apps/api/src/trading.ts:2725-2763 | The account meant is the one whose liquidation check at the market ends the call |
| `GateSoundness.RemainderPledges` | apps/api/src/trading.ts:2725-2726 | Listing the order's remainder then takes exactly its pledge off the margin judged, and the account passes exactly when its funds clear margin and pledges |
| `GateSoundness.RemainderEscapesTheGate` | apps/api/src/trading.ts:2692-2726 | Placing an order for ten coins on a balance of 300 fills five and lists five, and leaves 200 units of margin missing |
| `Funding.FundingTelescopes` | apps/api/src/trading.ts:2026-2067 | For any nondecreasing call times the intervals credited are the whole ones since the anchor, which ends less than one interval before the last call |
| `Funding.FundingCharges` | apps/api/src/trading.ts:2045-2067 | Calls at a constant mark charge the exact funding of the intervals credited, within half a unit per charging call |
| `Funding.ManyCallsChargeAsOne` | apps/api/src/trading.ts:2026-2067 | Many calls and one at the last time leave the same anchor and charge the same, within half a unit per charging call |
| `Funding.AccountCharged` | apps/api/src/trading.ts:2026-2067 | Over passes at constant marks the account's funding column grows by what its positions are charged, each as it would be alone |
| `Funding.ManyPassesChargeAsOne` | apps/api/src/trading.ts:2026-2067 | Many passes at constant marks leave the same anchors as one at the last time, and the same funding column within half a unit per rounded charge |
| `PaperBook.PaperOrder.UpdateQtyFields` | apps/api/src/trading.ts:1672-1680 | The row takes exactly the settled quantities |
| `PaperBook.PaperOrder.RecordFill` | apps/api/src/trading.ts:1997-2016 | The row becomes the order with the fill recorded |
| `PaperBook.PaperOrder.Edit` | apps/api/src/trading.ts:2840-2869 | The row becomes the order with the edit applied |
| `PaperBook.PaperState.ApplyBalanceDelta` | apps/api/src/trading.ts:1873-1888 | Balance, realized, fees, funding and volume move as the balance function says and nothing else does |
| `PaperBook.PaperState.ReplacePosition` | apps/api/src/trading.ts:2525-2528 | The position list becomes the list without the symbol followed by its next position |
| `PaperBook.PaperState.PushOrder` | apps/api/src/trading.ts:1629-1632 | The order is settled and put first, and the list cut to its newest 200 |
| `PaperBook.PaperState.AccrueFunding` | apps/api/src/trading.ts:2026-2067 | The account becomes the one with funding accrued, and the result says whether anything was charged |
| `PaperBook.PaperState.TouchOrders` | apps/api/src/trading.ts:2287-2345 | The account becomes the one after every touched resting order has filled or been refused |
| `PaperBook.PaperState.ExitPositions` | apps/api/src/trading.ts:2347-2423 | The account becomes the one after every position held at the start was exited where its levels say |
| `PaperBook.PaperState.LiquidateIfNeeded` | apps/api/src/trading.ts:2069-2137 | The account becomes the liquidated one, or stays as it is |
| `PaperBook.PaperState.Reconcile` | apps/api/src/trading.ts:2263-2437 | The account becomes the reconciled one, and the result says whether it has to be saved |
| `PaperBook.PaperState.ExecuteOrder` | apps/api/src/trading.ts:2672-2763 | An order that executes at once is filled, recorded, listed and the account checked for liquidation, or the call errs as the source does |
| `PaperBook.PaperState.Place` | apps/api/src/trading.ts:2636-2763 | Placing an order rests it or executes it as the engine's function says, with the same error |
| `PaperBook.PaperState.EditOrder` | apps/api/src/trading.ts:2827-2872 | The open order found by number and symbol is edited, or the call errs and changes nothing |
| `PaperBook.PaperState.CancelOrder` | apps/api/src/trading.ts:2874-2893 | The open order found is cancelled; an order that is not open is left alone |
| `PaperBook.PaperState.CancelAll` | apps/api/src/trading.ts:2895-2917 | Every open order of the symbol, or every open one, is cancelled, no other row changes, and their number is returned |
| `PaperBook.PaperState.SetExits` | apps/api/src/trading.ts:2788-2816 | The exits of the position found are changed as asked, or the call errs |
| `PaperStore.Store.LoadReconciled` | apps/api/src/trading.ts:492-502 | The account loaded is the coerced stored one reconciled, and storage holds it exactly when the pass changed it |
| `PaperStore.Store.Place` | apps/api/src/trading.ts:2604-2763 | Storage and the error after placing an order are those of the engine's call, errors before loading included; what is stored continues what was (`Ledger.CallContinues`) |
| `PaperStore.Store.EditOrder` | apps/api/src/trading.ts:2818-2872 | Storage and the error after an edit are those of the engine's call; what is stored continues what was (`Ledger.CallContinues`) |
| `PaperStore.Store.CancelOrder` | apps/api/src/trading.ts:2874-2893 | Storage after cancelling an order is that of the engine's call; what is stored continues what was (`Ledger.CallContinues`) |
| `PaperStore.Store.CancelAll` | apps/api/src/trading.ts:2895-2917 | Storage after cancelling all orders, and the number cancelled, are those of the engine's call; what is stored continues what was (`Ledger.CallContinues`) |
| `PaperStore.Store.SetExits` | apps/api/src/trading.ts:2788-2816 | Storage and the error after setting exits are those of the engine's call; what is stored continues what was (`Ledger.CallContinues`) |
| `Spot.SpotFillConserves` | apps/api/src/trading.ts:2935-3031 | An accepted spot fill keeps cash plus cost of coins minus realized amounts within the rounding and dust bound, keeps the position long and cash at or above minus one unit |
| `Spot.SpotRunConserves` | apps/api/src/trading.ts:2935-3031 | Over any run of attempted spot fills the same holds within the summed bound |
| `Spot.SpotPassIsRun` | apps/api/src/trading.ts:3060-3080 | A pass over resting spot orders succeeds exactly when every touched one can be paid in turn, and then moves money as that run of fills |
| `Spot.SpotPassConserves` | apps/api/src/trading.ts:3033-3086 | A successful pass keeps what was invested within the bound, and the account long and solvent |
| `Spot.SpotPlaceConserves` | apps/api/src/trading.ts:3184-3262 | A placed spot order moves money as one fill within its bound, or not at all when it rests |
| `PaperBook.PaperState.ApplySpotFill` | apps/api/src/trading.ts:2935-3031 | The balance and the outcome, or the error with the balance unchanged, are those of the spot fill function |
| `PaperBook.PaperState.ReconcileSpot` | apps/api/src/trading.ts:3060-3080 | The account becomes the one after the spot pass, or the pass errs at the first order that cannot be paid |
| `PaperBook.PaperState.PlaceSpot` | apps/api/src/trading.ts:3201-3262 | The account becomes the one with the spot order rested or filled, or the call errs |
| `MemoryTable.Table.SweepOut` | apps/api/src/trafficControl.ts:100-116 | The table becomes its unexpired rows, cut from the oldest end to the bound |
| `MemoryTable.PutIsUpdate` | apps/api/src/trafficControl.ts:220 | Setting a key changes what that key reads and nothing else |
| `MemoryTable.SweepKeeps` | apps/api/src/trafficControl.ts:100-116 | A sweep leaves only rows that were there and have not expired, with the values they had |
| `MemoryTable.SweepIdle` | apps/api/src/trafficControl.ts:100-116 | A sweep of a table within its bound and without expired rows does nothing |
| `RateLimit.Limiter.Increment` | apps/api/src/trafficControl.ts:145-155 | A hit is counted in the key's open window or starts one, and the table changes only so and by the sweep |
| `RateLimit.Limiter.Admit` | apps/api/src/trafficControl.ts:230-238 | A request passes exactly when its window's count is within the limit |
| `RateLimit.TableBounded` | apps/api/src/trafficControl.ts:100-116 | After any run of hits and sweeps the table holds at most one row over its bound |
| `RateLimit.RunKeepsSpans` | apps/api/src/trafficControl.ts:145-155 | Over any regular run a key's windows do not overlap, and each admits at most the limit and at least one hit if the limit is positive |
| `RateLimit.SlidingBound` | apps/api/src/trafficControl.ts:145-155 | Any half-open interval one window long admits fewer than twice the limit |
| `RateLimit.SlidingBoundReached` | apps/api/src/trafficControl.ts:145-155 | With a limit of two, three hits are admitted within one window's length |
| `RateLimit.RefusedWhenFull` | apps/api/src/trafficControl.ts:230-238 | A hit is refused only inside a window that has admitted the whole limit |
| `RateLimit.AdmittedIsDecision` | apps/api/src/trafficControl.ts:238 | What the bounds count as admitted is what the middleware lets through |
| `Idempotency.Responses.Read` | apps/api/src/trafficControl.ts:171-177 | The valid stored response of the key, after a sweep that also drops an expired row of it |
| `Idempotency.Responses.ClaimLock` | apps/api/src/trafficControl.ts:191-198 | Replay if a response is valid, in progress if the lock is, else claimed with the lock written |
| `Idempotency.Responses.Store` | apps/api/src/trafficControl.ts:219-221 | The response is written and the lock removed, after a sweep |
| `Idempotency.Responses.Clear` | apps/api/src/trafficControl.ts:207 | The lock is removed |
| `Idempotency.StepKeepsWorld` | apps/api/src/trafficControl.ts:258-300 | Every event of any client keeps a key's invariant: one handler at most, the lock held exactly meanwhile, nothing stored meanwhile, every reply the stored answer of a handler |
| `Idempotency.AtMostOneHandler` | apps/api/src/trafficControl.ts:273-299 | In every undisturbed run at most one handler of a key is in flight, and its lock is held exactly while one is |
| `Idempotency.RepliesAreAnswers` | apps/api/src/trafficControl.ts:269-277 | Whatever was replied for a key is the stored answer of one of its handlers |
| `Idempotency.StoredForGood` | apps/api/src/trafficControl.ts:284-291 | Once an answer is stored it stays, and every request of the key still undecided or yet to come can only get that answer |
| `Idempotency.LateRequestIsAnswered` | apps/api/src/trafficControl.ts:269-272 | A request that arrives after an answer is stored gets it with its first step |
| `Idempotency.AnsweredOnce` | apps/api/src/trafficControl.ts:284-291 | Once a handler answered below 500 and the answer is stored, no handler of the key runs again, every reply is that answer and no later request is refused |
| `IdempotencyLimits.BriefRunUndisturbed` | apps/api/src/trafficControl.ts:100-116 | A run shorter than the lifetime, with no more events than the table has room, no early close and no aliased key, is undisturbed |
| `IdempotencyLimits.EarlyCloseRunsTwo` | apps/api/src/trafficControl.ts:293-297 | After an early close a second handler of the key runs beside the first |
| `IdempotencyLimits.ExpiredLockRunsTwo` | apps/api/src/trafficControl.ts:194-198 | After the lock's lifetime a second handler of the key runs beside the first |
| `IdempotencyLimits.AliasedRunsAgain` | apps/api/src/trafficControl.ts:194-198 | With a key and the same key followed by `:lock`, a brief run answers the second, clears its answer and runs its handler again |
| `IdempotencyLimits.SafeExactlyWhenApart` | apps/api/src/trafficControl.ts:180-222 | Two keys never run a handler again after an answer, in every brief run, exactly when neither names the other's lock |
| `IdempotencyBudget.OneHandlerExactly` | apps/api/src/trafficControl.ts:258-300 | Over all runs of so many events in so many milliseconds, with early closes or not, whose other keys are apart: a key never has two handlers in flight exactly when the runs have no room for an early close, an expired lock or an evicted one |
| `IdempotencyBudget.EvictedLockRunsTwo` | apps/api/src/trafficControl.ts:100-116 | When locks of other keys fill the table the key's own is evicted, and a second handler runs beside the first |
| `IdempotencyBudget.TightRun` | apps/api/src/trafficControl.ts:100-116 | A second handler in a run that closes nothing and ends before a lock expires has taken three events for each row of a full table and six more |
| `Quantiles.AscendingUnique` | apps/api/src/prediction-thresholds.ts:149 | There is one ascending order of a series' values |
| `Quantiles.QuantileMonotone` | apps/api/src/prediction-thresholds.ts:146-159 | A higher quantile is never a lower value |
| `Quantiles.WinsorizeBounds` | apps/api/src/prediction-thresholds.ts:161-170 | Winsorized values lie between the two bounds, which never cross |
| `Quantiles.WinsorizeKeepsOrder` | apps/api/src/prediction-thresholds.ts:161-170 | Winsorizing drops no value and lets no two change places |
| `Quantiles.WinsorizeCommutes` | apps/api/src/prediction-thresholds.ts:161-170 | Winsorizing and sorting commute |
| `Quantiles.QuantileUnmoved` | apps/api/src/prediction-thresholds.ts:146-170 | A quantile whose neighbouring indexes lie inside those of the bounds is not moved by winsorizing |
| `Quantiles.BandsIgnoreWinsorizing` | apps/api/src/prediction-thresholds.ts:172-188 | From eleven values on, winsorizing by up to one percent moves no band |
| `Quantiles.BandsOrdered` | apps/api/src/prediction-thresholds.ts:172-188 | Bands exist exactly from five values on and are always in order |
| `PercentileRank.RankTotal` | apps/api/src/prediction-thresholds.ts:355-385 | Every value has a rank in [0, 100], whatever the bands |
| `PercentileRank.RankMonotone` | apps/api/src/prediction-thresholds.ts:355-385 | On ordered bands, ties included, a larger value never has a lower rank |
| `PercentileRank.UnorderedBandsMisrank` | apps/api/src/prediction-thresholds.ts:355-385 | On unordered bands it can |
| `PercentileRank.BandsRankThemselves` | apps/api/src/prediction-thresholds.ts:348-385 | On distinct bands each band ranks at its own percentile |
| `PercentileRank.BuiltInOrder` | apps/api/src/prediction-thresholds.ts:194-282 | Every threshold built is in order, and the fallback is used exactly when one of its two series is shorter than five |
| `CandlePaging.FetchHistorical` | apps/api/src/index.ts:7379-7426 | The result is the sorted, duplicate-free, gap-free newest part of the window, everything the market has from the cut on, with the reason paging stopped |
| `CandlePaging.PageBack` | apps/api/src/index.ts:7394-7425 | The loop ends, having collected everything from the cut on, for one of the five reasons its conditions allow, and a loop out of requests has spent them on full answers and on spans of 90 days; it stops a millisecond after the start if the first request brings everything from there on |
| `CandlePaging.BatchIsRange` | apps/api/src/index.ts:7400-7409 | A batch of the newest candles is everything between its first candle and the cursor |
| `CandlePaging.SuffixOfWindow` | apps/api/src/index.ts:7425 | The result is the sorted, duplicate-free, gap-free end of the window |
| `CandlePaging.StoppedComplete` | apps/api/src/index.ts:7409-7420 | It is the whole window when a batch reached the start or a full request came back empty; an empty Bitget request leaves out only what lies beyond a gap of 90 days |
| `CandlePaging.SmallWindowComplete` | apps/api/src/index.ts:7394-7422 | Elsewhere than on Bitget a window within the bar and request bounds is complete, or lacks no more than a candle at its start with another one millisecond later |
| `CandlePaging.StartMissedExactly` | apps/api/src/index.ts:7394-7422 | Such a window lacks that candle exactly when there is one and everything after it was collected before the loop stopped |
| `CandlePaging.StartIsMissed` | apps/api/src/index.ts:7394-7422 | Of two hundred and one candles a millisecond apart, the first at the start of the window, the first request brings all others |
| `CandlePaging.SpacedWindowComplete` | apps/api/src/index.ts:7394-7422 | With candles at least two milliseconds apart it is complete |
| `CandlePaging.GaplessWindowComplete` | apps/api/src/index.ts:7394-7422 | On Bitget as elsewhere a window without a gap over 90 days, with fewer candles than the bar bound and few enough candles and days for the 80 requests, is complete, but for that candle at its start |
| `CandlePaging.FiveYearsComplete` | apps/api/src/index.ts:7394-7422 | So is a window of five years with at most 1826 candles and no gap over 90 days |
| `Outcome.Evaluate` | apps/api/src/index.ts:7929-8099 | The verdict is that of the reference: skipped, invalid, no data, decided by the first touching bar, pending or expired |
| `Outcome.Scan` | apps/api/src/index.ts:8022-8075 | The loop with running excursions gives the verdict of the first touching bar |
| `Outcome.FirstTouchDecides` | apps/api/src/index.ts:8025-8068 | A prediction is decided exactly when a bar in range touches a level, by the first that does, the stop loss winning a tie, with the extremes up to that bar |
| `Outcome.DecisionIsFinal` | apps/api/src/index.ts:7994-8068 | Bars appended and a later clock change neither level, profit nor excursions of a decided prediction |
| `Outcome.PnlWithinExcursions` | apps/api/src/index.ts:7886-7898 | The rounded profit lies within the rounded excursions, for positive levels |
| `Outcome.BoundsExactly` | apps/api/src/index.ts:7886-7898 | Each bound holds for all bars exactly when the level is positive, or the signal is down (take profit) or up (stop loss) |
| `GridMath.ComputeQty` | apps/py-strategy-service/grid/math.py:83-131 | The two-stage computation is one rounding up of the largest lower bound, with the flags saying which constraint took effect |
| `GridMath.CeilToStepIsLeast` | apps/py-strategy-service/grid/math.py:17-20 | Rounding up gives the least multiple of the step that is not below the value |
| `GridMath.ResultIsLeast` | apps/py-strategy-service/grid/math.py:83-131 | With a step of whole millionths the result is the least multiple that meets quantity, minimum and notional |
| `GridMath.ResultIsStable` | apps/py-strategy-service/grid/math.py:83-131 | Feeding the result back returns it |
| `GridMath.StepIsSafeExactly` | apps/py-strategy-service/grid/math.py:7-8 | The result is least for every input exactly when the step is a whole number of millionths |
| `GridLevels.GridIsEven` | apps/py-strategy-service/grid/math.py:23-30 | An arithmetic grid runs from its lower to its upper price, never falls, and has no gap wider than the spacing and one rounding unit |
| `GridLevels.NearestLevels` | apps/py-strategy-service/grid/math.py:33-49 | The first neighbouring pair around a price inside the levels, in order or not; the outermost pair outside |
| `GridLevels.NearestOnGrid` | apps/py-strategy-service/grid/planner.py:781-783 | On a grid the two levels enclose the price and are one spacing apart |

## Left out

- IEEE-754 effects, NaN and infinity: amounts are whole 1e-8 units or exact reals, and every number is finite.
- Quantities and prices given by callers, exchanges and policies are taken as whole units; the model then has no need of the roundings that only bring an input onto the grid.
- Timestamps, ISO strings and fields that are only displayed: creation, update, trigger and fill times of orders, order identifiers beyond their sequence number, symbols before they are normalized.
- The shapes of raw JSON that loading tolerates (aliases, missing fields, wrong types): loading is modelled from records of the right shape, with every clamp, filter and fallback on their values.
- Positions are values in the account's list; the source replaces whole rows and changes two of their fields in place, and no other reference to them is kept.
- Closing a position through the API, which is placing a reduce-only market order, and the listings that only read.
- Mixing perpetual and spot steps on one account: each side is proved over its own runs.
- Editing and cancelling spot orders, whose rows change by one assignment.
- Price fetching, exchange adapters, WebSocket handlers and Prisma: marks are an arbitrary map of positive prices, storage is the stored value.
- The Redis paths of traffic control, whose guarantees rest on a store outside the repository.
- Handlers that end other than through a JSON answer, and requests without an idempotency key.
- The headers, scopes and log lines around the rate limiter's decision.
- Candles without a time: the exchange is taken to answer a request with its newest 200 candles in the range, in time order.
- The metadata an outcome carries along, and its count of scanned bars, which does grow when bars are appended.
- Geometric grids (real powers), liquidation price estimates and notional helpers of the grid service.
- The bar counts that threshold building reports, regime tags and confidence penalties.
- Prediction generation, AI prompts, orchestration, recovery, mail, authentication, secrets, settings parsers and routes: plumbing or single-branch normalizers.
