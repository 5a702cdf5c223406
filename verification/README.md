# Verification of the order and position bookkeeping

Dafny proofs about a crypto-futures trading agent: the protocols that must stay right when venue calls fail, replies are lost
and tasks interleave, and the accounting, replay and ratchet arithmetic behind them. `dafny verify dfyconfig.toml` checks
everything.

| part | modules |
|---|---|
| remote broker: exits, opens, refreshes, sidecar | RemoteState, RemoteReconcile, RemoteProtocol, RemoteGuarantees, RemoteOwners, RemoteExactness, RemoteAdoption, RemoteResidual, RemoteRecords, RemoteMeaning, RemoteCounterexamples |
| live protection: entries, legs, stops, lock, startup | LiveEntry, EntrySlot, LiveLegs, LiveBook, SymbolLock, StartupPlan |
| replay and portfolio | MarketDataFeed, Replay, ReplaySteps, ReplayFunding, ReplayGuarantees, ExecutionSimulator, PortfolioSimulator, PortfolioLedger, PortfolioBars, PortfolioSteps, PortfolioFold, PortfolioGuarantees, PortfolioQuantities, BacktestMetrics |
| paper engine and live journal | PaperEngine, PaperFills, PaperLedger, PaperFunding, PaperExits, LiveJournal, JournalGuarantees, JournalFunding, LiveJournalSync |
| arithmetic loops | SymbolRules, TrailingStops, VolatilityRegimes, AdaptiveSuperTrend, CarryBacktest, CarryLedger, CarryGuarantees |
| shared vocabulary | Common, Sums |

Money, prices and quantities are `real`, times and slots are `int`. `toFixed(k)` is rounding to the nearest 10^-k.

The classes of the source whose methods update fields are classes here (RemoteStore, RemoteReconciler, LiveBook, the entry
tracker, PaperEngine, PortfolioSimulator, LiveJournal), each method proved against a function of the old state; the source's
loops are loops with invariants. The remote broker is a state machine instead: one step per await-free section of the source,
interleaved with an exchange that dedupes on the client order id, may fill an order and lose the reply, may fill it late, may
refuse it and may be down. Every venue call of the live modules succeeds, fails or loses its answer nondeterministically.

## What the proofs found

Some properties the code is meant to have fail in a corner. Each corner has a lemma that shows it, and the property is proved
under the condition that excludes it.

- A manual close dropped on an outage does not bump the order epoch (src/binance/remoteOrders.ts:165-174), so an open whose
  refresh read the exchange before the close landed scales into a position that is gone, and the close is never journaled:
  `RemoteCounterexamples.DroppedCloseLosesAnEnd` gives the whole run, `RemoteCounterexamples.StaleEntryForgets` the family. The
  guarantee needs an open to decide on a view the exchange still agrees with.
- A flip whose following refresh failed gives the symbol up while the cache still shows the old side; the next refresh
  journals the old position again (`RemoteCounterexamples.UnrefreshedFlipDoubles`).
- A position the sidecar does not know yet ends without a record: by an exit filled just before a crash
  (`RemoteCounterexamples.UnknownExitForgets`), and by a liquidation, which needs no crash. It is enough that the entry's reply
  was lost and the position was liquidated before the next refresh (`RemoteCounterexamples.UnknownLiquidationForgets` for every
  such state, `RemoteCounterexamples.UnknownLiquidationLosesAnEnd` from an empty account).
- A position that is liquidated just as its strategy starts to flip it ends without a record, with no reply lost and no crash:
  the flip's close finds the symbol flat and passes for done, and the entry's sidecar entry takes the place of the one the
  liquidation had still to be booked from (`RemoteCounterexamples.StruckFlipForgets` for every such state,
  `RemoteCounterexamples.StruckFlipLosesAnEnd` from an empty account).
- An entry that lands after its open gave up, while a record is still owed, passes for the position that ended
  (`RemoteCounterexamples.LateEntryForgets`). One that lands under a full exit already sized leaves a residual whose end is the
  position's second final record (`RemoteResidual.LateUnderExitDoubles`, from an empty account
  `RemoteResidual.LateScaleInDoublesARecord`); one that lands between a flip's close and its entry is netted away unseen
  (`RemoteResidual.LateUnderFlipForgets`). The residual itself keeps its owner and levels, and no quantity is lost
  (`RemoteResidual.ResidualKeepsItsOwner`).
- For the guarantees of the order protocol these conditions are exact, step by step: after any run that met them, a further
  step leaves every such continuation with each end journaled once, each record like its fill and the sidecar right about its
  position if and only if it meets them too (`RemoteExactness.CarefulIff`).
- A scale-in whose reply is lost leaves no expectation behind (src/binance/remoteBroker.ts:248). When it lands after its
  position was liquidated, the next refresh adopts the agent's own position as external, without a stop
  (`RemoteAdoption.LateScaleInIsAdopted`). With crashes and expiries, `RemoteAdoption.AttentiveIff` says exactly which steps can
  leave an own position to be adopted.
- An entry whose reply is lost, and whose lookup then fails without an outage, is taken for rejected although it may have
  filled (src/binance/remoteBroker.ts:244-250). The next refresh adopts the position as external
  (`RemoteAdoption.BrokenEntryIsAdopted`), or hands it to another strategy that still awaits an entry on its side
  (`RemoteCounterexamples.BrokenEntryIsHandedOver`).
- A partial exit is sure to be booked at its fill's quantity if and only if the exchange reports quantities or the exit takes at
  most half of the position, or all of it, when it is enqueued (`RemoteCounterexamples.PartialBooksItsFillIff`).
- An applied refresh keeps two opens of one symbol from both sending (`RemoteOwners.AppliedEntriesAreSoleAndOwn`), but not an
  entry off a position that another strategy's unconfirmed entry opened meanwhile (`RemoteCounterexamples.AppliedRefreshMeetsRival`).
- A stop that is not on the tick grid loosens exactly when rounding it moves it away from the market
  (`TrailingStops.LoosensExactlyByItsRounding`), and without a recorded initial risk the profit tiers stop locking exactly when
  the stop stands at the entry (`TrailingStops.UnrecordedRiskStopsLocking`).
- The line of the SuperTrend retreats inside a trend exactly when the bar before closed beyond the band it left and the new
  candle's own band lies beyond it too (`AdaptiveSuperTrend.LineRetreatsIff`); that happens on the second bar of a run at most
  (`AdaptiveSuperTrend.SecondBarMayFall`, `AdaptiveSuperTrend.LineOnlyRatchets`).
- K-means keeps the order of its regimes for every window if and only if no two centroids coincide; the initial percentiles
  coincide only for a flat window, which moves nothing (`VolatilityRegimes.OrderIsKeptExactlyWhenSeparated`,
  `VolatilityRegimes.TrainedRegimes`).
- A scale-in changes what a paper position is charged exactly when the averaged opening settles other boundaries
  (`PaperFunding.ScaleInKeepsChargesIff`), never once every boundary before it is accrued
  (`PaperFunding.ScaleInAfterAccrualIsHarmless`); and the shutdown save omits the funding clock (`PaperFunding.SavePaths` says
  exactly when that changes the next charge).
- One closing order becomes one journal trade if and only if its executions are contiguous among all closing executions, other
  symbols' included (`JournalGuarantees.OneTradePerOrderIffContiguous`).
- Over a run of journal syncs each funding line is counted once if and only if every answer held exactly the lines settled
  before the stamp the next question starts from (`JournalFunding.FundingCountedOnce`): no line between the answer and the stamp,
  none on both at once, and none cut off by the page (`JournalFunding.SeamlessIff`).
- The replay reads 15-minute slots by index and looks ahead exactly when some slot's bar closes after its step
  (`ReplayGuarantees.NeverAheadIff`), as it does for a history that starts late (`ReplayGuarantees.LateStartLooksAhead`); a
  funding rate is read ahead exactly when the series starts after the boundary (`ReplayGuarantees.RateLooksAheadIff`).
- A stop move queued for one side and run after a flip goes through exactly when it is further from the market than the new
  position's stop (`LiveBook.MoveAfterFlip`).
- A placement whose answer is lost leaves an orphan stop, and a later audit loosens the record exactly when the venue lists the
  orphan before every tighter stop (`LiveBook.AdoptingAnOrphan`); the exchange still protects the position as tightly
  (`LiveBook.RunQueue`).
- A stop move whose cancel comes through without an answer gives up with the old stop gone: exactly then the position is left
  without a stop, which the next audit that runs to its end puts back (`LiveBook.RepairLostCancel`).
- A leg whose submit is slow may arrive between the lookup by client id and the next submit. The duplicate-id answer is then
  looked up again, and if that lookup fails its error is thrown out of the handler of the first one, past the retries and past
  the emergency close (src/binance/client.ts:843-848). The leg rests, so nothing is left bare: such an entry ends with its stop
  resting and no close asked for (`LiveLegs.TryOnce`, `LiveLegs.PlaceEntryLegs`).
- If cancel-all succeeds and the flatten after it fails, the entry tracker remembers legs that are gone, and resolves an open
  position as protected, with none resting, exactly when it next sees their size (`LiveEntry.ResolvesUnprotected`). A placement
  that failed at its target leaves its stop resting unlisted when cancel-all fails too.

## Model

| member | source | states |
|---|---|---|
| RemoteGuarantees.EndsAreJournaledOnce | src/binance/remoteOrders.ts:234-310 | After any careful interleaving of refreshes, opens, exit attempts, liquidations, lost replies, late entries, retries and restarts, every position that ended has exactly one final journal record, except the one the sidecar still holds an entry for; a position that has not ended has none. Careful: an open that goes ahead decides on a current view or adds to a position its strategy opened; a full exit starts on a position the sidecar knows; a liquidation strikes such a position, not under an entry still to fill nor under a flip whose close is not sized yet; a late entry meets neither a record owed, nor a waiting flip, nor an exit that would mistake it for its position or book another size; an entry is taken for rejected only while no other strategy awaits one on its side; and a flip is given up after a refresh |
| RemoteExactness.CarefulIff | src/binance/remoteBroker.ts:217-302 | The conditions are exact: after any careful run, a step leaves every careful continuation with each end journaled exactly once, each record like its fill, and each sidecar entry right about the side and the opener of its position, if and only if the step is careful |
| RemoteExactness.LandingBreaks | src/binance/remoteOrders.ts:246-312 | Whatever runs when an entry lands late outside those conditions, an exit, a flip or a residual check, some careful continuation loses an end, books one twice or books another size than was filled |
| RemoteExactness.DecisionBreaks | src/binance/remoteBroker.ts:217-238 | An open that goes ahead on a stale view and does not add to its own strategy's position can lose an end or leave the sidecar wrong about a position |
| RemoteExactness.EntryBreakBreaks | src/binance/remoteBroker.ts:244-256 | Whenever an entry is taken for rejected while another strategy awaits one on its side, filled or still to land, some careful continuation hands its position to that strategy |
| RemoteGuarantees.RefreshSettlesAll | src/binance/remoteReconcile.ts:56-91 | The next refresh applied while no order is in flight settles that one too: then every ended position has exactly one final record |
| RemoteGuarantees.ExitsBookTheirFill | src/binance/remoteOrders.ts:246-293 | An exit order is booked at most once however often it is attempted, and its record carries the position, the price and the quantity of the one fill under its id; only the quantity is open, and only for an unreported partial of more than half the position |
| RemoteGuarantees.FillsAreFinal | src/binance/remoteOrders.ts:246-260 | Once an id is filled, no later step changes its fill and delivering it again changes nothing, so retries under one client order id reduce a position once |
| RemoteGuarantees.EntriesRespectOwners | src/binance/remoteBroker.ts:128-140 | At the exchange: an entry on a view the exchange still agrees with is sent only with no exit and no other open on the symbol, and only when the symbol is flat with nothing left to settle or is held on the same side by the same strategy, as the sidecar or the order that opened the position says |
| RemoteOwners.AppliedEntriesAreSoleAndOwn | src/binance/remoteBroker.ts:217-229 | In any run whatever, an entry whose refresh was applied is sent only with no exit and no other open on the symbol, and only when the sidecar gives the symbol to the same strategy or has no entry for it |
| RemoteOwners.StopsCloseTheirOwn | src/binance/remoteBroker.ts:276-281 | Over every careful run, through retries, stop updates and restarts, each record of a stop or target is of a position opened by the order of the strategy it names and never taken for external |
| RemoteOwners.StopFillsSpareStrangers | src/binance/remoteBroker.ts:276-281 | No fill of a stop or target reduces a position that is external, or another strategy's, when it fills, whether or not it is booked |
| RemoteGuarantees.PrudentRunIsCareful | src/binance/remoteBroker.ts:283-302 | Checking before the call that the refresh was applied and nothing struck since its read is enough for an open's view to be current, over whole runs |
| RemoteAdoption.NeverAdoptsItsOwn | src/binance/remoteReconcile.ts:108-119 | Over careful runs with crashes, expiries and late entries, no position the agent opened is ever adopted as external, as long as the process dies only while the sidecar knows the position, an expectation expires only once no position and no finished open needs it, a filled entry is taken for rejected only where one of its side is awaited, and an entry lands late on a position or where one of its side is awaited |
| RemoteAdoption.AttentiveIff | src/binance/remoteReconcile.ts:102-119 | Those conditions are exact: after any such run, a careful step leaves every such continuation without an external position if and only if it meets them |
| RemoteAdoption.UnclaimedIsAdopted | src/binance/remoteReconcile.ts:108-119 | On every idle symbol, a position without a sidecar entry that no expectation of its side awaits is adopted as external, without stop or target, by the next applied refresh |
| RemoteAdoption.CrashIsLost | src/binance/remoteBroker.ts:251-262 | A crash while a live position has no sidecar entry leaves it to be adopted as external |
| RemoteAdoption.LateEntryIsLost | src/binance/remoteBroker.ts:244-250 | So does an entry that lands late on a flat symbol awaiting none of its side, whatever is running there |
| RemoteAdoption.ExpiryIsLost | src/binance/remoteReconcile.ts:102-106 | So does an expectation that expires while a position or an open still needs it |
| RemoteAdoption.BrokenEntryIsLost | src/binance/remoteBroker.ts:244-250 | So does a filled first entry that is taken for rejected where none of its side is awaited |
| RemoteAdoption.BrokenEntryIsAdopted | src/binance/remoteOrders.ts:56-66 | A concrete run from an empty account in which an entry fills, its reply is lost, its lookup fails without an outage, and the position is adopted as external |
| RemoteAdoption.LateScaleInIsAdopted | src/binance/remoteBroker.ts:248 | A concrete run from an empty account, with no crash and no expiry, in which a lost scale-in lands after its position was liquidated and is adopted as external |
| RemoteResidual.ResidualKeepsItsOwner | src/binance/remoteOrders.ts:277-312 | After any careful run, a full exit goes through any retries, lost replies and refreshes while a lost scale-in lands before its fill, after it or not at all; its one record names the owner, what it leaves keeps owner, risk and levels once the check was answered, and the quantities booked, left and still to land add up to what there was when quantities are reported or the exit was not sized again after its fill |
| RemoteResidual.ResidualStaysOwnIff | src/binance/remoteOrders.ts:295-312 | What the exit leaves stays with its owner through the next refresh if and only if the residual check got its answer or an entry of the owner is awaited; otherwise it becomes external |
| RemoteResidual.LateUnderExitDoubles | src/binance/remoteOrders.ts:277-312 | Whenever a lost scale-in lands under a full exit already sized, the position has a final record although it has not ended, and a second one once what was left ends |
| RemoteResidual.LateScaleInDoublesARecord | src/binance/remoteOrders.ts:277-312 | A concrete run from an empty account that does so |
| RemoteResidual.LateUnderRereadBooksIff | src/binance/remoteOrders.ts:246-270 | When a lost scale-in and the order of an unreported exit of the whole position land before the exit reads again, it is booked at its fill's quantity if and only if it would now ask for the same |
| RemoteResidual.LateUnderFlipForgets | src/binance/remoteBroker.ts:217-238 | Whenever a lost entry of the old side, smaller than the flip's, lands between the flip's close and its entry, the end of what it opened is lost |
| RemoteProtocol.StepInv | src/binance/remoteBroker.ts:217-262 | Every careful step keeps the protocol invariant: the journal plus what is still owed is exactly what ended, and the cache, sidecar, jobs, opens, wire, late entries and running refresh agree with the exchange |
| RemoteProtocol.CompletedInv | src/binance/remoteOrders.ts:277-293 | A confirmed exit books the row its order filled, with its own price move as pnl, and drops its sidecar entry in one write, and keeps the invariant |
| RemoteProtocol.RefreshBooks | src/binance/remoteBroker.ts:289-302 | A refresh books nothing, or exactly the one ended position the sidecar still holds, with its own price move as pnl; a discarded or busy one books nothing |
| RemoteRecords.RecordsTellTheirMove | src/binance/remoteState.ts:42-47 | Over any run, careful or not, every journal record, booked by an exit or by a refresh, is of a positive quantity; its entry value plus the pnl of a long, or less that of a short, is its exit value; and the pnl is positive exactly when the exit is on the winning side of the entry |
| RemoteRecords.StepIsPositive | src/binance/remoteBroker.ts:217-302 | Every step whatever keeps every quantity on the exchange, on the wire and in memory positive and every record telling its own price move |
| RemoteMeaning.ExitAsksForThePosition | src/binance/remoteOrders.ts:246-270 | An exit that reads the position asks, reduce-only, for all of it or for a cap below it, never for more than there is, and will be booked under the entry, owner, risk and decision of what it read |
| RemoteMeaning.StopsAskForTheWorse | src/binance/remoteOrders.ts:254-318 | The first attempt of a stop asks for its trigger or the market, whichever is worse for the position; other exits ask for their trigger, and retries for what was asked before |
| RemoteMeaning.EntryOpensWhatWasDecided | src/binance/remoteBroker.ts:217-262 | Delivered before anything else happens, the entry of an open that went ahead gives a flat symbol a position of its side, size and price in its strategy's name, and adds its size to one of its side |
| RemoteMeaning.FlipEntersWhatWasDecided | src/binance/remoteBroker.ts:230-262 | So does the entry of a flip, after its close |
| RemoteMeaning.ExitAsksForItsPrice | src/binance/remoteOrders.ts:246-270 | From the request to the exchange, an exit asks for the price it was given, or for a worse market when it is a stop, and for its cap or the whole position |
| RemoteMeaning.FlipClosesAtItsPrice | src/binance/remoteBroker.ts:217-238 | The close of a flip asks for the whole position at the price of the entry it makes room for |
| RemoteMeaning.EntryIsAccountedFor | src/binance/remoteBroker.ts:240-262 | A confirmed first entry is remembered as opened now by its strategy, with its levels and the distance to a stop on the losing side as its risk; a scale-in brings its own levels into the entry it adds to and changes nothing else of it; an unanswered entry is expected, unless it is a scale-in |
| RemoteMeaning.ExitIsBookedAsAsked | src/binance/remoteOrders.ts:277-293 | A confirmed exit is booked once, at its confirmation, for the reason it was asked for, as the position it read and at the price it asked |
| RemoteMeaning.LevelsReachTheirOwner | src/binance/remoteBroker.ts:164-168 | New levels replace both levels of the sidecar entry of the strategy that owns the position, and reach no other |
| RemoteMeaning.ViewStaysClose | src/binance/remoteState.ts:126-131 | The remembered view has the side, entry and quantity last shown and a mark within half a percent of the fresh one |
| RemoteCounterexamples.DroppedCloseLosesAnEnd | src/binance/remoteOrders.ts:165-174 | A concrete run from an empty account in which a dropped close's fill is never journaled, however the run goes on |
| RemoteCounterexamples.StaleEntryForgets | src/binance/remoteBroker.ts:217-228 | Whenever an open goes ahead while the sidecar still owes an ended position, on an empty cache or as the owner's same-side add of another size, and its entry fills, that end is lost |
| RemoteCounterexamples.ForgottenForever | src/binance/remoteReconcile.ts:69-100 | An end that nothing in memory, on the wire or in the sidecar remembers is never journaled by any continuation |
| RemoteCounterexamples.UnrefreshedFlipDoubles | src/binance/remoteReconcile.ts:69-78 | A flip given up before a refresh showed its new side has its old position journaled twice, and its new one, if it is still there, adopted as external |
| RemoteCounterexamples.UnknownExitForgets | src/binance/remoteOrders.ts:213-217 | An exit of a position without a sidecar entry that fills just before a crash loses the end |
| RemoteCounterexamples.UnknownLiquidationForgets | src/binance/remoteReconcile.ts:56-67 | From every idle state in which a live position has no sidecar entry, its liquidation before the next refresh loses the end |
| RemoteCounterexamples.UnknownLiquidationLosesAnEnd | src/binance/remoteBroker.ts:217-262 | A concrete run from an empty account that does so, with no crash and one lost reply, however the run goes on |
| RemoteCounterexamples.StruckFlipForgets | src/binance/remoteOrders.ts:272-275 | Whenever a position is liquidated before the close of a flip has read it, that close passes for done, the flip enters, and the end is lost |
| RemoteCounterexamples.StruckFlipLosesAnEnd | src/binance/remoteBroker.ts:217-238 | A concrete run from an empty account that does so, with no reply lost and no crash, however the run goes on |
| RemoteCounterexamples.BrokenEntryIsHandedOver | src/binance/remoteBroker.ts:244-256 | A concrete run of two strategies from an empty account that does so |
| RemoteCounterexamples.LateEntryForgets | src/binance/remoteReconcile.ts:69-78 | Whenever an entry of the same side and another size lands after its open gave up while the sidecar owes an ended position, that end is lost |
| RemoteCounterexamples.AppliedRefreshMeetsRival | src/binance/remoteBroker.ts:217-229 | A concrete run of two strategies in which an applied refresh lets one send an entry on a position the other's unconfirmed entry has opened |
| RemoteCounterexamples.PartialBooksItsFillIff | src/binance/remoteOrders.ts:247-278 | After any careful run, a partial exit of any position, known to the sidecar or not, is booked at its fill's quantity in every careful continuation if and only if the exchange reports quantities, or the exit takes at most half of the position or all of it |
| RemoteReconcile.RemoteReconciler.Apply | src/binance/remoteReconcile.ts:56-67 | Aligning the sidecar with a snapshot does to every symbol exactly what the per-symbol function says, whatever order the entries are listed in; every record it adds has its own price move as pnl |
| RemoteReconcile.RemoteReconciler.SettleVanishedPosition | src/binance/remoteReconcile.ts:80-91 | A vanished position is journaled from its last view at the liquidation mark or the last mark, or dropped when nothing is known; no other symbol changes; the record added has its own price move as pnl |
| RemoteReconcile.RemoteReconciler.ReconcileOpenPosition | src/binance/remoteReconcile.ts:69-78 | A listed position is adopted when unowned, and when its side changed the old one is journaled first; no other symbol changes; a record added has its own price move as pnl |
| RemoteMeaning.LastViewIsTheNewest | src/binance/remoteReconcile.ts:69-91 | A position is judged by the previous snapshot, at the local mark or else the exchange's, and only without one by the view the sidecar kept |
| RemoteMeaning.VanishedIsPriced | src/binance/remoteReconcile.ts:80-91 | A vanished position is journaled once under its owner, risk and decision: as liquidated, at the newest liquidation that can have ended it when that carries a price, exactly when there is one, and otherwise as closed at the last mark |
| RemoteReconcile.RemoteReconciler.AdoptUnownedPosition | src/binance/remoteReconcile.ts:108-119 | An unowned position takes the levels of the unconfirmed open on its side, consuming it, or becomes external |
| RemoteReconcile.RemoteReconciler.PruneExpiredOpens | src/binance/remoteReconcile.ts:102-106 | Exactly the expectations ten minutes old or older are dropped |
| RemoteReconcile.LiquidationSince | src/binance/remoteState.ts:269-274 | The newest liquidation of the symbol after the open, if there is one |
| RemoteState.RemoteStore.RecordClose | src/binance/remoteState.ts:163-168 | Journaling and dropping the sidecar entry happen together; the file keeps the newest thousand records |
| RemoteState.RemoteStore.RecordPartial | src/binance/remoteState.ts:171-174 | A partial record is appended and the sidecar entries stay |
| RemoteState.RemoteStore.UpdateLastSeen | src/binance/remoteState.ts:126-131 | Only the symbol's own remembered view changes, and only when the view moved or was missing |
| LiveBook.LiveBook.ReplaceStop | src/binance/liveBook.ts:281-304 | Cancel, place, restore, emergency close: for a replacement no looser than the recorded stop, whichever calls fail and whichever answers are lost, a position of the recorded side ends with its recorded stop resting at least as tight as before and every stop that rested matched by one as tight, or an emergency close for the whole position, as it was or was last known, was sent, or the cancel came through without an answer, which leaves the record as it was and no stop resting; the record ends at the new or the old level, and at the new one when every call comes through |
| LiveBook.LiveBook.DropTarget | src/binance/liveBook.ts:306-313 | The record drops its target exactly when the target's order, if any, was cancelled with an answer; the stop and every other order stay |
| LiveBook.LiveBook.UpdateStops | src/binance/liveBook.ts:254-271 | A serialised stop move for the side the position is on never loosens the recorded stop, which afterwards rests, nor the protection at the exchange, or an emergency close for the whole position, as it was or was last known, was sent or the stop's cancel came through without an answer; when every call comes through, the record and the exchange carry the rounded new stop if it improves the old one, and no target if none is asked for |
| LiveBook.LiveBook.PlaceWithRetry | src/binance/liveBook.ts:273-279 | Every order that rested still does, the reported one rests, and any further one is a copy of it whose answer was lost; when no answer is lost at most the reported one is added; the position is untouched while it is open |
| LiveBook.LiveBook.EmergencyClose | src/binance/liveBook.ts:347-361 | A close is sent unless the exchange says flat or no size is known, and asks for the size the exchange shows or, when that read fails, the last known one, in whole lots; so with a right cache an open position of that side is flat once the order came through, whatever the read did, and untouched before that; when none is sent, an open position and its orders are untouched; when every call comes through, the position is flat |
| LiveBook.LiveBook.Audit | src/binance/liveBook.ts:315-341 | An audit that runs to its end on an open position leaves a stop resting at the recorded level or sent an emergency close for the whole position as it was or was last known, even if none rested before; on a guarded book it leaves the orders alone and the record is exactly that of the stop it adopted; one whose read fails changes nothing; with no stop resting and every call coming through, a position that is gone or flipped is forgotten |
| LiveBook.LiveBook.Reprotect | src/binance/liveBook.ts:328-340 | With no stop seen, the recorded stop is placed again at its own level or a close is sent for the whole position, and a position that is gone or on the other side is forgotten |
| LiveBook.LiveBook.Adopt | src/binance/liveBook.ts:323-327 | The record follows the stop that rests, at that stop's level, and the book stays guarded |
| LiveBook.RunQueue | src/binance/liveBook.ts:146-150 | Over any queue of serialised moves and audits, whatever fails and whatever answers are lost, while the position stays open, no emergency close was sent and no stop was cancelled without an answer, the recorded stop rests and the exchange protects the position at least as tightly as at the start; when nobody else placed a stop and no answer is lost the recorded stop itself never loosens, and when every call comes through it is exactly the stop the queue asks for |
| LiveBook.LiveBook.RestoreStop | src/binance/liveBook.ts:297-303 | After a failed placement the old stop rests again, or an emergency close for the whole position, as it was or was last known, was sent; no other order is gone |
| LiveBook.EveryMoveIsHonoured | src/binance/liveBook.ts:254-271 | The stop a queue asks for is at least as tight as every move in it, whatever follows |
| LiveBook.TaskNeverLoosens | src/binance/liveBook.ts:254-341 | No move or audit that comes through loosens the level the stop has on the exchange |
| LiveBook.MoveAfterFlip | src/binance/liveBook.ts:153-271 | After a flip and the recording of the new entry, a move queued for the old side replaces the new position's stop if and only if it is further from the market, and otherwise changes nothing |
| LiveBook.AdoptingAnOrphan | src/binance/liveBook.ts:254-341 | A whole run of two moves and an audit on a steady venue that loses one answer: an orphan looser than the recorded stop rests, the audit adopts the stop the venue lists first, and, when nobody else's stop rested before, the record loosens if and only if the orphan is listed first; a stop as tight as before still rests |
| LiveBook.RepairLostCancel | src/binance/liveBook.ts:254-341 | A move and then an audit, whatever fails: unless an emergency close was sent, the open position is left without a stop after the move if and only if the stop's cancel came through without an answer, and an audit that runs to its end leaves the recorded stop resting, no looser than before the move |
| SymbolLock.OneAtATimeInOrder | src/binance/liveBook.ts:146-150 | At most one task of a symbol runs at a time, in the order they were queued |
| SymbolLock.EarlierAreDone | src/binance/liveBook.ts:146-150 | When a task has started, everything queued before it is over, so an audit never acts inside a replacement |
| SymbolLock.Chain.Exclusive | src/binance/liveBook.ts:146-150 | Queueing puts work behind the chain's tail and keeps the chain |
| LiveEntry.Tracker.SyncLegs | src/binance/liveEntry.ts:202-238 | Placing legs for the new size lists the old ones as stale and keeps every resting leg accounted for as current, stale or the stop of a placement that failed at its target, whatever fails; either legs for the held size are current or cancel-all was asked for; every close asked for is for the whole size seen, so where nobody else trades the position is flat once one came through; when cancel-all or the flatten fails the tracker remembers its legs as they were; with every call succeeding the new legs, a stop among them, rest |
| LiveEntry.Tracker.Abandon | src/binance/liveEntry.ts:213-224 | After a failed placement cancel-all is asked for and, when it came through, one close of the whole size; when that came through too no leg rests or is remembered, and otherwise the legs are remembered as they were |
| LiveEntry.Tracker.Align | src/binance/liveEntry.ts:175-176 | A pass brings the legs in line with the size it saw and cancels the superseded ones; when it gives up its legs for an open position the last close asked for was for all of it and came through |
| LiveEntry.Tracker.CancelStale | src/binance/liveEntry.ts:240-249 | Only superseded legs are cancelled, and one that could not be stays listed |
| LiveEntry.Tracker.Step | src/binance/liveEntry.ts:171-199 | A pass keeps the account of legs; resolves only when the order is over, the observed size is the protected one, nothing superseded rests and the current legs rest unless they triggered or a flatten failed after its cancel-all; and does resolve on a finished order with a steady position and no failing call, its legs resting; a working order is cancelled once it is overdue and only then; every close it asks for is for the size observed, and where nobody else trades the position is flat exactly when one came through or it was flat before; when only placing fails, an open position that outgrew its legs ends flat with no leg resting |
| LiveEntry.Follow | src/binance/liveEntry.ts:158-168 | For any number of polls and any venue behaviour the account of legs holds, and a reported resolution is one; with every call succeeding a finished order is resolved by the first poll, with the position protected; where nobody else trades the position is as it was, or flat because a close came through |
| LiveEntry.ResolvesUnprotected | src/binance/liveEntry.ts:171-238 | A run of two passes whose cancel-all comes through and whose flatten does not: the second resolves the entry if and only if the position is flat or has the size of the legs that are gone, and in the latter case an open position is resolved with no leg resting |
| EntrySlot.Tracker.Reserve | src/binance/liveEntry.ts:139-143 | A reservation succeeds exactly when no entry is held |
| EntrySlot.Tracker.Release | src/binance/liveEntry.ts:145-148 | Only the symbol's own reservation without an order is given back |
| EntrySlot.Desk.TryReserve | src/binance/client.ts:399-405 | A call is refused exactly when another entry is unresolved, and a refused call changes nothing else |
| EntrySlot.Desk.Answer | src/binance/client.ts:406-441 | After an accepted submit or no answer the entry is tracked; after a rejection or an earlier failure the slot is free |
| EntrySlot.Interleave | src/binance/client.ts:399-442 | Over any interleaving of calls, answers and resolutions at most one live entry is unresolved, and the slot is held exactly while one is |
| LiveLegs.Venue.RestingOrder | src/binance/client.ts:864-872 | The lookup finds an order under exactly the client id asked for, and a negative answer means none rests |
| LiveLegs.TryOnce | src/binance/client.ts:838-852 | One attempt, after any earlier ones, leaves the leg at most once and never any other leg changed; it goes on to another exactly when a call went unanswered, and fails only on an answer with an error code; a leg that rests when it begins is found, and its error escapes only when the leg arrives between its lookup and its submit |
| LiveLegs.PlaceProtection | src/binance/client.ts:828-854 | Across lost replies and duplicate-id answers a leg lands at most once under its client id, and a returned id is the one the venue holds; it fails only on an error code or after three attempts went unanswered; on a venue that refuses nothing, answers every lookup and loses only answers of submits it is placed if and only if fewer than three were lost |
| LiveLegs.PlaceOrClose | src/binance/client.ts:828-861 | A stop of a new entry that could not be placed asks once for the position to be closed; a placed leg, a failed target or an escaped error asks for nothing, and neither does a stop whose lost answers are fewer than the attempts on a venue that refuses nothing |
| LiveLegs.PlaceEntryLegs | src/binance/client.ts:815-821 | An entry ends with exactly its new legs beside the old ones, or with its stop resting, or with a close asked for once; with both legs when the venue refuses nothing and loses fewer answers than there are attempts |
| LiveLegs.UpdateStops | src/binance/client.ts:747-765 | If a stop rested before, one rests after every venue call whichever calls fail; when it ends without an error exactly the new legs protect the position and other legs are untouched; when it fails before the new stop rests, every old leg stays; on a venue that refuses nothing it succeeds whenever fewer submits than attempts go unanswered |
| LiveLegs.PlaceLegs | src/binance/client.ts:754-755 | The new stop and target rest beside every old leg before anything is cancelled; fewer lost answers than attempts do not keep them from resting |
| LiveLegs.CancelOld | src/binance/client.ts:757-764 | The cancel loop never cancels the new legs; without an error exactly the old ones listed are gone |
| StartupPlan.TightestStop | src/binance/liveProtection.ts:49-57 | The reported stop rests on the exit side and none that rests is tighter; none is reported exactly when none rests |
| StartupPlan.PlanStartup | src/binance/liveProtection.ts:74-88 | Exactly the bot's own entries and the protection of flat symbols are cancelled, exactly the unknown orders are reported and exactly the held symbols without a stop are blocked |
| StartupPlan.CleanupSparesProtection | src/binance/liveProtection.ts:74-88 | Protection is cancelled if and only if its symbol is flat, nothing is both cancelled and reported, and what is left alone is exactly protection of held symbols |
| StartupPlan.EveryOrderHasItsFate | src/binance/liveProtection.ts:32-88 | Resting limit orders of the bot that may still enter and close-all stops and targets of flat symbols are cancelled, close-all ones of held symbols stay, and everything else is reported |
| StartupPlan.StopsEmptyThePosition | src/binance/liveProtection.ts:38-57 | The stops that count as protection are exactly the close-all stops of the symbol that leave nothing of the position when they trigger |
| ReplayGuarantees.NoLookahead | src/backtesting/ReplayService.ts:151-288 | Two datasets that agree on all bars closed by step n and both go on give the same portfolio, pending orders, strategy state, trades and curve through step n, whatever the strategies compute |
| ReplayGuarantees.AlignedHasNoLookahead | src/backtesting/ReplayService.ts:151-288 | In particular for histories on one shared gapless 15-minute grid |
| ReplayGuarantees.ViewsAgree | src/backtesting/MarketDataFeed.ts:44-76 | What a step can read of the two datasets is the same |
| ReplayGuarantees.LateStartLooksAhead | src/backtesting/MarketDataFeed.ts:53-56 | Two datasets that agree on every bar closed by step 1 whose step 1 reads different bars, because one history starts late: an instance of the condition failing |
| ReplayGuarantees.NeverAheadIff | src/backtesting/MarketDataFeed.ts:48-57 | Every dataset of the same bar times that agrees on the bars closed by a step gives that step the same slots, at all steps, if and only if no slot's bar closes after its step |
| ReplayGuarantees.RateIsLatestKnown | src/backtesting/ReplayService.ts:405-414 | The settled rate is the latest published by the boundary, or the first point's when none is |
| ReplayGuarantees.RateLooksAheadIff | src/backtesting/ReplayService.ts:405-414 | The settled rate is determined by what was published by the boundary if and only if something was |
| ReplayGuarantees.ReplayBalances | src/backtesting/ReplayService.ts:290-300 | For any data, strategies and manager, final equity minus initial equity is pnl + funding - fees over the folded records, to within one millionth per leg |
| ReplayGuarantees.ReplayHoldsOnePerSymbol | src/backtesting/ReplayService.ts:154-176 | The replay never holds two positions of one symbol |
| ReplayGuarantees.ReplayIsSound | src/backtesting/ReplayService.ts:151-288 | After every step the wallet reconciles with the records and the open positions, and every record is (exit - entry) x qty x direction |
| Replay.Run | src/backtesting/ReplayService.ts:151-288 | The step loop computes the run the properties are about |
| Replay.FillOrders | src/backtesting/ReplayService.ts:154-176 | The fill phase, order by order: foreign symbols are skipped, same side scales in, the other side flips |
| Replay.Settle | src/backtesting/ReplayService.ts:184-194 | The funding phase settles each boundary crossed by the bar once |
| ReplayFunding.StepPaysItsBoundaries | src/backtesting/ReplayService.ts:184-194 | A step with funding on charges every multiple of the interval in its window once: the wallet moves by minus the rates at them on the longs less the shorts of each symbol at their marks, and no position changes but in its booked funding; with funding off nothing moves |
| ReplayFunding.BoundaryPays | src/backtesting/ReplayService.ts:189-191 | One boundary charges each symbol of the universe its rate on its signed inventory and leaves positions of other symbols as they were |
| ReplaySteps.EveryMomentIsOneSteps | src/backtesting/ReplayService.ts:186-188 | For closes in order, every moment from a quarter of an hour before the first close to the last is in the window of exactly one step, so no boundary is missed or settled twice |
| ReplaySteps.OrdersHaveANextBar | src/backtesting/ReplayService.ts:211 | Orders are decided exactly on the steps from the end of the warm-up to the last but one, at the time of their step, and none is left without a next bar |
| ReplaySteps.EverythingIsGraded | src/backtesting/ReplayService.ts:201-208 | After every step the strategies have graded every trade booked so far |
| ReplaySteps.GradesNewTradesOnly | src/backtesting/ReplayService.ts:201-208 | The whole journal is handed to the strategies exactly when it has grown, and otherwise their state is left alone |
| ReplaySteps.OrdersFillAtTheOpen | src/backtesting/ReplayService.ts:154-176 | At the open of the next bar an order leaves another strategy's symbol alone, trades its quantity on a flat symbol or on a position of its side, and first trades a position of the other side away whole; what it opens is its strategy's with its levels |
| ReplaySteps.CurveIsTheEquity | src/backtesting/ReplayService.ts:284 | The curve has one point for every step: its close, and the equity of the book the step left |
| ReplaySteps.FillsExactlyWhenItTrades | src/backtesting/ReplayService.ts:154-176 | An order is noted as filled exactly when it changes the portfolio |
| Replay.FundingRateAt | src/backtesting/ReplayService.ts:405-414 | The scan returns the rate the properties are about, 0 when funding is off or unknown |
| MarketDataFeed.BuildGrid | src/backtesting/MarketDataFeed.ts:27-37 | A grid is built exactly when there are symbols and each has 15-minute bars; otherwise a symbol without bars is named |
| MarketDataFeed.ClosedCandles | src/backtesting/MarketDataFeed.ts:65-76 | The binary search returns exactly the bars closed by the time asked for |
| MarketDataFeed.ClosedEarlier | src/backtesting/MarketDataFeed.ts:65-76 | What had closed earlier is determined by what has closed by now |
| MarketDataFeed.ClosedKeepsSlot | src/backtesting/MarketDataFeed.ts:65-76 | A closed bar is among the closed ones, at its own index |
| PortfolioGuarantees.EquityIsFoldedNet | src/backtesting/PortfolioSimulator.ts:276-289 | Over any run of opens, scale-ins, bars and funding followed by a forced close, final equity minus initial equity is the folded net to within one millionth per booked leg |
| PortfolioGuarantees.LegsCloseOnce | src/backtesting/PortfolioSimulator.ts:194-246 | After a full replay every partial leg has exactly one final close with its position id |
| PortfolioGuarantees.RecordsAreGross | src/backtesting/PortfolioSimulator.ts:194-246 | Every record's pnl is (exit - entry) x qty x direction |
| PortfolioGuarantees.FoldedRecordsAreGross | src/backtesting/PortfolioSimulator.ts:336-354 | So is every folded record's, of positive quantities |
| PortfolioQuantities.RunIsPositive | src/backtesting/PortfolioSimulator.ts:87-262 | With sized orders and partials that leave some of the position, everything held and booked has a positive quantity after any run |
| PortfolioQuantities.FoldedReplayIsGross | src/backtesting/PortfolioSimulator.ts:276-354 | After any run of sized operations and a forced close, every folded record is (exit - entry) x qty x direction |
| PortfolioQuantities.ReplayIsPositive | src/backtesting/ReplayService.ts:151-288 | The same positivity after every step of any replay whose strategies order sizes and whose managers leave some of each position |
| PortfolioQuantities.FoldedFinalBookIsGross | src/backtesting/ReplayService.ts:290-300 | Every folded record such a replay reports is (exit - entry) x qty x direction |
| PortfolioGuarantees.FoldKeepsNet | src/backtesting/PortfolioSimulator.ts:336-354 | Folding moves the total net by at most half a decimal per partial leg, the rounding of the summed fees |
| PortfolioGuarantees.RunIsSound | src/backtesting/PortfolioSimulator.ts:87-281 | Every operation keeps the wallet reconciled with records and open positions, and ids unique |
| PortfolioFold.FoldKeepsTotal | src/backtesting/PortfolioSimulator.ts:336-354 | Folding keeps the total of every additive quantity when each leg's position closes once |
| PortfolioFold.FoldKeepsPnlAndQty | src/backtesting/PortfolioSimulator.ts:336-354 | Total pnl and quantity are kept exactly |
| PortfolioFold.FoldedPnlIsGross | src/backtesting/PortfolioSimulator.ts:336-354 | A folded record whose exit is quantity-weighted still satisfies pnl = (exit - entry) x qty x direction, scale-ins included |
| PortfolioFold.FoldSimTrades | src/backtesting/PortfolioSimulator.ts:336-354 | The two loops compute the fold those lemmas are about |
| PortfolioSimulator.Portfolio.Open | src/backtesting/PortfolioSimulator.ts:87-114 | The entry fee leaves the wallet and a fresh position with its own id is added |
| PortfolioSimulator.Portfolio.ScaleIn | src/backtesting/PortfolioSimulator.ts:248-262 | Averaging in at the weighted entry |
| PortfolioSimulator.Portfolio.Reduce | src/backtesting/PortfolioSimulator.ts:194-211 | A partial leg is booked with its share of the fees |
| PortfolioSimulator.Portfolio.CloseAt | src/backtesting/PortfolioSimulator.ts:214-245 | The final close is booked and the position removed |
| PortfolioSimulator.Portfolio.ApplyFunding | src/backtesting/PortfolioSimulator.ts:265-273 | Every position of the symbol, and no other, pays or receives the rate on its mark |
| PortfolioLedger.SettlingPays | src/backtesting/PortfolioSimulator.ts:265-273 | Settling a boundary of a symbol moves the wallet by minus the rate times its longs less its shorts at their marks, books on each of its positions minus the rate on that position, and leaves all others alone |
| PortfolioLedger.LongsPayShorts | src/backtesting/PortfolioSimulator.ts:265-273 | At a positive rate the wallet loses exactly when the longs outweigh the shorts, at a negative one the other way round, and matched longs and shorts net to nothing |
| PortfolioLedger.EquityIsCashPlusInventory | src/backtesting/PortfolioSimulator.ts:283-289 | Equity is the starting equity plus the cash the trades left plus the signed inventory at its marks |
| PortfolioLedger.OpeningTrades | src/backtesting/PortfolioSimulator.ts:87-113 | Opening trades its signed quantity for cash at the fill price, and pays the fee |
| PortfolioLedger.ScalingTrades | src/backtesting/PortfolioSimulator.ts:248-262 | So does an addition: the averaged entry keeps what the inventory cost |
| PortfolioLedger.ReducingTrades | src/backtesting/PortfolioSimulator.ts:194-211 | A partial exit trades the quantity back at the quoted price and pays its fee |
| PortfolioLedger.ClosingTrades | src/backtesting/PortfolioSimulator.ts:214-245 | The final exit trades all of it back |
| PortfolioSimulator.Portfolio.OnBar | src/backtesting/PortfolioSimulator.ts:122-156 | Each position of the symbol meets the bar once, also when others close during the loop |
| PortfolioBars.UnmanagedBarClosesTheReached | src/backtesting/PortfolioSimulator.ts:122-144 | Without a manager a bar closes a position exactly when its range reaches the stop, the liquidation level or the target, and otherwise only marks it at the close |
| PortfolioBars.ManagedSurvivorIsUnreached | src/backtesting/PortfolioSimulator.ts:122-156 | With a manager a position left open reached neither stop nor liquidation, has not met the target it is left with and carries no stop moved on this bar that the close is at or past |
| PortfolioBars.NewPositionIsTheRequest | src/backtesting/PortfolioSimulator.ts:87-113 | A new position is the request at its fill, owing its fee, and its recorded risk is the distance to a stop on the losing side |
| PortfolioBars.AddingKeepsLevels | src/backtesting/PortfolioSimulator.ts:248-262 | An addition brings its own levels, keeps those it leaves out and keeps the risk recorded at the opening |
| PortfolioBars.PartialsFillAtTheirLevelOrBetter | src/backtesting/PortfolioSimulator.ts:177-186 | A partial leg fills at the better of its level and the open, inside the bar |
| PortfolioSimulator.Portfolio.Manage | src/backtesting/PortfolioSimulator.ts:159-191 | The manager's actions apply in order to the position and the flag says whether a stop moved |
| PortfolioSimulator.Portfolio.ForceCloseAll | src/backtesting/PortfolioSimulator.ts:276-281 | Every position is closed at its mark |
| ExecutionSimulator.ExitIsConservative | src/backtesting/ExecutionSimulator.ts:66-102 | A touched stop always wins and fills at its level or worse inside the bar; a target fills at its level or better and only with the stop untouched; a bar that reaches neither liquidates at the liquidation price exactly when it reaches that |
| ExecutionSimulator.FillsAreAdverse | src/backtesting/ExecutionSimulator.ts:45-64 | Spread and slippage never favour the trader and fees are never negative |
| ExecutionSimulator.RoundTripCosts | src/backtesting/ExecutionSimulator.ts:55-64 | An entry and an exit at one reference price lie evenly around it, the spread plus twice the slippage apart, and each pays the taker fee on what it trades |
| ExecutionSimulator.LiquidatedAtMarginLoss | src/backtesting/ExecutionSimulator.ts:19-28 | At the liquidation price the loss is the margin less the maintenance margin; there is none exactly for a long whose margin covers a fall to zero |
| BacktestMetrics.NetPnlIsTotal | src/backtesting/BacktestMetrics.ts:137-142 | Gross wins less gross losses is the sum of all net results |
| BacktestMetrics.EveryTradeWinsOrLoses | src/backtesting/BacktestMetrics.ts:137-142 | Every trade is counted once, as a win exactly when its net result is positive and else as a loss |
| BacktestMetrics.MaxDrawdown | src/backtesting/BacktestMetrics.ts:147-152 | The drawdown is the largest fall from an earlier point to a later one |
| BacktestMetrics.MaxConsecutiveLosses | src/backtesting/BacktestMetrics.ts:166-175 | The reported run of losses exists and none is longer |
| BacktestMetrics.GroupBy | src/backtesting/BacktestMetrics.ts:105-115 | The slices partition the keyed trades, in order, one per key, and their net results add up |
| PaperLedger.EquityIsCashPlusInventory | src/binance/paperEngine.ts:194-340 | Over any run, average-cost equity is initial cash less signed fill notional, less fees, plus funding, plus signed inventory at its marks |
| PaperLedger.PositionsAreNetFills | src/binance/paperEngine.ts:194-294 | There is at most one position per symbol and it is the net of the symbol's fills; no position means they net to nothing |
| PaperLedger.WalletIsJournal | src/binance/paperEngine.ts:229-253 | The wallet is the starting cash plus every journaled trade's pnl |
| PaperLedger.StepMoves | src/binance/paperEngine.ts:194-340 | Every operation moves the books by exactly the plain ledger's cash and quantity |
| PaperLedger.ReduceMovesCash | src/binance/paperEngine.ts:229-253 | Closing a share moves exactly its fill's cash; its fee and funding only change hands |
| PaperLedger.ScaleInMovesCash | src/binance/paperEngine.ts:255-267 | Averaging in adds exactly the new fill's cost |
| PaperFunding.ChargedOncePerBoundary | src/binance/paperEngine.ts:106-133 | Over any run with reductions, refused entries and scale-ins that leave the settled boundaries alone, a position still open is charged for exactly the 8-hour boundaries after its opening and after the clock's start, each once and in order |
| PaperFunding.ChargeIsPerBoundary | src/binance/paperEngine.ts:120-128 | The amount charged is one boundary's funding times the boundaries charged |
| PaperFunding.ScaleInKeepsChargesIff | src/binance/paperEngine.ts:255-267 | A scale-in leaves every later charge as it was if and only if the averaged opening settles the same boundaries as the old one |
| PaperFunding.ScaleInAfterAccrualIsHarmless | src/binance/paperEngine.ts:255-267 | It does whenever every boundary before the scale-in is already accrued |
| PaperFunding.SavePaths | src/binance/paperEngine.ts:152-168 | The debounced save loses nothing; the shutdown save, which omits the clock, charges the same next time if and only if no boundary was crossed for the position |
| PaperFunding.StoredTradesAreNewest | src/binance/paperEngine.ts:229-253 | The stored journal is the newest thousand of all trades booked, in order |
| PaperExits.MarkingClosesExactlyTheReached | src/binance/paperEngine.ts:319-340 | Marking closes exactly the positions whose level the new price reached, each whole and once, in order, and keeps the others marked, although positions are removed while the loop runs |
| PaperExits.NothingReachedIsLeft | src/binance/paperEngine.ts:319-340 | Afterwards no priced position is at or past its liquidation, stop or target |
| PaperExits.ExitsAreAtTheirLevels | src/binance/stopRules.ts:19-32 | A position exits exactly when its mark has reached a level, liquidation before stop before target; a stop fills at the mark and never better than its level |
| PaperFills.OrdersMoveTheirPosition | src/binance/paperEngine.ts:194-217 | A filled order adds its quantity on its side, reverses the other side whatever its size, or, reduce-only, shrinks what there is without turning it; a refused one leaves the position as it was |
| PaperFills.FillsAreAdverse | src/binance/paperEngine.ts:102-105 | Every entry fills worse than the mark by exactly the slippage rate, and so does every exit |
| PaperFills.RoundTripCosts | src/binance/paperEngine.ts:229-253 | Opening and closing at one mark loses the slippage and the taker fee on its value twice, for either side |
| PaperFills.PriceIsTheFirstKnown | src/binance/paperEngine.ts:195-199 | An order fills at the price it names, else the last one seen, else its position's mark; zero is no price, and without any it is turned away |
| PaperFills.RecordsAreNet | src/binance/paperEngine.ts:229-253 | A record carries the position's own entry, and its pnl plus the fees and less the funding it took over is the price move of the closed quantity; what is left keeps fee and funding in proportion |
| PaperFills.NewPositionOwesItsFee | src/binance/paperEngine.ts:269-294 | A new position is worth minus its fee, and its recorded risk is the distance to a stop on the losing side; a level of zero is none |
| PaperFills.AddingKeepsLevels | src/binance/paperEngine.ts:255-267 | An addition brings its own levels, keeps those it leaves out and keeps the risk recorded at the opening; a level of zero is none |
| PaperFills.LiquidatedAtMarginLoss | src/binance/paperEngine.ts:50-55 | At the liquidation price the loss is the margin less the maintenance margin; there is none exactly for a long whose margin covers a fall to zero |
| PaperFills.AccrualPaysOnTheInventory | src/binance/paperEngine.ts:113-133 | An accrual pays minus the rates on the signed inventory at its marks, times the boundaries each position was open through |
| PaperFills.MatchedPositionsNet | src/binance/paperEngine.ts:113-133 | A long loses at a positive rate exactly what a matched short gains |
| PaperEngine.Engine.OpenPosition | src/binance/paperEngine.ts:194-217 | Opens, averages in, reduces or flips by exactly the value-level fill; a rejected fill changes nothing |
| PaperEngine.Engine.ReducePosition | src/binance/paperEngine.ts:229-253 | A share is closed with its share of fee and funding, and a position closed out is removed |
| PaperEngine.Engine.UpdateStops | src/binance/paperEngine.ts:296-302 | Only the owner's position on the symbol takes the new levels |
| PaperEngine.Engine.MarkAll | src/binance/paperEngine.ts:319-340 | Every position with a price is marked and, at its liquidation, stop or target, closed, although positions are removed during the loop |
| PaperEngine.Engine.AccrueFunding | src/binance/paperEngine.ts:113-133 | The loop charges each position with a rate and moves the clock |
| JournalGuarantees.MoneyIsConserved | src/binance/liveJournal.ts:49-114 | Per symbol and for any order of events, trade pnl plus carried-out charges equals carried-in charges plus realised pnl less USDT commissions plus funding |
| JournalGuarantees.SortSum | src/binance/liveJournal.ts:57-64 | Sorting events by time changes no total, so the law holds for the lines as fetched |
| JournalGuarantees.QuantityIsConserved | src/binance/liveJournal.ts:66-111 | Every closed quantity is in exactly one trade's total and every non-USDT commission is reported unpriced |
| JournalGuarantees.EntryIsRecovered | src/binance/liveJournal.ts:66-94 | When the venue reports (exit - entry) x qty x direction, the recovered entry is the true one |
| JournalGuarantees.TradeSumsItsFills | src/binance/liveJournal.ts:66-94 | A trade closes the side its executions trade against, for all of their quantity at their mean price, at the time of the last of them and for its owner then |
| JournalGuarantees.TradesPartitionCloses | src/binance/liveJournal.ts:96-114 | The trades cut the closing executions, in order and without loss, into runs of one order |
| JournalGuarantees.OneTradePerOrderIffContiguous | src/binance/liveJournal.ts:96-114 | One order becomes one trade if and only if its executions are contiguous among all closing executions |
| LiveJournal.ClosedTradesFromFills | src/binance/liveJournal.ts:49-114 | The event loop computes the trades, the carried charges and the unpriced commissions those laws are about |
| LiveJournal.OwnerAt | src/binance/liveJournal.ts:246-256 | The owner is the strategy of the latest matching entry not after the time, or the executor when none matches |
| LiveJournalSync.Journal.Sync | src/binance/liveJournal.ts:167-194 | A failed sync changes nothing; a successful one commits every new execution it pulled exactly once and the funding lines its window was answered, stamps the start of the next window, and keeps the books balanced over everything ingested; when the venue answers fully, nothing of the symbols' histories is left behind their cursors; it succeeds exactly when every call was answered, and only then is the journal fresh from its stamp on |
| LiveJournalSync.Pull | src/binance/liveJournal.ts:170-179 | The paging loops ingest, per symbol, exactly the executions after the cursor, each once, and all of them when the venue answers fully |
| LiveJournalSync.PullSymbol | src/binance/liveJournal.ts:171-178 | For any page splitting one symbol's pages join into one unbroken stretch of its history, to its end when the venue answers fully |
| LiveJournalSync.PageContinues | src/binance/liveJournal.ts:171-178 | A page continues exactly where the cursor stands and moves it to the page's end |
| LiveJournalSync.BuildConservesAll | src/binance/liveJournal.ts:180-191 | Conservation carries over from sync to sync through the carried charges |
| JournalFunding.FundingCountedOnce | src/binance/liveJournal.ts:167-191 | Over any run of syncs, each funding line of the span covered is counted exactly once if and only if every answer but the last held exactly the lines settled before its stamp; what is counted is then one unbroken stretch of the venue's lines |
| JournalFunding.SeamlessIff | src/binance/liveJournal.ts:180-191 | Unless the page is cut, that is so if and only if no line settled between the answer and the stamp, nor on both at once |
| JournalFunding.OnceIffChained | src/binance/liveJournal.ts:180-191 | Windows that only advance count each line once if and only if each starts where the one before ended |
| VolatilityRegimes.TrainedRegimes | src/binance/adaptiveSuperTrend.ts:49-80 | For every window the trained regimes come out ordered, inside the window's range, and no costlier than the percentiles they start from, which cut that range into quarters |
| VolatilityRegimes.IterateKeepsOrder | src/binance/adaptiveSuperTrend.ts:49-68 | Every iteration keeps distinct centroids strictly ordered, empty clusters and ties included |
| VolatilityRegimes.OrderIsKeptExactlyWhenSeparated | src/binance/adaptiveSuperTrend.ts:40-68 | Ordered centroids stay ordered for every window if and only if no two coincide |
| VolatilityRegimes.IterateStaysWithin | src/binance/adaptiveSuperTrend.ts:49-68 | Every iteration keeps the centroids inside the window's range |
| VolatilityRegimes.IterateNeverCostsMore | src/binance/adaptiveSuperTrend.ts:49-68 | No iteration increases the total squared distance to the nearest centroid |
| VolatilityRegimes.KMeansNeverCostsMore | src/binance/adaptiveSuperTrend.ts:49-68 | Nor does any number of them |
| VolatilityRegimes.NearestRegime | src/binance/adaptiveSuperTrend.ts:40-46 | The scan finds the nearest centroid, the earliest winning a tie |
| VolatilityRegimes.KMeans | src/binance/adaptiveSuperTrend.ts:49-68 | The loop computes the iteration those lemmas are about, stopping at a fixed point or the cap |
| AdaptiveSuperTrend.LineOnlyRatchets | src/binance/adaptiveSuperTrend.ts:84-102 | Inside an unbroken trend, from its second bar on, a bullish line never falls and a bearish line never rises, also across candles without a bar |
| AdaptiveSuperTrend.EmittedLineOnlyRatchets | src/binance/adaptiveSuperTrend.ts:104-145 | The same of the bars returned for any real candles and lengths |
| AdaptiveSuperTrend.LineRetreatsIff | src/binance/adaptiveSuperTrend.ts:84-102 | Inside a trend a line moves away from the price if and only if the bar before closed beyond the band it left and the new candle's own band lies beyond it |
| AdaptiveSuperTrend.TurnsThroughItsEdge | src/binance/adaptiveSuperTrend.ts:84-102 | Each edge is held at the tighter of its last place and the candle's own while the close before had not crossed it; a trend turns exactly when the close crosses the edge that holds it |
| AdaptiveSuperTrend.BarsAnnounceTheirChanges | src/binance/adaptiveSuperTrend.ts:104-122 | A bar announces a trend or regime exactly when the bar before showed another, and the first bar none |
| AdaptiveSuperTrend.SkippedAreQuiet | src/binance/adaptiveSuperTrend.ts:134-135 | After the first bar a candle is skipped only when it does not move at all, so it closes where the one before did |
| AdaptiveSuperTrend.SecondBarMayFall | src/binance/adaptiveSuperTrend.ts:84-145 | Four concrete candles for which the indicator's bars turn bullish and the next bullish line is lower: an instance of that condition |
| AdaptiveSuperTrend.AssignedVolatility | src/binance/adaptiveSuperTrend.ts:104-145 | Every bar's assigned volatility is the nearest of ordered regimes inside its window's range |
| AdaptiveSuperTrend.Calculate | src/binance/adaptiveSuperTrend.ts:125-145 | A bar for exactly the candles with a trained window and a positive ATR, in order, each chained to the one before |
| AdaptiveSuperTrend.EmittedAreAll | src/binance/adaptiveSuperTrend.ts:134-135 | The candles bars are listed for are exactly the emitting ones, each once and in order |
| AdaptiveSuperTrend.AtrStaysPositive | src/binance/indicators.ts:35-48 | After a positive Wilder ATR a later one is positive if and only if the length exceeds one or the candle has a true range |
| AdaptiveSuperTrend.TrueRangeSpans | src/binance/indicators.ts:35-48 | The true range of a candle is the span of its own prices and the close before it |
| AdaptiveSuperTrend.WilderAtr | src/binance/indicators.ts:35-48 | The series is undefined before the seed and the smoothed average from it on |
| CarryGuarantees.RealisedIsTotalNet | src/backtesting/CarryBacktest.ts:107-204 | Nothing is left open and realised profit is the sum of the cycles' net results |
| CarryGuarantees.CyclesAreDisjoint | src/backtesting/CarryBacktest.ts:107-184 | Cycles come out in time order and never overlap |
| CarryGuarantees.ExtendingKeepsSettledCycles | src/backtesting/CarryBacktest.ts:140-184 | Extending the history never changes a cycle closed by signal or liquidation |
| CarryBacktest.BarAtIsLatest | src/backtesting/CarryBacktest.ts:77-86 | The bar found is the last at or before the time, and none is found exactly when all are later |
| CarryBacktest.FindBar | src/backtesting/CarryBacktest.ts:77-86 | The binary search finds that bar |
| CarryBacktest.LiquidationBar | src/backtesting/CarryBacktest.ts:93-96 | The first bar in the interval whose high reaches the liquidation price |
| CarryBacktest.SimulateCarry | src/backtesting/CarryBacktest.ts:107-184 | The loop computes the simulation those results are about |
| CarryLedger.CycleIsItsFills | src/backtesting/CarryBacktest.ts:121-138 | A cycle reports its funding, the worth of its bought and sold legs, and a fee and slippage for each of its four fills, or three and the whole margin when the short was liquidated |
| CarryLedger.ClosingRealisesTheCycle | src/backtesting/CarryBacktest.ts:124-138 | Closing realises what the cycle reports but for the two fills of the entry, which were realised at the opening |
| CarryLedger.ParallelMovesCancel | src/backtesting/CarryBacktest.ts:121-122 | The legs cancel when both prices move by the same factor |
| CarryLedger.HoldingAccrues | src/backtesting/CarryBacktest.ts:148-159 | An open position receives the rate on what its perp leg is worth, and is liquidated exactly when a perp bar opening in the interval takes all of its margin but the maintenance margin, at the first such bar |
| CarryLedger.DecidesOnTheMean | src/backtesting/CarryBacktest.ts:161-171 | It enters exactly when flat, not just closed and the yearly mean of the last rates is at least the entry threshold, and leaves by signal exactly when that mean is below the exit threshold after the minimum hold |
| CarryLedger.DrawdownIsTheLargestFall | src/backtesting/CarryBacktest.ts:173-176 | The peak and drawdown recorded are the peak and the largest fall of the equity path over the points with both prices |
| CarryLedger.TimeInMarketIsTheCycles | src/backtesting/CarryBacktest.ts:147-152 | The intervals counted in the market are those of the cycles and of the open position |
| TrailingStops.StopOnlyTightens | src/agents/TrailingStopManager.ts:29-96 | Over any sequence of marks and bars, a written-back stop that starts on the tick grid stays on it and never loosens |
| TrailingStops.ProfitStaysLocked | src/agents/TrailingStopManager.ts:29-52 | Once an update has seen 1R, 1.5R, 2R or 3R, the stop never again sits below entry, +0.5R, +1R or +2R by more than half a tick |
| TrailingStops.StopIsTheTightestAsked | src/agents/TrailingStopManager.ts:29-96 | The stop asked for is the tightest of the current stop, the trend line, the tier locks the gain has reached, the trail at one and a half ATR and the one an ATR before a near target, and is one of them |
| TrailingStops.TargetKeepsItsDistance | src/agents/TrailingStopManager.ts:54-70 | A target within half an ATR of the mark moves one ATR on, and in a low regime a winning position has one more than two and a half ATR ahead brought back to two |
| TrailingStops.LoosensExactlyByItsRounding | src/agents/AdaptiveSuperTrendAgent.ts:101-113 | A stop is safe from every tick if and only if rounding it does not itself move it away from the market |
| TrailingStops.UnrecordedRiskStopsLocking | src/agents/TrailingStopManager.ts:76-96 | Without a recorded risk the profit tiers leave the stop alone at every mark, for either side, if and only if it stands exactly at the entry |
| TrailingStops.EntryStopIsStuck | src/agents/TrailingStopManager.ts:76-96 | Such a stop stays at the entry over any run in which no trend line shows and the target is not near, however large the gain |
| TrailingStops.StopUpdates | src/agents/AdaptiveSuperTrendAgent.ts:101-113 | The loop sends, in order, exactly the changed levels of the agent's own tracked positions |
| TrailingStops.UpdatesAreOwnAndReal | src/agents/AdaptiveSuperTrendAgent.ts:101-113 | Every update sent is the agent's own and changes its levels |
| TrailingStops.WrittenBackIsWanted | src/agents/AdaptiveSuperTrendAgent.ts:101-113 | The levels written back are the ones asked for, each at its nearest tick, or nothing changes |
| TrailingStops.UnknownLevelsAreLeft | src/agents/TrailingStopManager.ts:76-80 | A position with a level missing is left alone |
| TrailingStops.OwnChangesAreSent | src/agents/AdaptiveSuperTrendAgent.ts:101-113 | Every own position with a bar and both levels whose rounded levels change is sent its update |
| SymbolRules.RoundPriceIsNearestTick | src/binance/symbolRules.ts:66-69 | A rounded price is a tick no more than half a tick away |
| SymbolRules.RoundPriceKeepsTicks | src/binance/symbolRules.ts:66-69 | A price on the grid is left alone |
| SymbolRules.RoundPriceKeepsTightness | src/binance/symbolRules.ts:66-69 | Rounding never reverses which of two stops is tighter |
| SymbolRules.RoundStopNeverLoosens | src/binance/symbolRules.ts:75-80 | A protective stop rounds toward the market, by less than a tick |
| SymbolRules.RoundStopKeepsTicks | src/binance/symbolRules.ts:75-80 | A stop on the grid is left alone, so re-placing it cannot creep |
| SymbolRules.RoundStopKeepsTightness | src/binance/symbolRules.ts:75-80 | Stop rounding never reverses which of two stops is tighter |
| SymbolRules.RoundQtyRoundsDown | src/binance/symbolRules.ts:83-86 | A rounded quantity is a whole number of lots, never more than intended nor a lot short |
| SymbolRules.RoundQtyKeepsLots | src/binance/symbolRules.ts:83-86 | A whole number of lots is kept |

## Left out

- RemoteGuarantees.EndsAreJournaledOnce: holds for careful runs; RemoteExactness.CarefulIff shows that no weaker condition on a step would do, and RemoteCounterexamples and RemoteResidual show what the steps it excludes cost.
- RemoteGuarantees.ExitsBookTheirFill: leaves the quantity of an oversized unreported partial open, because PartialBooksItsFillIff shows it can differ exactly then.
- RemoteAdoption.NeverAdoptsItsOwn: excludes the crashes, expiries and late entries after which RemoteAdoption.AttentiveIff shows an own position can be adopted as external, which is how the source resolves them.
- RemoteResidual.ResidualKeepsItsOwner: is about exits that are not part of a flip, in runs in which the exit neither fails nor is dropped and no liquidation strikes; LateUnderRereadBooksIff shows why unreported quantities add up only when the exit is not sized again.
- LiveBook.RunQueue: covers moves for the side the position is on; MoveAfterFlip says what the code does with the others.
- LiveBook.LiveBook.Audit: a throw from the inner position read is an early end that changes nothing, as are the other failed reads.
- LiveLegs.PlaceProtection: a submit that got no answer lands at once, while its client id is asked about again, or never; one that lands after its placement has ended is not part of this model.
- LiveEntry.Tracker.SyncLegs: the stop of a placement that failed at its target is accounted for as an orphan, since nothing in the source lists it; cancel-all is what removes it.
- LiveJournalSync.Journal.Sync: one clock reading stamps both the sync and the next funding window, which the source takes a few instructions apart.
- PaperLedger.EquityIsCashPlusInventory: excludes dropUnlistedSymbols (src/binance/paperEngine.ts:305-312), which discards positions without booking their result.
- PaperFunding.ChargedOncePerBoundary: excludes scale-ins that move the opening past an unaccrued boundary, which ScaleInKeepsChargesIff shows are exactly those that change a charge, and calls without a rate for the symbol.
- PortfolioGuarantees.EquityIsFoldedNet: is over the legs booked by the simulator's own operations, with the rounding of fees to six decimals that the tolerance is for.
- AdaptiveSuperTrend.Calculate: an ATR length and a training period of one each, which would read a candle before the first, and a training period of zero.
- SymbolRules.RoundPriceIsNearestTick: assumes, like the other rounding lemmas, that the tick is a multiple of the last printed decimal, as the venue's rules are.
- The remote broker's exits and broker object are steps of a state machine rather than classes, because their interleaving is the point; the maps of jobs, running attempts and expected opens appear per symbol.
- An entry still on the wire when its open gives the symbol up may land until the next entry on the symbol is sent. An order on the wire when the process dies does not land later, nor does an exit that gave up, as that order: one that takes the whole position is the same to the agent as the liquidation step, which may strike at any time; a partial one that lands then is not part of this model.
- Outsiders trading on the same account, and a close and reopen between two refreshes.
- Recovery of the remote account after it was recreated, mark pushing, funding pushes and the risk-event window.
- LiveBook's shadow mode, its `positions()` view, partial reduces, the initial risk and opening time it keeps, and the deletion of vanished positions by `refresh`, which run outside the lock.
- The order in which the LiveBook's venue lists resting orders is any, but does not change within a run. Placements whose answers are lost are numbered in advance, so in one run they are finitely many.
- HTTP, WebSocket and file I/O, timers, backoff and logging: only success, failure and lost reply are kept.
- Strategy agents, the risk gate, sizing, the market-state builder and the position manager: deterministic but uninterpreted functions.
- Slippage, excursion, regime and evidence fields of replay records, percentage and liquidation-distance fields of positions, Sharpe, Sortino, CVaR and other float statistics.
- A zero total quantity in a weighted average of the replay, which is not a number in the source.
- Floating-point rounding other than the source's explicit roundings.
- The CoinDCX adapter, which no live path reaches.
- Random order ids: fresh ids are unique.
