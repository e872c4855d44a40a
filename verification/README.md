# A verified model of the poker tournament back end

The back end runs live poker tournaments: cards are physical, and the server keeps chips, pots, turns,
timers and money. This project models its four connected cores and proves what they promise.

**The table engine.** `Betting`, `HandStart`, `SidePots` and `Settlement` describe one snapshot and what
each engine method makes of it; `TableEngine` is the class itself, every method of which is proved against
that description. `DealRules`, `ActionRules`, `TurnRules` and `SettleRules` say what that description means
in stacks, bets and seats alone: who pays what, who acts next, when a street ends, who takes what back.
`TurnOrder`, `Termination`, `RaiseRules`, `Contributors`, `Showdown`, `Entitlements` and `TableRuns` prove
the engine's theorems: that the order of the turns is kept, that every hand ends, the no-limit raise rules,
when a pot has an owner, who is paid what, and when over whole runs no chip appears or disappears.
`HandStacks` is the stack a busted player began the hand with.

**The prize ledger.** `Prizes` is the pool and its division, `BustedRanks` the split of simultaneous busts,
`Ledger` and `LedgerRuns` the database transactions of a whole tournament, `FinalPlaces` the places and
prizes they record, `TournamentLedger` those transactions as they update the rows.

**The per-table protocols.** `TurnTimer`, `TimerRuns`, `TimerSafety` and `TimerLoss` are the turn clock with
its epochs, at-least-once jobs, pauses, resumes and lost timers, `ClockActions` what is actually played;
`Rebuys` is the rebuy saga and `RebuyReasons` why each rebuy ends as it does; `SeatClaims` is the seat
claim, `ClaimSteps` what each of its moments admits, `SeatReturns` and `LateEntry` who can come back after
an elimination, and `Occupants` says that hands never move anybody. `TurnService`, `RebuyService` and
`SeatDesk` are their callbacks as the services run them. One step is one `mutateSnapshot` callback: it
reads under the table lock, writes only a state that is returned, and writes nothing when it throws.

**Clocks and gates.** `BlindClock` is the blind level as a function of a base and the present, `PlayedTime`
the database clock that pauses stop against the milliseconds really played, `Outage` the gate that Redis
outages close, `Batched` the batching loader; `TournamentClock`, `RedisOutage` and `BatchingLoader` are the
objects whose fields they update.

## What is assumed

- At the start of a hand ids are distinct, every seated stack is positive, bets, contributions and flags
  are cleared, the small blind is positive and the ante is not negative. All amounts are integers. Every
  later snapshot is proved to be in order, so nothing is assumed in the middle of a run.
- The ledger runs with settled prizes: the pool and the payout list are fixed and no more places are paid
  than players are in. The kick gate holds when the kick commits, and a no-show takes a first seat only
  while at least two and at least as many play as are paid; outside that a kick or a first seat costs the
  pool exactly the prize of its place, as the two lemmas ending in `PoolIff` show. Nothing is assumed of a
  released player who sits down again.
- Adding a job to the queue succeeds, a job runs only while it is queued, and removing one may always fail.
  Executions may repeat and may be arbitrarily late. Dealer commands are refused while a tournament is
  syncing. Sweeps may fail or never come. Players send the four betting actions only.
- A failed database transaction leaves nothing, and a snapshot write has landed by the time its call ends
  or never does. No write lands while the store is away.
- A pause of the blind clock is dated no later than the moment it is written.
- An entry names a seat of the table and has read a positive stack; rebuys and kicks are for players with a
  seat row, rebuys for those still playing.

## Where the code and its comments part

- `backend/src/game-engine/table-engine.ts:273-276` says that a pot without an eligible player cannot
  arise. It can: before the flop and without an ante the dealer can fold every contributor out of turn, and
  the pot is lost. `Entitlements.DeadMoneyVanishes` is such a hand, `Showdown.SettlementConservesIff` the
  exact condition, and `Contributors.SomebodyCanWin` and `Contributors.FromTheFlopOn` the cases in which it
  is met.
- `backend/src/playsync/playsync.service.ts:899-913` swallows a failing revert, and its comment at 895-897
  says that chips may then stay without money. `Rebuys.FreeRebuy` is such a run, and
  `Rebuys.RebuyIsAtomicIff` says that it is the only way a rebuy is not atomic.
- `backend/src/recovery/recovery.service.ts:164-177` ends an outage after a failed sweep, and lines 203-210
  let a lost line go on after one. `TimerLoss.FailedSweepLosesTimer` and
  `TimerLoss.FailedLineSweepLosesTimer` are turns that lose their timer, `TimerLoss.TurnHasItsTimerIff`,
  `TimerLoss.OutageEndsIff` and `TimerLoss.LineEndsIff` the exact conditions.
- `backend/src/entry/entry.service.ts:54-72` looks at the participation once, lines 80-82 read the seat row
  later, and the transaction at 218-281 and the write at 349-365 look at neither again. The comment at
  331-335 counts on the status check; `LateEntry.LateEntryRevives` is an evening in which it has been passed
  before the elimination, and `SeatReturns.ReturnsIff` the exact condition.
- `backend/src/entry/entry.service.ts:54-72` has no gate for a first seat in the money;
  `LedgerRuns.LateSeatOverpays` is a tournament that pays more than its pool.
- `backend/src/dealer/dealer.service.ts:387-394` reads the kick gate outside the transaction of
  `backend/src/dealer/dealer.service.ts:437-461`; `LedgerRuns.StaleKickGate` is the race.
- `backend/src/recovery/recovery.service.ts:228-241` dates a pause found at boot by the last heartbeat,
  which may lie before the last resume. `PlayedTime.HeartbeatDatedLevelFalls` is a run in which the level
  falls, `PlayedTime.ClockIsPlayedTimeIff` the exact condition.

## Model

| member | source | states |
|---|---|---|
| SidePots.LevelsAreTheContributions | backend/src/game-engine/table-engine.ts:179-181 | the layer boundaries ascend strictly and are exactly the contributions of those who have not folded |
| SidePots.SidePotsHoldEverything | backend/src/game-engine/table-engine.ts:183-201 | with somebody left to win, the layers together hold every chip contributed, folded players included |
| SidePots.LowerLayersSum | backend/src/game-engine/table-engine.ts:187-195 | the layers below a boundary hold exactly what everybody put in up to it, so each layer has its amount |
| SidePots.SidePotsArePositive | backend/src/game-engine/table-engine.ts:187-195 | no layer is empty |
| SidePots.EligibleIffReached | backend/src/game-engine/table-engine.ts:196-198 | a player may win a layer exactly when in the hand and having contributed up to its level |
| SidePots.EligibleSetsStrictlyNest | backend/src/game-engine/table-engine.ts:194-200 | every higher layer has strictly fewer eligible players, all of them eligible below |
| SidePots.Entitlement | backend/src/game-engine/table-engine.ts:173-202 | what a contender can win of another player in the hand is the smaller of the two contributions; a folded player's chips beyond every contender go to the top layer |
| TurnOrder.PlayTakesTurn | backend/src/game-engine/table-engine.ts:45-81 | an accepted play leaves the seat owing nothing, and the seats that still owe one clockwise run from the next seat |
| TurnOrder.AdvanceAfterTurn | backend/src/game-engine/table-engine.ts:83-101 | handing on the turn gives a street whose turn seat can act and owes an action, the following street, or a showdown |
| TurnOrder.FoldOutOfTurn | backend/src/game-engine/table-engine.ts:39-41 | a dealer fold of another seat leaves the turn where it is unless it ends the hand |
| TurnOrder.NextPhaseInv | backend/src/game-engine/table-engine.ts:119-152 | a completed street leads to a street in order or to the showdown, with every chip |
| TurnOrder.ActKeepsOrder | backend/src/game-engine/table-engine.ts:19-101 | every applied action keeps the whole betting order and the chips; a betting street never has turn -1 |
| ActionRules.TimeOutFoldsIff | backend/src/game-engine/table-engine.ts:50-63 | a time-out puts the player out if and only if a call was owed, and moves no chip |
| ActionRules.FoldIsAlwaysOut | backend/src/game-engine/table-engine.ts:44-48 | a fold puts the player out, whatever the bet, and moves no chip |
| ActionRules.CheckAcceptedIff | backend/src/game-engine/table-engine.ts:65-68 | a check is accepted if and only if no call is owed, and moves no chip |
| ActionRules.CallPaysWhatIsMissing | backend/src/game-engine/table-engine.ts:325-330 | a call moves what is missing, or the whole stack, from that stack into the pot, and the caller stays in |
| ActionRules.RaisePaysUpTo | backend/src/game-engine/table-engine.ts:350-390 | an accepted raise brings the bet up to the amount, or puts in the whole stack, and sets the bet to match |
| ActionRules.DealerPutsOut | backend/src/game-engine/table-engine.ts:40-41 | a dealer fold or kick puts out the seat it names, in turn or not, and moves no chip |
| TurnRules.StreetOpensAfterButton | backend/src/game-engine/table-engine.ts:119-152 | whichever action leads to a later street, it is the next one, with no bets and no check marks, and waits for the first live seat after the button |
| TurnRules.TurnGoesClockwise | backend/src/game-engine/table-engine.ts:92-100 | within a street the turn goes to the first live seat after the one that acted |
| TurnRules.OutOfTurnKeepsTheTurn | backend/src/game-engine/table-engine.ts:90-100 | a dealer fold of another seat leaves the turn where it is, unless the hand is over |
| TurnRules.FoldedTurnIsPassedOn | backend/src/game-engine/table-engine.ts:40-101 | a turn that stands at a seat already out is passed on, whatever that seat sends, and no chip moves |
| TurnRules.StreetGoesOnIff | backend/src/game-engine/table-engine.ts:83-117 | a street goes on if and only if two are in and somebody else has something left to decide; otherwise it is the showdown exactly on the river, with one player left or with at most one who can act, and else the next street |
| TurnRules.SidePotsAreCut | backend/src/game-engine/table-engine.ts:119-152 | whenever a street ends, the snapshot shows the side pots of what has been put in so far |
| Ring.NextLiveIsFirst | backend/src/game-engine/table-engine.ts:439-448 | the circular search finds the first live seat clockwise, or -1 exactly when there is none |
| HandStart.AntesSeatBySeat | backend/src/game-engine/table-engine.ts:577-584 | antes move chips seat by seat into pot and contribution, never into the bet |
| HandStart.WithAntesPaid | backend/src/game-engine/table-engine.ts:577-584 | after the antes every seat has paid the ante or all it had, and no bet is standing |
| HandStart.ButtonAndBlinds | backend/src/game-engine/table-engine.ts:463-486 | with two stacks there is a button and two distinct blinds |
| HandStart.BlindsConsecutive | backend/src/game-engine/table-engine.ts:478-485 | button, small and big blind are the first three live seats clockwise; heads-up the button is the small blind |
| HandStart.StartSeats | backend/src/game-engine/table-engine.ts:457-486 | a hand starts exactly when two stacks are seated, on the next button, and nobody posts twice |
| HandStart.StartKeepsOrder | backend/src/game-engine/table-engine.ts:488-521 | the dealt hand is a street in order or a showdown, with every chip accounted for |
| DealRules.HandIsDealt | backend/src/game-engine/table-engine.ts:457-522 | a hand starts exactly when two stacks are seated: the button moves to the next live seat, the blinds follow it, every seat pays its ante and its blind or all it has, and the first live seat after the big blind is to act unless nobody has anything to decide |
| DealRules.DealtSeat | backend/src/game-engine/table-engine.ts:488-521 | what each seat has in its stack, as a bet and in the pot after the deal |
| DealRules.BlindsFollow | backend/src/game-engine/table-engine.ts:478-485 | the blinds are the next live seats after the button; with two players the button is the small blind |
| HandStart.InitTableReady | backend/src/game-engine/table-engine.ts:586-608 | clearing the table keeps every stack, removes exactly the empty ones and leaves it ready to deal |
| SettleRules.NextHandKeepsPlayers | backend/src/game-engine/table-engine.ts:586-608 | whoever has chips keeps seat, name and stack with all marks cleared, and the button stays |
| HandStart.ApplyRebuyAdds | backend/src/game-engine/table-engine.ts:315-323 | a rebuy adds its amount to the chips of the table if the player sits there, and nothing otherwise |
| SettleRules.RebuyGoesToTheSeat | backend/src/game-engine/table-engine.ts:315-323 | a rebuy puts its amount on the named player's stack and brings that player back in; nobody else changes |
| Termination.ActIsCloser | backend/src/game-engine/table-engine.ts:19-101 | every applied action of the turn seat, and every dealer fold of a live seat, decreases (streets, chips behind, players in, actions owed) |
| Termination.TimeOutAlwaysApplies | backend/src/game-engine/table-engine.ts:50-63 | a time-out of the turn seat is never refused and never ignored |
| Termination.AnswerIsCloser | backend/src/game-engine/table-engine.ts:19-101 | whatever is chosen at a betting table, the table's answer is in order and closer to the end |
| Termination.PlayOut | backend/src/game-engine/table-engine.ts:19-152 | under any strategy the hand reaches a showdown with the same chips: the function is total |
| RaiseRules.RaiseHistory | backend/src/game-engine/table-engine.ts:350-402 | over any run the check marks are the seats that acted since the last full raise, and the raise size never shrinks within a street |
| RaiseRules.RaiseAcceptedIff | backend/src/game-engine/table-engine.ts:355-372 | a raise is accepted exactly when the seat has not acted since the last full raise, tops the bet, and is all-in or at least the last full raise |
| RaiseRules.FirstRaiseIsTheBigBlind | backend/src/game-engine/table-engine.ts:392-395 | in a snapshot that records no raise the least raise is the big blind |
| RaiseRules.OnlyCallOrFold | backend/src/game-engine/table-engine.ts:355-357 | a seat that has acted and is asked again owes a call to a short all-in and can only call or fold |
| RaiseRules.MoveKeepsHistory | backend/src/game-engine/table-engine.ts:376-389 | one move keeps that history or opens a street with an empty one |
| RaiseRules.StartOpensStreet | backend/src/game-engine/table-engine.ts:500-502 | the first street opens with the big blind as smallest raise |
| Contributors.SomebodyCanWin | backend/src/game-engine/table-engine.ts:273-276 | with an ante, or with no out-of-turn fold before the flop, at every showdown somebody in the hand has paid into the pot |
| Contributors.FromTheFlopOn | backend/src/game-engine/table-engine.ts:273-276 | from the move that opens the flop on, over every later street and move and whatever the dealer folds, everybody still in the hand has paid, so somebody can win |
| Contributors.PaidMoveStaysPaid | backend/src/game-engine/table-engine.ts:19-101 | where everybody in the hand has paid, every move leaves it so |
| Contributors.MoveIsSafe | backend/src/game-engine/table-engine.ts:36-41 | one move keeps the pot winnable unless it folds somebody out of turn before the flop |
| Settlement.ClaimIsBestTier | backend/src/game-engine/table-engine.ts:256-261 | a pot goes to the eligible members of the best tier that has one, and is unclaimed exactly when no tier has |
| Settlement.ByButtonSorts | backend/src/game-engine/table-engine.ts:541-546 | the order of payment is the winners sorted clockwise from the seat after the button |
| Settlement.FromButtonIsMod | backend/src/game-engine/table-engine.ts:542-545 | the source's remainder is that clockwise distance |
| Settlement.SplitPotPays | backend/src/game-engine/table-engine.ts:531-553 | a pot changes nothing but stacks, pays only seated winners it names, and nobody more than the pot |
| Settlement.SplitPotSum | backend/src/game-engine/table-engine.ts:537-552 | the shares of one pot add up to the pot |
| SettleRules.WinnerGets | backend/src/game-engine/table-engine.ts:531-553 | a winner's part of a pot, to the chip: the pot divided by the winners, and one odd chip if fewer winners than odd chips sit closer clockwise from the button |
| SettleRules.OthersGetNothing | backend/src/game-engine/table-engine.ts:531-553 | whoever is not named gets nothing of it |
| Showdown.RefundKeeps | backend/src/game-engine/table-engine.ts:203-225 | the refund keeps the chips of the table and every stack and contribution non-negative |
| SettleRules.RefundIsWhatNobodyMatched | backend/src/game-engine/table-engine.ts:203-225 | everybody takes back exactly what nobody else has matched, and nothing else about the table changes |
| Showdown.RefundIdempotent | backend/src/game-engine/table-engine.ts:247-250 | a second refund returns nothing |
| Showdown.ResubmitSettlesTheSame | backend/src/game-engine/table-engine.ts:247-292 | a rejected nomination followed by a correct one settles exactly like the correct one alone |
| Showdown.PayoutTotal | backend/src/game-engine/table-engine.ts:294-296 | an accepted nomination pays out all the pots, to the last chip |
| Showdown.PayPotsPays | backend/src/game-engine/table-engine.ts:294-296 | every seat gets its winnings on top of its stack and is otherwise unchanged |
| Showdown.SettledChips | backend/src/game-engine/table-engine.ts:237-306 | settling keeps every chip, except the pot when nobody in the hand has paid into it |
| Showdown.SettlementConservesIff | backend/src/game-engine/table-engine.ts:273-297 | settling conserves the chips if and only if somebody still in has contributed, or at most one seat ever did |
| Entitlements.AcceptedIff | backend/src/game-engine/table-engine.ts:277-292 | a nomination is accepted exactly when every pot has a named eligible player |
| Entitlements.NamingEverybodySuffices | backend/src/game-engine/table-engine.ts:277-292 | naming everybody still in the hand is always accepted |
| Entitlements.OnlyBestTierIsPaid | backend/src/game-engine/table-engine.ts:256-261 | nobody is paid from a pot that a better tier could claim |
| Entitlements.WonAtMostMatched | backend/src/game-engine/table-engine.ts:237-297 | whatever is nominated, a covered player wins at most what that player matched of each other, and a folded one nothing |
| Entitlements.SettledStacks | backend/src/game-engine/table-engine.ts:237-306 | every stack after settling is the refunded stack plus its winnings |
| SettleRules.SettledTable | backend/src/game-engine/table-engine.ts:294-306 | a settled table has no pots, has ended its hand, and every seat only its winnings added and its three marks cleared |
| SettleRules.RefusedTable | backend/src/game-engine/table-engine.ts:277-292 | a refused nomination leaves the refunded hand with its side pots cut |
| Entitlements.EvenSplit | backend/src/game-engine/table-engine.ts:537-552 | two winners of a pot differ by at most one chip |
| Entitlements.TiesSplitEvenly | backend/src/game-engine/table-engine.ts:541-552 | of two tied winners the one nearer to the button gets the odd chip |
| Entitlements.ThreePlayersDealt | backend/src/game-engine/table-engine.ts:457-521 | three stacks without an ante are dealt with the button to act |
| Entitlements.BothBlindsFolded | backend/src/game-engine/table-engine.ts:39-41 | the dealer folds both blinds of that table out of turn: a reachable showdown |
| Entitlements.DeadMoneyVanishes | backend/src/game-engine/table-engine.ts:273-297 | that hand contradicts the comment: the pot has no eligible player, the nomination is accepted, and the chips vanish |
| TableRuns.StepKeepsTable | backend/src/game-engine/table-engine.ts:19-623 | every event of a table keeps the snapshot in order, and accounts for every chip unless it settles a pot without an owner |
| TableRuns.PhasesInOrder | backend/src/game-engine/table-engine.ts:19-623 | each event happens in its own phase only, and ends in it or leads to the next |
| TableRuns.RunConserves | backend/src/game-engine/table-engine.ts:203-608 | over any run nobody is in debt, and stacks plus pot are what was there plus what was brought if every settled pot has an owner |
| TableRuns.CarefulRunsConserve | backend/src/game-engine/table-engine.ts:203-608 | every settled pot has an owner, and so no chip appears or disappears over any run, as long as no dealer folds somebody out of turn before the flop at a table without an ante |
| TableRuns.StepKeepsWinnable | backend/src/game-engine/table-engine.ts:19-623 | every such event keeps a pot that somebody can win |
| HandStacks.HandStartStack | backend/src/playsync/playsync.service.ts:548-558 | from the deal to the settlement, over any moves and newcomers: whoever is left without chips has in `stack + totalContributed` exactly the stack held before the deal |
| HandStacks.SettledHoldings | backend/src/playsync/playsync.service.ts:548-558 | settling adds only what was won to that sum |
| HandStacks.RunKeepsHoldings | backend/src/playsync/playsync.service.ts:548-558 | between deal and settlement every seat keeps its player and that sum |
| Engine.TableEngine.constructor | backend/src/game-engine/table-engine.ts:15-17 | takes over the snapshot it is given |
| Engine.TableEngine.FindNextActiveSeat | backend/src/game-engine/table-engine.ts:439-448 | the loop finds the seat the ring search specifies |
| Engine.TableEngine.ExecuteBet | backend/src/game-engine/table-engine.ts:425-436 | moves chips from a stack to bet, contribution and pot, capped by the stack |
| Engine.TableEngine.HandleCall | backend/src/game-engine/table-engine.ts:325-330 | pays what is missing or all-in |
| Engine.TableEngine.ResetChecked | backend/src/game-engine/table-engine.ts:398-402 | takes back the check of every seat that can act, in place |
| Engine.TableEngine.HandleRaise | backend/src/game-engine/table-engine.ts:350-390 | refuses, or leaves the state of the specified raise |
| Engine.TableEngine.ContributionLevels | backend/src/game-engine/table-engine.ts:179-181 | the sorted distinct contributions of those in the hand |
| Engine.TableEngine.CutLayer | backend/src/game-engine/table-engine.ts:187-199 | one layer: its amount and its eligible players |
| Engine.TableEngine.CalculateSidePots | backend/src/game-engine/table-engine.ts:173-202 | the loop over the levels leaves the specified side pots |
| Engine.TableEngine.ShouldGoToShowdown | backend/src/game-engine/table-engine.ts:610-623 | decides the showdown, changing nothing |
| Engine.TableEngine.NextPhase | backend/src/game-engine/table-engine.ts:119-152 | opens the next street in place |
| Engine.TableEngine.PlayAction | backend/src/game-engine/table-engine.ts:45-81 | the switch of `act`, against its specification |
| Engine.TableEngine.Act | backend/src/game-engine/table-engine.ts:19-101 | the three answers of `act` and the whole new state |
| Engine.TableEngine.Advance | backend/src/game-engine/table-engine.ts:83-101 | showdown, next street or next seat |
| Engine.TableEngine.PayAnte | backend/src/game-engine/table-engine.ts:577-584 | the ante loop |
| Engine.TableEngine.StartPreFlop | backend/src/game-engine/table-engine.ts:457-522 | deals, or refuses and changes nothing |
| Engine.TableEngine.InitTable | backend/src/game-engine/table-engine.ts:586-608 | clears the table in place |
| Engine.TableEngine.ApplyRebuy | backend/src/game-engine/table-engine.ts:315-323 | adds a rebuy to one seat |
| Engine.TableEngine.RefundUncalledBets | backend/src/game-engine/table-engine.ts:203-225 | leaves the refunded state |
| Engine.TableEngine.SplitPot | backend/src/game-engine/table-engine.ts:531-553 | pays one pot in place |
| Engine.TableEngine.PayInOrder | backend/src/game-engine/table-engine.ts:548-552 | the payment loop with its falling remainder |
| Engine.TableEngine.CollectClaims | backend/src/game-engine/table-engine.ts:256-261 | the claim of every pot, or that one is missing |
| Engine.TableEngine.ResolveWinner | backend/src/game-engine/table-engine.ts:237-306 | the three answers of `resolveWinner` and the whole new state |
| Engine.TableEngine.ResetStatus | backend/src/game-engine/table-engine.ts:405-411 | clears the three flags of every seat |
| Prizes.PoolBounds | backend/src/playsync/prize.ts:66-79 | the pool is never negative and at least the share the rake leaves |
| Prizes.PoolIsExact | backend/src/playsync/prize.ts:66-79 | what is kept back is the rake rounded down, and nothing without one |
| Prizes.ParsedPlaces | backend/src/playsync/prize.ts:28-51 | a parsed payout list names every place from 1 on once, with positive shares that add up to 100 |
| Prizes.ParseAcceptsIff | backend/src/playsync/prize.ts:28-51 | a list is accepted exactly if it names the places from 1 on once each with positive shares of 100 in all |
| Prizes.ParseIsStable | backend/src/playsync/prize.ts:28-51 | parsing a parsed list changes nothing |
| Prizes.ComputePrizes | backend/src/playsync/prize.ts:88-104 | the loop computes the specified prizes |
| Prizes.PrizeOfPlace | backend/src/playsync/prize.ts:183-186 | each place is worth its rounded-down share, the first one the remainder, and an unpaid place nothing |
| Prizes.PrizeIsRoundedDown | backend/src/playsync/prize.ts:88-104 | a place below the first is worth its listed percentage of the pool, rounded down |
| Prizes.PrizesAddUp | backend/src/playsync/prize.ts:88-104 | with at least as many places as are paid, the prizes add up to the pool |
| Prizes.WinnerIsFavoured | backend/src/playsync/prize.ts:88-104 | rounding never costs the winner anything |
| Prizes.PrizesNonNegative | backend/src/playsync/prize.ts:183-186 | no place is worth a negative amount |
| Prizes.EntryCountCountsBuyIns | backend/src/playsync/payout-table.ts:104-107 | the entry count is the number of buy-ins collected |
| Prizes.PayoutsFor | backend/src/playsync/payout-table.ts:115-122 | the payouts are those of the last tier the field reaches |
| Prizes.ParsePayoutTable | backend/src/playsync/payout-table.ts:134-154 | a table is stored exactly when it starts at zero, ascends strictly and every tier parses; the stored table is valid |
| Prizes.StoredTiersIff | backend/src/playsync/payout-table.ts:134-154 | the tiers are stored exactly when each of them parses |
| BustedRanks.SplitPaysInterval | backend/src/playsync/prize.ts:225-270 | a batch is paid exactly what its interval of places is worth |
| BustedRanks.PlaceIsHeldMore | backend/src/playsync/prize.ts:225-258 | a player's place is the first place of the batch plus the number who started the hand with more |
| BustedRanks.LargerStackRanksHigher | backend/src/playsync/prize.ts:236-238 | a larger starting stack ranks strictly higher, an equal one the same |
| BustedRanks.EqualStacksShareEvenly | backend/src/playsync/prize.ts:259-265 | equal stacks are paid amounts that differ by at most one, the unit at the lower seat |
| BustedRanks.InputOrderIrrelevant | backend/src/playsync/prize.ts:225-270 | the order in which the players are handed in changes nothing |
| BustedRanks.EverybodyAwardedOnce | backend/src/playsync/prize.ts:240-267 | exactly the busted players are awarded, each once |
| BustedRanks.SplitRanks | backend/src/playsync/prize.ts:225-270 | the method with the source's loops computes the specified awards |
| BustedRanks.AwardGroups | backend/src/playsync/prize.ts:242-267 | the outer loop over the groups of equal stacks |
| BustedRanks.ShareOut | backend/src/playsync/prize.ts:259-265 | the inner loop gives the remainder away one unit at a time |
| Ledger.AwardOneKeepsBooks | backend/src/playsync/prize.ts:128-167 | one award keeps points gained, recorded prize and PRIZE transactions equal, and pays an AWARDED row once |
| Ledger.AwardAllKeepsBooks | backend/src/playsync/prize.ts:128-167 | so does any list of awards, finished rows included |
| Ledger.AwardAllIsExact | backend/src/playsync/prize.ts:136-164 | awards to distinct unfinished players write exactly their rows, each with its place, its prize and the status that follows, and pay exactly their sum |
| Ledger.PendingOfIs | backend/src/playsync/playsync.service.ts:542-549 | the batch that is really finished is its still unfinished part |
| LedgerRuns.StoredPrizesAreFixed | backend/src/playsync/prize.ts:88-104 | a stored payout list gives non-negative prizes that add up to the pool |
| LedgerRuns.EliminateClaims | backend/src/playsync/playsync.service.ts:594-628 | one elimination either changes nothing or takes the places directly below the players that remain and pays what they are worth |
| LedgerRuns.EliminateIsIdempotent | backend/src/playsync/playsync.service.ts:567-575 | a second delivery of an elimination changes nothing at all |
| FinalPlaces.EliminationIsRecorded | backend/src/playsync/playsync.service.ts:594-628 | the rows after an elimination: the players that remain plus one plus the number of the batch who started the hand with more, an even share of the prizes of the places the equal stacks hold, and everybody else as before |
| FinalPlaces.BatchIsRankedFairly | backend/src/playsync/prize.ts:225-270 | every player of a batch is awarded such a place and prize, the odd units at the lower seats |
| FinalPlaces.OnlyTheLastAreFirst | backend/src/playsync/playsync.service.ts:673-728 | over any run whoever has place 1 was crowned, or was in a batch that took everybody who was left |
| FinalPlaces.ChampionIsRecorded | backend/src/playsync/playsync.service.ts:673-728 | the champion has place 1, the first prize in row and points, and the status that follows |
| FinalPlaces.KickAndSeatRecorded | backend/src/dealer/dealer.service.ts:437-461 | a kick ends a participation without place or prize and counts one player less; a first seat counts one more |
| LedgerRuns.KickKeepsPoolIff | backend/src/dealer/dealer.service.ts:387-394 | a kick keeps the pool whole if and only if the place it swallows is unpaid |
| LedgerRuns.StaleKickGate | backend/src/dealer/dealer.service.ts:387-394 | the gate is read before the transaction: two kicks that both passed it leave a paid place unpaid |
| LedgerRuns.SeatKeepsPoolIff | backend/src/entry/entry.service.ts:242-249 | a first seat keeps the pool whole if and only if the place it reopens is unpaid |
| LedgerRuns.LateSeatOverpays | backend/src/entry/entry.service.ts:242-249 | a run in which a no-show takes a first seat in the money: 120 is paid out of a pool of 100 |
| LedgerRuns.ReseatKeepsLedger | backend/src/entry/entry.service.ts:250-256 | a released player sitting down again keeps the ledger, at any time |
| LedgerRuns.CrownPays | backend/src/playsync/playsync.service.ts:673-728 | the last player is paid the first prize and leaves nobody live |
| LedgerRuns.StepKeepsLedger | backend/src/playsync/playsync.service.ts:525-728 | every event keeps paid plus still payable equal to the pool, and the counter right |
| LedgerRuns.RunPaysPool | backend/src/playsync/playsync.service.ts:594-628 | over any run of eliminations, kicks, seats and winner awards never more than the pool is paid, and all of it once nobody is left in |
| LedgerRuns.EveryPaidPlaceOnce | backend/src/playsync/playsync.service.ts:594-628 | over any run the prize of every paid place is given away exactly once: in one batch interval or to the champion |
| LedgerRuns.RunFinishedStay | backend/src/playsync/prize.ts:136-149 | a finished participation is never written again |
| LedgerRuns.CrowningEndsIt | backend/src/playsync/playsync.service.ts:673-728 | reading and awarding the last live player pays the rest of the pool and gives place 1 |
| LedgerStore.TournamentLedger.AwardPrize | backend/src/playsync/prize.ts:128-167 | the loop of `awardPrize`, row by row |
| LedgerStore.TournamentLedger.FindPending | backend/src/playsync/playsync.service.ts:542-562 | the unfinished players of the batch, in order |
| LedgerStore.TournamentLedger.Eliminate | backend/src/playsync/playsync.service.ts:533-631 | the elimination transaction: new state, remaining players, and when it throws |
| LedgerStore.TournamentLedger.Finish | backend/src/playsync/playsync.service.ts:673-728 | awards some live player first place, or finds it done, or throws |
| LedgerStore.TournamentLedger.Kick | backend/src/dealer/dealer.service.ts:437-461 | the kick transaction: new state, remaining players, and when it throws |
| TurnTimer.ActKeepsShape | backend/src/game-engine/table-engine.ts:83-101 | whatever `act` makes of a snapshot, turn and button are seats of the table |
| TimerRuns.TimeoutActsIff | backend/src/playsync/playsync.service.ts:173-193 | a time-out with an epoch acts exactly when epoch and user are current and nothing is paused, down or recovering; otherwise nothing changes |
| ClockActions.TimelyActionIsPlayed | backend/src/playsync/playsync.service.ts:204-245 | an action sent in time by a player who has not been kicked is played as it was sent, and the next owner has thirty seconds |
| ClockActions.LateActionIsATimeOut | backend/src/playsync/playsync.service.ts:212-229 | one that comes after the deadline is a time-out, whatever was sent |
| ClockActions.KickedPlayerFolds | backend/src/playsync/playsync.service.ts:215-229 | whatever a kicked player sends is a fold |
| ClockActions.JobPlaysTheTimeOut | backend/src/playsync/playsync.service.ts:174-229 | a job that acts plays the time-out of the seat to act, or its fold after a kick |
| ClockActions.ClockFoldsIff | backend/src/playsync/playsync.service.ts:174-229 | the clock folds a player if and only if a call was owed, and moves no chip |
| ClockActions.DealerActsIff | backend/src/dealer/dealer.service.ts:409-470 | a dealer fold or kick is accepted exactly for a seated player of an unpaused hand being bet; that player is out, nobody's chips move, and a kick leaves its mark |
| ClockActions.DealtAtTheLevel | backend/src/dealer/dealer.service.ts:285-324 | a hand is dealt exactly on a waiting table with two to play it, paused or not, at the blind and ante of the level, and the first to act has thirty seconds |
| ClockActions.JobIsPickedIff | backend/src/playsync/timeout.processor.ts:36-62 | a due job is taken on exactly if it is for this turn, the dealer answers and the store is up, and put back exactly if it is for this turn and the dealer is silent |
| ClockActions.FiredJobIsGone | backend/src/playsync/timeout.processor.ts:36-63 | a job that is carried out leaves the queue, whatever comes of it |
| ClockActions.PauseSays | backend/src/recovery/recovery.service.ts:559-617 | a waiting table that a sweep reaches is paused with the length and the reason of that sweep |
| ClockActions.ServerOutageWins | backend/src/recovery/recovery.service.ts:573-608 | a line's pause that a server sweep finds becomes a server's and keeps its length |
| ClockActions.ResumeRestartsTheClock | backend/src/dealer/dealer.service.ts:825-841 | a resume lets the same hand go on with a new epoch and thirty seconds |
| ClockActions.InterruptedRebuyPauses | backend/src/playsync/playsync.service.ts:502-514 | an interrupted rebuy pauses a table that is not paused and leaves every other pause as it is |
| TimerRuns.StepKeepsTimer | backend/src/playsync/playsync.service.ts:132-331 | every delivery, action, outage, sweep, failed sweep and resume keeps the snapshot and its epochs in order: a waiting turn has the current epoch, issued to its owner |
| TimerRuns.FoldAlwaysApplies | backend/src/game-engine/table-engine.ts:45-63 | neither the clock's fold nor the kick's is refused to the turn seat |
| TimerLoss.TurnHasItsTimerIff | backend/src/playsync/playsync.service.ts:290-318 | over every run: a turn that waits at the end, while the server is up and the line is there, has its one timer if and only if no delivery of its job was carried out behind a closed gate |
| TimerLoss.OutageEndsIff | backend/src/recovery/recovery.service.ts:164-177 | at the end of an outage the turn has its timer or is paused if and only if a sweep reached the table or its job was not carried out meanwhile; and it keeps it for good if and only if a sweep did or the job had not even been picked up |
| TimerLoss.LineEndsIff | backend/src/recovery/recovery.service.ts:195-213 | when a line is back the turn that waits then has its timer if and only if its job was not carried out while the line was away |
| TimerLoss.SweptLineStaysPaused | backend/src/recovery/recovery.service.ts:195-213 | a sweep while the line is away leaves the table paused, whatever the players do |
| TimerLoss.FailedSweepLosesTimer | backend/src/recovery/recovery.service.ts:164-177 | a run that loses the timer of any waiting turn: the processor drops the job during the outage, and the sweep fails |
| TimerLoss.FailedLineSweepLosesTimer | backend/src/recovery/recovery.service.ts:203-210 | the same for a lost line whose sweep fails |
| TimerLoss.StrandedForever | backend/src/playsync/timeout.processor.ts:36-63 | a turn without its job is never moved by the clock, however long it lasts |
| TimerLoss.RunKeepsTimer | backend/src/recovery/recovery.service.ts:149-178 | where every outage and lost line ends behind a sweep that reached the table, every waiting turn has its one timer |
| TimerSafety.OnlyTheTurnMovesTheClock | backend/src/playsync/playsync.service.ts:230-243 | an action by anybody but the turn owner changes no epoch, deadline, job or seat |
| TimerSafety.FrozenUntilResume | backend/src/recovery/recovery.service.ts:573-608 | until the dealer resumes, no action, job, dealer fold, sweep, outage or newcomer changes pot, turn or any occupied seat of a paused hand |
| TimerSafety.OldJobsAreDead | backend/src/recovery/recovery.service.ts:559-617 | no job added before a pause ever folds anyone, during the pause or any time after it |
| TimerSafety.SweepsRaiseEpochOnce | backend/src/recovery/recovery.service.ts:573-608 | any number of runtime sweeps raise the epoch once, and not at all when all are of older generations or the table is paused |
| TimerSafety.RunEpochNeverFalls | backend/src/playsync/playsync.service.ts:290-295 | the epoch never falls |
| TurnServices.TurnService.AddJob | backend/src/playsync/playsync.service.ts:307-317 | adding a job whose id exists is silently ignored |
| TurnServices.TurnService.ScheduleTurnTimeout | backend/src/playsync/playsync.service.ts:290-318 | raises the epoch, and sets job and deadline exactly when somebody is to act |
| TurnServices.TurnService.HandleAction | backend/src/playsync/playsync.service.ts:132-243 | all refusals in their order, the effective action, and the whole new state |
| TurnServices.TurnService.Process | backend/src/playsync/timeout.processor.ts:36-63 | drops, puts back or carries out one delivery |
| TurnServices.TurnService.PauseTable | backend/src/recovery/recovery.service.ts:559-617 | the pause of one table, and whether this call paused it |
| TurnServices.TurnService.ResumeTable | backend/src/dealer/dealer.service.ts:825-841 | refuses a table that is not paused; otherwise clears the pause and schedules |
| TurnServices.TurnService.HandleDealerAction | backend/src/dealer/dealer.service.ts:409-470 | a dealer fold or kick is refused on a paused table, and otherwise reschedules |
| Rebuys.RebuyIsAtomicIff | backend/src/playsync/playsync.service.ts:752-913 | over every run a finished rebuy is `applied` exactly when one fee was debited, and the start stacks in the seat match the debits if and only if no revert of that player failed while the chips were in |
| Rebuys.FreeRebuy | backend/src/playsync/playsync.service.ts:895-913 | a run in which the revert fails while the store is away: the round ends with a start stack in the seat and nothing paid |
| Rebuys.StepKeepsRebuys | backend/src/playsync/playsync.service.ts:785-913 | every step of every saga, outage and fault, a failing revert included, keeps each player's money accounted for and the database's books right |
| Rebuys.RevertKeeps | backend/src/playsync/playsync.service.ts:899-913 | a revert that lands undoes exactly the write that landed; one that fails over written chips leaves a start stack and marks the player |
| Rebuys.DebitKeeps | backend/src/playsync/playsync.service.ts:1004-1047 | the transaction moves points, collected fees and the transaction row together |
| Rebuys.AppliedStays | backend/src/dealer/dealer.service.ts:603-693 | a player whose rebuy was applied is never asked, credited or charged again |
| Rebuys.NobodyIsForgotten | backend/src/dealer/dealer.service.ts:611-683 | the loop ends in an open tournament only when nobody interrupted is still broke |
| Rebuys.BrokeForAReason | backend/src/dealer/dealer.service.ts:603-693 | whoever is still broke then could not pay, said no, or let the time run out |
| RebuyReasons.ChargedIff | backend/src/playsync/playsync.service.ts:1004-1047 | the debit goes through if and only if the player has at least the fee and the tournament is open; it takes exactly the fee from that player alone and leaves no debt |
| RebuyReasons.OutcomeHasItsReason | backend/src/playsync/playsync.service.ts:752-877 | over every run each of the eight outcomes has its reason: applied was charged with the fee at hand in an open tournament; skipped was at some moment short of it, unseated or in a closed one; declined said no; a deadline passed with the dealer answering, or silent; the database did not answer; an outage or a lost line came in between; a write broke without one |
| RebuyReasons.BrokeForItsReason | backend/src/dealer/dealer.service.ts:603-693 | whoever is still broke when the loop has ended was once short or unseated, said no, or let a deadline pass that the dealer saw |
| RebuyReasons.AskedIff | backend/src/playsync/playsync.service.ts:764-778 | a player is asked exactly if the points were read and cover the fee and nothing has interrupted the round |
| RebuyReasons.ChipsWrittenIff | backend/src/playsync/playsync.service.ts:785-800 | one start stack is written exactly while the round is undisturbed and the player seated |
| RebuyReasons.AnsweredAs | backend/src/playsync/playsync.service.ts:924-1001 | yes is an acceptance, no a refusal, and silence is judged by whether the dealer answers |
| RebuyReasons.BrokenWriteEndsAs | backend/src/playsync/playsync.service.ts:788-824 | a write that breaks before its decision ends the rebuy without chips, as interrupted or as an exception; one that breaks after it waits for the store, with the chips in exactly if they landed |
| RebuyReasons.WokenIsUndone | backend/src/playsync/playsync.service.ts:808-821 | a write that broke after its decision is undone as interrupted once the store is back |
| RebuyReasons.SilentDatabase | backend/src/playsync/playsync.service.ts:827-847 | a database that does not answer takes nothing: the chips go back and the question is put off |
| RebuyReasons.UndoneAs | backend/src/playsync/playsync.service.ts:899-912 | an undo that lands takes one start stack from a seat that has it, and nothing otherwise |
| RebuyReasons.OutageSettlesQuestions | backend/src/playsync/playsync.service.ts:976-981 | an outage and a lost line end exactly the open questions, and touch neither chips nor points |
| RebuyReasons.RoundEndsAs | backend/src/dealer/dealer.service.ts:611-683 | a round is over when every rebuy is, and holds the table exactly if a question is still open |
| RebuyReasons.AskedAgainIff | backend/src/dealer/dealer.service.ts:611-683 | at the resume exactly those with an open question who still sit there without chips are asked again |
| RebuyReasons.HeldAs | backend/src/dealer/dealer.service.ts:642-672 | a held table waits for its dealer exactly if it still has its snapshot and no notice of the end has come |
| RebuyReasons.NoticeReleases | backend/src/dealer/dealer.service.ts:645-680 | a notice of the end, and only one in a closed tournament, lets a waiting table go |
| RebuyServices.RebuyService.ExecuteRebuyTransaction | backend/src/playsync/playsync.service.ts:1004-1047 | commits all of it, or refuses and leaves nothing |
| RebuyServices.RebuyService.WriteChips | backend/src/playsync/playsync.service.ts:791-800 | the verdict of the snapshot write, and what it writes |
| RebuyServices.RebuyService.Revert | backend/src/playsync/playsync.service.ts:899-913 | takes chips back only where there are enough, and swallows a write that does not land |
| RebuyServices.RebuyService.StillBrokeOf | backend/src/dealer/dealer.service.ts:757-764 | keeps exactly the players who are seated without chips |
| BlindClock.GetCurrentBlindLevel | backend/shared/util/util.ts:4-33 | the loop finds the first level not yet over, or stays on the last one; an empty structure throws |
| BlindClock.TimingIsUnique | backend/shared/util/util.ts:4-33 | that answer is determined by structure, base and present |
| BlindClock.LevelNeverFalls | backend/shared/util/util.ts:9-24 | as time goes on the level never falls |
| BlindClock.ShiftMovesNothing | backend/shared/util/util.ts:9-31 | shifting base and present together shifts the next level and nothing else |
| BlindClock.NextLevelIsExact | backend/shared/util/util.ts:16-22 | the level changes at the announced moment and not a millisecond before |
| PlayedTime.ClockAgainstPlayedTime | backend/src/recovery/recovery.service.ts:498-530 | over every run of pauses, racing and crashed syncs the clock never runs ahead of the milliseconds that lie in no pause, and equals them if and only if no pause overlaps another or the time before the start |
| PlayedTime.ClockIsPlayedTime | backend/src/recovery/recovery.service.ts:498-530 | where no pause is dated before the stretch of play it interrupts, the clock is exactly the milliseconds played |
| PlayedTime.ClockIsPlayedTimeIff | backend/src/recovery/recovery.service.ts:228-241 | for a running tournament the clock is the milliseconds played if and only if no pause was dated before the stretch of play it interrupted |
| PlayedTime.ResumesWhereItStopped | backend/src/recovery/recovery.service.ts:504-509 | the level at resume is the level at the pause |
| PlayedTime.CacheMatchesDatabase | backend/src/recovery/recovery.service.ts:514-521 | the base written to the cache from what was read is the one the database holds |
| PlayedTime.RacingSyncsCountOnce | backend/src/recovery/recovery.service.ts:505-510 | however many syncs have read a pause, only the first to commit ends it |
| PlayedTime.HeartbeatDatedLevelFalls | backend/src/recovery/recovery.service.ts:228-241 | a run in which a restart dates its pause by an old heartbeat: the table resumes in level 1, and the next time in level 0 |
| PlayedTime.RunKeepsColumns | backend/src/recovery/recovery.service.ts:498-530 | over every run the paused time is the total of the finished pauses |
| TournamentClocks.TournamentClock.MarkSyncing | backend/src/recovery/recovery.service.ts:134-139 | the conditional update of a running tournament only |
| TournamentClocks.TournamentClock.ReadSync | backend/src/recovery/recovery.service.ts:498-504 | reads the pause to complete, or finds none |
| TournamentClocks.TournamentClock.CompleteSync | backend/src/recovery/recovery.service.ts:505-521 | the conditional update: ends that pause and adds its length, or changes nothing |
| Outage.StepKeepsGate | backend/src/redis/outage.ts:37-115 | every event keeps waiters, `downSince` and sweeps right |
| Outage.OpensOnlyAfterAFreshSweep | backend/src/recovery/recovery.service.ts:149-178 | the gate opens only on the first connection with nothing lost, or at the end of a sweep that began after the last loss |
| Outage.NobodyIsStranded | backend/src/redis/outage.ts:43-80 | while up nobody waits, everybody who asked was called once, nobody twice; `downSince` is the first loss since the gate was up |
| Outage.ClosedWithoutASweep | backend/src/redis/outage.ts:60-115 | without a sweep that ends no sequence of losses and connections opens the gate again |
| Outage.LossIsHeard | backend/src/redis/outage.ts:87-99 | a loss closes the gate; the first of an outage starts a generation and calls everybody who asked to hear of it |
| Outage.NobodyMissesALoss | backend/src/redis/outage.ts:37-40 | over any run whoever asked to hear of a loss and has not cancelled has been called once or still waits |
| Outage.ConnectionRecovers | backend/src/redis/outage.ts:101-115 | a connection never leaves the gate down: it opens a new one and lets any other recover |
| Outage.RecoveryOpensTheGate | backend/src/recovery/recovery.service.ts:149-178 | after a connection, a sweep that runs through opens the gate and calls everybody who waits |
| Outage.CalledExactlyWhenUp | backend/src/redis/outage.ts:42-80 | whoever waits for the gate is called when it is up and at no other moment: at once, or by the event that brings it up |
| Outage.AskingCallsNobody | backend/src/redis/outage.ts:36-40 | asking to hear of a loss calls nobody, and cancelling takes exactly that waiter off |
| Outage.NotUpBeforeConnecting | backend/src/redis/outage.ts:48-53 | a process that starts unconnected is not up before its first connection, whatever happens; one that starts connected is up |
| OutageGate.RedisOutage.Lost | backend/src/redis/outage.ts:87-99 | the handler of a loss, calling each waiter once |
| OutageGate.RedisOutage.Ready | backend/src/redis/outage.ts:101-115 | the handler of a connection |
| OutageGate.RedisOutage.Recovered | backend/src/redis/outage.ts:60-66 | opens a recovering gate and releases its waiters |
| OutageGate.RedisOutage.ReleaseUpWaiters | backend/src/redis/outage.ts:76-80 | empties the waiters and calls each of them |
| OutageGate.RedisOutage.WaitForDown | backend/src/redis/outage.ts:37-40 | waits for the next loss |
| OutageGate.RedisOutage.WaitForUp | backend/src/redis/outage.ts:43-46 | answers at once while up, and waits otherwise |
| Batched.EveryRequestOnce | backend/src/common/batched.ts:15-38 | at most one load runs, every request is in exactly one place once, and every answer is to its own key from a load that started after it |
| Batched.TwoLoadsAtMost | backend/src/common/batched.ts:19-31 | a request is settled by the end of the load under way and the next one |
| Batched.StepKeepsIds | backend/src/common/batched.ts:19-37 | no request is lost or duplicated by any event |
| Batched.StepKeepsLoader | backend/src/common/batched.ts:19-37 | every event keeps one load at a time and every answer fresh |
| Batched.LoadAnswersItsBatch | backend/src/common/batched.ts:24-29 | the end of a load answers exactly its batch: each request with its own key's value, or all of them with a rejection |
| Batched.NextLoadTakesAll | backend/src/common/batched.ts:19-31 | the next load takes everybody who waits, in their order, and starts at once |
| Batched.RequestIsQueued | backend/src/common/batched.ts:34-37 | a request starts a load exactly when none is running, and is the last to wait otherwise |
| BatchingLoaders.BatchingLoader.Request | backend/src/common/batched.ts:34-37 | pushes the request, and starts the loop when it is idle |
| BatchingLoaders.BatchingLoader.DrainOn | backend/src/common/batched.ts:21-32 | one turn of the loop |
| BatchingLoaders.BatchingLoader.LoadEnds | backend/src/common/batched.ts:24-29 | settles the batch index by index and goes on |
| Occupants.HandKeepsOccupants | backend/src/game-engine/table-engine.ts:19-623 | no event of a hand moves a player to another seat or puts a new one in |
| SeatClaims.WritesOnlyItsOwnRow | backend/src/entry/entry.service.ts:287-370 | a claim writes one seat, only while its row is the claimant's, folded unless the table waits |
| SeatClaims.ReentryKeepsTheHand | backend/src/entry/entry.service.ts:329-370 | a claim by the player who sits there changes nothing |
| SeatClaims.NewOwnerIsSafe | backend/src/entry/entry.service.ts:303-311 | no claim writes over the user of a row |
| SeatClaims.WriteBringsTheStack | backend/src/entry/entry.service.ts:314-366 | a claim that writes overwrites nobody with chips and brings exactly its stack |
| ClaimSteps.EntryBeginsIff | backend/src/entry/entry.service.ts:54-72 | an entry begins exactly for a participation that is there and not finished, in an open tournament |
| ClaimSteps.SeatRowPassedIff | backend/src/entry/entry.service.ts:80-89 | it passes its seat row exactly if the user has none or the one of this seat |
| ClaimSteps.RowsAreCounted | backend/src/entry/entry.service.ts:189-198 | the seat rows of the table are counted once, as they are at that moment |
| ClaimSteps.SnapshotPassedIff | backend/src/entry/entry.service.ts:213-216 | it is held up exactly where there are seat rows and no snapshot |
| ClaimSteps.RowWrittenIff | backend/src/entry/entry.service.ts:218-281 | a row is written exactly if seat and user are without one, and the participation is then playing unless it has finished |
| ClaimSteps.SeatWrittenIff | backend/src/entry/entry.service.ts:287-370 | the seat is written exactly if its row is the user's and the user is not there yet, with the stack that was read |
| ClaimSteps.FirstSeatMakesTheTable | backend/src/entry/entry.service.ts:310-313 | without a snapshot the first seat makes an empty table of nine, unless the snapshot has been lost |
| ClaimSteps.EliminationIs | backend/src/playsync/playsync.service.ts:542-585 | an elimination takes out exactly those seated without chips, from rows and participations alike |
| ClaimSteps.HandFinishes | backend/src/dealer/dealer.service.ts:890-910 | the end of a hand is an elimination and the next table: whoever has chips keeps seat and stack with no marks, and every other seat is empty |
| ClaimSteps.KickIs | backend/src/dealer/dealer.service.ts:437-461 | a kick finishes the participation it names, and leaves its row and everybody else alone |
| SeatClaims.StepKeepsClaims | backend/src/entry/entry.service.ts:50-370 | every step in which no elimination overtakes an entry keeps the snapshot's seats backed by the rows, and whoever is out stays out |
| SeatClaims.RunKeepsClaims | backend/src/entry/entry.service.ts:50-370 | so does any such interleaving of claims, hands, eliminations and kicks |
| SeatReturns.ReturnsIff | backend/src/entry/entry.service.ts:50-281 | from any world in which a user is eliminated and has no seat, some course of events gives that user a row again if and only if an entry of theirs that passed the status check is under way and its seat can be had |
| SeatReturns.EliminatedStaysOut | backend/src/entry/entry.service.ts:50-370 | with no entry under way an elimination is final: over every run no row and no write into a seat |
| SeatReturns.EntryAloneRevivesIff | backend/src/entry/entry.service.ts:76-281 | the rest of such an entry gives its user a row if and only if the seat has none and the snapshot does not hold it up |
| SeatReturns.RevivedWithTheOldStack | backend/src/entry/entry.service.ts:287-370 | it then writes the user into the seat with the stack it read before the elimination |
| SeatReturns.RunKeepsRows | backend/src/entry/entry.service.ts:218-281 | over every run a user has at most one row in the tournament and a seat at most one user |
| LateEntry.LateEntryRevives | backend/src/entry/entry.service.ts:50-370 | a run from a fresh table that revives an eliminated player: the participation is read before the hand that busts its user and the seat row after it |
| LateEntry.HeadsUpDealt | backend/src/game-engine/table-engine.ts:457-521 | blinds that cover both stacks put both players all-in, whoever has the button |
| LateEntry.UnnamedWinsNothing | backend/src/game-engine/table-engine.ts:256-261 | whoever no tier names wins nothing |
| SeatDesks.SeatDesk.ReadSeat | backend/src/entry/entry.service.ts:80-89 | the read of the seat row: the claim goes on, or a conflict |
| SeatDesks.SeatDesk.CommitRow | backend/src/entry/entry.service.ts:218-281 | the transaction: row and participation, or a conflict |
| SeatDesks.SeatDesk.WriteSeat | backend/src/entry/entry.service.ts:287-370 | the locked half: the seat, or a conflict |

## Left out

- Nicknames, seat and table ids inside a player, avatars, and the tournament id of a snapshot: carried along, never read by the modelled code.
- Error texts and logging: a refusal is a constructor, its wording is not modelled.
- Raise amounts that are not integers: they are the missing amount, which the engine refuses in the same way.
- Table sizes: the engine and its theorems hold for any number of seats; only the empty snapshot of `SeatClaims` has nine.
- Engine.TableEngine.FindOverachiever: finds in one pass what the source finds by sorting the contributions; the result is the same.
- A table without a snapshot in the turn clock: every callback of it throws or returns without writing.
- A user whose account is gone: the points read then throws out of the round, `playsync.service.ts:773`; in `Rebuys` such a user has no points and is skipped.
- The refusal to deal during a break and the ante derived from a level's blind, `dealer.service.ts:294-318`: blind and ante are parameters of the deal.
- Writes lost between a scheduled job and its snapshot, and writes that land after their call has failed: excluded by the assumptions above.
- The kick's participation update inside the dealer callback: it is an event of `LedgerRuns` and of `SeatClaims`, and in `TurnTimer` only its mark.
- `checkAndSyncBlindLevel`, `mirrorAfterCommit`, the seat bitmap, user contexts, average stacks and the dashboard: derived values that the modelled code rewrites as a whole.
- Releasing a seat, cancelling, aborting and completing a tournament, and payments: `session.service.ts` and `payment.service.ts` are not part of this model.
- The reconstruction of lost snapshots at boot, the seat bitmap repair and the removal of orphaned rows.
- `rebuyTimeoutMs`, back-off durations and jitter: a retry is a choice, its timing is not modelled.
- The gateway's counting of returning devices, which decides when a syncing tournament may resume.
- LinePause: its generation and its mark are fields of the worlds in `TurnTimer` and `Rebuys`, not a class of their own.
- Several processes: as in the source there is one.
