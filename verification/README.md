# LivePoly in Dafny

A model of the LivePoly game engine, a Monopoly-style state machine, and of the services around it
that keep it consistent: the turn timer, the bots, the compare-and-set state store, the rate
limiter, the token lock, and the final ranking and rating. `dafny verify dfyconfig.toml` checks
everything.

How the model reads the program:

- The engine takes a state, a clock reading and one of 21 intents and returns the next state or an
  error; an error leaves the caller with the state it had. Dice, time and trade ids are inputs.
- Every operation takes the board and the two decks as a value, so the results hold for any
  well-formed board: positive even house costs, an unmortgage cost of one tenth over the mortgage
  value rounded up (or one more, since the program rounds in floating point), card targets that
  exist, and one card in each deck that is not a jail card. Any number of players sits on distinct
  seats.
- A player is identified by position in the players list, a tile by its place on the board, a card
  by deck and position. An id not in the game is a number past the end.
- Operations the program writes with loops or in-place changes are methods or classes (`method`
  `ResolveDebtAutomatically`, `FindNextBidder`, `LiquidateTradeBuildings`, `ShuffleInPlace`,
  `BuildBotPlayers`, `Update`, classes `StateKey`, `LimiterKeys`, `LockKey`), each proved equal to
  a function; what the program promises is then proved about the functions.

Layout: `Rules`, `State`, `Sorting`, `Money`, `Turns`, `CardDecks`, `Landing`, `Properties`,
`Auctions`, `Trades`, `AutoDebt`, `Engine` are the operations. `Invariant` states what every
reachable state satisfies; `RollProof`, `Preservation`, `TradeProof`, `BankruptcyProof`, `Runs`
prove it over every run, from the start given in `Shuffle` and `Start`. `Outcomes`, `RollOutcomes`,
`CardOutcomes`, `ManagingOutcomes` and `TradeOutcomes` say exactly what single operations come to.
`AuctionRounds`, `AuctionRuns`, `Solvency`, `SplitDebt`, `NetWorth`, `Sets`, `Frames`, `JailTerms`,
`Timer`, `Abandoned`, `Bots` hold the further results, `Limits` the cases where a guarantee stops,
as games on the board of `SmallTable`. `Ranking`, `Rating`, `Store`, `Sessions`, `RateLimit`,
`Lock` are the smaller services.

Where the code does less than one might expect, the model follows the code, and the exact condition
is proved:

- An accepted trade liquidates the traded tiles only, so a built set can end up split between
  owners: `Sets.TradeKeepsSetsIff` says exactly when, `Limits.TradeCanSplitASet` shows one.
- A split set makes automatic debt resolution throw for some amounts, and only a split set does:
  `Solvency.AutoResolveNeverThrowsIff`; `SplitDebt.SplitResolveExact` says for which amounts, and
  `Limits.SplitSetBlocks` shows a game where it happens.
- A creditor can go bankrupt while a debt is open, and then an insolvent debtor is stuck, timer
  included: `Solvency.AutoResolveExact`, `Limits.BankruptCreditorBlocks`, `Limits.CreditorCanLeave`.
- The highest bidder of an auction can go bankrupt or trade the cash away, and then the pass that
  would settle the auction is refused, timer included: `Timer.PassAcceptedIff`,
  `Limits.BidderCanLeave`.
- The two jail intents have no phase check: `Outcomes.FineExit` and `Outcomes.CardExit` say when they
  are accepted, in any phase, and `Runs.FinishedAcceptsOnlyJail` that nothing else is after the end.
- A callback that outlives the lock's time to live can overlap with the next: `Lock.OverrunOverlaps`.

## Model

| member | source | states |
|---|---|---|
| `Money.TransferConserves` | src/game/engine/game-engine-money.ts:68-77 | a transfer is accepted exactly when the payer can pay, and total cash stays the same |
| `Outcomes.TransferOutcome` | src/game/engine/game-engine-money.ts:9-77 | a transfer is accepted if and only if both players exist and the payer has the amount; it moves exactly that amount between the two and touches nothing else |
| `RollProof.CollectOutcome` | src/game/engine/game-engine-cards.ts:476-502 | collecting from every other player never throws part-way for any number of players, conserves total cash, and takes from each active player the amount or all they have |
| `RollProof.PayEachOutcome` | src/game/engine/game-engine-cards.ts:504-543 | paying every other player never throws part-way once the sum is at hand, conserves total cash, and gives each active player exactly the amount |
| `RollProof.DueIsProduct` | src/game/engine/game-engine-cards.ts:504-543 | the sum the payer is checked for is what the single payments add up to |
| `RollProof.RentLanded` | src/game/engine/game-engine-rent.ts:17-69 | landing on an owned tile is always settled: rent paid, nothing owed, or a fresh debt to an active owner |
| `RollProof.TaxLanded` | src/game/engine/game-engine-tax.ts:11-39 | a tax is always settled: paid, or a fresh debt to the bank |
| `RollProof.NearestIsNearest` | src/game/engine/game-engine-cards.ts:703-742 | whenever the board has a tile of the kind ahead, the search finds one, and no other is nearer |
| `RollProof.CardMoveLanded` | src/game/engine/game-engine-cards.ts:583-701 | a card that moves the player finds its target and what follows there is settled |
| `RollProof.DrawLanded` | src/game/engine/game-engine-cards.ts:319-474 | drawing never meets an empty deck or unknown card, and what the drawn card leads to is settled, jail cards included |
| `CardOutcomes.DrawOutcome` | src/game/engine/game-engine-cards.ts:372-407 | a deck is a queue: its first card is drawn and, unless it is a jail card, goes to the end; nothing else changes |
| `CardOutcomes.CardOutcome` | src/game/engine/game-engine-cards.ts:409-701 | every card is accepted and does exactly what its effect says: the amounts collected, paid or owed, the hand, jail, the repairs, and for moves the target, the bonus and what the tile there asks for |
| `CardOutcomes.RepairsCount` | src/game/engine/game-engine-cards.ts:545-581 | the repair bill is houses times the house amount plus hotels times the hotel amount, counted as sets |
| `CardOutcomes.TargetOutcome` | src/game/engine/game-engine-cards.ts:703-742 | a card names the tile itself, the tile so many places on around the board, or a nearest tile of the kind |
| `CardOutcomes.DrawnCardOutcome` | src/game/engine/game-engine-cards.ts:319-351 | landing on a card tile draws the first card of that deck's queue and does what it says |
| `RollOutcomes.ThirdDoubleJails` | src/game/engine/game-engine-movement.ts:46-73 | a third double in a row sends the player to jail and changes nothing else, wherever the dice would have led |
| `RollOutcomes.DoublesOutcome` | src/game/engine/game-engine-dice.ts:7-33 | a first or second double that ends neither in jail nor in debt counts and gives another roll; a roll without a double gives none and starts the count anew |
| `RollOutcomes.FreeRollOutcome` | src/game/engine/game-engine-movement.ts:75-217 | any other free roll goes forward by the dice, is paid the bonus exactly when passing the start, and settles the tile reached by what that tile asks for |
| `RollOutcomes.LandingOutcome` | src/game/engine/game-engine-movement.ts:154-217 | each kind of tile: jail, tax charged or owed exactly, a card drawn, a purchase decision, rent, or nothing |
| `RollOutcomes.FailedJailRoll` | src/game/engine/game-engine-jail.ts:54-213 | a first or second failed roll from jail adds one to the term and does nothing else |
| `RollOutcomes.UnpaidJailRoll` | src/game/engine/game-engine-jail.ts:54-213 | the third one without the money leaves exactly the fine owed |
| `RollOutcomes.JailExitRoll` | src/game/engine/game-engine-jail.ts:54-213 | a double, or the third roll with the fine at hand, takes the player out and forward by the dice, settles the tile reached and gives no further roll |
| `RollProof.JailRollOutcome` | src/game/engine/game-engine-jail.ts:54-213 | a roll from jail is accepted and settled in all of its cases and never gives another roll |
| `RollProof.RollOutcome` | src/game/engine/game-engine-movement.ts:21-39 | the turn holder's roll is accepted with any valid dice; it ends in turn end, a purchase decision on an unowned tile, or a debt the roller cannot pay from cash and that is owed to the bank or an active player |
| `Outcomes.RentOutcome` | src/game/engine/game-engine-rent.ts:17-164 | no landlord, no change; an affordable rent goes to the landlord exactly, conserving total cash; otherwise exactly the rent is owed; and the rent is what the tile's own data names for its level, its set, or the number of the landlord's tiles of the kind |
| `Outcomes.CountIsCardinality` | src/game/engine/game-engine-rent.ts:141-164 | the count behind airport and utility rents is the size of the set of the landlord's tiles of the kind |
| `Outcomes.BuildingRaisesRent` | src/game/engine/game-engine-rent.ts:71-112 | on a street whose rents ascend, building never lowers the rent |
| `Outcomes.MoveExact` | src/game/engine/game-engine-movement.ts:90-217 | the player goes forward by the dice around the board, gets the passing bonus exactly when passing the start, and is offered the tile exactly when nobody owns it |
| `Outcomes.FineExit` | src/game/engine/game-engine-jail.ts:215-250 | in any phase, the fine is accepted if and only if the jailed turn holder can pay it; it costs exactly the fine and changes nothing else |
| `Outcomes.CardExit` | src/game/engine/game-engine-jail.ts:252-310 | in any phase, a jail card is accepted if and only if the jailed turn holder holds one; the first one goes to its own deck's discard pile and nothing else changes |
| `JailTerms.StepKeepsTerms` | src/game/engine/game-engine-jail.ts:54-213 | every intent keeps this: while the game is on, whoever has failed three jail rolls and is still in jail owes the fine |
| `JailTerms.AtMostThreeJailRolls` | src/game/engine/game-engine-jail.ts:54-213 | in every game, whoever rolls from jail has failed at most twice before |
| `Frames.StepCalm` | src/game/engine/game-engine-intents.ts:116-184 | no intent but a roll or a proposal opens an offer, changes a player's type, sends anybody to jail or lengthens a term |
| `Ranking.ActiveIsSeatOrder` | src/game/engine/game-engine-turns.ts:58-82 | the players in turn order are exactly the active ones by ascending seat, and theirs is the only such list |
| `Turns.NextActiveIsNextSeat` | src/game/engine/game-engine-turns.ts:58-82 | passing the turn always succeeds and goes to the next higher active seat, or the lowest one |
| `Turns.NextAfterBankruptcyIsNextSeat` | src/game/engine/game-engine-bankruptcy.ts:221-238 | so does the separate search used after a bankruptcy |
| `BankruptcyProof.BankruptcyPassesTurn` | src/game/engine/game-engine-bankruptcy.ts:99-131 | when the turn holder goes bankrupt and the game goes on, the turn passes to the very player ending the turn would have chosen just before |
| `CardDecks.DrawConserves` | src/game/engine/game-engine-cards.ts:372-407 | drawing succeeds, takes a card of that deck and keeps every card in exactly one place |
| `CardDecks.DrawnDeckIsNotEmpty` | src/game/engine/game-engine-cards.ts:372-407 | draw and discard pile of a deck are never both empty, since only jail cards are held |
| `CardDecks.ReturnConserves` | src/game/engine/game-engine-jail.ts:252-310 | giving back a held card keeps every card in exactly one place |
| `CardDecks.ReturnAllConserves` | src/game/engine/game-engine-bankruptcy.ts:164-202 | giving back a whole hand does too, for any hand |
| `Shuffle.OneChangeChangesEveryRound` | src/game/engine/game-engine-cards.ts:800-818 | two seeds that differ in a single code unit never draw the same random value in the same round of the shuffle: neither the 32-bit hash nor the random source ever merges two values |
| `Shuffle.HashStepLosesNothing` | src/game/engine/game-engine-cards.ts:800-809 | from the result of a hash step and either of its inputs the other can be recovered, wrap-around included |
| `Shuffle.NextRandom` | src/game/engine/game-engine-cards.ts:811-818 | the three shifts can be undone, so no two values of the random source have the same successor |
| `Shuffle.ShuffleInPlace` | src/game/engine/game-engine-cards.ts:783-798 | the in-place swaps compute the specified shuffle and keep the multiset of cards |
| `Shuffle.ShufflePermutes` | src/game/engine/game-engine-cards.ts:783-818 | whatever the random source yields, shuffling only reorders |
| `Shuffle.InitialCards` | src/game/engine/game-engine-cards.ts:295-317 | for every seed a new game holds every card exactly once |
| `Start.BuildBotPlayers` | src/rooms/services/rooms-game.service.ts:254-288 | bots take exactly the free seats, so that every seat of the table is taken |
| `Start.BotSeats` | src/rooms/services/rooms-game.service.ts:273-285 | a seat gets a bot if and only if it is on the table and free |
| `Start.LineUpOk` | src/rooms/services/rooms-game.service.ts:93-122 | ranked or casual, a game starts with at least two players on distinct seats, one of them human |
| `Start.StartHolds` | src/rooms/services/rooms-game.service.ts:300-359 | the initial state satisfies the game invariant for every lobby, seed and duration |
| `Start.StartOutcome` | src/rooms/services/rooms-game.service.ts:300-359 | everybody starts with the same cash on the same tile, the player on the lowest seat moves first, the bank owns every tile, and the game ends the chosen minutes later |
| `Start.EveryGameIsSafe` | src/game/engine/game-engine-intents.ts:116-184 | after any intents at any times in any game: no negative cash, owners are active players, unowned tiles are bare, no mortgage beside a building, every card in one place, phase and open items agree, and an unfinished game has an active turn holder, two active players and an active human |
| `Runs.ReduceKeeps` | src/game/engine/game-engine-intents.ts:116-184 | every accepted intent of the 21 keeps the whole invariant |
| `Runs.FinishedAcceptsOnlyJail` | src/game/engine/game-engine-jail.ts:215-310 | after the end only the two jail intents without a phase check are accepted, and they change players and decks only |
| `Runs.FinishedStaysFinished` | src/game/engine/game-engine-assertions.ts:84-97 | a finished game stays finished over any further intents, with tiles, turn and turn holder unchanged |
| `Runs.StepSpends` | src/game/engine/game-engine-dice.ts:7-33 | the turn number never falls, a roll uses up one of the rolls left and nothing else adds any within the turn |
| `Runs.AtMostThreeRollsPerTurn` | src/game/engine/game-engine-dice.ts:7-33 | over any game, at most three accepted rolls share a turn number |
| `Preservation.RollKeeps` | src/game/engine/game-engine-movement.ts:21-217 | a roll keeps the invariant |
| `Preservation.BuyKeeps` | src/game/engine/game-engine-properties.ts:45-101 | buying keeps the invariant |
| `ManagingOutcomes.BuyOutcome` | src/game/engine/game-engine-properties.ts:45-101 | buying is accepted if and only if the turn holder has a decision open and the price at hand; it is the tile for exactly its price |
| `ManagingOutcomes.BuildOutcome` | src/game/engine/game-engine-buildings.ts:14-86 | building is accepted if and only if it is the turn end and the street is a lowest one, below a hotel, of a whole set without a mortgage, with the house price at hand; it is one level for exactly that price |
| `ManagingOutcomes.SellOutcome` | src/game/engine/game-engine-buildings.ts:88-150 | selling is accepted, at the turn end or in debt, if and only if the street is a highest one with a building of a whole set; it is one level for half the house price |
| `ManagingOutcomes.MortgageOutcome` | src/game/engine/game-engine-mortgage.ts:22-62 | mortgaging is accepted, at the turn end or in debt, if and only if the tile is the turn holder's, unmortgaged and without a building in its set; it pays the mortgage value |
| `ManagingOutcomes.UnmortgageOutcome` | src/game/engine/game-engine-mortgage.ts:64-99 | lifting a mortgage is accepted if and only if it is the turn end and the cost is at hand, which is the mortgage value and a tenth, rounded up or one more |
| `ManagingOutcomes.EndTurnOutcome` | src/game/engine/game-engine-turns.ts:9-56 | ending the turn is accepted if and only if it is the turn holder's turn end; after a double the same player rolls again, otherwise it is the next active seat's turn |
| `ManagingOutcomes.BidAcceptedIff` | src/game/engine/game-engine-auctions.ts:90-152 | a bid is accepted if and only if it is the bidder's turn, the amount is at least ten and above the standing bid, and the cash is at hand |
| `Preservation.BuildKeeps` | src/game/engine/game-engine-buildings.ts:14-86 | building keeps the invariant |
| `Preservation.SellKeeps` | src/game/engine/game-engine-buildings.ts:88-150 | selling keeps the invariant |
| `Preservation.MortgageKeeps` | src/game/engine/game-engine-mortgage.ts:22-62 | mortgaging keeps the invariant, in particular no building beside a mortgage |
| `Preservation.UnmortgageKeeps` | src/game/engine/game-engine-mortgage.ts:64-99 | lifting a mortgage keeps the invariant |
| `Preservation.FineKeeps` | src/game/engine/game-engine-jail.ts:215-250 | paying the fine keeps the invariant and the phase |
| `Preservation.CardKeeps` | src/game/engine/game-engine-jail.ts:252-310 | using a jail card keeps the invariant and the phase |
| `Preservation.EndTurnKeeps` | src/game/engine/game-engine-turns.ts:9-56 | ending a turn keeps the invariant |
| `Preservation.FinishKeeps` | src/game/engine/game-engine-finish.ts:14-78 | both endings close everything open and keep the invariant |
| `ManagingOutcomes.FinishOutcome` | src/game/engine/game-engine-finish.ts:14-120 | a game is finished by time if and only if it is on and its time has run out, after the last human left if and only if it is on; everything open is closed |
| `Preservation.PayDebtKeeps` | src/game/engine/game-engine-debt.ts:10-65 | paying a debt keeps the invariant and leads to the turn end |
| `Preservation.DeclineKeeps` | src/game/engine/game-engine-auctions.ts:18-88 | declining keeps the invariant |
| `Outcomes.DeclineOutcome` | src/game/engine/game-engine-auctions.ts:18-88 | declining is accepted if and only if the turn holder has a decision open, and opens an auction of that tile among all active players in seat order |
| `Preservation.BidKeeps` | src/game/engine/game-engine-auctions.ts:90-152 | a bid keeps the invariant, whether it goes on or settles the auction |
| `Preservation.PassKeeps` | src/game/engine/game-engine-auctions.ts:154-200 | a pass keeps the invariant, whether it goes on or settles the auction |
| `Preservation.WinnerIsActive` | src/game/engine/game-engine-auctions.ts:202-243 | whoever can pay the standing bid is an active player, even after bankruptcies during the auction |
| `Preservation.SettleKeeps` | src/game/engine/game-engine-auctions.ts:202-268 | settling hands the tile to an active player or leaves it unowned |
| `Auctions.PositionIsModulus` | src/game/engine/game-engine-auctions.ts:367-374 | the program's modulus is that place |
| `Auctions.FindNextBidder` | src/game/engine/game-engine-auctions.ts:354-391 | the loop finds the first bidder around the table who has not passed, or none when only the highest bidder is left |
| `AuctionRounds.BidKeepsRing` | src/game/engine/game-engine-auctions.ts:90-152 | after a bid the turn goes to the next bidder who remains; with nobody else remaining there is none |
| `AuctionRounds.PassKeepsRing` | src/game/engine/game-engine-auctions.ts:154-200 | after a pass everybody between the highest bidder and the current bidder has passed, so the turn never reaches the highest bidder |
| `AuctionRounds.UnpassedAfterPass` | src/game/engine/game-engine-auctions.ts:154-200 | a pass takes exactly one bidder out |
| `AuctionRuns.BidMove` | src/game/engine/game-engine-auctions.ts:90-152 | a bid leaves fewer moves or sells the tile to the bidder for that amount |
| `AuctionRuns.PassMove` | src/game/engine/game-engine-auctions.ts:154-200 | a pass leaves fewer moves or sells the tile to the standing highest bidder, or to nobody |
| `AuctionRuns.AuctionEnds` | src/game/engine/game-engine-auctions.ts:90-268 | any sequence of bids and passes has at most bidders plus largest cash moves, and all it changes is the tile's owner and the winner's cash, which covered the bid of at least ten |
| `BankruptcyProof.BankruptcyOutcome` | src/game/engine/game-engine-bankruptcy.ts:15-219 | every tile goes bare to the creditor named, else to the creditor of the own debt, else to nobody; the player leaves empty-handed, nobody else is touched; the game ends exactly when at most one active player or no active human is left; otherwise the turn passes if it was the player's, and else everything open stays |
| `BankruptcyProof.BankruptcyAccepted` | src/game/engine/game-engine-bankruptcy.ts:15-45 | a declaration is accepted if and only if the game is on, the player is active, and the creditor is the bank or another active player |
| `BankruptcyProof.BankruptcyKeeps` | src/game/engine/game-engine-bankruptcy.ts:15-131 | bankruptcy keeps the invariant in all three outcomes |
| `BankruptcyProof.AutoResolveKeeps` | src/game/engine/game-engine-auto-debt.ts:17-75 | automatic resolution keeps the invariant |
| `AutoDebt.BuildingToSell` | src/game/engine/game-engine-auto-debt.ts:96-115 | the building picked is the debtor's and none is taller; there is none only if the debtor has no building |
| `AutoDebt.TileToMortgage` | src/game/engine/game-engine-auto-debt.ts:117-166 | the tile picked is the first the debtor can mortgage; there is none only if nothing can be mortgaged |
| `AutoDebt.SellDecreases` | src/game/engine/game-engine-auto-debt.ts:26-37 | every sale of the loop leaves less to liquidate, which is why the loop ends |
| `AutoDebt.MortgageDecreases` | src/game/engine/game-engine-auto-debt.ts:39-52 | so does every mortgage |
| `AutoDebt.ResolveDebtAutomatically` | src/game/engine/game-engine-auto-debt.ts:17-75 | the while loop with its final payment or bankruptcy computes the recursive specification, errors included |
| `Solvency.RaiseOutcome` | src/game/engine/game-engine-auto-debt.ts:26-56 | with own buildings in whole sets the loop never throws, keeps the total that can be raised, and stops able to pay or with everything turned into cash |
| `Solvency.PayDebtOutcome` | src/game/engine/game-engine-debt.ts:10-65 | paying moves exactly the debt from debtor to creditor or bank and nothing else |
| `Solvency.AutoResolveExact` | src/game/engine/game-engine-auto-debt.ts:17-141 | the debt is paid, without any tile changing hands, exactly when cash plus building sales plus mortgages reach it; otherwise the debtor goes bankrupt, accepted exactly when the creditor is the bank or active, and every tile goes bare to that creditor |
| `Solvency.SplitNeverSold` | src/game/engine/game-engine-buildings.ts:88-150 | a building in a split set is never sold, so a debt beyond the total makes the loop throw |
| `Solvency.AutoResolveNeverThrowsIff` | src/game/engine/game-engine-auto-debt.ts:17-141 | resolution succeeds for every amount owed to the bank if and only if each building of the debtor stands in a set the debtor owns whole |
| `SplitDebt.SplitResolveExact` | src/game/engine/game-engine-auto-debt.ts:17-115 | with a split set, the debt is paid exactly when it is at most cash plus what the whole sets bring in before the first split building comes up for sale, and otherwise resolution throws, whoever the creditor |
| `SplitDebt.EveryDebtIsDecided` | src/game/engine/game-engine-auto-debt.ts:17-141 | for every debt and every holding, one number fixed in advance decides whether resolution is accepted |
| `NetWorth.BuyIsNeutral` | src/game/engine/game-engine-derived-state.ts:134-170 | buying at list price leaves everybody's net worth unchanged |
| `NetWorth.SaleIsNeutral` | src/game/engine/game-engine-derived-state.ts:134-170 | so does selling a building |
| `NetWorth.MortgageIsNeutral` | src/game/engine/game-engine-mortgage.ts:22-62 | so does mortgaging |
| `NetWorth.RaisingIsNeutral` | src/game/engine/game-engine-auto-debt.ts:26-56 | so does the whole cash-raising loop |
| `NetWorth.SolventResolutionMovesWorth` | src/game/engine/game-engine-auto-debt.ts:58-65 | a solvent resolution moves exactly the debt from the debtor's net worth to the creditor's |
| `NetWorth.TradePreservesNetWorth` | src/game/engine/game-engine-trades.ts:183-253 | a validated trade never fails, preserves the two parties' combined net worth exactly and leaves everybody else's unchanged |
| `Trades.OwnershipError` | src/game/engine/game-engine-trades.ts:381-398 | the check passes if and only if every named tile is ownable and belongs to the party |
| `Trades.LiquidateTradeBuildings` | src/game/engine/game-engine-trades.ts:400-440 | the loop over the traded tiles computes its specification, errors included |
| `Trades.LiquidationOutcome` | src/game/engine/game-engine-trades.ts:400-440 | liquidation never fails, clears exactly the named tiles and credits half their building costs |
| `Trades.SetCompletionValue` | src/game/engine/game-engine-trades.ts:500-551 | the two loops compute the prices of the sets the incoming tiles complete |
| `TradeProof.AcceptOutcome` | src/game/engine/game-engine-trades.ts:183-253 | the closed form of an accepted trade: cash of two players, owner and buildings of the traded tiles, nothing else, and no negative cash |
| `TradeProof.AcceptKeeps` | src/game/engine/game-engine-trades.ts:108-122 | accepting keeps the invariant and the phase, in whatever phase it happens |
| `TradeProof.ProposeKeeps` | src/game/engine/game-engine-trades.ts:29-106 | proposing keeps the invariant, whether a bot answers at once or a human is asked |
| `TradeOutcomes.ProposeOutcome` | src/game/engine/game-engine-trades.ts:29-106 | when a proposal is accepted (both directions), and that it opens an offer to a human while a bot refuses or carries it out at once |
| `TradeOutcomes.BetterOfferIsAccepted` | src/game/engine/game-engine-trades.ts:467-596 | a bot that accepts an offer accepts every offer of more cash and tiles for less cash and fewer tiles |
| `Sets.BuildKeepsSets` | src/game/engine/game-engine-buildings.ts:176-219 | building keeps every built set under one owner with levels within one |
| `Sets.SellKeepsSets` | src/game/engine/game-engine-buildings.ts:221-244 | so does selling |
| `Sets.BankruptcyKeepsSets` | src/game/engine/game-engine-bankruptcy.ts:204-219 | so does bankruptcy |
| `Sets.AutoResolveKeepsSets` | src/game/engine/game-engine-auto-debt.ts:17-75 | so does automatic debt resolution |
| `Sets.TradeKeepsSetsIff` | src/game/engine/game-engine-trades.ts:183-253 | an accepted trade keeps it if and only if no building is left standing in a traded tile's set |
| `Sets.StepKeepsSetsIff` | src/game/engine/game-engine-intents.ts:116-184 | an accepted intent of any kind keeps it if and only if it carries out no trade that leaves a building behind; proposals merely opened or refused carry out none |
| `Sets.RunKeepsSetsIff` | src/game/engine/game-engine-intents.ts:116-184 | over any run, all states have their sets in order if and only if no step carried out such a trade |
| `Start.EveryGameKeepsSetsIff` | src/game/engine/game-engine-trades.ts:183-253 | the same for every game from its start |
| `Limits.TradeCanSplitASet` | src/game/engine/game-engine-trades.ts:400-440 | a game of concrete rolls, purchases, a build and an accepted trade that splits a built set |
| `Limits.SplitSetBlocks` | src/game/engine/game-engine-buildings.ts:88-150 | that game continued to a tax: automatic resolution, which is what the timeout chooses, is refused |
| `Limits.BankruptCreditorBlocks` | src/game/engine/game-engine-bankruptcy.ts:139-158 | with a bankrupt creditor and too little to raise, paying, automatic resolution and plain bankruptcy are all refused |
| `Limits.CreditorCanLeave` | src/game/engine/game-engine-bankruptcy.ts:86-97 | a game of concrete steps in which a creditor goes bankrupt, after which the debtor's timeout, payment and bankruptcy are all refused |
| `Limits.BidderCanLeave` | src/game/engine/game-engine-auctions.ts:154-243 | a game of concrete steps in which the highest bidder goes bankrupt, after which the pass timeout that would settle the auction is refused |
| `Timer.PassAcceptedIff` | src/game/engine/game-engine-auctions.ts:154-243 | the current bidder's pass is accepted if and only if it does not settle the auction or the highest bidder, if any, can still pay |
| `Timer.CommandIsStep` | src/game/commands/game-commands.service.ts:343-383 | a command from any source is one engine step, or the end of an expired game, plus missed-turn bookkeeping, and keeps the invariant |
| `Timer.SourceOutcome` | src/game/commands/game-commands.service.ts:473-504 | a player's own command wipes that player's missed turns, a timer roll counts the turn as missed once, and nothing else counts or wipes anything |
| `Timer.FiredProgress` | src/game/timers/game-turn-timer-policy.service.ts:14-110 | every due timeout chooses an intent, the engine accepts it, and it makes progress |
| `Timer.TimeoutStep` | src/game/timers/game-turn-timer-policy.service.ts:14-110 | the executed timeout leads to a state from which timeouts keep working |
| `Timer.TimeoutsFinishTheTurn` | src/game/timers/game-turn-timer-policy.service.ts:14-110 | with only timeouts acting from a turn start without split sets, fewer than 3(n + 3) of them share the turn, and the next one is always accepted |
| `Abandoned.TimeoutBankruptsIff` | src/game/timers/game-turn-timer-policy.service.ts:14-124 | before the time is up, a due timeout makes a player bankrupt if and only if it is the turn holder, with a debt beyond what can be raised, or a human with two missed turns and no debt |
| `Abandoned.TimeoutLowersRank` | src/game/timers/game-turn-timer-policy.service.ts:112-124 | every due timeout ends the game or lowers a rank made of the humans' missed turns left, the active players, the turns until a human's turn and the timeouts left in the turn |
| `Abandoned.AbandonedGamesFinish` | src/game/timers/game-turn-timer-policy.service.ts:14-124 | a game nobody attends to finishes by timeouts alone, from any lobby and with any dice, within a number of timeouts that depends on the number of players only |
| `Bots.BidAmount` | src/game/bots/game-bot.service.ts:567-592 | a bot's bid lies between the minimum, its own maximum and what its reserve allows |
| `Bots.BuildCandidates` | src/game/bots/game-bot.service.ts:344-414 | the loops over the sets collect exactly the tiles a bot may build on |
| `Bots.BotIntentAccepted` | src/game/bots/game-bot.service.ts:53-131 | without split sets, with an active creditor and a highest bidder able to pay, every intent a bot may choose is accepted |
| `Bots.BotDecisionSpends` | src/game/bots/game-bot.service.ts:88-127 | every decision at the turn end short of ending it stays there and spends from a budget of cash, mortgaged tiles and the turn's one proposal |
| `Bots.BotTurnEnds` | src/game/bots/game-bot.service.ts:88-127 | a bot's decisions at the turn end number at most that budget |
| `Bots.StepKeepsOffers` | src/game/engine/game-engine-trades.ts:62-106 | every step keeps open offers addressed to humans, since offers to bots are answered at once |
| `Bots.EveryGameOffersToHumans` | src/game/engine/game-engine-trades.ts:62-106 | in no state of any game is an open offer waiting for a bot |
| `Bots.EveryGameAcceptsBots` | src/game/bots/game-bot.service.ts:53-131 | so in every unblocked state of every game each intent a bot may choose is accepted |
| `Ranking.PlacementsAreExact` | src/game/results/game-results.service.ts:333-404 | placements are exactly 1..n, one each, ordered as the comparator says |
| `Ranking.RicherIsPlacedFirst` | src/game/results/game-results.service.ts:373-385 | whoever is worth more is placed before, bankrupt or not, and between equals the one with more cash |
| `Ranking.FinalOrderExtendsEngine` | src/game/engine/game-engine-derived-state.ts:92-114 | without the bankrupt players the final order equals the engine standings, although the comparators differ |
| `Rating.AssertUniquePlacements` | src/game/stats/game-rating.service.ts:58-68 | the loop answers exactly whether placements are unique |
| `Rating.RatingOutcome` | src/game/stats/game-rating.service.ts:7-48 | fewer than two participants give no changes, equal placements are refused, and else each change is the factor's share of the number of opponents left behind less the expectations, rounded with halves up and kept above the floor |
| `Rating.FirstAndLast` | src/game/stats/game-rating.service.ts:22-35 | whoever comes first never loses rating and whoever comes last never gains any |
| `Rating.BetterPlacedGainsMore` | src/game/stats/game-rating.service.ts:22-35 | among equally rated participants the better placed one gains more before rounding and never ends up lower |
| `Rating.RawChangesSumToZero` | src/game/stats/game-rating.service.ts:7-56 | unrounded changes sum to zero for any number of participants |
| `Rating.RoundedChangesNearlyCancel` | src/game/stats/game-rating.service.ts:33-35 | rounded changes sum to within half a point per participant of zero |
| `Rating.ChangeWithinFactor` | src/game/stats/game-rating.service.ts:33-47 | a rounded change is within the factor, and no rating falls below the floor |
| `Rating.ResultsAreRated` | src/game/stats/game-rating.service.ts:58-68 | the placements of any finished game pass the uniqueness check |
| `Store.StateKey.CompareAndSet` | src/game/state/game-state.service.ts:17-31 | the three answers of the script and what each does to the key |
| `Store.Update` | src/game/state/game-state.service.ts:67-133 | the retry loop saves on the first attempt that meets what it read, with that attempt's result, and says exactly why it gave up otherwise |
| `Store.EveryRunIsLinear` | src/game/state/game-state.service.ts:67-133 | in every interleaving of any number of calls the stored values form a chain of updater applications, each call commits at most once and returns its own commit's state and events |
| `Store.MismatchMeansOtherCommit` | src/game/state/game-state.service.ts:24-26 | a value mismatch is caused by another caller's commit since the read |
| `Store.ConflictMeansManyCommits` | src/game/state/game-state.service.ts:126-132 | a call gives up only after as many commits by others as it had attempts |
| `Sessions.ConcurrentCommandsAreSafe` | src/game/commands/game-commands.service.ts:343-383 | however commands of players, bots and timers interleave, every stored and every returned state satisfies the game invariant |
| `RateLimit.DropsPrefix` | src/rate-limit/rate-limit.service.ts:34-35 | dropping old scores removes a prefix of old entries and leaves a recent one first |
| `RateLimit.LimiterKeys.Consume` | src/rate-limit/rate-limit.service.ts:21-84 | the script's effect on the three keys and its reply |
| `RateLimit.ScriptRefines` | src/rate-limit/rate-limit.service.ts:34-84 | one request gets the reply of a limiter that keeps the full history |
| `RateLimit.ExpiryIsUnobservable` | src/rate-limit/rate-limit.service.ts:34-84 | request by request under non-decreasing time, expiry and removal of keys cannot be observed |
| `RateLimit.AdmissionsBounded` | src/rate-limit/rate-limit.service.ts:34-121 | every window admits at most the limit, and every interval at most the burst plus its length times the refill rate |
| `RateLimit.AdmitsExactlyTheLawful` | src/rate-limit/rate-limit.service.ts:34-84 | under non-decreasing time a request is let through if and only if admitting it keeps both of these laws |
| `RateLimit.RetryFindsWindowOpen` | src/rate-limit/rate-limit.service.ts:34-48 | a request refused by the window and repeated after the time it was told finds the window open |
| `RateLimit.RetryFindsToken` | src/rate-limit/rate-limit.service.ts:66-76 | a request refused for want of a token and repeated after the time it was told finds a token |
| `Lock.LockKey.SetIfAbsent` | src/infra/cache/cache.service.ts:96-102 | acquiring succeeds exactly when no live token is there |
| `Lock.LockKey.Release` | src/infra/cache/cache.service.ts:14-20 | the script deletes exactly its own live token |
| `Lock.CallbacksNeverOverlap` | src/infra/cache/cache.service.ts:90-145 | in every interleaving two callbacks within their time to live are the same one |
| `Lock.ReleaseRemovesOnlyItsOwn` | src/infra/cache/cache.service.ts:14-20 | a release, even after its time lapsed and another took over, leaves the other holder's token |
| `Lock.OverrunOverlaps` | src/infra/cache/cache.service.ts:96-112 | the time limit is needed: a callback that outlives it can overlap with the next |

## Left out

- Events: the lists of events the engine returns are not modelled; `Sessions` carries the executed intent in their place.
- Turn deadline: the deadline stamped on a state after a command only schedules timers and is not part of the state here.
- Timer scheduling: which timer jobs exist and when they fire; a timeout is assumed to come once its deadline has passed.
- Trade text handling: trimming of tile keys and non-integer cash amounts in proposals.
- Bot scores: which candidate a bot prefers is left open, so the results hold for every candidate; the offered cash of a bot's proposal is any amount of at least the tile's price, and the loop that collects trade candidates is not modelled as a loop.
- BotIntentAccepted: assumes positive prices of property tiles, because an offer of no cash is refused.
- Floating point: bot valuations, token counts and ratings are exact reals; the expected score is any function whose two sides add up to one.
- ExpiryIsUnobservable: uses one clock for requests and key expiry, where the program has the server's and the store's.
- EveryRunIsLinear: covers `update` calls and key expiry; the unconditional writes of `set`, `delete` and snapshot recovery are outside the claim, and serialisation is taken to be one-to-one.
- Update: takes what other callers leave in the key as an input; real interleavings are the subject of `EveryRunIsLinear`.
- Acquire loop: the waiting and retrying of `withLock` appears as any number of attempts followed by giving up; the in-flight map of `getOrSet` is not modelled.
- ResultsAreRated: speaks of all players of a game; filtering participants by account happens in code not modelled here.
- MoveExact: is about the move itself; what the tile then does to the player is stated by `RollOutcome`.
- CollectOutcome: models the fold as recursion over players, as the program's reduce does, not as a loop.
- Rent tables, card texts and board names: finite data; any well-formed board is covered.
- HTTP controllers, authentication, persistence, queues, sockets, presence, notifications and observability.
