/** Where the guarantees stop: a bankrupt creditor, a bankrupt bidder and a split set. */
module Limits {
  import opened Rules
  import opened State
  import opened Money
  import opened CardDecks
  import opened Turns
  import opened Landing
  import opened Properties
  import opened Auctions
  import opened AuctionRounds
  import opened Trades
  import opened AutoDebt
  import opened Engine
  import opened Invariant
  import opened TradeProof
  import opened BankruptcyProof
  import opened Runs
  import opened Solvency
  import opened Sets
  import opened Start
  import opened Timer
  import opened Frames
  import opened SmallTable

  // ----- a creditor who leaves the game

  /**
   If the creditor of a debt goes bankrupt and the debtor cannot raise the amount, the debt can no
   longer be resolved: paying, automatic resolution and plain bankruptcy are all refused, so the
   timeout of this phase is refused as well.
   */
  lemma BankruptCreditorBlocks(r: Rules, s: State, p: nat)
    requires InDebt(r, s, p) && Shape(r, s) && LevelsOk(r, s.props) && s.HasPlayer(p) && OwnBuildingsWhole(r, s, p)
    requires !CreditorOk(s, s.debt.value.player, s.debt.value.creditor) && Raiseable(r, s, p) < s.debt.value.amount
    ensures AutoResolveDebt(r, s, p).Err? && PayDebt(s, p).Err? && DeclareBankruptcy(r, s, p, None).Err?
  {
    hide Core, AuctionOk, TradeOk, ValidRules, LevelsOk, AutoResolveDebt, Raiseable, OwnBuildingsWhole, Active, HumanActive, LiquidateAssets;
    AutoResolveExact(r, s, p);
    CannotPay(r, s, p);
    BankruptcyAccepted(r, s, p, None);
  }

  // ----- a game in which the creditor leaves

  const DEBT_GAME: seq<Step> :=
    [Step(1, RollDice(0, (1, 2))), Step(1, Buy(0)), Step(1, PassTurn(0)), Step(1, RollDice(1, (1, 2))), Step(1, GoBankrupt(0, None))]

  function TowerReached(): (s: State) {
    OpeningFacts();
    Rolled(Opening(), 0, (1, 2), 3).(phase := AwaitingDecision, pending := Some(3))
  }

  function TowerBought(): (s: State) {
    OpeningFacts();
    Bought(ESTATE, TowerReached(), 0, 3)
  }

  function SecondTurn(): (s: State) {
    TowerBought().(phase := AwaitingRoll, turn := 2, current := 1, lastDice := None)
  }

  function RentOwed(): (s: State) {
    OpeningFacts();
    CreateDebt(Rolled(SecondTurn(), 1, (1, 2), 3), Debt(1, Some(0), 2000, Rent))
  }

  lemma OpeningRoll(dice: (int, int), k: nat)
    requires Shape(ESTATE, Opening()) && ValidDice(dice) && k == dice.0 + dice.1 && k in {2, 3}
    ensures Opening().HasPlayer(0)
    ensures RollAndMove(ESTATE, Opening(), 0, dice)
         == Ok(Rolled(Opening(), 0, dice, k).(phase := AwaitingDecision, pending := Some(k)))
  {
    hide Opening, RollAndMove, ValidRules, Rolled;
    OpeningFacts();
    EstateTiles();
    RollOntoUnowned(ESTATE, Opening(), 0, dice, k);
  }

  lemma TowerIsReached()
    ensures Play(DEBT_GAME, 1) == TowerReached()
  {
    hide Opening, RollAndMove, Shape, Inv, Reduce, LevelsOk, Rolled, Play;
    PlayStarts(DEBT_GAME);
    ShapeOf(Opening());
    OpeningRoll((1, 2), 3);
    ReduceRoll(ESTATE, Opening(), 1, 0, (1, 2));
    PlayGoesOn(DEBT_GAME, 0, Opening(), TowerReached());
  }

  lemma TowerIsBought()
    requires Shape(ESTATE, TowerReached())
    ensures BuyProperty(ESTATE, TowerReached(), 0) == Ok(TowerBought())
  {
    hide Opening, BuyProperty, ValidRules;
    OpeningFacts();
    EstateTiles();
    BuyIs(ESTATE, TowerReached(), 0, 3);
  }

  lemma TowerBoughtFacts()
    ensures var s := TowerBought();
            && AllSeated(s) && s.phase == AwaitingTurnEnd && s.debt.None? && s.auction.None? && s.current == 0 && s.turn == 1
            && s.doubles == 0 && !s.playAgain && s.trade.None? && s.pending.None? && |s.props| == 10
            && s.props[3] == PropertyState(Some(0), 0, false, false)
            && (forall k :: 0 <= k < 10 && k != 3 ==> s.props[k] == BLANK)
            && s.players[1] == NewPlayer(TABLE[1]) && s.players[2] == NewPlayer(TABLE[2]) && s.players[0].playerType == Human
            && s.players[0].cash >= 0 && s.expiresAt == Some(3600001)
  {
    hide Opening;
    OpeningFacts();
    EstateTiles();
  }

  lemma TurnPasses()
    ensures EndTurn(TowerBought(), 0) == Ok(SecondTurn())
  {
    hide TowerBought, Active;
    TowerBoughtFacts();
    SeatedInOrder(TowerBought());
    assert IndexOf([0, 1, 2], 0) == 0;
  }

  lemma RentIsOwed()
    requires Shape(ESTATE, SecondTurn())
    ensures SecondTurn().HasPlayer(1) && RollAndMove(ESTATE, SecondTurn(), 1, (1, 2)) == Ok(RentOwed())
  {
    hide TowerBought, RollAndMove, ValidRules;
    TowerBoughtFacts();
    EstateTiles();
    forall j: nat
      ensures ESTATE.SameSet(j, 3) <==> j == 3
    {
      EstateSets(j);
    }
    RollOntoRent(ESTATE, SecondTurn(), 1, (1, 2), 3, 2000);
  }

  lemma DebtGameReaches()
    ensures Play(DEBT_GAME, 4) == RentOwed()
  {
    hide Opening, RollAndMove, BuyProperty, EndTurn, Shape, Inv, LevelsOk, TowerReached, TowerBought, SecondTurn, RentOwed, Play;
    TowerIsReached();
    ShapeOf(TowerReached());
    TowerIsBought();
    PlayGoesOn(DEBT_GAME, 1, TowerReached(), TowerBought());
    ShapeOf(TowerBought());
    TurnPasses();
    PlayGoesOn(DEBT_GAME, 2, TowerBought(), SecondTurn());
    ShapeOf(SecondTurn());
    RentIsOwed();
    PlayGoesOn(DEBT_GAME, 3, SecondTurn(), RentOwed());
  }

  lemma RentOwedFacts()
    ensures var s := RentOwed();
            && AllSeated(s) && s.phase == AwaitingDebt && s.debt == Some(Debt(1, Some(0), 2000, Rent)) && s.current == 1
            && |s.props| == 10 && s.players[1].cash == STARTING_CASH && s.players[1].playerType == Human && s.expiresAt == Some(3600001)
            && s.players[2].playerType == Human
            && s.props[3] == PropertyState(Some(0), 0, false, false) && (forall k :: 0 <= k < 10 && k != 3 ==> s.props[k] == BLANK)
  {
    hide TowerBought;
    TowerBoughtFacts();
  }

  lemma LandlordLeaves()
    requires Inv(ESTATE, RentOwed())
    ensures var res := DeclareBankruptcy(ESTATE, RentOwed(), 0, None);
            && res.Ok?
            && var s := res.value;
               && s.phase == AwaitingDebt && s.debt == Some(Debt(1, Some(0), 2000, Rent)) && s.current == 1 && |s.players| == 3
               && s.players[0].bankrupt && !s.players[1].bankrupt && s.players[1].cash == STARTING_CASH && s.expiresAt == Some(3600001)
               && |s.props| == 10 && forall k :: 0 <= k < 10 ==> s.props[k] == BLANK
  {
    hide PlayersOk, PropsOk, Discipline, CardsOk, ValidRules, RentOwed, LiquidateAssets, ActiveBySeat, PhaseOk, TurnOk, AuctionOk, TradeOk;
    RentOwedFacts();
    var s := RentOwed();
    BankruptcyAccepted(ESTATE, s, 0, None);
    LiquidationResult(ESTATE, s, 0, None);
    var left := LiquidateAssets(ESTATE, s, 0, None).value;
    SeatedInOrder(s);
    OtherActive(s, 0, left.players);
    assert !left.players[1].bankrupt && left.players[1].playerType == Human;
  }

  lemma NothingToSell(s: State, p: nat)
    requires Shape(ESTATE, s) && s.HasPlayer(p) && forall k :: 0 <= k < |s.props| ==> s.props[k] == BLANK
    ensures OwnBuildingsWhole(ESTATE, s, p) && Raiseable(ESTATE, s, p) == s.players[p].cash
  {
    NothingToRaise(ESTATE, s.props, p, |s.props|);
  }

  /**
   A game in which a creditor leaves while owed a rent: the debtor's timeout is refused from then on,
   and so are paying and plain bankruptcy.
   */
  lemma CreditorCanLeave()
    ensures var s := Play(DEBT_GAME, 5);
            && ChooseTimeout(s, 1, (1, 2)) == Some(AutoResolve(1))
            && !Accepted(ESTATE, s, Step(1, AutoResolve(1))) && !Accepted(ESTATE, s, Step(1, SettleDebt(1)))
            && !Accepted(ESTATE, s, Step(1, GoBankrupt(1, None)))
  {
    hide Inv, ValidRules, LevelsOk, AutoResolveDebt, DeclareBankruptcy, PayDebt, RentOwed, Play, Raiseable, OwnBuildingsWhole;
    DebtGameReaches();
    ShapeOf(RentOwed());
    LandlordLeaves();
    var s := DeclareBankruptcy(ESTATE, RentOwed(), 0, None).value;
    PlayGoesOn(DEBT_GAME, 4, RentOwed(), s);
    ShapeOf(s);
    NothingToSell(s, 1);
    BankruptCreditorBlocks(ESTATE, s, 1);
  }

  // ----- a game in which a trade splits a built set

  const SPLIT_OFFER := Trade(7, 0, 1, 0, 1, [6], [])

  const SPLIT_GAME: seq<Step> :=
    [Step(1, RollDice(0, (1, 1))), Step(1, Buy(0)), Step(1, PassTurn(0)), Step(1, RollDice(0, (2, 2))), Step(1, Buy(0)),
     Step(1, Build(0, 2)), Step(1, Propose(SPLIT_OFFER)), Step(1, Accept(1, 7)), Step(1, PassTurn(0)), Step(1, RollDice(0, (1, 2)))]

  function StreetReached(): (s: State) {
    OpeningFacts();
    Rolled(Opening(), 0, (1, 1), 2).(phase := AwaitingDecision, pending := Some(2))
  }

  function StreetBought(): (s: State) {
    OpeningFacts();
    Bought(ESTATE, StreetReached(), 0, 2)
  }

  function RollsAgain(s: State): (s': State) {
    s.(phase := AwaitingRoll, lastDice := None, trade := None, playAgain := false)
  }

  /** The first player of the game, still at the table, has these tiles, this cash and may roll again. */
  predicate Holding(s: State, phase: Phase, doubles: nat, cash: int, position: nat) {
    && AllSeated(s) && s.phase == phase && s.current == 0 && s.turn == 1 && s.doubles == doubles && s.playAgain == (phase != AwaitingRoll)
    && s.debt.None? && s.auction.None? && |s.props| == 10 && s.expiresAt == Some(3600001)
    && (forall i :: 0 <= i < 3 ==> s.players[i].playerType == Human && !s.players[i].inJail)
    && s.players[0].cash == cash && s.players[0].position == position && s.players[1].cash == STARTING_CASH
    && (s.phase != AwaitingDecision ==> s.pending.None?)
  }

  predicate Owns(s: State, streets: set<nat>, house: bool)
    requires |s.props| == 10
  {
    forall k :: 0 <= k < 10 ==>
      s.props[k] == if k in streets then PropertyState(Some(0), if house && k == 2 then 1 else 0, false, false) else BLANK
  }

  lemma StreetFacts()
    ensures Holding(StreetReached(), AwaitingDecision, 1, 1500, 2) && Owns(StreetReached(), {}, false) && StreetReached().trade.None?
    ensures StreetReached().pending == Some(2)
    ensures Holding(StreetBought(), AwaitingTurnEnd, 1, 1400, 2) && Owns(StreetBought(), {2}, false) && StreetBought().trade.None?
  {
    hide Opening;
    OpeningFacts();
    EstateTiles();
  }

  lemma StreetIsBought()
    requires Shape(ESTATE, StreetReached())
    ensures BuyProperty(ESTATE, StreetReached(), 0) == Ok(StreetBought())
  {
    hide StreetReached, BuyProperty, ValidRules;
    StreetFacts();
    EstateTiles();
    BuyIs(ESTATE, StreetReached(), 0, 2);
  }

  lemma TurnGoesOn(s: State)
    requires s.HasPlayer(0) && s.current == 0 && !s.players[0].bankrupt && s.phase == AwaitingTurnEnd && s.debt.None? && s.playAgain
    ensures EndTurn(s, 0) == Ok(RollsAgain(s))
  {}

  function OtherReached(): (s: State) {
    StreetFacts();
    Rolled(RollsAgain(StreetBought()), 0, (2, 2), 6).(phase := AwaitingDecision, pending := Some(6))
  }

  lemma OtherReachedFacts()
    ensures Holding(OtherReached(), AwaitingDecision, 2, 1400, 6) && Owns(OtherReached(), {2}, false) && OtherReached().trade.None?
    ensures OtherReached().pending == Some(6)
  {
    hide StreetBought;
    StreetFacts();
  }

  function OtherBought(): (s: State) {
    OtherReachedFacts();
    EstateTiles();
    Bought(ESTATE, OtherReached(), 0, 6)
  }

  lemma OtherFacts()
    ensures Holding(OtherBought(), AwaitingTurnEnd, 2, 1300, 6) && Owns(OtherBought(), {2, 6}, false) && OtherBought().trade.None?
  {
    hide OtherReached;
    OtherReachedFacts();
    EstateTiles();
  }

  lemma OtherIsReached()
    requires Shape(ESTATE, RollsAgain(StreetBought()))
    ensures RollAndMove(ESTATE, RollsAgain(StreetBought()), 0, (2, 2)) == Ok(OtherReached())
  {
    hide StreetBought, RollAndMove, ValidRules;
    StreetFacts();
    EstateTiles();
    RollOntoUnowned(ESTATE, RollsAgain(StreetBought()), 0, (2, 2), 6);
  }

  lemma OtherIsBought()
    requires Shape(ESTATE, OtherReached())
    ensures BuyProperty(ESTATE, OtherReached(), 0) == Ok(OtherBought())
  {
    hide OtherReached, BuyProperty, ValidRules;
    OtherReachedFacts();
    EstateTiles();
    BuyIs(ESTATE, OtherReached(), 0, 6);
  }

  function HouseBuilt(): (s: State) {
    OtherFacts();
    WithProperty(WithCash(OtherBought(), 0, 1250), 2, PropertyState(Some(0), 1, false, false))
  }

  lemma HouseIsBuilt()
    requires Shape(ESTATE, OtherBought())
    ensures BuildProperty(ESTATE, OtherBought(), 0, 2) == Ok(HouseBuilt())
  {
    hide OtherBought, ValidRules;
    OtherFacts();
    EstateTiles();
    forall j: nat
      ensures ESTATE.SameSet(j, 2) <==> j == 2 || j == 6
    {
      EstateSets(j);
    }
  }

  lemma HouseFacts()
    ensures Holding(HouseBuilt(), AwaitingTurnEnd, 2, 1250, 6) && Owns(HouseBuilt(), {2, 6}, true) && HouseBuilt().trade.None?
  {
    hide OtherBought;
    OtherFacts();
  }

  function Offered(): (s: State) {
    HouseBuilt().(trade := Some(SPLIT_OFFER))
  }

  lemma OfferIsValid(s: State)
    requires Shape(ESTATE, s) && LevelsOk(ESTATE, s.props) && Holding(s, AwaitingTurnEnd, 2, 1250, 6) && Owns(s, {2, 6}, true)
    ensures Tradeable(ESTATE, s, SPLIT_OFFER)
  {
    hide ValidRules, LevelsOk;
    EstateTiles();
    assert SPLIT_OFFER.offered[0] == 6;
    assert OwnershipError(ESTATE, s, SPLIT_OFFER.offered, 0).None?;
    assert OwnershipError(ESTATE, s, SPLIT_OFFER.requested, 1).None?;
  }

  lemma OfferIsOpened()
    requires Shape(ESTATE, HouseBuilt()) && LevelsOk(ESTATE, HouseBuilt().props)
    ensures ProposeTrade(ESTATE, HouseBuilt(), SPLIT_OFFER) == Ok(Offered())
  {
    hide HouseBuilt, ValidRules, LevelsOk, ValidateTrade, AcceptOffer, BotAccepts;
    HouseFacts();
    OfferIsValid(HouseBuilt());
  }

  /** After the trade: the house stands on the first player's street, the other street is the second player's. */
  predicate IsSplit(s: State)
    requires |s.props| == 10
  {
    && s.props[2] == PropertyState(Some(0), 1, false, false) && s.props[6] == PropertyState(Some(1), 0, false, false)
    && forall k :: 0 <= k < 10 && k != 2 && k != 6 ==> s.props[k] == BLANK
  }

  lemma OfferIsTaken()
    requires Shape(ESTATE, Offered()) && LevelsOk(ESTATE, Offered().props)
    ensures var res := AcceptOffer(ESTATE, Offered(), SPLIT_OFFER);
            && res.Ok? && AllSeated(res.value) && |res.value.props| == 10 && IsSplit(res.value) && res.value.trade.None?
            && res.value.phase == AwaitingTurnEnd && res.value.current == 0 && res.value.turn == 1 && res.value.doubles == 2
            && res.value.playAgain && res.value.debt.None? && res.value.auction.None? && res.value.expiresAt == Some(3600001)
            && res.value.players[0].cash == 1251 && res.value.players[0].position == 6 && !res.value.players[0].inJail
            && res.value.players[0].playerType == Human && res.value.players[0].missedTurns == Offered().players[0].missedTurns
  {
    hide HouseBuilt, ValidRules, LevelsOk, AcceptOffer, SaleValues;
    HouseFacts();
    OfferIsValid(Offered());
    AcceptOutcome(ESTATE, Offered(), SPLIT_OFFER);
    NothingSoldHere(Offered().props);
    assert SPLIT_OFFER.offered[0] == 6;
  }

  lemma {:induction false} NothingSoldHere(props: seq<PropertyState>)
    requires |props| == 10 && props[6] == PropertyState(Some(0), 0, false, false)
    ensures SaleValues(ESTATE, props, SPLIT_OFFER.offered, 1) == 0 && SaleValues(ESTATE, props, [], 0) == 0
  {
    EstateTiles();
  }

  ghost function SplitState(): (s: State)
    ensures |s.players| == 3 && |s.props| == 10
  {
    ShapeOfOffered();
    OfferIsTaken();
    AcceptOffer(ESTATE, Offered(), SPLIT_OFFER).value
  }

  lemma OfferedReached()
    ensures Play(SPLIT_GAME, 7) == Offered()
  {
    hide Opening, RollAndMove, BuyProperty, EndTurn, BuildProperty, ProposeTrade, Shape, Inv, LevelsOk, Rolled, StreetReached, StreetBought,
      RollsAgain, OtherReached, OtherBought, HouseBuilt, Offered, Play;
    HalfwayReached();
    ShapeOf(OtherBought());
    HouseIsBuilt();
    OtherTurn();
    ReduceBuild(ESTATE, OtherBought(), 1, 0, 2);
    PlayGoesOn(SPLIT_GAME, 5, OtherBought(), HouseBuilt());
    ShapeOf(HouseBuilt());
    OfferIsOpened();
    ReducePropose(ESTATE, HouseBuilt(), 1, SPLIT_OFFER);
    PlayGoesOn(SPLIT_GAME, 6, HouseBuilt(), Offered());
  }

  lemma OtherTurn()
    ensures AssertCurrentTurn(OtherBought(), 0).None?
  {
    hide OtherBought;
    OtherFacts();
  }

  lemma ReduceBuild(r: Rules, s: State, now: int, p: nat, k: nat)
    requires Shape(r, s) && LevelsOk(r, s.props) && AssertCurrentTurn(s, p).None?
    ensures Reduce(r, s, now, Build(p, k)) == BuildProperty(r, s, p, k)
  {
    hide ValidRules, LevelsOk, BuildProperty;
  }

  lemma HalfwayReached()
    ensures Play(SPLIT_GAME, 5) == OtherBought()
  {
    hide Opening, RollAndMove, BuyProperty, EndTurn, Shape, Inv, LevelsOk, Rolled, StreetReached, StreetBought,
      RollsAgain, OtherReached, OtherBought, Play;
    StreetStarts();
    ShapeOf(StreetReached());
    StreetIsBought();
    PlayGoesOn(SPLIT_GAME, 1, StreetReached(), StreetBought());
    ShapeOf(StreetBought());
    StreetTurn();
    PlayGoesOn(SPLIT_GAME, 2, StreetBought(), RollsAgain(StreetBought()));
    ShapeOf(RollsAgain(StreetBought()));
    OtherIsReached();
    PlayGoesOn(SPLIT_GAME, 3, RollsAgain(StreetBought()), OtherReached());
    ShapeOf(OtherReached());
    OtherIsBought();
    PlayGoesOn(SPLIT_GAME, 4, OtherReached(), OtherBought());
  }

  lemma StreetTurn()
    ensures EndTurn(StreetBought(), 0) == Ok(RollsAgain(StreetBought()))
  {
    hide StreetBought;
    StreetFacts();
    TurnGoesOn(StreetBought());
  }

  lemma StreetStarts()
    ensures Play(SPLIT_GAME, 1) == StreetReached()
  {
    hide Opening, RollAndMove, Shape, Inv, Reduce, LevelsOk, Rolled, Play;
    PlayStarts(SPLIT_GAME);
    ShapeOf(Opening());
    OpeningRoll((1, 1), 2);
    ReduceRoll(ESTATE, Opening(), 1, 0, (1, 1));
    PlayGoesOn(SPLIT_GAME, 0, Opening(), StreetReached());
  }

  lemma ShapeOfOffered()
    ensures Shape(ESTATE, Offered()) && LevelsOk(ESTATE, Offered().props)
  {
    hide Inv, Offered, Play;
    OfferedReached();
    ShapeOf(Offered());
  }

  lemma SplitReached()
    ensures Play(SPLIT_GAME, 8) == SplitState()
  {
    hide Shape, Inv, LevelsOk, Offered, Play, AcceptOffer, SPLIT_OFFER;
    OfferedReached();
    ShapeOf(Offered());
    OfferIsTaken();
    ReduceAccept(ESTATE, Offered(), 1);
    PlayGoesOn(SPLIT_GAME, 7, Offered(), SplitState());
  }

  lemma ReduceAccept(r: Rules, s: State, now: int)
    requires Shape(r, s) && LevelsOk(r, s.props) && s == Offered()
    ensures Reduce(r, s, now, Accept(1, 7)) == AcceptOffer(r, s, SPLIT_OFFER)
  {
    hide ValidRules, LevelsOk, AcceptOffer, HouseBuilt;
  }

  lemma WasInOrder()
    ensures InOrder(ESTATE, Offered())
  {
    hide HouseBuilt;
    HouseFacts();
    forall j: nat, k: nat | ESTATE.SameSet(j, k)
      ensures PairOk(Offered().props[j], Offered().props[k])
    {}
  }

  /** A game in which an accepted trade splits a built set. */
  lemma TradeCanSplitASet()
    ensures InOrder(ESTATE, Play(SPLIT_GAME, 7)) && Accepted(ESTATE, Play(SPLIT_GAME, 7), SPLIT_GAME[7])
    ensures !InOrder(ESTATE, Play(SPLIT_GAME, 8))
  {
    hide Inv, Shape, LevelsOk, Offered, Play, AcceptOffer, InOrder, SplitState;
    OfferedReached();
    ShapeOf(Offered());
    ReduceAccept(ESTATE, Offered(), 1);
    OfferIsTaken();
    WasInOrder();
    SplitReached();
    IsOutOfOrder();
  }

  lemma SplitFacts()
    ensures var s := SplitState();
            && AllSeated(s) && IsSplit(s) && s.phase == AwaitingTurnEnd && s.current == 0 && s.doubles == 2 && s.playAgain
            && s.debt.None? && s.auction.None? && s.expiresAt == Some(3600001) && s.players[0].cash == 1251
            && s.players[0].position == 6 && !s.players[0].inJail
  {
    hide Shape, LevelsOk, Offered, AcceptOffer, AllSeated, IsSplit;
    ShapeOfOffered();
    OfferIsTaken();
  }

  lemma IsOutOfOrder()
    ensures !InOrder(ESTATE, SplitState())
  {
    hide SplitState;
    SplitFacts();
    EstateSets(2);
    EstateSets(6);
    assert ESTATE.SameSet(2, 6) && !PairOk(SplitState().props[2], SplitState().props[6]);
  }

  ghost function TaxOwed(): (s: State)
    ensures |s.players| == 3
  {
    CreateDebt(Rolled(RollsAgain(SplitState()), 0, (1, 2), 9), Debt(0, None, 5000, TaxDue))
  }

  lemma TaxIsOwed()
    requires Shape(ESTATE, RollsAgain(SplitState()))
    ensures RollAndMove(ESTATE, RollsAgain(SplitState()), 0, (1, 2)) == Ok(TaxOwed())
  {
    hide SplitState, RollAndMove, ValidRules;
    SplitFacts();
    EstateTiles();
    RollOntoTax(ESTATE, RollsAgain(SplitState()), 0, (1, 2), 9);
  }

  lemma SplitTurn()
    ensures EndTurn(SplitState(), 0) == Ok(RollsAgain(SplitState()))
  {
    hide SplitState;
    SplitFacts();
    TurnGoesOn(SplitState());
  }

  lemma TaxReached()
    ensures Play(SPLIT_GAME, 10) == TaxOwed()
  {
    hide RollAndMove, EndTurn, Shape, Inv, LevelsOk, SplitState, RollsAgain, TaxOwed, Play;
    SplitReached();
    ShapeOf(SplitState());
    SplitTurn();
    PlayGoesOn(SPLIT_GAME, 8, SplitState(), RollsAgain(SplitState()));
    ShapeOf(RollsAgain(SplitState()));
    TaxIsOwed();
    PlayGoesOn(SPLIT_GAME, 9, RollsAgain(SplitState()), TaxOwed());
  }

  lemma TaxFacts()
    ensures var s := TaxOwed();
            && AllSeated(s) && |s.props| == 10 && IsSplit(s) && s.phase == AwaitingDebt && s.debt == Some(Debt(0, None, 5000, TaxDue))
            && s.current == 0 && s.players[0].cash == 1251 && s.expiresAt == Some(3600001)
  {
    hide SplitState;
    SplitFacts();
  }

  lemma {:induction false} LittleToRaise(props: seq<PropertyState>, n: nat)
    requires |props| == 10 && n <= 10 && props[2] == PropertyState(Some(0), 1, false, false)
    requires forall k :: 0 <= k < 10 && k != 2 ==> !props[k].OwnedBy(0)
    ensures RaiseUpTo(ESTATE, props, 0, n) <= 75
    ensures n <= 2 ==> RaiseUpTo(ESTATE, props, 0, n) == 0
  {
    EstateTiles();
    if n > 0 {
      LittleToRaise(props, n - 1);
    }
  }

  /** A game in which the split set makes automatic resolution throw, timeout included. */
  lemma SplitSetBlocks()
    ensures var s := Play(SPLIT_GAME, 10);
            && s.phase == AwaitingDebt && ChooseTimeout(s, 1, (1, 2)) == Some(AutoResolve(0))
            && !Accepted(ESTATE, s, Step(1, AutoResolve(0)))
  {
    hide Inv, ValidRules, LevelsOk, AutoResolveDebt, TaxOwed, Play, Raiseable, OwnsSetOf, RaiseCash;
    TaxReached();
    TaxFacts();
    var s := TaxOwed();
    ShapeOf(s);
    TaxTooHigh();
    SplitNeverSold(ESTATE, s, 0, 2);
    AutoFails(ESTATE, s, 0);
  }

  lemma TaxTooHigh()
    requires Shape(ESTATE, TaxOwed())
    ensures var s := TaxOwed();
            s.HasPlayer(0) && Raiseable(ESTATE, s, 0) < 5000 && HasBuilding(s.props, 0, 2) && !OwnsSetOf(ESTATE, s, 0, 2)
  {
    hide TaxOwed, ValidRules;
    TaxFacts();
    LittleToRaise(TaxOwed().props, 10);
    EstateSets(6);
    assert ESTATE.SameSet(6, 2) && !TaxOwed().props[6].OwnedBy(0);
  }

  // ----- a game in which the highest bidder leaves

  const AUCTION_GAME: seq<Step> :=
    [Step(1, RollDice(0, (1, 1))), Step(1, Decline(0)), Step(1, Pass(0)), Step(1, Bid(1, 10)), Step(1, GoBankrupt(1, None))]

  const FIRST_BIDDER := Auction(2, 0, None, Some(0), 25001, [0, 1, 2], [])
  const SECOND_BIDDER := Auction(2, 0, None, Some(1), 25001, [0, 1, 2], [0])
  const THIRD_BIDDER := Auction(2, 10, Some(1), Some(2), 25001, [0, 1, 2], [0])

  function Auctioned(a: Auction): (s: State) {
    StreetReached().(phase := AwaitingAuction, pending := None, auction := Some(a))
  }

  lemma AuctionStarts()
    ensures Play(AUCTION_GAME, 1) == StreetReached()
  {
    hide Opening, RollAndMove, Shape, Inv, Reduce, LevelsOk, Rolled, Play;
    PlayStarts(AUCTION_GAME);
    ShapeOf(Opening());
    OpeningRoll((1, 1), 2);
    ReduceRoll(ESTATE, Opening(), 1, 0, (1, 1));
    PlayGoesOn(AUCTION_GAME, 0, Opening(), StreetReached());
  }

  lemma StreetIsDeclined()
    requires Shape(ESTATE, StreetReached())
    ensures DeclineProperty(ESTATE, StreetReached(), 1, 0) == Ok(Auctioned(FIRST_BIDDER))
  {
    hide StreetReached, ValidRules, ActiveBySeat;
    StreetFacts();
    EstateTiles();
    SeatedInOrder(StreetReached());
  }

  lemma FirstPasses()
    requires Shape(ESTATE, Auctioned(FIRST_BIDDER))
    ensures PassBid(ESTATE, Auctioned(FIRST_BIDDER), 1, 0) == Ok(Auctioned(SECOND_BIDDER))
  {
    hide StreetReached, ValidRules;
    StreetFacts();
    OneHasPassed();
    assert IndexOf([0, 1, 2], 0) == 0;
    var passed := FIRST_BIDDER.(passed := [0]);
    assert passed.passed == FIRST_BIDDER.passed + [0];
    assert Position([0, 1, 2], 0, 1) == 1;
    assert ScanBidder(passed, 0, 1) == Some(1);
  }

  lemma OneHasPassed()
    ensures Unpassed([0, 1, 2], [0]) == [1, 2]
  {
    assert [0, 1, 2][1..] == [1, 2] && [1, 2][1..] == [2] && [2][1..] == [];
    assert Unpassed([], [0]) == [] && Unpassed([2], [0]) == [2] && Unpassed([1, 2], [0]) == [1] + Unpassed([2], [0]);
  }

  lemma SecondBids()
    requires Shape(ESTATE, Auctioned(SECOND_BIDDER))
    ensures PlaceBid(ESTATE, Auctioned(SECOND_BIDDER), 1, 1, 10) == Ok(Auctioned(THIRD_BIDDER))
  {
    hide StreetReached, ValidRules;
    StreetFacts();
    OneHasPassed();
    IndexUnique([0, 1, 2], 1);
    var bid := SECOND_BIDDER.(bid := 10, highest := Some(1));
    assert Position([0, 1, 2], 1, 1) == 2;
    assert ScanBidder(bid, 1, 1) == Some(2);
  }

  lemma AuctionReaches()
    ensures Play(AUCTION_GAME, 4) == Auctioned(THIRD_BIDDER)
  {
    hide Shape, Inv, LevelsOk, StreetReached, DeclineProperty, PassBid, PlaceBid, Auctioned, Play;
    AuctionStarts();
    ShapeOf(StreetReached());
    StreetIsDeclined();
    PlayGoesOn(AUCTION_GAME, 1, StreetReached(), Auctioned(FIRST_BIDDER));
    ShapeOf(Auctioned(FIRST_BIDDER));
    FirstPasses();
    PlayGoesOn(AUCTION_GAME, 2, Auctioned(FIRST_BIDDER), Auctioned(SECOND_BIDDER));
    ShapeOf(Auctioned(SECOND_BIDDER));
    SecondBids();
    PlayGoesOn(AUCTION_GAME, 3, Auctioned(SECOND_BIDDER), Auctioned(THIRD_BIDDER));
  }

  lemma BidderLeaves()
    requires Inv(ESTATE, Auctioned(THIRD_BIDDER))
    ensures var res := DeclareBankruptcy(ESTATE, Auctioned(THIRD_BIDDER), 1, None);
            && res.Ok?
            && var s := res.value;
               && s.phase == AwaitingAuction && s.auction == Some(THIRD_BIDDER) && s.current == 0 && |s.players| == 3
               && s.players[1].cash == 0 && !s.players[0].bankrupt && s.players[0].missedTurns == 0 && s.expiresAt == Some(3600001)
  {
    hide PlayersOk, PropsOk, Discipline, CardsOk, ValidRules, StreetReached, LiquidateAssets, ActiveBySeat, PhaseOk, TurnOk, AuctionOk, TradeOk;
    StreetFacts();
    NobodyMissed();
    var s := Auctioned(THIRD_BIDDER);
    BankruptcyAccepted(ESTATE, s, 1, None);
    LiquidationResult(ESTATE, s, 1, None);
    var left := LiquidateAssets(ESTATE, s, 1, None).value;
    SeatedInOrder(s);
    OtherActive(s, 1, left.players);
    assert !left.players[0].bankrupt && left.players[0].playerType == Human;
  }

  lemma NobodyMissed()
    ensures StreetReached().HasPlayer(0) && StreetReached().players[0].missedTurns == 0
  {
    hide Opening;
    OpeningFacts();
  }

  /** A game in which the highest bidder leaves: the pass that would settle the auction is refused, timeout included. */
  lemma BidderCanLeave()
    ensures var s := Play(AUCTION_GAME, 5);
            && s.phase == AwaitingAuction && ChooseTimeout(s, 25001, (1, 2)) == Some(Pass(2))
            && !Accepted(ESTATE, s, Step(25001, Pass(2)))
  {
    hide Inv, ValidRules, LevelsOk, DeclareBankruptcy, PassBid, Auctioned, Play;
    AuctionReaches();
    ShapeOf(Auctioned(THIRD_BIDDER));
    BidderLeaves();
    var s := DeclareBankruptcy(ESTATE, Auctioned(THIRD_BIDDER), 1, None).value;
    PlayGoesOn(AUCTION_GAME, 4, Auctioned(THIRD_BIDDER), s);
    ShapeOf(s);
    OneHasPassed();
    PassAcceptedIff(ESTATE, s, 25001);
  }
}
