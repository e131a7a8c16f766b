/** Safety over whole games: what holds after any sequence of intents. */
module Runs {
  import opened Rules
  import opened State
  import opened CardDecks
  import opened Turns
  import opened Landing
  import opened Properties
  import opened Auctions
  import opened Trades
  import opened AutoDebt
  import opened Engine
  import opened Invariant
  import opened RollProof
  import opened Preservation
  import opened TradeProof
  import opened BankruptcyProof

  /** Every accepted intent keeps the invariant. */
  lemma ReduceKeeps(r: Rules, s: State, now: int, intent: Intent)
    requires Inv(r, s) && Shape(r, s) && LevelsOk(r, s.props) && Reduce(r, s, now, intent).Ok?
    ensures Inv(r, Reduce(r, s, now, intent).value)
  {
    hide Inv, Shape, LevelsOk, RollAndMove, BuyProperty, DeclineProperty, PlaceBid, PassBid, BuildProperty, SellBuilding,
      MortgageProperty, UnmortgageProperty, ProposeTrade, AcceptOffer, DeclareBankruptcy, PayDebt, AutoResolveDebt,
      PayJailFine, UseJailCard, EndTurn, FinishGame;
    match intent
    case RollDice(p, dice) => RollKeeps(r, s, p, dice);
    case Buy(p) => BuyKeeps(r, s, p);
    case Decline(p) => DeclineKeeps(r, s, now, p);
    case Bid(p, amount) => BidKeeps(r, s, now, p, amount);
    case Pass(p) => PassKeeps(r, s, now, p);
    case Build(p, k) => BuildKeeps(r, s, p, k);
    case Sell(p, k) => SellKeeps(r, s, p, k);
    case Mortgage(p, k) => MortgageKeeps(r, s, p, k);
    case Unmortgage(p, k) => UnmortgageKeeps(r, s, p, k);
    case Propose(offer) => ProposeKeeps(r, s, offer);
    case Accept(p, id) => OpenOffer(r, s); AcceptKeeps(r, s, s.trade.value);
    case Reject(p, id) => OpenOffer(r, s); OfferKeeps(r, s, None);
    case Cancel(p, id) => OpenOffer(r, s); OfferKeeps(r, s, None);
    case GoBankrupt(p, creditor) => BankruptcyKeeps(r, s, p, creditor);
    case SettleDebt(p) => PayDebtKeeps(r, s, p);
    case AutoResolve(p) => AutoResolveKeeps(r, s, p);
    case PayFine(p) => FineKeeps(r, s, p);
    case UseCard(p) => CardKeeps(r, s, p);
    case PassTurn(p) => EndTurnKeeps(r, s, p);
    case TimeUp(at) => FinishKeeps(r, s);
    case LastHumanLeft(at) => FinishKeeps(r, s);
  }

  lemma OpenOffer(r: Rules, s: State)
    requires Inv(r, s)
    ensures s.trade.Some? ==> OfferOk(s.trade.value) && s.phase != Finished
  {}

  // ----- runs

  datatype Step = Step(now: int, intent: Intent)

  /** A rejected intent leaves the state as it was. */
  ghost function Next(r: Rules, s: State, step: Step): (s': State)
    requires Inv(r, s)
    ensures Inv(r, s')
  {
    CoreShape(r, s);
    var res := Reduce(r, s, step.now, step.intent);
    if res.Ok? then
      ReduceKeeps(r, s, step.now, step.intent);
      res.value
    else s
  }

  /** The state after the first `n` steps of a game. */
  ghost function After(r: Rules, start: State, steps: seq<Step>, n: nat): (s: State)
    requires Inv(r, start) && n <= |steps|
    ensures Inv(r, s)
  {
    if n == 0 then start else Next(r, After(r, start, steps, n - 1), steps[n - 1])
  }

  /** The engine takes the step; otherwise the state stays as it was. */
  ghost predicate Accepted(r: Rules, s: State, step: Step)
    requires Inv(r, s)
  {
    CoreShape(r, s);
    Reduce(r, s, step.now, step.intent).Ok?
  }

  // ----- a finished game stays finished

  /** After the end only the two jail intents without a phase check are still accepted. */
  lemma FinishedAcceptsOnlyJail(r: Rules, s: State, step: Step)
    requires Inv(r, s) && s.phase == Finished && Accepted(r, s, step)
    ensures step.intent.PayFine? || step.intent.UseCard?
    ensures Next(r, s, step) == s.(players := Next(r, s, step).players, decks := Next(r, s, step).decks)
  {
    hide PlayersOk, PropsOk, Discipline, CardsOk, ValidRules, AcceptOffer, MoveIgnoringJail, RollFromJail,
      LiquidateAssets, RaiseCash, AfterBid, AfterPass, ValidateTrade;
  }

  lemma {:induction false} FinishedStaysFinished(r: Rules, start: State, steps: seq<Step>, m: nat, n: nat)
    requires Inv(r, start) && m <= n <= |steps| && After(r, start, steps, m).phase == Finished
    ensures var s, s' := After(r, start, steps, m), After(r, start, steps, n);
            s'.phase == Finished && s'.props == s.props && s'.turn == s.turn && s'.current == s.current
    decreases n
  {
    hide Inv, Next, Accepted;
    if m < n {
      FinishedStaysFinished(r, start, steps, m, n - 1);
      FinishedStep(r, After(r, start, steps, n - 1), steps[n - 1]);
    }
  }

  lemma FinishedStep(r: Rules, s: State, step: Step)
    requires Inv(r, s) && s.phase == Finished
    ensures var s' := Next(r, s, step); s' == s.(players := s'.players, decks := s'.decks)
  {
    if Accepted(r, s, step) {
      FinishedAcceptsOnlyJail(r, s, step);
    }
  }

  // ----- rolls per turn

  /** How many rolls the turn can still see. */
  function RollsLeft(s: State): (n: int) {
    if s.phase in {AwaitingFirstTurn, AwaitingRoll} || s.playAgain then 3 - s.doubles else 0
  }

  lemma RollsLeftRange(r: Rules, s: State)
    requires Inv(r, s)
    ensures 0 <= RollsLeft(s) <= 3
  {}

  /** The turn number stays and no further roll opens up within the turn. */
  predicate Quiet(s: State, s': State) {
    s'.turn == s.turn && RollsLeft(s') <= RollsLeft(s)
  }

  lemma RollSpends(r: Rules, s: State, p: nat, dice: (int, int))
    requires Inv(r, s) && Shape(r, s) && RollAndMove(r, s, p, dice).Ok?
    ensures var s' := RollAndMove(r, s, p, dice).value; s'.turn == s.turn && RollsLeft(s') < RollsLeft(s)
  {
    hide PlayersOk, PropsOk, Discipline, CardsOk, ValidRules, RollFromJail, MoveIgnoringJail;
    RollOutcome(r, s, p, dice);
  }

  lemma RaiseFrame(r: Rules, s: State, p: nat)
    requires Shape(r, s) && LevelsOk(r, s.props) && RaiseCash(r, s, p).Ok?
    ensures var s' := RaiseCash(r, s, p).value; s' == s.(players := s'.players, props := s'.props)
    decreases Measure(r, s, p)
  {
    hide ValidRules, LevelsOk, OwnsSetOf, HighestInSet, SetHasBuilding, BuildingToSell, TileToMortgage;
    if !CanPayDebt(s, p) {
      var building := BuildingToSell(s.props, p, |s.props|);
      if building.Some? {
        SellDecreases(r, s, p, building.value);
        RaiseFrame(r, SellBuilding(r, s, p, building.value).value, p);
      } else {
        var tile := TileToMortgage(r, s, p, 0);
        if tile.Some? {
          MortgageDecreases(r, s, p, tile.value);
          RaiseFrame(r, MortgageProperty(r, s, p, tile.value).value, p);
        }
      }
    }
  }

  lemma BankruptcyMovesOn(r: Rules, s: State, p: nat, named: Option<nat>)
    requires Inv(r, s) && DeclareBankruptcy(r, s, p, named).Ok?
    ensures var s' := DeclareBankruptcy(r, s, p, named).value;
            s'.turn > s.turn || (s'.turn == s.turn && RollsLeft(s') <= RollsLeft(s))
    ensures s.current == p ==> var s' := DeclareBankruptcy(r, s, p, named).value; s'.turn > s.turn || s'.phase == Finished
  {
    hide PlayersOk, PropsOk, Discipline, CardsOk, ValidRules, LiquidateAssets;
    BankruptcyAccepted(r, s, p, named);
    LiquidationResult(r, s, p, ActualCreditor(s, p, named));
  }

  lemma AutoResolveMovesOn(r: Rules, s: State, p: nat)
    requires Inv(r, s) && Shape(r, s) && LevelsOk(r, s.props) && AutoResolveDebt(r, s, p).Ok?
    ensures var s' := AutoResolveDebt(r, s, p).value;
            s'.turn > s.turn || (s'.turn == s.turn && RollsLeft(s') <= RollsLeft(s))
    ensures var s' := AutoResolveDebt(r, s, p).value;
            s'.turn > s.turn || s'.phase == Finished || (s'.phase == AwaitingTurnEnd && !s'.playAgain)
  {
    hide Core, RaiseCash, DeclareBankruptcy, LevelsOk, ValidRules, Active, HumanActive, AuctionOk;
    RaiseFrame(r, s, p);
    RaiseKeeps(r, s, p);
    var raised := RaiseCash(r, s, p).value;
    if !CanPayDebt(raised, p) {
      BankruptcyMovesOn(r, raised, p, if raised.debt.Some? then raised.debt.value.creditor else None);
    }
  }

  lemma TradeIsQuiet(r: Rules, s: State, t: Trade)
    requires Inv(r, s) && OfferOk(t) && AcceptOffer(r, s, t).Ok?
    ensures Quiet(s, AcceptOffer(r, s, t).value)
  {
    hide PlayersOk, PropsOk, Discipline, CardsOk, ValidRules, TradedCash, LevelsOk, NoDuplicates;
    CoreShape(r, s);
    AcceptOutcome(r, s, t);
  }

  lemma ProposeIsQuiet(r: Rules, s: State, t: Trade)
    requires Inv(r, s) && Shape(r, s) && ProposeTrade(r, s, t).Ok?
    ensures Quiet(s, ProposeTrade(r, s, t).value)
  {
    hide Core, PhaseOk, TurnOk, AuctionOk, TradeOk, AcceptOffer, ValidRules, BotAccepts, ValidateTrade, NoDuplicates;
    ProposerFound(r, s, t);
    MarkKeeps(r, s, t.from);
    var marked := MarkBotProposal(s, t.from);
    if s.players[t.to].playerType == Bot && BotAccepts(r, marked, t) {
      TradeIsQuiet(r, marked, t);
    }
  }

  lemma AuctionIsQuiet(r: Rules, s: State, now: int, p: nat, amount: int)
    requires Inv(r, s) && Shape(r, s)
    ensures PlaceBid(r, s, now, p, amount).Ok? ==> Quiet(s, PlaceBid(r, s, now, p, amount).value)
    ensures PassBid(r, s, now, p).Ok? ==> Quiet(s, PassBid(r, s, now, p).value)
    ensures DeclineProperty(r, s, now, p).Ok? ==> Quiet(s, DeclineProperty(r, s, now, p).value)
  {
    hide Core, ValidRules, AfterBid, AfterPass, AssertCanBid, AuctionOk, TurnOk, Unpassed, Active;
    assert s.phase == AwaitingAuction ==> s.auction.Some?;
    AuctionPhase(s, now, p);
  }

  lemma AuctionPhase(s: State, now: int, p: nat)
    ensures AssertCanBid(s, p).None? ==> s.phase == AwaitingAuction && s.auction.Some? && p in s.auction.value.active
  {}

  lemma ManagingIsQuiet(r: Rules, s: State, p: nat, k: nat)
    requires Inv(r, s) && Shape(r, s)
    ensures BuildProperty(r, s, p, k).Ok? ==> Quiet(s, BuildProperty(r, s, p, k).value)
    ensures SellBuilding(r, s, p, k).Ok? ==> Quiet(s, SellBuilding(r, s, p, k).value)
    ensures MortgageProperty(r, s, p, k).Ok? ==> Quiet(s, MortgageProperty(r, s, p, k).value)
    ensures UnmortgageProperty(r, s, p, k).Ok? ==> Quiet(s, UnmortgageProperty(r, s, p, k).value)
  {
    hide Core, ValidRules, OwnsSetOf, LowestInSet, HighestInSet, SetReadyForHotel, SetHasMortgage,
      SetHasBuilding, PhaseOk, TurnOk, AuctionOk, TradeOk;
  }

  lemma RestIsQuiet(r: Rules, s: State, p: nat, at: int)
    requires Inv(r, s) && Shape(r, s)
    ensures BuyProperty(r, s, p).Ok? ==> Quiet(s, BuyProperty(r, s, p).value)
    ensures PayDebt(s, p).Ok? ==> Quiet(s, PayDebt(s, p).value)
    ensures PayJailFine(s, p).Ok? ==> Quiet(s, PayJailFine(s, p).value)
    ensures UseJailCard(r, s, p).Ok? ==> Quiet(s, UseJailCard(r, s, p).value)
    ensures EndTurn(s, p).Ok? ==> Quiet(s, EndTurn(s, p).value) || EndTurn(s, p).value.turn > s.turn
    ensures FinishByTime(s, at).Ok? ==> Quiet(s, FinishByTime(s, at).value)
    ensures FinishAfterLastHumanLeft(s, at).Ok? ==> Quiet(s, FinishAfterLastHumanLeft(s, at).value)
  {
    hide Core, ValidRules, NextActivePlayer, AuctionOk, TradeOk, Active, HumanActive;
  }

  /** Every other intent stays within the turn without opening another roll, or moves the turn on. */
  lemma StepSpends(r: Rules, s: State, step: Step)
    requires Inv(r, s) && Accepted(r, s, step)
    ensures var s' := Next(r, s, step);
            && s'.turn >= s.turn
            && (s'.turn == s.turn ==> RollsLeft(s') <= RollsLeft(s) - if step.intent.RollDice? then 1 else 0)
            && (step.intent.RollDice? ==> s'.turn == s.turn)
  {
    hide Inv, Core, ValidRules, LevelsOk, RollAndMove, BuyProperty, DeclineProperty, PlaceBid, PassBid, BuildProperty,
      SellBuilding, MortgageProperty, UnmortgageProperty, ProposeTrade, AcceptOffer, DeclareBankruptcy, PayDebt,
      AutoResolveDebt, PayJailFine, UseJailCard, EndTurn, FinishByTime, FinishAfterLastHumanLeft, RollsLeft;
    InvShape(r, s);
    match step.intent
    case RollDice(p, dice) => RollSpends(r, s, p, dice);
    case Propose(offer) => ProposeIsQuiet(r, s, offer);
    case Accept(p, id) => OpenOffer(r, s); TradeIsQuiet(r, s, s.trade.value);
    case Reject(p, id) => assert Quiet(s, s.(trade := None)) by { SameRollsLeft(s); }
    case Cancel(p, id) => assert Quiet(s, s.(trade := None)) by { SameRollsLeft(s); }
    case GoBankrupt(p, creditor) => BankruptcyMovesOn(r, s, p, creditor);
    case AutoResolve(p) => AutoResolveMovesOn(r, s, p);
    case Bid(p, amount) => AuctionIsQuiet(r, s, step.now, p, amount);
    case Pass(p) => AuctionIsQuiet(r, s, step.now, p, 0);
    case Decline(p) => AuctionIsQuiet(r, s, step.now, p, 0);
    case Build(p, k) => ManagingIsQuiet(r, s, p, k);
    case Sell(p, k) => ManagingIsQuiet(r, s, p, k);
    case Mortgage(p, k) => ManagingIsQuiet(r, s, p, k);
    case Unmortgage(p, k) => ManagingIsQuiet(r, s, p, k);
    case Buy(p) => RestIsQuiet(r, s, p, 0);
    case SettleDebt(p) => RestIsQuiet(r, s, p, 0);
    case PayFine(p) => RestIsQuiet(r, s, p, 0);
    case UseCard(p) => RestIsQuiet(r, s, p, 0);
    case PassTurn(p) => RestIsQuiet(r, s, p, 0);
    case TimeUp(at) => RestIsQuiet(r, s, 0, at);
    case LastHumanLeft(at) => RestIsQuiet(r, s, 0, at);
  }

  lemma SameRollsLeft(s: State)
    ensures RollsLeft(s.(trade := None)) == RollsLeft(s)
  {}

  /** The accepted rolls among the steps `from`, ..., `n - 1` taken at turn number `turn`. */
  ghost function Rolls(r: Rules, start: State, steps: seq<Step>, turn: int, n: nat): (count: nat)
    requires Inv(r, start) && n <= |steps|
  {
    if n == 0 then 0
    else
      var s := After(r, start, steps, n - 1);
      Rolls(r, start, steps, turn, n - 1)
      + if steps[n - 1].intent.RollDice? && s.turn == turn && Accepted(r, s, steps[n - 1]) then 1 else 0
  }

  lemma {:induction false} RollsBounded(r: Rules, start: State, steps: seq<Step>, turn: int, n: nat)
    requires Inv(r, start) && n <= |steps|
    ensures var s := After(r, start, steps, n);
            && (s.turn < turn ==> Rolls(r, start, steps, turn, n) == 0)
            && (s.turn == turn ==> Rolls(r, start, steps, turn, n) + RollsLeft(s) <= 3)
            && Rolls(r, start, steps, turn, n) <= 3
  {
    hide Inv, Next, Accepted, RollsLeft;
    if n == 0 {
      RollsLeftRange(r, start);
    } else {
      RollsBounded(r, start, steps, turn, n - 1);
      var s := After(r, start, steps, n - 1);
      RollsLeftRange(r, s);
      RollsLeftRange(r, Next(r, s, steps[n - 1]));
      StepOrStay(r, s, steps[n - 1]);
    }
  }

  lemma StepOrStay(r: Rules, s: State, step: Step)
    requires Inv(r, s)
    ensures !Accepted(r, s, step) ==> Next(r, s, step) == s
    ensures Accepted(r, s, step) ==>
              var s' := Next(r, s, step);
              && s'.turn >= s.turn
              && (s'.turn == s.turn ==> RollsLeft(s') <= RollsLeft(s) - if step.intent.RollDice? then 1 else 0)
              && (step.intent.RollDice? ==> s'.turn == s.turn)
  {
    hide Inv, RollsLeft;
    if Accepted(r, s, step) {
      StepSpends(r, s, step);
    }
  }

  /** At most three accepted rolls ever share a turn number, in any game. */
  lemma AtMostThreeRollsPerTurn(r: Rules, start: State, steps: seq<Step>, turn: int)
    requires Inv(r, start)
    ensures Rolls(r, start, steps, turn, |steps|) <= 3
  {
    RollsBounded(r, start, steps, turn, |steps|);
  }
}
