/** What every step other than a roll leaves alone. */
module Frames {
  import opened Rules
  import opened State
  import opened Money
  import opened CardDecks
  import opened Turns
  import opened Landing
  import opened Properties
  import opened Auctions
  import opened Trades
  import opened AutoDebt
  import opened Engine
  import opened Invariant
  import opened TradeProof
  import opened BankruptcyProof
  import opened Runs
  import opened Solvency

  predicate SameTypes(players: seq<Player>, players': seq<Player>) {
    |players'| == |players| && forall i :: 0 <= i < |players| ==> players'[i].playerType == players[i].playerType
  }

  /** Nobody goes to jail and no jail term grows. */
  predicate JailEased(players: seq<Player>, players': seq<Player>) {
    && |players'| == |players|
    && forall i :: 0 <= i < |players| && players'[i].inJail ==> players[i].inJail && players'[i].jailTurns <= players[i].jailTurns
  }

  /** No new offer, nobody changes type or is worse off in jail. */
  predicate Calm(s: State, s': State) {
    SameTypes(s.players, s'.players) && JailEased(s.players, s'.players) && (s'.trade == s.trade || s'.trade.None?)
  }

  /** And the open debt stays. */
  predicate Steady(s: State, s': State) {
    Calm(s, s') && s'.debt == s.debt
  }

  lemma ManagingSteady(r: Rules, s: State, p: nat, k: nat)
    requires Shape(r, s)
    ensures BuildProperty(r, s, p, k).Ok? ==> Steady(s, BuildProperty(r, s, p, k).value)
    ensures SellBuilding(r, s, p, k).Ok? ==> Steady(s, SellBuilding(r, s, p, k).value)
  {
    hide ValidRules, OwnsSetOf, LowestInSet, HighestInSet, SetReadyForHotel, SetHasMortgage;
  }

  lemma MortgagingSteady(r: Rules, s: State, p: nat, k: nat)
    requires Shape(r, s)
    ensures MortgageProperty(r, s, p, k).Ok? ==> Steady(s, MortgageProperty(r, s, p, k).value)
    ensures UnmortgageProperty(r, s, p, k).Ok? ==> Steady(s, UnmortgageProperty(r, s, p, k).value)
  {
    hide ValidRules, SetHasBuilding;
  }

  lemma BuyingSteady(r: Rules, s: State, p: nat)
    requires Shape(r, s)
    ensures BuyProperty(r, s, p).Ok? ==> Steady(s, BuyProperty(r, s, p).value)
  {
    hide ValidRules;
  }

  lemma JailSteady(r: Rules, s: State, p: nat)
    ensures PayJailFine(s, p).Ok? ==> Steady(s, PayJailFine(s, p).value)
    ensures UseJailCard(r, s, p).Ok? ==> Steady(s, UseJailCard(r, s, p).value)
  {
    hide ValidRules;
  }

  lemma TurnSteady(r: Rules, s: State, now: int, p: nat)
    requires Shape(r, s)
    ensures DeclineProperty(r, s, now, p).Ok? ==> Steady(s, DeclineProperty(r, s, now, p).value)
    ensures EndTurn(s, p).Ok? ==> Steady(s, EndTurn(s, p).value)
  {
    hide ValidRules, NextActivePlayer, Active;
  }

  lemma BiddingSteady(r: Rules, s: State, now: int, p: nat, amount: int)
    requires Shape(r, s)
    ensures PlaceBid(r, s, now, p, amount).Ok? ==> Steady(s, PlaceBid(r, s, now, p, amount).value)
    ensures PassBid(r, s, now, p).Ok? ==> Steady(s, PassBid(r, s, now, p).value)
  {
    hide ValidRules, AfterBid, AfterPass, Unpassed;
  }

  lemma AcceptCalm(r: Rules, s: State, t: Trade)
    requires Shape(r, s) && LevelsOk(r, s.props) && OfferOk(t) && AcceptOffer(r, s, t).Ok?
    ensures Steady(s, AcceptOffer(r, s, t).value)
  {
    hide ValidRules, LevelsOk, TradedCash, NoDuplicates, AcceptOffer, ValidateTrade;
    AcceptedIsTradeable(r, s, t);
    AcceptOutcome(r, s, t);
  }

  /** A debt paid: a jail fine releases the debtor. */
  lemma DebtCalm(s: State, p: nat)
    requires PayDebt(s, p).Ok?
    ensures Calm(s, PayDebt(s, p).value) && s.debt.Some? && s.debt.value.player == p
    ensures s.debt.value.reason == JailFine && s.HasPlayer(p) ==> !PayDebt(s, p).value.players[p].inJail
  {
    hide Transfer;
    if s.debt.value.creditor.Some? {
      TransferCalm(s, p, s.debt.value.creditor.value, s.debt.value.amount);
    }
  }

  lemma TransferCalm(s: State, from: nat, to: nat, amount: int)
    ensures Transfer(s, from, to, amount).Ok? ==>
              var s' := Transfer(s, from, to, amount).value;
              SameTypes(s.players, s'.players) && JailEased(s.players, s'.players) && s' == s.(players := s'.players)
  {}

  /** A bankrupt player leaves jail. */
  lemma BankruptCalm(r: Rules, s: State, p: nat, named: Option<nat>)
    requires Core(r, s) && DeclareBankruptcy(r, s, p, named).Ok?
    ensures var s' := DeclareBankruptcy(r, s, p, named).value;
            && Calm(s, s') && s'.HasPlayer(p) && !s'.players[p].inJail
            && (s'.phase == Finished || s'.debt == if s.debt.Some? && s.debt.value.player == p then None else s.debt)
  {
    hide PlayersOk, PropsOk, Discipline, CardsOk, ValidRules, LiquidateAssets, ActiveBySeat;
    LiquidationResult(r, s, p, ActualCreditor(s, p, named));
  }

  lemma {:induction false} RaiseSteady(r: Rules, s: State, p: nat)
    requires Shape(r, s) && LevelsOk(r, s.props) && RaiseCash(r, s, p).Ok?
    ensures Steady(s, RaiseCash(r, s, p).value)
    decreases Measure(r, s, p)
  {
    hide ValidRules, LevelsOk, SellBuilding, MortgageProperty, BuildingToSell, TileToMortgage;
    if !CanPayDebt(s, p) {
      var building := BuildingToSell(s.props, p, |s.props|);
      if building.Some? {
        SellDecreases(r, s, p, building.value);
        ManagingSteady(r, s, p, building.value);
        RaiseSteady(r, SellBuilding(r, s, p, building.value).value, p);
      } else {
        var tile := TileToMortgage(r, s, p, 0);
        if tile.Some? {
          MortgageDecreases(r, s, p, tile.value);
          MortgagingSteady(r, s, p, tile.value);
          RaiseSteady(r, MortgageProperty(r, s, p, tile.value).value, p);
        }
      }
    }
  }

  lemma CalmTrans(a: State, b: State, c: State)
    requires Calm(a, b) && Calm(b, c)
    ensures Calm(a, c)
  {}

  lemma ResolveCalm(r: Rules, s: State, p: nat)
    requires Inv(r, s) && Shape(r, s) && LevelsOk(r, s.props) && AutoResolveDebt(r, s, p).Ok?
    ensures Calm(s, AutoResolveDebt(r, s, p).value)
  {
    hide Inv, ValidRules, LevelsOk, RaiseCash, PayDebt, DeclareBankruptcy, SameTypes, JailEased;
    RaiseSteady(r, s, p);
    RaiseKeeps(r, s, p);
    var raised := RaiseCash(r, s, p).value;
    InvCore(r, raised);
    if CanPayDebt(raised, p) {
      DebtCalm(raised, p);
    } else {
      BankruptCalm(r, raised, p, if raised.debt.Some? then raised.debt.value.creditor else None);
    }
    CalmTrans(s, raised, AutoResolveDebt(r, s, p).value);
  }

  lemma ReduceRoll(r: Rules, s: State, now: int, p: nat, dice: (int, int))
    requires Shape(r, s) && LevelsOk(r, s.props)
    ensures Reduce(r, s, now, RollDice(p, dice)) == RollAndMove(r, s, p, dice)
  {
    hide RollAndMove, ValidRules, LevelsOk;
  }

  lemma ReducePropose(r: Rules, s: State, now: int, offer: Trade)
    requires Shape(r, s) && LevelsOk(r, s.props)
    ensures Reduce(r, s, now, Propose(offer)) == ProposeTrade(r, s, offer)
  {
    hide ProposeTrade, ValidRules, LevelsOk;
  }

  /** Every intent but a roll and a proposal is calm. */
  lemma StepCalm(r: Rules, s: State, step: Step)
    requires Inv(r, s) && Accepted(r, s, step) && !step.intent.RollDice? && !step.intent.Propose?
    ensures Calm(s, Next(r, s, step))
  {
    hide Core, PhaseOk, TurnOk, AuctionOk, TradeOk, ValidRules, LevelsOk, BuyProperty, DeclineProperty, PlaceBid, PassBid,
      BuildProperty, SellBuilding, MortgageProperty, UnmortgageProperty, AcceptOffer, DeclareBankruptcy, PayDebt,
      AutoResolveDebt, PayJailFine, UseJailCard, EndTurn;
    InvShape(r, s);
    match step.intent
    case Accept(p, id) => OpenOffer(r, s); AcceptCalm(r, s, s.trade.value);
    case GoBankrupt(p, creditor) => BankruptCalm(r, s, p, creditor);
    case AutoResolve(p) => ResolveCalm(r, s, p);
    case Bid(p, amount) => BiddingSteady(r, s, step.now, p, amount);
    case Pass(p) => BiddingSteady(r, s, step.now, p, 0);
    case Decline(p) => TurnSteady(r, s, step.now, p);
    case PassTurn(p) => TurnSteady(r, s, step.now, p);
    case Build(p, k) => ManagingSteady(r, s, p, k);
    case Sell(p, k) => ManagingSteady(r, s, p, k);
    case Mortgage(p, k) => MortgagingSteady(r, s, p, k);
    case Unmortgage(p, k) => MortgagingSteady(r, s, p, k);
    case Buy(p) => BuyingSteady(r, s, p);
    case SettleDebt(p) => DebtCalm(s, p);
    case PayFine(p) => JailSteady(r, s, p);
    case UseCard(p) => JailSteady(r, s, p);
    case _ =>
  }
}
