/** Built sets: one owner, and levels that differ by at most one. */
module Sets {
  import opened Rules
  import opened State
  import opened CardDecks
  import opened Turns
  import opened Landing
  import opened Properties
  import opened Auctions
  import opened Trades
  import opened AutoDebt
  import opened Engine
  import opened Invariant
  import opened RollProof
  import opened Preservation
  import opened TradeProof
  import opened BankruptcyProof
  import opened Runs
  import opened Solvency

  predicate PairOk(left: PropertyState, right: PropertyState) {
    (left.Built() ==> left.owner == right.owner) && left.Level() <= right.Level() + 1
  }

  predicate SetsOk(r: Rules, props: seq<PropertyState>)
    requires |props| == |r.tiles|
  {
    forall j, k :: 0 <= j < |props| && 0 <= k < |props| && r.SameSet(j, k) ==> PairOk(props[j], props[k])
  }

  lemma SetsGive(r: Rules, props: seq<PropertyState>, j: nat, k: nat)
    requires |props| == |r.tiles| && SetsOk(r, props) && r.SameSet(j, k)
    ensures PairOk(props[j], props[k]) && PairOk(props[k], props[j])
  {
    assert r.SameSet(k, j);
  }

  /** One tile changes and still fits every tile of its set. */
  lemma SetsUpdate(r: Rules, props: seq<PropertyState>, k: nat, q: PropertyState)
    requires |props| == |r.tiles| && k < |props| && SetsOk(r, props)
    requires forall j :: 0 <= j < |props| && j != k && r.SameSet(j, k) ==> PairOk(props[j], q) && PairOk(q, props[j])
    ensures SetsOk(r, props[k := q])
  {
    hide PairOk;
    var props' := props[k := q];
    forall i, j | 0 <= i < |props'| && 0 <= j < |props'| && r.SameSet(i, j)
      ensures PairOk(props'[i], props'[j])
    {
      assert r.SameSet(j, i);
      if i == k && j == k {
        PairWithSelf(q);
      }
    }
  }

  lemma PairWithSelf(q: PropertyState)
    ensures PairOk(q, q)
  {}

  /** Owner and level of every tile stay. */
  lemma SetsSame(r: Rules, props: seq<PropertyState>, props': seq<PropertyState>)
    requires |props| == |r.tiles| == |props'| && SetsOk(r, props)
    requires forall k :: 0 <= k < |props| ==>
               props'[k].owner == props[k].owner && props'[k].houses == props[k].houses && props'[k].hotel == props[k].hotel
    ensures SetsOk(r, props')
  {
    forall i, j | 0 <= i < |props'| && 0 <= j < |props'| && r.SameSet(i, j)
      ensures PairOk(props'[i], props'[j])
    {
      assert PairOk(props[i], props[j]);
    }
  }

  /** A tile nobody owns has no building in its set, so a new owner fits. */
  lemma SetsGain(r: Rules, s: State, k: nat, q: PropertyState)
    requires Core(r, s) && SetsOk(r, s.props) && BuyableTile(r, s, k)
    requires q == s.props[k].(owner := q.owner)
    ensures SetsOk(r, s.props[k := q])
  {
    hide PlayersOk, PropsOk, Discipline, CardsOk, ValidRules, SetsOk;
    PropertyAt(r, s, k);
    forall j | 0 <= j < |s.props| && j != k && r.SameSet(j, k)
      ensures PairOk(s.props[j], q) && PairOk(q, s.props[j])
    {
      SetsGive(r, s.props, j, k);
      PropertyAt(r, s, j);
    }
    SetsUpdate(r, s.props, k, q);
  }

  lemma BuildKeepsSets(r: Rules, s: State, p: nat, k: nat)
    requires Core(r, s) && SetsOk(r, s.props) && BuildProperty(r, s, p, k).Ok?
    ensures |BuildProperty(r, s, p, k).value.props| == |r.tiles| && SetsOk(r, BuildProperty(r, s, p, k).value.props)
  {
    hide PlayersOk, PropsOk, Discipline, CardsOk, ValidRules, SetsOk;
    var q := BuiltTile(s.props[k]);
    PropertyAt(r, s, k);
    assert r.SameSet(k, k);
    forall j | 0 <= j < |s.props| && j != k && r.SameSet(j, k)
      ensures PairOk(s.props[j], q) && PairOk(q, s.props[j])
    {
      SetsGive(r, s.props, j, k);
      PropertyAt(r, s, j);
    }
    SetsUpdate(r, s.props, k, q);
  }

  lemma SellKeepsSets(r: Rules, s: State, p: nat, k: nat)
    requires Core(r, s) && SetsOk(r, s.props) && SellBuilding(r, s, p, k).Ok?
    ensures |SellBuilding(r, s, p, k).value.props| == |r.tiles| && SetsOk(r, SellBuilding(r, s, p, k).value.props)
  {
    hide PlayersOk, PropsOk, Discipline, CardsOk, ValidRules, SetsOk;
    var q := SoldTile(s.props[k]);
    PropertyAt(r, s, k);
    assert r.SameSet(k, k);
    forall j | 0 <= j < |s.props| && j != k && r.SameSet(j, k)
      ensures PairOk(s.props[j], q) && PairOk(q, s.props[j])
    {
      SetsGive(r, s.props, j, k);
      PropertyAt(r, s, j);
    }
    SetsUpdate(r, s.props, k, q);
  }

  lemma {:induction false} RaiseKeepsSets(r: Rules, s: State, p: nat)
    requires Inv(r, s) && Shape(r, s) && LevelsOk(r, s.props) && SetsOk(r, s.props) && RaiseCash(r, s, p).Ok?
    ensures SetsOk(r, RaiseCash(r, s, p).value.props)
    decreases Measure(r, s, p)
  {
    hide Inv, ValidRules, LevelsOk, SellBuilding, MortgageProperty, BuildingToSell, TileToMortgage, SetsOk;
    if !CanPayDebt(s, p) {
      InvCore(r, s);
      var building := BuildingToSell(s.props, p, |s.props|);
      if building.Some? {
        SellKeeps(r, s, p, building.value);
        SellDecreases(r, s, p, building.value);
        SellKeepsSets(r, s, p, building.value);
        RaiseKeepsSets(r, SellBuilding(r, s, p, building.value).value, p);
      } else {
        var tile := TileToMortgage(r, s, p, 0);
        if tile.Some? {
          MortgageKeeps(r, s, p, tile.value);
          MortgageDecreases(r, s, p, tile.value);
          MortgageKeepsSets(r, s, p, tile.value);
          RaiseKeepsSets(r, MortgageProperty(r, s, p, tile.value).value, p);
        }
      }
    }
  }

  lemma MortgageKeepsSets(r: Rules, s: State, p: nat, k: nat)
    requires Shape(r, s) && SetsOk(r, s.props)
    ensures MortgageProperty(r, s, p, k).Ok? ==>
              |MortgageProperty(r, s, p, k).value.props| == |r.tiles| && SetsOk(r, MortgageProperty(r, s, p, k).value.props)
    ensures UnmortgageProperty(r, s, p, k).Ok? ==>
              |UnmortgageProperty(r, s, p, k).value.props| == |r.tiles| && SetsOk(r, UnmortgageProperty(r, s, p, k).value.props)
  {
    hide ValidRules, SetsOk, SetHasBuilding;
    if MortgageProperty(r, s, p, k).Ok? {
      SetsSame(r, s.props, MortgageProperty(r, s, p, k).value.props);
    }
    if UnmortgageProperty(r, s, p, k).Ok? {
      SetsSame(r, s.props, UnmortgageProperty(r, s, p, k).value.props);
    }
  }

  lemma LiquidationKeepsSets(r: Rules, s: State, p: nat, creditor: Option<nat>)
    requires Core(r, s) && s.HasPlayer(p) && SetsOk(r, s.props)
    ensures LiquidateAssets(r, s, p, creditor).Ok?
    ensures |LiquidateAssets(r, s, p, creditor).value.props| == |r.tiles|
    ensures SetsOk(r, LiquidateAssets(r, s, p, creditor).value.props)
  {
    hide PlayersOk, PropsOk, Discipline, CardsOk, ValidRules, LiquidateAssets;
    LiquidationResult(r, s, p, creditor);
    var props' := LiquidateAssets(r, s, p, creditor).value.props;
    forall i, j | 0 <= i < |props'| && 0 <= j < |props'| && r.SameSet(i, j)
      ensures PairOk(props'[i], props'[j])
    {
      SetsGive(r, s.props, i, j);
      PropertyAt(r, s, i);
      PropertyAt(r, s, j);
    }
  }

  lemma BankruptcyKeepsSets(r: Rules, s: State, p: nat, named: Option<nat>)
    requires Core(r, s) && SetsOk(r, s.props) && DeclareBankruptcy(r, s, p, named).Ok?
    ensures |DeclareBankruptcy(r, s, p, named).value.props| == |r.tiles|
    ensures SetsOk(r, DeclareBankruptcy(r, s, p, named).value.props)
  {
    hide PlayersOk, PropsOk, Discipline, CardsOk, ValidRules, LiquidateAssets, SetsOk;
    LiquidationKeepsSets(r, s, p, ActualCreditor(s, p, named));
  }

  lemma AutoResolveKeepsSets(r: Rules, s: State, p: nat)
    requires Inv(r, s) && Shape(r, s) && LevelsOk(r, s.props) && SetsOk(r, s.props) && AutoResolveDebt(r, s, p).Ok?
    ensures |AutoResolveDebt(r, s, p).value.props| == |r.tiles|
    ensures SetsOk(r, AutoResolveDebt(r, s, p).value.props)
  {
    hide Inv, ValidRules, LevelsOk, RaiseCash, DeclareBankruptcy, SetsOk;
    RaiseKeepsSets(r, s, p);
    RaiseKeeps(r, s, p);
    var raised := RaiseCash(r, s, p).value;
    InvCore(r, raised);
    if !CanPayDebt(raised, p) {
      BankruptcyKeepsSets(r, raised, p, if raised.debt.Some? then raised.debt.value.creditor else None);
    }
  }

  // ----- trades

  predicate Traded(t: Trade, k: nat) {
    k in t.offered || k in t.requested
  }

  /** Every building in the set of a traded tile stands on a traded tile itself. */
  predicate NothingLeftBehind(r: Rules, s: State, t: Trade)
    requires |s.props| == |r.tiles|
  {
    forall j, k :: 0 <= j < |s.props| && 0 <= k < |s.props| && r.SameSet(j, k) && Traded(t, k) && s.props[j].Built() ==>
                     Traded(t, j)
  }

  /**
   An accepted trade keeps the built sets in order if and only if no building is left standing in
   a traded tile's set.
   */
  lemma TradeKeepsSetsIff(r: Rules, s: State, t: Trade)
    requires Core(r, s) && Tradeable(r, s, t) && SetsOk(r, s.props)
    ensures AcceptOffer(r, s, t).Ok? && |AcceptOffer(r, s, t).value.props| == |r.tiles|
    ensures SetsOk(r, AcceptOffer(r, s, t).value.props) <==> NothingLeftBehind(r, s, t)
  {
    hide PlayersOk, PropsOk, Discipline, CardsOk, ValidRules, LevelsOk, AcceptOffer, NoDuplicates, ValidateTrade, TradedCash;
    AcceptOutcome(r, s, t);
    TradeableKeys(r, s, t);
    var props' := AcceptOffer(r, s, t).value.props;
    if NothingLeftBehind(r, s, t) {
      forall i, j | 0 <= i < |props'| && 0 <= j < |props'| && r.SameSet(i, j)
        ensures PairOk(props'[i], props'[j])
      {
        CleanPair(r, s, t, props', i, j);
      }
    } else {
      var j, k :| 0 <= j < |s.props| && 0 <= k < |s.props| && r.SameSet(j, k) && Traded(t, k) && s.props[j].Built() && !Traded(t, j);
      SetsGive(r, s.props, j, k);
      assert props'[j] == s.props[j];
      assert !PairOk(props'[j], props'[k]);
    }
  }

  lemma CleanPair(r: Rules, s: State, t: Trade, props': seq<PropertyState>, i: nat, j: nat)
    requires Core(r, s) && SetsOk(r, s.props) && NothingLeftBehind(r, s, t) && r.SameSet(i, j)
    requires |props'| == |s.props| && forall k :: 0 <= k < |s.props| ==> props'[k] == TradedTile(s.props[k], t, k)
    ensures PairOk(props'[i], props'[j])
  {
    hide PlayersOk, PropsOk, Discipline, CardsOk, ValidRules;
    SetsGive(r, s.props, i, j);
    PropertyAt(r, s, i);
    PropertyAt(r, s, j);
    assert r.SameSet(j, i);
    if Traded(t, j) && s.props[i].Built() {
      assert Traded(t, i);
    }
    if Traded(t, i) && s.props[j].Built() {
      assert Traded(t, j);
    }
  }

  // ----- every intent

  /** The trade an accepted intent carries out: an accepted offer, or a proposal a bot takes at once. */
  function CarriedOut(r: Rules, s: State, intent: Intent): (t: Option<Trade>)
    requires Shape(r, s)
  {
    match intent
    case Accept(_, _) => s.trade
    case Propose(offer) =>
      if && s.HasPlayer(offer.from) && s.HasPlayer(offer.to) && s.players[offer.to].playerType == Bot
         && BotAccepts(r, MarkBotProposal(s, offer.from), offer)
      then Some(offer) else None
    case _ => None
  }

  /** The step carries out no trade that leaves a building behind. */
  predicate CleanTrade(r: Rules, s: State, intent: Intent)
    requires Shape(r, s)
  {
    var t := CarriedOut(r, s, intent);
    t.Some? ==> NothingLeftBehind(r, s, t.value)
  }

  /**
   An accepted intent keeps the built sets in order if and only if it carries out no trade that
   leaves a building standing in a traded tile's set.
   */
  lemma StepKeepsSetsIff(r: Rules, s: State, step: Step)
    requires Inv(r, s) && Shape(r, s) && SetsOk(r, s.props) && Accepted(r, s, step)
    ensures |Next(r, s, step).props| == |r.tiles|
    ensures SetsOk(r, Next(r, s, step).props) <==> CleanTrade(r, s, step.intent)
  {
    hide Core, PhaseOk, TurnOk, AuctionOk, TradeOk, ValidRules, LevelsOk, SetsOk, NothingLeftBehind, RollAndMove, BuyProperty,
      DeclineProperty, PlaceBid, PassBid, BuildProperty, SellBuilding, MortgageProperty, UnmortgageProperty, ProposeTrade,
      AcceptOffer, DeclareBankruptcy, PayDebt, AutoResolveDebt, PayJailFine, UseJailCard, EndTurn, BotAccepts;
    InvShape(r, s);
    match step.intent
    case RollDice(p, dice) => RollSameProps(r, s, p, dice);
    case Propose(offer) => ProposeKeepsSetsIff(r, s, offer);
    case Accept(p, id) => OpenOffer(r, s); AcceptKeepsSetsIff(r, s, s.trade.value);
    case GoBankrupt(p, creditor) => BankruptcyKeepsSets(r, s, p, creditor);
    case AutoResolve(p) => AutoResolveKeepsSets(r, s, p);
    case Bid(p, amount) => AuctionKeepsSets(r, s, step.now, p, amount);
    case Pass(p) => AuctionKeepsSets(r, s, step.now, p, 0);
    case Decline(p) => SameProps(r, s, step.now, p);
    case Build(p, k) => BuildKeepsSets(r, s, p, k);
    case Sell(p, k) => SellKeepsSets(r, s, p, k);
    case Mortgage(p, k) => MortgageKeepsSets(r, s, p, k);
    case Unmortgage(p, k) => MortgageKeepsSets(r, s, p, k);
    case Buy(p) => BuyKeepsSets(r, s, p);
    case SettleDebt(p) => SameProps(r, s, step.now, p);
    case PayFine(p) => SameProps(r, s, step.now, p);
    case UseCard(p) => SameProps(r, s, step.now, p);
    case PassTurn(p) => SameProps(r, s, step.now, p);
    case _ =>
  }

  lemma RollSameProps(r: Rules, s: State, p: nat, dice: (int, int))
    requires Inv(r, s) && Shape(r, s) && RollAndMove(r, s, p, dice).Ok?
    ensures RollAndMove(r, s, p, dice).value.props == s.props
  {
    hide PlayersOk, PropsOk, Discipline, CardsOk, ValidRules, RollFromJail, MoveIgnoringJail;
    RollOutcome(r, s, p, dice);
  }

  lemma SameProps(r: Rules, s: State, now: int, p: nat)
    requires Shape(r, s)
    ensures DeclineProperty(r, s, now, p).Ok? ==> DeclineProperty(r, s, now, p).value.props == s.props
    ensures PayDebt(s, p).Ok? ==> PayDebt(s, p).value.props == s.props
    ensures PayJailFine(s, p).Ok? ==> PayJailFine(s, p).value.props == s.props
    ensures UseJailCard(r, s, p).Ok? ==> UseJailCard(r, s, p).value.props == s.props
    ensures EndTurn(s, p).Ok? ==> EndTurn(s, p).value.props == s.props
  {
    hide ValidRules, NextActivePlayer, Active;
  }

  lemma BuyKeepsSets(r: Rules, s: State, p: nat)
    requires Core(r, s) && SetsOk(r, s.props) && BuyProperty(r, s, p).Ok?
    ensures |BuyProperty(r, s, p).value.props| == |r.tiles| && SetsOk(r, BuyProperty(r, s, p).value.props)
  {
    hide PlayersOk, PropsOk, Discipline, CardsOk, ValidRules, SetsOk;
    var k := s.pending.value;
    SetsGain(r, s, k, s.props[k].(owner := Some(p)));
  }

  lemma AuctionKeepsSets(r: Rules, s: State, now: int, p: nat, amount: int)
    requires Inv(r, s) && Shape(r, s) && SetsOk(r, s.props)
    ensures PlaceBid(r, s, now, p, amount).Ok? ==>
              |PlaceBid(r, s, now, p, amount).value.props| == |r.tiles| && SetsOk(r, PlaceBid(r, s, now, p, amount).value.props)
    ensures PassBid(r, s, now, p).Ok? ==>
              |PassBid(r, s, now, p).value.props| == |r.tiles| && SetsOk(r, PassBid(r, s, now, p).value.props)
  {
    hide Core, TurnOk, AuctionOk, TradeOk, ValidRules, SetsOk, NextBidder, BuyableTile;
    if s.auction.Some? {
      var k := s.auction.value.tile;
      SettleKeepsSets(r, s, k);
    }
  }

  lemma SettleKeepsSets(r: Rules, s: State, k: nat)
    requires Core(r, s) && SetsOk(r, s.props) && BuyableTile(r, s, k)
    ensures k < |s.props| && forall owner: Option<nat> {:trigger s.props[k].(owner := owner)} ::
              SetsOk(r, s.props[k := s.props[k].(owner := owner)])
  {
    hide PlayersOk, PropsOk, Discipline, CardsOk, ValidRules, SetsOk;
    forall owner: Option<nat>
      ensures SetsOk(r, s.props[k := s.props[k].(owner := owner)])
    {
      SetsGain(r, s, k, s.props[k].(owner := owner));
    }
  }

  lemma AcceptKeepsSetsIff(r: Rules, s: State, t: Trade)
    requires Inv(r, s) && Shape(r, s) && SetsOk(r, s.props) && OfferOk(t) && AcceptOffer(r, s, t).Ok?
    ensures |AcceptOffer(r, s, t).value.props| == |r.tiles|
    ensures SetsOk(r, AcceptOffer(r, s, t).value.props) <==> NothingLeftBehind(r, s, t)
  {
    hide Core, PhaseOk, TurnOk, AuctionOk, TradeOk, ValidRules, SetsOk, NothingLeftBehind, AcceptOffer, NoDuplicates, LevelsOk,
      ValidateTrade;
    InvShape(r, s);
    AcceptedIsTradeable(r, s, t);
    TradeKeepsSetsIff(r, s, t);
  }

  lemma ProposeKeepsSetsIff(r: Rules, s: State, t: Trade)
    requires Inv(r, s) && Shape(r, s) && SetsOk(r, s.props) && ProposeTrade(r, s, t).Ok?
    ensures |ProposeTrade(r, s, t).value.props| == |r.tiles|
    ensures SetsOk(r, ProposeTrade(r, s, t).value.props) <==> CleanTrade(r, s, Propose(t))
  {
    hide Inv, ValidRules, SetsOk, NothingLeftBehind, AcceptOffer, BotAccepts, NoDuplicates, ValidateTrade;
    ProposerFound(r, s, t);
    MarkKeeps(r, s, t.from);
    var marked := MarkBotProposal(s, t.from);
    SamePropsBehind(r, s, marked, t);
    if s.players[t.to].playerType == Bot && BotAccepts(r, marked, t) {
      AcceptKeepsSetsIff(r, marked, t);
    }
  }

  lemma SamePropsBehind(r: Rules, s: State, s': State, t: Trade)
    requires |s.props| == |r.tiles| && s'.props == s.props
    ensures NothingLeftBehind(r, s', t) <==> NothingLeftBehind(r, s, t)
  {}

  /** With the sets in order, automatic debt resolution meets no split set. */
  lemma SetsOkMeansWhole(r: Rules, s: State, p: nat)
    requires Shape(r, s) && SetsOk(r, s.props)
    ensures OwnBuildingsWhole(r, s, p)
  {
    forall k | 0 <= k < |s.props| && HasBuilding(s.props, p, k)
      ensures OwnsSetOf(r, s, p, k)
    {
      forall j | 0 <= j < |r.tiles| && r.SameSet(j, k)
        ensures s.props[j].OwnedBy(p)
      {
        SetsGive(r, s.props, j, k);
      }
    }
  }

  // ----- whole runs

  predicate InOrder(r: Rules, s: State) {
    |s.props| == |r.tiles| && SetsOk(r, s.props)
  }

  ghost predicate InOrderAfter(r: Rules, start: State, steps: seq<Step>, n: nat)
    requires Inv(r, start) && n <= |steps|
  {
    InOrder(r, After(r, start, steps, n))
  }

  /** Every accepted step among the first `n` carries out no trade that leaves a building behind. */
  ghost predicate CleanRun(r: Rules, start: State, steps: seq<Step>, n: nat)
    requires Inv(r, start) && n <= |steps|
  {
    forall i {:trigger steps[i]} :: 0 <= i < n ==> CleanStep(r, After(r, start, steps, i), steps[i])
  }

  ghost predicate CleanStep(r: Rules, s: State, step: Step)
    requires Inv(r, s)
  {
    CoreShape(r, s);
    Accepted(r, s, step) ==> CleanTrade(r, s, step.intent)
  }

  lemma NextKeepsSetsIff(r: Rules, s: State, step: Step)
    requires Inv(r, s) && InOrder(r, s)
    ensures InOrder(r, Next(r, s, step)) <==> CleanStep(r, s, step)
  {
    hide Inv, SetsOk, CleanTrade, Reduce, ValidRules, LevelsOk;
    InvShape(r, s);
    if Accepted(r, s, step) {
      StepKeepsSetsIff(r, s, step);
    }
  }

  lemma {:induction false} CleanRunKeepsSets(r: Rules, start: State, steps: seq<Step>, n: nat)
    requires Inv(r, start) && InOrder(r, start) && n <= |steps| && CleanRun(r, start, steps, n)
    ensures InOrder(r, After(r, start, steps, n))
  {
    hide Inv, InOrder, Next, CleanStep;
    if n > 0 {
      CleanRunKeepsSets(r, start, steps, n - 1);
      NextKeepsSetsIff(r, After(r, start, steps, n - 1), steps[n - 1]);
    }
  }

  lemma CleanPrefix(r: Rules, start: State, steps: seq<Step>, m: nat, n: nat)
    requires Inv(r, start) && m <= n <= |steps| && CleanRun(r, start, steps, n)
    ensures CleanRun(r, start, steps, m)
  {
    hide Inv, After, CleanStep;
  }

  /**
   In any run from sets in order, every state up to step `n` has its sets in order if and only if
   no step before it carried out a trade that left a building behind.
   */
  lemma RunKeepsSetsIff(r: Rules, start: State, steps: seq<Step>, n: nat)
    requires Inv(r, start) && InOrder(r, start) && n <= |steps|
    ensures CleanRun(r, start, steps, n)
       <==> forall i :: 0 <= i <= n ==> InOrderAfter(r, start, steps, i)
  {
    hide Inv, InOrder, Next, CleanStep;
    if CleanRun(r, start, steps, n) {
      forall i | 0 <= i <= n
        ensures InOrderAfter(r, start, steps, i)
      {
        CleanPrefix(r, start, steps, i, n);
        CleanRunKeepsSets(r, start, steps, i);
      }
    } else {
      var i :| 0 <= i < n && !CleanStep(r, After(r, start, steps, i), steps[i]);
      if InOrderAfter(r, start, steps, i) {
        NextKeepsSetsIff(r, After(r, start, steps, i), steps[i]);
        assert !InOrderAfter(r, start, steps, i + 1);
      }
    }
  }
}
