/** When the turn holder may buy, build, sell, mortgage, bid and end the turn, and what it comes to. */
module ManagingOutcomes {
  import opened Rules
  import opened State
  import opened Money
  import opened CardDecks
  import opened Turns
  import opened Landing
  import opened Properties
  import opened Auctions
  import opened AuctionRounds
  import opened Invariant
  import opened Preservation

  /** The tile, and one player's cash, after an exchange with the bank. */
  predicate Exchanged(s: State, s': State, p: nat, cash: int, k: nat, q: PropertyState) {
    && s.HasPlayer(p) && k < |s.props|
    && s' == s.(players := s.players[p := s.players[p].(cash := s.players[p].cash + cash)], props := s.props[k := q])
  }

  /** At level five a hotel replaces the houses. */
  function AtLevel(q: PropertyState, level: nat): (q': PropertyState) {
    if level == 5 then q.(houses := 0, hotel := true) else q.(houses := level, hotel := false)
  }

  predicate Manages(s: State, p: nat) {
    s.phase in {AwaitingTurnEnd, AwaitingDebt} && s.current == p
  }

  lemma Holder(r: Rules, s: State)
    requires Inv(r, s) && s.phase != Finished
    ensures AssertCurrentTurn(s, s.current).None? && (s.debt.Some? <==> s.phase == AwaitingDebt)
    ensures s.debt.Some? ==> s.debt.value.player == s.current
    ensures s.pending.Some? <==> s.phase == AwaitingDecision
    ensures s.pending.Some? ==> BuyableTile(r, s, s.pending.value)
  {
    hide Core, AuctionOk, TradeOk, Active, HumanActive, BuyableTile;
  }

  /** Buying: from the turn holder with the price at hand; the tile for its price, and the turn goes on. */
  lemma BuyOutcome(r: Rules, s: State, p: nat)
    requires Inv(r, s) && Shape(r, s)
    ensures BuyProperty(r, s, p).Ok?
       <==> s.phase == AwaitingDecision && s.current == p && s.pending.Some? && BuyableTile(r, s, s.pending.value)
            && s.HasPlayer(p) && r.tiles[s.pending.value].price <= s.players[p].cash
    ensures BuyProperty(r, s, p).Ok? ==>
              var k := s.pending.value;
              var s' := BuyProperty(r, s, p).value;
              && s'.phase == AwaitingTurnEnd && s'.pending.None?
              && Exchanged(s, s'.(phase := s.phase, pending := s.pending), p, -(r.tiles[k].price as int), k, s.props[k].(owner := Some(p)))
  {
    hide Core, PhaseOk, TurnOk, AuctionOk, TradeOk, ValidRules;
    if s.phase != Finished {
      Holder(r, s);
    }
  }

  /** Building: one level on a lowest street of a whole set without a mortgage, for the house price. */
  lemma BuildOutcome(r: Rules, s: State, p: nat, k: nat)
    requires Inv(r, s) && Shape(r, s)
    ensures BuildProperty(r, s, p, k).Ok?
       <==> && s.phase == AwaitingTurnEnd && s.current == p && r.IsProperty(k)
            && (forall j :: 0 <= j < |r.tiles| && r.SameSet(j, k) ==>
                  s.props[j].OwnedBy(p) && !s.props[j].mortgaged && s.props[k].Level() <= s.props[j].Level())
            && s.props[k].Level() < 5 && s.HasPlayer(p) && r.tiles[k].houseCost <= s.players[p].cash
    ensures BuildProperty(r, s, p, k).Ok? ==>
              && s.props[k].Level() >= 0
              && Exchanged(s, BuildProperty(r, s, p, k).value, p, -(r.tiles[k].houseCost as int), k,
                           AtLevel(s.props[k], s.props[k].Level() + 1))
  {
    hide PlayersOk, PropsOk, Discipline, CardsOk, PhaseOk, TurnOk, AuctionOk, TradeOk, ValidRules;
    if s.phase != Finished {
      Holder(r, s);
    }
    if r.IsProperty(k) {
      assert r.SameSet(k, k);
      LevelsOf(r, s);
    }
  }

  lemma LevelsOf(r: Rules, s: State)
    requires Core(r, s) && Shape(r, s)
    ensures forall j :: 0 <= j < |r.tiles| ==>
              var q := s.props[j]; 0 <= q.houses <= 4 && (q.hotel ==> q.houses == 0) && q.Level() == if q.hotel then 5 else q.houses
  {
    hide PlayersOk, PropsOk, Discipline, CardsOk, ValidRules;
    forall j | 0 <= j < |r.tiles|
      ensures var q := s.props[j]; 0 <= q.houses <= 4 && (q.hotel ==> q.houses == 0) && q.Level() == if q.hotel then 5 else q.houses
    {
      PropertyAt(r, s, j);
    }
  }

  /** Selling: one level off a highest street of a whole set, for half the house price; also while in debt. */
  lemma SellOutcome(r: Rules, s: State, p: nat, k: nat)
    requires Inv(r, s) && Shape(r, s)
    ensures SellBuilding(r, s, p, k).Ok?
       <==> && Manages(s, p) && r.IsProperty(k)
            && (forall j :: 0 <= j < |r.tiles| && r.SameSet(j, k) ==> s.props[j].OwnedBy(p) && s.props[j].Level() <= s.props[k].Level())
            && s.props[k].Level() > 0
    ensures SellBuilding(r, s, p, k).Ok? ==>
              Exchanged(s, SellBuilding(r, s, p, k).value, p, r.tiles[k].houseCost / 2, k, AtLevel(s.props[k], s.props[k].Level() - 1))
  {
    hide PlayersOk, PropsOk, Discipline, CardsOk, PhaseOk, TurnOk, AuctionOk, TradeOk, ValidRules;
    if s.phase != Finished {
      Holder(r, s);
    }
    if r.IsProperty(k) {
      assert r.SameSet(k, k);
      LevelsOf(r, s);
    }
  }

  /** Mortgaging: an unmortgaged tile of the turn holder, no building in its set; also while in debt. */
  lemma MortgageOutcome(r: Rules, s: State, p: nat, k: nat)
    requires Inv(r, s) && Shape(r, s)
    ensures MortgageProperty(r, s, p, k).Ok?
       <==> && Manages(s, p) && r.Ownable(k) && s.props[k].OwnedBy(p) && !s.props[k].mortgaged
            && (forall j :: 0 <= j < |r.tiles| && r.SameSet(j, k) ==> s.props[j].Level() == 0)
    ensures MortgageProperty(r, s, p, k).Ok? ==>
              Exchanged(s, MortgageProperty(r, s, p, k).value, p, r.tiles[k].mortgageValue, k, s.props[k].(mortgaged := true))
  {
    hide PlayersOk, PropsOk, Discipline, CardsOk, PhaseOk, TurnOk, AuctionOk, TradeOk, ValidRules;
    if s.phase != Finished {
      Holder(r, s);
    }
    LevelsOf(r, s);
  }

  /** Lifting a mortgage: at the turn end, for the mortgage value and about a tenth on top. */
  lemma UnmortgageOutcome(r: Rules, s: State, p: nat, k: nat)
    requires Inv(r, s) && Shape(r, s)
    ensures UnmortgageProperty(r, s, p, k).Ok?
       <==> && s.phase == AwaitingTurnEnd && s.current == p && r.Ownable(k) && s.props[k].OwnedBy(p) && s.props[k].mortgaged
            && s.HasPlayer(p) && r.tiles[k].unmortgageCost <= s.players[p].cash
    ensures UnmortgageProperty(r, s, p, k).Ok? ==>
              && Exchanged(s, UnmortgageProperty(r, s, p, k).value, p, -(r.tiles[k].unmortgageCost as int), k, s.props[k].(mortgaged := false))
              && 11 * r.tiles[k].mortgageValue <= 10 * r.tiles[k].unmortgageCost <= 11 * r.tiles[k].mortgageValue + 19
  {
    hide Core, PhaseOk, TurnOk, AuctionOk, TradeOk;
    if s.phase != Finished {
      Holder(r, s);
    }
    if r.Ownable(k) {
      assert ValidTile(r.tiles[k]);
    }
  }

  /** Ending the turn: after a double the same player rolls again, otherwise it is the next active seat's turn. */
  lemma EndTurnOutcome(r: Rules, s: State, p: nat)
    requires Inv(r, s)
    ensures EndTurn(s, p).Ok? <==> s.phase == AwaitingTurnEnd && s.current == p
    ensures EndTurn(s, p).Ok? ==>
              var s' := EndTurn(s, p).value;
              if s.playAgain then s' == s.(phase := AwaitingRoll, lastDice := None, trade := None, playAgain := false)
              else
                && s' == s.(phase := AwaitingRoll, lastDice := None, trade := None, turn := s.turn + 1, current := s'.current, doubles := 0)
                && s.HasPlayer(p) && s'.current != p && NextSeat(s.players, s.players[p].seat, s'.current)
  {
    hide PropsOk, Discipline, CardsOk, ValidRules, AuctionOk, TradeOk, ActiveBySeat, HumanActive, NextSeat, NextActivePlayer;
    if s.phase == AwaitingTurnEnd && s.current == p {
      NextActiveIsNextSeat(s);
    }
  }

  /** Bidding: from the bidder whose turn it is, at least ten and above the standing bid, with the cash at hand. */
  lemma BidAcceptedIff(r: Rules, s: State, now: int, p: nat, amount: int)
    requires Inv(r, s) && Shape(r, s)
    ensures PlaceBid(r, s, now, p, amount).Ok?
       <==> && s.auction.Some? && s.auction.value.bidder == Some(p) && amount >= 10 && amount > s.auction.value.bid
            && s.HasPlayer(p) && amount <= s.players[p].cash
  {
    hide Core, TurnOk, TradeOk, ValidRules, RingOk, NextBidder, BuyableTile, Unpassed;
    if s.auction.Some? {
      RingBidder(s.auction.value);
      StandingBid(s.auction.value);
    }
  }

  lemma StandingBid(a: Auction)
    requires RingOk(a)
    ensures a.bid == 0 || a.bid >= 10
  {}

  /** A game can be finished by time exactly once its time has run out, and then everything open is closed. */
  lemma FinishOutcome(r: Rules, s: State, at: int)
    requires Inv(r, s)
    ensures FinishByTime(s, at).Ok? <==> s.phase != Finished && at > 0 && (s.Expires() ==> at >= s.expiresAt.value)
    ensures FinishAfterLastHumanLeft(s, at).Ok? <==> s.phase != Finished && at > 0
    ensures FinishByTime(s, at).Ok? ==>
              FinishByTime(s, at).value
              == s.(phase := Finished, playAgain := false, doubles := 0, auction := None, pending := None, trade := None, debt := None)
    ensures FinishAfterLastHumanLeft(s, at).Ok? ==>
              FinishAfterLastHumanLeft(s, at).value
              == s.(phase := Finished, playAgain := false, doubles := 0, auction := None, pending := None, trade := None, debt := None)
  {
    hide Core, TurnOk, AuctionOk, TradeOk;
  }
}
