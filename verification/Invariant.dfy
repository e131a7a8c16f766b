/** What holds in every reachable state of a game. */
module Invariant {
  import opened Rules
  import opened State
  import opened CardDecks
  import opened Turns
  import opened Landing
  import opened Properties
  import opened AuctionRounds
  import opened Trades

  // ----- players, properties and cards

  predicate PlayerOk(r: Rules, player: Player) {
    && player.cash >= 0
    && player.position < |r.tiles|
    && player.jailCards == |player.jailCardKeys|
    && HoldsJailCards(r, player.jailCardKeys)
  }

  predicate PlayersOk(r: Rules, players: seq<Player>) {
    DistinctSeats(players) && forall i {:trigger PlayerOk(r, players[i])} :: 0 <= i < |players| ==> PlayerOk(r, players[i])
  }

  /** Owners are active players of the game; a tile nobody owns carries no building and no mortgage. */
  predicate PropertyOk(r: Rules, players: seq<Player>, k: nat, q: PropertyState)
    requires k < |r.tiles|
  {
    && 0 <= q.houses <= 4
    && (q.hotel ==> q.houses == 0)
    && (q.Built() ==> r.tiles[k].Property?)
    && (q.owner.None? ==> !q.Built() && !q.mortgaged)
    && (q.owner.Some? ==> r.Ownable(k) && q.owner.value < |players| && !players[q.owner.value].bankrupt)
  }

  predicate PropsOk(r: Rules, players: seq<Player>, props: seq<PropertyState>) {
    && |props| == |r.tiles|
    && forall k {:trigger PropertyOk(r, players, k, props[k])} :: 0 <= k < |props| ==> PropertyOk(r, players, k, props[k])
  }

  /** No mortgaged tile shares a set with a building. */
  predicate Discipline(r: Rules, props: seq<PropertyState>)
    requires |props| == |r.tiles|
  {
    forall j, k {:trigger r.SameSet(j, k)} ::
      0 <= j < |props| && 0 <= k < |props| && r.SameSet(j, k) && props[j].mortgaged ==> !props[k].Built()
  }

  ghost predicate Core(r: Rules, s: State) {
    && Shape(r, s)
    && PlayersOk(r, s.players)
    && PropsOk(r, s.players, s.props)
    && Discipline(r, s.props)
    && CardsOk(r, s.players, s.decks)
  }

  // ----- phases, turns, auctions and offers

  predicate BuyableTile(r: Rules, s: State, k: nat) {
    HasProperty(r, s, k) && s.props[k].owner.None?
  }

  predicate DebtOk(s: State, debt: Debt) {
    && debt.player == s.current
    && debt.amount > 0
    && (debt.creditor.Some? ==> s.HasPlayer(debt.creditor.value) && debt.creditor.value != debt.player)
  }

  predicate PhaseOk(r: Rules, s: State) {
    && s.phase != Cancelled
    && (s.auction.Some? <==> s.phase == AwaitingAuction)
    && (s.auction.Some? ==> BuyableTile(r, s, s.auction.value.tile))
    && (s.debt.Some? <==> s.phase == AwaitingDebt)
    && (s.debt.Some? ==> DebtOk(s, s.debt.value))
    && (s.pending.Some? <==> s.phase == AwaitingDecision)
    && (s.pending.Some? ==> BuyableTile(r, s, s.pending.value))
    && (s.phase == Finished ==> s.trade.None?)
  }

  predicate TurnOk(s: State) {
    && s.HasPlayer(s.current)
    && s.doubles <= 2
    && (s.playAgain ==> s.doubles >= 1 && s.phase in {AwaitingDecision, AwaitingAuction, AwaitingTurnEnd})
    && (s.phase == AwaitingFirstTurn ==> s.doubles == 0)
    && (s.phase != Finished ==>
          !s.players[s.current].bankrupt && |Active(s.players)| >= 2 && HumanActive(s.players))
  }

  predicate AuctionOk(s: State) {
    s.auction.Some? ==>
      var a := s.auction.value;
      && RingOk(a)
      && forall i :: 0 <= i < |a.active| ==>
           s.HasPlayer(a.active[i]) && (s.players[a.active[i]].bankrupt ==> s.players[a.active[i]].cash == 0)
  }

  predicate OfferOk(t: Trade) {
    t.from != t.to && t.offeredCash >= 0 && t.requestedCash >= 0 && NoDuplicates(t.offered) && NoDuplicates(t.requested)
  }

  predicate TradeOk(s: State) {
    s.trade.Some? ==> OfferOk(s.trade.value)
  }

  ghost predicate Inv(r: Rules, s: State) {
    Core(r, s) && PhaseOk(r, s) && TurnOk(s) && AuctionOk(s) && TradeOk(s)
  }

  lemma CoreShape(r: Rules, s: State)
    requires Core(r, s)
    ensures Shape(r, s) && LevelsOk(r, s.props)
  {
    forall k | 0 <= k < |s.props|
      ensures 0 <= s.props[k].houses && (s.props[k].Built() ==> r.tiles[k].Property?)
    {
      assert PropertyOk(r, s.players, k, s.props[k]);
    }
  }

  lemma InvShape(r: Rules, s: State)
    requires Inv(r, s)
    ensures Shape(r, s) && LevelsOk(r, s.props)
  {
    CoreShape(r, s);
  }

  lemma PropertyAt(r: Rules, s: State, k: nat)
    requires Core(r, s) && k < |r.tiles|
    ensures Shape(r, s) && PropertyOk(r, s.players, k, s.props[k])
  {
    assert PropertyOk(r, s.players, k, s.props[k]);
  }

  lemma PlayerAt(r: Rules, s: State, p: nat)
    requires Core(r, s) && s.HasPlayer(p)
    ensures Shape(r, s) && PlayerOk(r, s.players[p])
  {
    assert PlayerOk(r, s.players[p]);
  }

  // ----- changes that keep the roster

  /** Only cash, positions, jail terms and timer bookkeeping may differ. */
  predicate SameRoster(players: seq<Player>, players': seq<Player>) {
    && |players| == |players'|
    && forall i :: 0 <= i < |players| ==>
         && players'[i].seat == players[i].seat
         && players'[i].bankrupt == players[i].bankrupt
         && players'[i].playerType == players[i].playerType
  }

  predicate SameHands(players: seq<Player>, players': seq<Player>) {
    && |players| == |players'|
    && forall i :: 0 <= i < |players| ==> players'[i].jailCardKeys == players[i].jailCardKeys
  }

  lemma RosterProps(r: Rules, players: seq<Player>, players': seq<Player>, props: seq<PropertyState>)
    requires SameRoster(players, players') && PropsOk(r, players, props)
    ensures PropsOk(r, players', props)
  {
    forall k | 0 <= k < |props|
      ensures PropertyOk(r, players', k, props[k])
    {
      assert PropertyOk(r, players, k, props[k]);
    }
  }

  lemma RosterSeats(players: seq<Player>, players': seq<Player>)
    requires SameRoster(players, players') && DistinctSeats(players)
    ensures DistinctSeats(players')
  {
    forall i, j | 0 <= i < j < |players'|
      ensures players'[i].seat != players'[j].seat
    {
      assert players[i].seat != players[j].seat;
    }
  }

  lemma RosterCore(r: Rules, s: State, s': State)
    requires Core(r, s) && SameRoster(s.players, s'.players) && SameHands(s.players, s'.players)
    requires s'.props == s.props && s'.decks == s.decks
    requires forall i :: 0 <= i < |s'.players| ==> PlayerOk(r, s'.players[i])
    ensures Core(r, s')
  {
    RosterProps(r, s.players, s'.players, s.props);
    RosterSeats(s.players, s'.players);
    CardsSame(r, s.players, s'.players, s.decks);
  }

  lemma RosterActive(players: seq<Player>, players': seq<Player>)
    requires SameRoster(players, players')
    ensures Active(players') == Active(players) && HumanActive(players') == HumanActive(players)
  {
    ActiveSame(players, players', |players|);
    if HumanActive(players) {
      var i :| 0 <= i < |players| && !players[i].bankrupt && players[i].playerType == Human;
      assert !players'[i].bankrupt && players'[i].playerType == Human;
    }
    if HumanActive(players') {
      var i :| 0 <= i < |players'| && !players'[i].bankrupt && players'[i].playerType == Human;
      assert !players[i].bankrupt && players[i].playerType == Human;
    }
  }

  /** One player changes, keeping seat, hand and standing. */
  lemma PlayerUpdateCore(r: Rules, s: State, p: nat, player: Player)
    requires Core(r, s) && s.HasPlayer(p) && PlayerOk(r, player)
    requires player.seat == s.players[p].seat && player.bankrupt == s.players[p].bankrupt
    requires player.playerType == s.players[p].playerType && player.jailCardKeys == s.players[p].jailCardKeys
    ensures Core(r, WithPlayer(s, p, player))
    ensures SameRoster(s.players, s.players[p := player])
  {
    RosterCore(r, s, WithPlayer(s, p, player));
  }

  lemma CashCore(r: Rules, s: State, p: nat, cash: int)
    requires Core(r, s) && s.HasPlayer(p) && cash >= 0
    ensures Core(r, WithCash(s, p, cash))
    ensures SameRoster(s.players, WithCash(s, p, cash).players)
  {
    assert PlayerOk(r, s.players[p]);
    PlayerUpdateCore(r, s, p, s.players[p].(cash := cash));
  }

  /** Core says nothing about phase, turn, auction, offer or debt. */
  lemma CoreFrame(r: Rules, s: State, s': State)
    requires Core(r, s) && s'.players == s.players && s'.props == s.props && s'.decks == s.decks
    ensures Core(r, s')
  {}
}
