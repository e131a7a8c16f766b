/** Every intent keeps the invariant: one lemma per intent. */
module Preservation {
  import opened Rules
  import opened State
  import opened Money
  import opened CardDecks
  import opened Turns
  import opened Landing
  import opened Properties
  import opened Auctions
  import opened AuctionRounds
  import opened Trades
  import opened AutoDebt
  import opened Invariant
  import opened RollProof

  // ----- rolling

  lemma RollKeeps(r: Rules, s: State, p: nat, dice: (int, int))
    requires Inv(r, s) && RollAndMove(r, s, p, dice).Ok?
    ensures Inv(r, RollAndMove(r, s, p, dice).value)
  {
    hide PlayersOk, PropsOk, Discipline, CardsOk, ValidRules, RollFromJail, MoveIgnoringJail;
    RollOutcome(r, s, p, dice);
    var s' := RollAndMove(r, s, p, dice).value;
    RosterActive(s.players, s'.players);
    CashOfCurrent(r, s');
  }

  lemma CashOfCurrent(r: Rules, s: State)
    requires Core(r, s)
    ensures forall i :: 0 <= i < |s.players| ==> s.players[i].cash >= 0
  {
    assert forall i :: 0 <= i < |s.players| ==> PlayerOk(r, s.players[i]);
  }

  /** A step that ends in the turn-end phase with nothing open. */
  lemma TurnEndKeeps(r: Rules, s: State, s': State)
    requires Inv(r, s) && Core(r, s') && SameRoster(s.players, s'.players)
    requires s'.phase == AwaitingTurnEnd && s'.pending.None? && s'.auction.None? && s'.debt.None?
    requires s'.current == s.current && s'.doubles == s.doubles && s'.trade == s.trade && s.phase != Finished
    requires s'.playAgain ==> s.playAgain
    ensures Inv(r, s')
  {
    hide Core;
    RosterActive(s.players, s'.players);
  }

  // ----- changes of one property

  predicate FitsSet(r: Rules, s: State, k: nat, q: PropertyState)
    requires |s.props| == |r.tiles| && k < |s.props|
  {
    && !(q.mortgaged && q.Built() && r.IsProperty(k))
    && (q.mortgaged ==> forall j :: 0 <= j < |s.props| && j != k && r.SameSet(k, j) ==> !s.props[j].Built())
    && (q.Built() ==> forall j :: 0 <= j < |s.props| && j != k && r.SameSet(j, k) ==> !s.props[j].mortgaged)
  }

  lemma PropertyUpdateCore(r: Rules, s: State, k: nat, q: PropertyState)
    requires Core(r, s) && k < |s.props| && PropertyOk(r, s.players, k, q) && FitsSet(r, s, k, q)
    ensures Core(r, WithProperty(s, k, q))
  {
    hide PlayersOk, CardsOk, ValidRules;
    var props := s.props[k := q];
    forall i | 0 <= i < |props|
      ensures PropertyOk(r, s.players, i, props[i])
    {
      assert PropertyOk(r, s.players, i, s.props[i]);
    }
    forall i, j | 0 <= i < |props| && 0 <= j < |props| && r.SameSet(i, j) && props[i].mortgaged
      ensures !props[j].Built()
    {}
  }

  /** Cash of one player and the state of one property change together. */
  lemma ExchangeCore(r: Rules, s: State, p: nat, cash: int, k: nat, q: PropertyState)
    requires Core(r, s) && s.HasPlayer(p) && cash >= 0
    requires k < |s.props| && PropertyOk(r, s.players, k, q) && FitsSet(r, s, k, q)
    ensures Core(r, WithProperty(WithCash(s, p, cash), k, q))
    ensures SameRoster(s.players, WithCash(s, p, cash).players)
  {
    hide PlayersOk, PropsOk, Discipline, CardsOk, ValidRules;
    CashCore(r, s, p, cash);
    PropertyUpdateCore(r, WithCash(s, p, cash), k, q);
  }

  lemma BuyEffect(r: Rules, s: State, p: nat)
    requires Shape(r, s) && BuyProperty(r, s, p).Ok?
    ensures s.phase == AwaitingDecision && s.current == p && s.HasPlayer(p) && !s.players[p].bankrupt
    ensures s.pending.Some? && BuyableTile(r, s, s.pending.value)
    ensures var k := s.pending.value;
            && s.players[p].cash >= r.tiles[k].price && s.debt.None?
            && BuyProperty(r, s, p).value
               == WithProperty(WithCash(s, p, s.players[p].cash - r.tiles[k].price), k, s.props[k].(owner := Some(p)))
                  .(phase := AwaitingTurnEnd, pending := None)
  {
    hide ValidRules;
  }

  lemma BuyKeeps(r: Rules, s: State, p: nat)
    requires Inv(r, s) && BuyProperty(r, s, p).Ok?
    ensures Inv(r, BuyProperty(r, s, p).value)
  {
    hide Core, TurnOk, TradeOk, AuctionOk, ValidRules, BuyProperty;
    CoreShape(r, s);
    BuyEffect(r, s, p);
    var k := s.pending.value;
    PropertyAt(r, s, k);
    var q := s.props[k].(owner := Some(p));
    var bought := WithProperty(WithCash(s, p, s.players[p].cash - r.tiles[k].price), k, q);
    ExchangeCore(r, s, p, s.players[p].cash - r.tiles[k].price, k, q);
    CoreFrame(r, bought, BuyProperty(r, s, p).value);
    TurnEndKeeps(r, s, BuyProperty(r, s, p).value);
  }

  /** A property of the turn holder and the holder's cash change in the turn-end or debt phase. */
  lemma ManageKeeps(r: Rules, s: State, p: nat, cash: int, k: nat, q: PropertyState)
    requires Inv(r, s) && s.phase in {AwaitingTurnEnd, AwaitingDebt} && s.current == p && cash >= 0
    requires k < |s.props| && PropertyOk(r, s.players, k, q) && FitsSet(r, s, k, q)
    ensures Inv(r, WithProperty(WithCash(s, p, cash), k, q))
  {
    hide PlayersOk, PropsOk, Discipline, CardsOk, ValidRules;
    ExchangeCore(r, s, p, cash, k, q);
    RosterActive(s.players, WithCash(s, p, cash).players);
  }

  function BuiltTile(q: PropertyState): (q': PropertyState) {
    if q.houses < 4 then q.(houses := q.houses + 1) else q.(houses := 0, hotel := true)
  }

  lemma BuildEffect(r: Rules, s: State, p: nat, k: nat)
    requires Shape(r, s) && BuildProperty(r, s, p, k).Ok?
    ensures s.phase == AwaitingTurnEnd && s.current == p && s.HasPlayer(p) && r.IsProperty(k)
    ensures OwnsSetOf(r, s, p, k) && !SetHasMortgage(r, s, k) && !s.props[k].hotel && s.props[k].houses <= 4
    ensures s.players[p].cash >= r.tiles[k].houseCost
    ensures BuildProperty(r, s, p, k).value
         == WithProperty(WithCash(s, p, s.players[p].cash - r.tiles[k].houseCost), k, BuiltTile(s.props[k]))
  {}

  lemma BuildKeeps(r: Rules, s: State, p: nat, k: nat)
    requires Inv(r, s) && BuildProperty(r, s, p, k).Ok?
    ensures Inv(r, BuildProperty(r, s, p, k).value)
  {
    hide PlayersOk, PropsOk, Discipline, CardsOk, ValidRules, BuildProperty, PhaseOk, TurnOk;
    BuildEffect(r, s, p, k);
    PropertyAt(r, s, k);
    assert r.SameSet(k, k);
    assert s.props[k].OwnedBy(p) && !s.props[k].mortgaged;
    ManageKeeps(r, s, p, s.players[p].cash - r.tiles[k].houseCost, k, BuiltTile(s.props[k]));
  }

  lemma SellKeeps(r: Rules, s: State, p: nat, k: nat)
    requires Inv(r, s) && SellBuilding(r, s, p, k).Ok?
    ensures Inv(r, SellBuilding(r, s, p, k).value)
  {
    hide Core, PhaseOk, TurnOk, AuctionOk, TradeOk, ValidRules, SellBuilding, LevelsOk;
    CoreShape(r, s);
    SellGuards(r, s, p, k);
    SaleEffect(r, s, p, k);
    PropertyAt(r, s, k);
    PlayerAt(r, s, p);
    SoldFits(r, s, k);
    ManageKeeps(r, s, p, s.players[p].cash + r.tiles[k].houseCost / 2, k, SoldTile(s.props[k]));
  }

  lemma SellGuards(r: Rules, s: State, p: nat, k: nat)
    requires Shape(r, s) && SellBuilding(r, s, p, k).Ok?
    ensures s.phase in {AwaitingTurnEnd, AwaitingDebt} && s.current == p
  {
    hide ValidRules, HighestInSet, OwnsSetOf;
  }

  /** The set of a building carries no mortgage, so selling from it breaks nothing. */
  lemma SoldFits(r: Rules, s: State, k: nat)
    requires Core(r, s) && r.IsProperty(k) && k < |s.props| && s.props[k].Built()
    ensures Shape(r, s) && FitsSet(r, s, k, SoldTile(s.props[k]))
  {
    hide PlayersOk, PropsOk, CardsOk, ValidRules;
    assert r.SameSet(k, k);
  }

  lemma MortgageEffect(r: Rules, s: State, p: nat, k: nat)
    requires Shape(r, s) && MortgageProperty(r, s, p, k).Ok?
    ensures s.phase in {AwaitingTurnEnd, AwaitingDebt} && s.current == p && s.HasPlayer(p) && r.Ownable(k)
    ensures s.props[k].OwnedBy(p) && (r.IsProperty(k) ==> !SetHasBuilding(r, s, k))
    ensures MortgageProperty(r, s, p, k).value
         == WithProperty(WithCash(s, p, s.players[p].cash + r.tiles[k].mortgageValue), k, s.props[k].(mortgaged := true))
  {
    hide ValidRules, SetHasBuilding;
  }

  lemma MortgageKeeps(r: Rules, s: State, p: nat, k: nat)
    requires Inv(r, s) && MortgageProperty(r, s, p, k).Ok?
    ensures Inv(r, MortgageProperty(r, s, p, k).value)
  {
    hide Core, PhaseOk, TurnOk, TradeOk, AuctionOk, ValidRules, MortgageProperty;
    CoreShape(r, s);
    MortgageEffect(r, s, p, k);
    PropertyAt(r, s, k);
    PlayerAt(r, s, p);
    assert r.IsProperty(k) ==> r.SameSet(k, k);
    ManageKeeps(r, s, p, s.players[p].cash + r.tiles[k].mortgageValue, k, s.props[k].(mortgaged := true));
  }

  /** A mortgaged tile has no building in its set, so lifting the mortgage breaks nothing. */
  lemma UnmortgagedFits(r: Rules, s: State, k: nat)
    requires Core(r, s) && k < |s.props| && s.props[k].mortgaged
    ensures Shape(r, s) && FitsSet(r, s, k, s.props[k].(mortgaged := false))
  {
    hide PlayersOk, PropsOk, CardsOk, ValidRules;
    assert r.IsProperty(k) ==> r.SameSet(k, k);
  }

  lemma UnmortgageEffect(r: Rules, s: State, p: nat, k: nat)
    requires Shape(r, s) && UnmortgageProperty(r, s, p, k).Ok?
    ensures s.phase == AwaitingTurnEnd && s.current == p && s.HasPlayer(p) && r.Ownable(k)
    ensures s.props[k].OwnedBy(p) && s.props[k].mortgaged && s.players[p].cash >= r.tiles[k].unmortgageCost
    ensures UnmortgageProperty(r, s, p, k).value
         == WithProperty(WithCash(s, p, s.players[p].cash - r.tiles[k].unmortgageCost), k, s.props[k].(mortgaged := false))
  {
    hide ValidRules;
  }

  lemma UnmortgageKeeps(r: Rules, s: State, p: nat, k: nat)
    requires Inv(r, s) && UnmortgageProperty(r, s, p, k).Ok?
    ensures Inv(r, UnmortgageProperty(r, s, p, k).value)
  {
    hide Core, PhaseOk, TurnOk, TradeOk, AuctionOk, ValidRules, UnmortgageProperty, FitsSet;
    CoreShape(r, s);
    UnmortgageEffect(r, s, p, k);
    PropertyAt(r, s, k);
    UnmortgagedFits(r, s, k);
    ManageKeeps(r, s, p, s.players[p].cash - r.tiles[k].unmortgageCost, k, s.props[k].(mortgaged := false));
  }

  // ----- changes of players only

  /** Cash, jail terms and hands change; the phase and everything it refers to stay. */
  lemma PlayersKeep(r: Rules, s: State, s': State)
    requires Inv(r, s) && Core(r, s') && SameRoster(s.players, s'.players)
    requires s' == s.(players := s'.players, decks := s'.decks)
    requires forall i :: 0 <= i < |s.players| && s.players[i].bankrupt ==> s'.players[i].cash == s.players[i].cash
    ensures Inv(r, s')
  {
    hide PlayersOk, PropsOk, Discipline, CardsOk, ValidRules;
    RosterActive(s.players, s'.players);
  }

  lemma FineKeeps(r: Rules, s: State, p: nat)
    requires Inv(r, s) && PayJailFine(s, p).Ok?
    ensures Inv(r, PayJailFine(s, p).value) && PayJailFine(s, p).value.phase == s.phase
  {
    hide PropsOk, Discipline, CardsOk, ValidRules;
    var player := s.players[p].(cash := s.players[p].cash - JAIL_FINE, inJail := false, jailTurns := 0);
    assert PlayerOk(r, s.players[p]);
    PlayerUpdateCore(r, s, p, player);
    assert PayJailFine(s, p).value.players == s.players[p := player];
    PlayersKeep(r, s, PayJailFine(s, p).value);
  }

  /** A hand that gave its first card back leaves players, tiles and cards in order. */
  lemma HandReturnedCore(r: Rules, s: State, s': State, p: nat, player: Player)
    requires Core(r, s) && s.HasPlayer(p) && |s.players[p].jailCardKeys| > 0
    requires player == s.players[p].(jailCards := s.players[p].jailCards - 1, jailCardKeys := s.players[p].jailCardKeys[1..],
                                     inJail := false, jailTurns := 0)
    requires s'.players == s.players[p := player] && s'.props == s.props && CardsOk(r, s'.players, s'.decks)
    ensures Core(r, s') && SameRoster(s.players, s'.players)
  {
    hide PropsOk, Discipline, CardsOk, ValidRules;
    RosterProps(r, s.players, s'.players, s.props);
    RosterSeats(s.players, s'.players);
    forall i | 0 <= i < |s'.players|
      ensures PlayerOk(r, s'.players[i])
    {
      assert PlayerOk(r, s.players[i]);
    }
  }

  lemma CardKeeps(r: Rules, s: State, p: nat)
    requires Inv(r, s) && UseJailCard(r, s, p).Ok?
    ensures Inv(r, UseJailCard(r, s, p).value) && UseJailCard(r, s, p).value.phase == s.phase
  {
    hide PlayersOk, PropsOk, Discipline, CardsOk, ValidRules, PhaseOk, TurnOk, AuctionOk, TradeOk;
    PlayerAt(r, s, p);
    var player := s.players[p].(jailCards := s.players[p].jailCards - 1, jailCardKeys := s.players[p].jailCardKeys[1..],
                                inJail := false, jailTurns := 0);
    ReturnConserves(r, s, p, player);
    var s' := UseJailCard(r, s, p).value;
    assert s'.players == s.players[p := player];
    HandReturnedCore(r, s, s', p, player);
    PlayersKeep(r, s, s');
  }

  // ----- turns and endings

  lemma EndTurnKeeps(r: Rules, s: State, p: nat)
    requires Inv(r, s) && EndTurn(s, p).Ok?
    ensures Inv(r, EndTurn(s, p).value)
  {
    hide PropsOk, Discipline, CardsOk, ValidRules;
    var s' := EndTurn(s, p).value;
    CoreFrame(r, s, s');
    if !s.playAgain {
      NextActiveIsNextSeat(s);
    }
  }

  lemma FinishKeeps(r: Rules, s: State)
    requires Inv(r, s)
    ensures Inv(r, FinishGame(s)) && FinishGame(s).phase == Finished
  {
    hide PlayersOk, PropsOk, Discipline, CardsOk, ValidRules;
    CoreFrame(r, s, FinishGame(s));
  }

  // ----- debts

  lemma PayDebtKeeps(r: Rules, s: State, p: nat)
    requires Inv(r, s) && PayDebt(s, p).Ok?
    ensures Inv(r, PayDebt(s, p).value) && PayDebt(s, p).value.phase == AwaitingTurnEnd
  {
    hide Core, Transfer, Active, HumanActive;
    var paid := DebtPaidCore(r, s, p);
    ReleasedCore(r, paid, p);
    var released := if s.debt.value.reason == JailFine then ReleaseFromJail(paid, p) else paid;
    var s' := PayDebt(s, p).value;
    CoreFrame(r, released, s');
    TwoRosters(s.players, paid.players, s'.players);
    TurnEndKeeps(r, s, s');
  }

  lemma TwoRosters(a: seq<Player>, b: seq<Player>, c: seq<Player>)
    requires SameRoster(a, b) && SameRoster(b, c)
    ensures SameRoster(a, c)
  {}

  /** The debtor's cash goes to the creditor or to the bank. */
  lemma DebtPaidCore(r: Rules, s: State, p: nat) returns (paid: State)
    requires Inv(r, s) && PayDebt(s, p).Ok?
    ensures s.phase == AwaitingDebt && s.debt.Some? && s.debt.value.player == p && s.HasPlayer(p)
    ensures Ok(paid) == if s.debt.value.creditor.Some? then Transfer(s, p, s.debt.value.creditor.value, s.debt.value.amount)
                        else Debit(s, p, s.debt.value.amount)
    ensures Core(r, paid) && SameRoster(s.players, paid.players) && paid == s.(players := paid.players) && paid.HasPlayer(p)
  {
    hide Core, TurnOk, AuctionOk, TradeOk, ReleaseFromJail;
    var debt := s.debt.value;
    if debt.creditor.Some? {
      TransferCore(r, s, p, debt.creditor.value, debt.amount);
      paid := Transfer(s, p, debt.creditor.value, debt.amount).value;
    } else {
      CashCore(r, s, p, s.players[p].cash - debt.amount);
      paid := Debit(s, p, debt.amount).value;
    }
  }

  lemma ReleasedCore(r: Rules, s: State, p: nat)
    requires Core(r, s) && s.HasPlayer(p)
    ensures Core(r, ReleaseFromJail(s, p)) && SameRoster(s.players, ReleaseFromJail(s, p).players)
  {
    hide PropsOk, Discipline, CardsOk, ValidRules;
    assert PlayerOk(r, s.players[p]);
    PlayerUpdateCore(r, s, p, s.players[p].(inJail := false, jailTurns := 0));
  }

  // ----- auctions

  lemma FreshRing(players: seq<Player>)
    requires DistinctSeats(players)
    ensures NoDuplicates(Active(players))
  {
    hide ActiveBySeat;
    var active := Active(players);
    ActiveSorted(players, |players|);
    forall i, j | 0 <= i < j < |active|
      ensures active[i] != active[j]
    {
      assert players[active[i]].seat < players[active[j]].seat;
    }
  }

  lemma DeclineKeeps(r: Rules, s: State, now: int, p: nat)
    requires Inv(r, s) && DeclineProperty(r, s, now, p).Ok?
    ensures Inv(r, DeclineProperty(r, s, now, p).value)
  {
    hide PropsOk, Discipline, CardsOk, ValidRules, ActiveBySeat, HumanActive, NoDuplicates;
    var s' := DeclineProperty(r, s, now, p).value;
    CoreFrame(r, s, s');
    FreshRing(s.players);
    assert forall i :: 0 <= i < |Active(s.players)| ==> Active(s.players)[i] in Active(s.players);
  }

  lemma BidKeeps(r: Rules, s: State, now: int, p: nat, amount: int)
    requires Inv(r, s) && PlaceBid(r, s, now, p, amount).Ok?
    ensures Inv(r, PlaceBid(r, s, now, p, amount).value)
  {
    hide Core, RingOk, CompleteAuction, NextBidder, Unpassed, Active, HumanActive;
    CoreShape(r, s);
    var a := s.auction.value;
    RingBidder(a);
    BidKeepsRing(s, now, a, p, amount);
    var a' := AfterBid(s, now, a, p, amount);
    if |Unpassed(a.active, a.passed)| >= 2 {
      RingBidder(a');
      CoreFrame(r, s, s.(auction := Some(a')));
    } else {
      SettleKeeps(r, s, a');
    }
  }

  lemma RingBidder(a: Auction)
    requires RingOk(a)
    ensures CurrentBidder(a) == a.bidder && a.bidder.Some? && a.bidder.value in a.active && a.bidder.value !in a.passed
    ensures a.highest.Some? ==> a.bid >= MINIMUM_BID
    ensures a.highest.Some? ==> a.highest.value in a.active && a.highest.value != a.bidder.value
    ensures a.highest.Some? ==> a.highest.value !in a.passed
    ensures NoDuplicates(a.active) && (a.highest.None? ==> a.bid == 0)
  {}

  /**
   A bankrupt bidder has no cash while any standing bid is at least ten, so whoever can pay the
   bid is an active player.
   */
  lemma WinnerIsActive(s: State, a: Auction)
    requires AuctionOk(s) && s.auction.Some? && a.active == s.auction.value.active
    requires a.highest.Some? && a.highest.value in a.active && a.bid >= MINIMUM_BID
    requires s.HasPlayer(a.highest.value) && s.players[a.highest.value].cash >= a.bid
    ensures !s.players[a.highest.value].bankrupt
  {
    var i := IndexOf(a.active, a.highest.value);
    assert s.HasPlayer(a.active[i]);
  }

  /** Settling an auction hands the tile to an active player or leaves it unowned. */
  lemma SettleKeeps(r: Rules, s: State, a: Auction)
    requires Inv(r, s) && s.auction.Some? && a.tile == s.auction.value.tile && a.active == s.auction.value.active
    requires a.highest.Some? ==> a.highest.value in a.active && a.bid >= MINIMUM_BID
    requires CompleteAuction(r, s, a).Ok?
    ensures Inv(r, CompleteAuction(r, s, a).value)
  {
    hide PlayersOk, PropsOk, Discipline, CardsOk, ValidRules, AuctionOk, TurnOk;
    var k := a.tile;
    PropertyAt(r, s, k);
    var s' := CompleteAuction(r, s, a).value;
    if a.highest.None? {
      assert s.props[k := s.props[k].(owner := None)] == s.props;
      CoreFrame(r, s, s');
    } else {
      var h := a.highest.value;
      WinnerIsActive(s, a);
      var q := s.props[k].(owner := Some(h));
      ExchangeCore(r, s, h, s.players[h].cash - a.bid, k, q);
      CoreFrame(r, WithProperty(WithCash(s, h, s.players[h].cash - a.bid), k, q), s');
    }
    TurnEndKeeps(r, s, s');
  }

  lemma NoWinner(r: Rules, s: State, a: Auction)
    requires Shape(r, s) && a.highest.None?
    ensures CompleteAuction(r, s, a) == Ok(CompleteWithoutWinner(r, s, a))
  {}

  lemma PassKeeps(r: Rules, s: State, now: int, p: nat)
    requires Inv(r, s) && PassBid(r, s, now, p).Ok?
    ensures Inv(r, PassBid(r, s, now, p).value)
  {
    hide Core, RingOk, CompleteAuction, NextBidder, Unpassed, Active, HumanActive;
    CoreShape(r, s);
    var a := s.auction.value;
    RingBidder(a);
    var a' := AfterPass(s, now, a, p);
    var left := |Unpassed(a'.active, a'.passed)|;
    if a'.highest.Some? && left <= 1 {
      SettleKeeps(r, s, a');
    } else if a'.highest.None? && left == 0 {
      NoWinner(r, s, a');
      SettleKeeps(r, s, a');
    } else {
      PassKeepsRing(s, now, a, p);
      CoreFrame(r, s, s.(auction := Some(a')));
    }
  }
}
