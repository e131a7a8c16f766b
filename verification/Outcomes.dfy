/** What single operations come to: when they are accepted, and what they move. */
module Outcomes {
  import opened Rules
  import opened State
  import opened Money
  import opened CardDecks
  import opened Landing
  import opened Turns
  import opened Properties
  import opened Auctions
  import opened Invariant
  import opened RollProof
  import opened Preservation

  // ----- payments

  /** Exactly `amount` went from one player to the other; nobody else and no tile is touched. */
  predicate PaidOver(s: State, s': State, from: nat, to: nat, amount: int) {
    && s.HasPlayer(from) && s.HasPlayer(to) && from != to && |s'.players| == |s.players|
    && s' == s.(players := s'.players)
    && s'.players[from] == s.players[from].(cash := s.players[from].cash - amount)
    && s'.players[to] == s.players[to].(cash := s.players[to].cash + amount)
    && (forall i :: 0 <= i < |s.players| && i != from && i != to ==> s'.players[i] == s.players[i])
    && TotalCash(s'.players) == TotalCash(s.players)
  }

  /** A transfer is accepted exactly when both players exist, the amount is not negative and the payer has it. */
  lemma TransferOutcome(s: State, from: nat, to: nat, amount: int)
    requires from != to
    ensures Transfer(s, from, to, amount).Ok?
       <==> s.HasPlayer(from) && s.HasPlayer(to) && 0 <= amount <= s.players[from].cash
    ensures Transfer(s, from, to, amount).Ok? ==> PaidOver(s, Transfer(s, from, to, amount).value, from, to, amount)
  {
    hide TotalCash;
    if s.HasPlayer(from) && s.HasPlayer(to) && amount >= 0 {
      TransferConserves(s, from, to, amount);
    }
  }

  // ----- rent

  /** Whom the visitor of a tile owes rent. */
  function Landlord(r: Rules, s: State, visitor: nat, k: nat): (owner: Option<nat>) {
    if HasProperty(r, s, k) && !s.props[k].mortgaged && s.props[k].owner != Some(visitor) then s.props[k].owner else None
  }

  /** The landlord's tiles of one kind. */
  ghost function TilesOfKind(r: Rules, s: State, kind: OwnableKind, owner: nat, n: nat): (tiles: set<nat>)
    requires Shape(r, s) && n <= |r.tiles|
  {
    set k: nat | k < n && r.tiles[k].HasKind(kind) && s.props[k].OwnedBy(owner)
  }

  lemma {:induction false} CountIsCardinality(r: Rules, s: State, kind: OwnableKind, owner: nat, n: nat)
    requires Shape(r, s) && n <= |r.tiles|
    ensures CountOwned(r, s, kind, Some(owner), n) == |TilesOfKind(r, s, kind, owner, n)|
  {
    hide ValidRules;
    if n > 0 {
      CountIsCardinality(r, s, kind, owner, n - 1);
      var before := TilesOfKind(r, s, kind, owner, n - 1);
      if r.tiles[n - 1].HasKind(kind) && s.props[n - 1].OwnedBy(owner) {
        assert TilesOfKind(r, s, kind, owner, n) == before + {n - 1};
      } else {
        assert TilesOfKind(r, s, kind, owner, n) == before;
      }
    }
  }

  /** The entry for `n` tiles; a table that is too short falls back on its first entry. */
  function EntryFor(table: seq<nat>, n: nat): (entry: nat)
    requires |table| > 0 && n > 0
  {
    table[if n <= |table| then n - 1 else 0]
  }

  /**
   The rent the tile's own data names: by level for a street, a bare one counting twice if the
   landlord owns its whole set; by the number of the landlord's tiles of the kind for the others.
   */
  ghost predicate IsRent(r: Rules, s: State, k: nat, owner: nat, dice: (int, int), rent: int)
    requires Shape(r, s) && r.Ownable(k)
  {
    match r.tiles[k]
    case Property(_, _, baseRent, rents, hotelRent, _, _, _) =>
      (match s.props[k].Level()
       case 0 => rent == if forall j :: 0 <= j < |r.tiles| && r.SameSet(j, k) ==> s.props[j].OwnedBy(owner) then 2 * baseRent else baseRent
       case 5 => rent == hotelRent
       case level => 1 <= level <= 4 && rent == rents[level - 1])
    case Airport(_, rents, _, _) =>
      var n := |TilesOfKind(r, s, AirportKind, owner, |r.tiles|)|;
      n > 0 && rent == EntryFor(rents, n)
    case Utility(_, multipliers, _, _) =>
      var n := |TilesOfKind(r, s, UtilityKind, owner, |r.tiles|)|;
      n > 0 && rent == (dice.0 + dice.1) * EntryFor(multipliers, n)
  }

  lemma RentIsNamed(r: Rules, s: State, k: nat, owner: nat, dice: (int, int))
    requires Core(r, s) && r.Ownable(k) && s.props[k].OwnedBy(owner)
    ensures Shape(r, s) && IsRent(r, s, k, owner, dice, CalculateRent(r, s, k, dice))
  {
    hide PlayersOk, PropsOk, Discipline, CardsOk, CountOwned, TilesOfKind;
    PropertyAt(r, s, k);
    assert ValidTile(r.tiles[k]);
    match r.tiles[k]
    case Airport(_, _, _, _) =>
      CountIsCardinality(r, s, AirportKind, owner, |r.tiles|);
      OwnedIsCounted(r, s, AirportKind, owner, k);
    case Utility(_, _, _, _) =>
      CountIsCardinality(r, s, UtilityKind, owner, |r.tiles|);
      OwnedIsCounted(r, s, UtilityKind, owner, k);
    case _ =>
  }

  lemma OwnedIsCounted(r: Rules, s: State, kind: OwnableKind, owner: nat, k: nat)
    requires Shape(r, s) && k < |r.tiles| && r.tiles[k].HasKind(kind) && s.props[k].OwnedBy(owner)
    ensures |TilesOfKind(r, s, kind, owner, |r.tiles|)| > 0
  {
    assert k in TilesOfKind(r, s, kind, owner, |r.tiles|);
  }

  /** Rents that go up with every level. */
  predicate AscendingRents(t: Tile)
    requires t.Property? && |t.rentByHouses| == 4
  {
    && 2 * t.baseRent <= t.rentByHouses[0] <= t.rentByHouses[1] <= t.rentByHouses[2] <= t.rentByHouses[3] <= t.hotelRent
  }

  /** On a street whose rents ascend, building never lowers the rent. */
  lemma BuildingRaisesRent(r: Rules, s: State, p: nat, k: nat, dice: (int, int))
    requires Core(r, s) && Shape(r, s) && BuildProperty(r, s, p, k).Ok?
    requires r.IsProperty(k) && |r.tiles[k].rentByHouses| == 4 && AscendingRents(r.tiles[k])
    ensures var s' := BuildProperty(r, s, p, k).value;
            Shape(r, s') && CalculateRent(r, s', k, dice) >= CalculateRent(r, s, k, dice)
  {
    hide PlayersOk, PropsOk, Discipline, CardsOk, CountOwned, BuildProperty;
    PropertyAt(r, s, k);
    BuildEffect(r, s, p, k);
    assert r.SameSet(k, k);
  }

  /**
   Without a landlord nothing happens; a visitor who can pay hands exactly the rent the tile names to
   the landlord; one who cannot keeps all cash and owes the landlord exactly that rent.
   */
  ghost predicate RentSettled(r: Rules, s: State, p: nat, k: nat, dice: (int, int), s': State)
    requires Shape(r, s) && s.HasPlayer(p)
  {
    var landlord := Landlord(r, s, p, k);
    if landlord.None? then s' == s
    else
      && r.Ownable(k)
      && exists rent: int :: rent >= 0 && IsRent(r, s, k, landlord.value, dice, rent)
           && if rent <= s.players[p].cash
              then PaidOver(s, s', p, landlord.value, rent)
              else s' == s.(phase := AwaitingDebt, pending := None, auction := None, playAgain := false,
                            debt := Some(Debt(p, landlord, rent, Rent)))
  }

  /** Rent never fails, and is settled by what the tile's own data names. */
  lemma RentOutcome(r: Rules, s: State, p: nat, k: nat, dice: (int, int))
    requires Core(r, s) && s.HasPlayer(p) && dice.0 + dice.1 >= 0
    ensures Shape(r, s) && PayRent(r, s, p, k, dice).Ok? && RentSettled(r, s, p, k, dice, PayRent(r, s, p, k, dice).value)
  {
    hide PlayersOk, PropsOk, Discipline, CardsOk, ValidRules, CalculateRent, TotalCash, IsRent;
    if HasProperty(r, s, k) {
      PropertyAt(r, s, k);
      if Landlord(r, s, p, k).Some? {
        RentIsNotNegative(r, s, k, dice);
        RentIsNamed(r, s, k, s.props[k].owner.value, dice);
        var rent := CalculateRent(r, s, k, dice);
        TransferConserves(s, p, s.props[k].owner.value, rent);
      }
    }
  }

  // ----- the move

  /** `steps` forward around a board of `n` tiles, passing the start `laps` times. */
  predicate Travels(from: nat, to: nat, steps: nat, n: nat, laps: nat) {
    to < n && from + steps == to + n * laps
  }

  lemma DivMod(a: nat, n: nat)
    requires n > 0
    ensures a == a % n + n * (a / n) && a % n < n && (a / n == 0 <==> a < n)
  {
    assert a / n == 0 ==> a == a % n;
  }

  /**
   A move goes forward by the dice, is paid the passing bonus exactly if it passes the start, offers
   the tile for purchase exactly if nobody owns it, and touches nothing else.
   */
  lemma MoveExact(r: Rules, s: State, p: nat, dice: (int, int)) returns (laps: nat)
    requires Core(r, s) && s.HasPlayer(p) && ValidDice(dice)
    ensures Shape(r, s)
    ensures var s' := Moved(r, s, p, dice);
            && |s'.players| == |s.players|
            && var k := s'.players[p].position;
            && Travels(s.players[p].position, k, dice.0 + dice.1, |r.tiles|, laps)
            && s'.players == s.players[p := s.players[p].(position := k,
                                          cash := s.players[p].cash + if laps > 0 then r.passGoCash else 0)]
            && s'.pending == (if BuyableTile(r, s, k) then Some(k) else None)
            && s'.phase == (if BuyableTile(r, s, k) then AwaitingDecision else AwaitingTurnEnd)
            && s' == s.(players := s'.players, phase := s'.phase, pending := s'.pending, lastDice := Some(dice))
  {
    hide PlayersOk, PropsOk, Discipline, CardsOk;
    var absolute := s.players[p].position + dice.0 + dice.1;
    DivMod(absolute, |r.tiles|);
    laps := absolute / |r.tiles|;
  }

  // ----- leaving jail

  /** The fine: accepted from the jailed turn holder who can pay it, and all it does. */
  lemma FineExit(s: State, p: nat)
    ensures PayJailFine(s, p).Ok?
       <==> AssertCurrentTurn(s, p).None? && s.players[p].inJail && s.players[p].cash >= JAIL_FINE
    ensures PayJailFine(s, p).Ok? ==>
              PayJailFine(s, p).value
              == WithPlayer(s, p, s.players[p].(cash := s.players[p].cash - JAIL_FINE, inJail := false, jailTurns := 0))
  {}

  /** The card: accepted from the jailed turn holder with a card; the first card goes to its deck's discard pile. */
  lemma CardExit(r: Rules, s: State, p: nat)
    requires Core(r, s)
    ensures UseJailCard(r, s, p).Ok?
       <==> AssertCurrentTurn(s, p).None? && s.players[p].inJail && |s.players[p].jailCardKeys| > 0
    ensures UseJailCard(r, s, p).Ok? ==>
              var player, card := s.players[p], s.players[p].jailCardKeys[0];
              var pile := s.decks.Get(card.deck);
              UseJailCard(r, s, p).value
              == WithPlayer(s, p, player.(jailCards := |player.jailCardKeys| - 1, jailCardKeys := player.jailCardKeys[1..],
                                          inJail := false, jailTurns := 0))
                 .(decks := s.decks.Set(card.deck, pile.(discard := pile.discard + [card])))
  {
    hide PlayersOk, PropsOk, Discipline, CardsOk, ValidRules;
    if s.HasPlayer(p) {
      PlayerAt(r, s, p);
    }
  }

  // ----- declining

  /**
   Declining is accepted from the turn holder who has an unowned tile to decide on, and opens an
   auction of that tile among all active players in seat order, nobody having bid or passed.
   */
  lemma DeclineOutcome(r: Rules, s: State, now: int, p: nat)
    requires Inv(r, s) && Shape(r, s)
    ensures DeclineProperty(r, s, now, p).Ok? <==> s.phase == AwaitingDecision && s.current == p
    ensures DeclineProperty(r, s, now, p).Ok? ==>
              var s' := DeclineProperty(r, s, now, p).value;
              && s' == s.(phase := AwaitingAuction, pending := None, auction := s'.auction) && s'.auction.Some?
              && var a := s'.auction.value;
              && Some(a.tile) == s.pending && a.active == Active(s.players) && a.passed == [] && a.bid == 0 && a.highest.None?
              && a.bidder == Some(a.active[0])
  {
    hide Core, AuctionOk, TradeOk, ValidRules, ActiveBySeat, HumanActive;
  }
}
