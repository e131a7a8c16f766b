/** Bankruptcy keeps the invariant, and with it automatic debt resolution does. */
module BankruptcyProof {
  import opened Rules
  import opened State
  import opened CardDecks
  import opened Turns
  import opened Landing
  import opened Properties
  import opened AuctionRounds
  import opened Trades
  import opened AutoDebt
  import opened Invariant
  import opened Preservation

  /** The bank, or another player who is still in the game. */
  predicate CreditorOk(s: State, p: nat, creditor: Option<nat>) {
    creditor.Some? ==> s.HasPlayer(creditor.value) && !s.players[creditor.value].bankrupt && creditor.value != p
  }

  /** What liquidation does: the hand goes back, the cash goes, the tiles go to the creditor or the bank. */
  lemma LiquidationResult(r: Rules, s: State, p: nat, creditor: Option<nat>)
    requires Core(r, s) && s.HasPlayer(p)
    ensures LiquidateAssets(r, s, p, creditor).Ok?
    ensures var s' := LiquidateAssets(r, s, p, creditor).value;
            && s' == s.(players := s'.players, props := s'.props, decks := s'.decks, debt := s'.debt)
            && s'.players == s.players[p := LiquidatedPlayer(s.players[p])]
            && |s'.props| == |s.props|
            && (forall k :: 0 <= k < |s.props| ==> s'.props[k] == LiquidateProperty(s.props[k], p, creditor))
            && CardsOk(r, s'.players, s'.decks)
            && s'.debt == if s.debt.Some? && s.debt.value.player == p then None else s.debt
  {
    hide PropsOk, Discipline, CardsOk, ValidRules;
    assert PlayerOk(r, s.players[p]);
    var keys := s.players[p].jailCardKeys;
    ReturnAllConserves(r, s, p, LiquidatedPlayer(s.players[p]));
    assert |keys| == 0 ==> Repeat(r.fallbackJailCard, s.players[p].jailCards) == [];
  }

  lemma LiquidatedCore(r: Rules, s: State, p: nat, creditor: Option<nat>)
    requires Core(r, s) && s.HasPlayer(p) && CreditorOk(s, p, creditor)
    ensures LiquidateAssets(r, s, p, creditor).Ok? && Core(r, LiquidateAssets(r, s, p, creditor).value)
  {
    hide CardsOk, ValidRules, LiquidateAssets;
    LiquidationResult(r, s, p, creditor);
    var s' := LiquidateAssets(r, s, p, creditor).value;
    assert PlayerOk(r, s.players[p]);
    forall k | 0 <= k < |s'.props|
      ensures PropertyOk(r, s'.players, k, s'.props[k])
    {
      assert PropertyOk(r, s.players, k, s.props[k]);
    }
    forall j, k | 0 <= j < |s'.props| && 0 <= k < |s'.props| && r.SameSet(j, k) && s'.props[j].mortgaged
      ensures !s'.props[k].Built()
    {
      assert s.props[j].mortgaged;
    }
  }

  lemma LiquidatedBuyable(r: Rules, s: State, p: nat, creditor: Option<nat>, k: nat)
    requires Core(r, s) && s.HasPlayer(p) && BuyableTile(r, s, k)
    ensures LiquidateAssets(r, s, p, creditor).Ok? && BuyableTile(r, LiquidateAssets(r, s, p, creditor).value, k)
  {
    hide PlayersOk, PropsOk, Discipline, CardsOk, ValidRules, LiquidateAssets;
    LiquidationResult(r, s, p, creditor);
  }

  function ActualCreditor(s: State, p: nat, named: Option<nat>): (c: Option<nat>) {
    if named.Some? then named
    else if s.debt.Some? && s.debt.value.player == p then s.debt.value.creditor
    else None
  }

  lemma BankruptcyAccepted(r: Rules, s: State, p: nat, named: Option<nat>)
    requires Core(r, s)
    ensures DeclareBankruptcy(r, s, p, named).Ok?
       <==> !s.Over() && s.HasPlayer(p) && !s.players[p].bankrupt && CreditorOk(s, p, ActualCreditor(s, p, named))
  {
    hide PlayersOk, PropsOk, Discipline, CardsOk, ValidRules, LiquidateAssets;
    if s.HasPlayer(p) {
      LiquidationResult(r, s, p, ActualCreditor(s, p, named));
    }
  }

  /** No two players are still in the game. */
  predicate AtMostOneActive(players: seq<Player>) {
    forall i, j :: 0 <= i < |players| && 0 <= j < |players| && !players[i].bankrupt && !players[j].bankrupt ==> i == j
  }

  lemma ActiveIsAtMostOne(players: seq<Player>)
    requires DistinctSeats(players)
    ensures |Active(players)| <= 1 <==> AtMostOneActive(players)
  {
    hide ActiveBySeat;
    var ids := Active(players);
    FreshRing(players);
    if |ids| >= 2 {
      assert ids[0] in ids && ids[1] in ids && ids[0] != ids[1];
    } else {
      forall i, j | 0 <= i < |players| && 0 <= j < |players| && !players[i].bankrupt && !players[j].bankrupt
        ensures i == j
      {
        assert i in ids && j in ids;
      }
    }
  }

  /** Every tile of `p` goes bare to the new owner, or to nobody; every other tile stays as it is. */
  predicate TilesHandedOver(s: State, s': State, p: nat, owner: Option<nat>) {
    && |s'.props| == |s.props|
    && forall k :: 0 <= k < |s.props| ==>
         s'.props[k] == if s.props[k].owner == Some(p) then PropertyState(owner, 0, false, false) else s.props[k]
  }

  /** `p` leaves with nothing; nobody else is touched. */
  predicate LeavesEmptyHanded(s: State, s': State, p: nat) {
    && s.HasPlayer(p)
    && s'.players == s.players[p := s.players[p].(cash := 0, inJail := false, jailTurns := 0, jailCards := 0, jailCardKeys := [],
                                                  bankrupt := true)]
  }

  /**
   A bankruptcy hands every tile to the creditor named, else to the creditor of the player's own debt,
   else to nobody, and ends the game exactly when it leaves at most one active player or no active
   human; otherwise the turn passes if it was the player's, and else everything open stays.
   */
  lemma BankruptcyOutcome(r: Rules, s: State, p: nat, named: Option<nat>)
    requires Core(r, s) && DeclareBankruptcy(r, s, p, named).Ok?
    ensures var s' := DeclareBankruptcy(r, s, p, named).value;
            && TilesHandedOver(s, s', p, ActualCreditor(s, p, named))
            && LeavesEmptyHanded(s, s', p)
            && (s'.phase == Finished <==> AtMostOneActive(s'.players) || !HumanActive(s'.players))
            && (s'.phase == Finished ==>
                  s'.auction.None? && s'.trade.None? && s'.debt.None? && s'.pending.None? && s'.turn == s.turn && s'.doubles == 0)
            && (s'.phase == Finished ==>
                  forall i :: 0 <= i < |s'.players| && !s'.players[i].bankrupt && AtMostOneActive(s'.players) ==> s'.current == i)
            && (s'.phase != Finished && p != s.current ==>
                  s' == s.(players := s'.players, props := s'.props, decks := s'.decks, debt := s'.debt)
                  && s'.debt == if s.debt.Some? && s.debt.value.player == p then None else s.debt)
            && (s'.phase != Finished && p == s.current ==>
                  s'.phase == AwaitingRoll && s'.turn == s.turn + 1 && s'.doubles == 0 && !s'.playAgain
                  && s'.auction.None? && s'.pending.None?)
  {
    hide PropsOk, Discipline, CardsOk, ValidRules, LiquidateAssets, ActiveBySeat, HumanActive, AtMostOneActive, NextAfterBankruptcy;
    BankruptcyAccepted(r, s, p, named);
    LiquidationResult(r, s, p, ActualCreditor(s, p, named));
    var left := LiquidateAssets(r, s, p, ActualCreditor(s, p, named)).value;
    SeatsAfter(s.players, left.players, p);
    ActiveIsAtMostOne(left.players);
    SoleSurvivor(left.players);
  }

  lemma SeatsAfter(players: seq<Player>, players': seq<Player>, p: nat)
    requires DistinctSeats(players) && p < |players| && players' == players[p := LiquidatedPlayer(players[p])]
    ensures DistinctSeats(players')
  {
    forall i, j | 0 <= i < j < |players'|
      ensures players'[i].seat != players'[j].seat
    {
      assert players[i].seat != players[j].seat;
    }
  }

  lemma SoleSurvivor(players: seq<Player>)
    requires DistinctSeats(players)
    ensures forall i :: 0 <= i < |players| && !players[i].bankrupt && AtMostOneActive(players) ==>
              |Active(players)| > 0 && Active(players)[0] == i
  {
    hide ActiveBySeat;
    forall i | 0 <= i < |players| && !players[i].bankrupt && AtMostOneActive(players)
      ensures |Active(players)| > 0 && Active(players)[0] == i
    {
      assert i in Active(players);
      assert Active(players)[0] in Active(players);
    }
  }

  lemma OtherActive(s: State, p: nat, players': seq<Player>)
    requires s.HasPlayer(p) && !s.players[p].bankrupt && |Active(s.players)| >= 2
    requires players' == s.players[p := LiquidatedPlayer(s.players[p])]
    ensures |Active(players')| == |Active(s.players)| - 1
  {
    ActiveCountUpdate(s.players, players', p, |s.players|);
  }

  lemma BankruptcyKeeps(r: Rules, s: State, p: nat, named: Option<nat>)
    requires Inv(r, s) && DeclareBankruptcy(r, s, p, named).Ok?
    ensures Inv(r, DeclareBankruptcy(r, s, p, named).value)
  {
    hide PlayersOk, PropsOk, Discipline, CardsOk, ValidRules, LiquidateAssets, BuyableTile, RingOk, ActiveBySeat, LiquidateProperty;
    BankruptcyAccepted(r, s, p, named);
    var creditor := ActualCreditor(s, p, named);
    LiquidationResult(r, s, p, creditor);
    LiquidatedCore(r, s, p, creditor);
    var left := LiquidateAssets(r, s, p, creditor).value;
    var s' := DeclareBankruptcy(r, s, p, named).value;
    OtherActive(s, p, left.players);
    CoreFrame(r, left, s');
    var active := Active(left.players);
    assert active[0] in active;
    if |active| > 1 && HumanActive(left.players) {
      if s.current == p {
        NextTurnHolder(r, left, s.players[p].seat);
      } else {
        StaysOpen(r, s, p, creditor);
      }
    }
  }

  lemma NextTurnHolder(r: Rules, s: State, seat: int)
    requires Core(r, s) && |Active(s.players)| > 0
    ensures var q := NextAfterBankruptcy(s.players, seat); s.HasPlayer(q) && !s.players[q].bankrupt
  {
    hide PropsOk, Discipline, CardsOk, ValidRules;
    NextAfterBankruptcyIsNextSeat(s.players, seat);
  }

  /**
   When the turn holder goes bankrupt and the game goes on, the turn passes to the very player that
   ending the turn would have chosen just before.
   */
  lemma BankruptcyPassesTurn(r: Rules, s: State, named: Option<nat>)
    requires Inv(r, s) && DeclareBankruptcy(r, s, s.current, named).Ok?
    requires DeclareBankruptcy(r, s, s.current, named).value.phase != Finished
    ensures var s' := DeclareBankruptcy(r, s, s.current, named).value;
            NextActivePlayer(s) == Ok(s'.current) && s'.turn == s.turn + 1 && s'.phase == AwaitingRoll
  {
    hide PropsOk, Discipline, CardsOk, ValidRules, LiquidateAssets, ActiveBySeat, NextActivePlayer, NextAfterBankruptcy, AuctionOk, TradeOk;
    BankruptcyAccepted(r, s, s.current, named);
    var creditor := ActualCreditor(s, s.current, named);
    LiquidationResult(r, s, s.current, creditor);
    BankruptcyPassesTurnLikeEndTurn(s, LiquidateAssets(r, s, s.current, creditor).value.players);
  }

  /** Bankruptcy of somebody else leaves the open decision, auction or debt coherent. */
  lemma StaysOpen(r: Rules, s: State, p: nat, creditor: Option<nat>)
    requires Inv(r, s) && s.HasPlayer(p) && !s.players[p].bankrupt && p != s.current && s.phase != Finished
    ensures LiquidateAssets(r, s, p, creditor).Ok?
    ensures var left := LiquidateAssets(r, s, p, creditor).value;
            PhaseOk(r, left) && AuctionOk(left) && left.HasPlayer(left.current) && !left.players[left.current].bankrupt
  {
    hide PlayersOk, PropsOk, Discipline, CardsOk, ValidRules, LiquidateAssets, BuyableTile, RingOk;
    LiquidationResult(r, s, p, creditor);
    if s.auction.Some? {
      LiquidatedBuyable(r, s, p, creditor, s.auction.value.tile);
    }
    if s.pending.Some? {
      LiquidatedBuyable(r, s, p, creditor, s.pending.value);
    }
  }

  // ----- automatic debt resolution

  lemma {:induction false} RaiseKeeps(r: Rules, s: State, p: nat)
    requires Inv(r, s) && Shape(r, s) && LevelsOk(r, s.props) && RaiseCash(r, s, p).Ok?
    ensures Inv(r, RaiseCash(r, s, p).value)
    decreases Measure(r, s, p)
  {
    hide Inv, SellBuilding, MortgageProperty, Shape, LevelsOk, BuildingToSell, TileToMortgage;
    if !CanPayDebt(s, p) {
      var building := BuildingToSell(s.props, p, |s.props|);
      if building.Some? {
        SellKeeps(r, s, p, building.value);
        SellDecreases(r, s, p, building.value);
        RaiseKeeps(r, SellBuilding(r, s, p, building.value).value, p);
      } else {
        var tile := TileToMortgage(r, s, p, 0);
        if tile.Some? {
          MortgageKeeps(r, s, p, tile.value);
          MortgageDecreases(r, s, p, tile.value);
          RaiseKeeps(r, MortgageProperty(r, s, p, tile.value).value, p);
        }
      }
    }
  }

  lemma AutoResolveKeeps(r: Rules, s: State, p: nat)
    requires Inv(r, s) && Shape(r, s) && LevelsOk(r, s.props) && AutoResolveDebt(r, s, p).Ok?
    ensures Inv(r, AutoResolveDebt(r, s, p).value)
  {
    hide Inv, RaiseCash, PayDebt, DeclareBankruptcy, Shape, LevelsOk;
    RaiseKeeps(r, s, p);
    var raised := RaiseCash(r, s, p).value;
    if CanPayDebt(raised, p) {
      PayDebtKeeps(r, raised, p);
    } else {
      BankruptcyKeeps(r, raised, p, if raised.debt.Some? then raised.debt.value.creditor else None);
    }
  }
}
