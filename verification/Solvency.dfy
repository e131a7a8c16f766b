/** Automatic debt resolution decides solvency exactly. */
module Solvency {
  import opened Rules
  import opened State
  import opened CardDecks
  import opened Turns
  import opened Landing
  import opened Properties
  import opened Trades
  import opened AutoDebt
  import opened Invariant
  import opened Preservation
  import opened BankruptcyProof

  // ----- what a player can raise

  /** Somebody else's building in the set keeps a tile from being mortgaged. */
  predicate Blocked(r: Rules, props: seq<PropertyState>, p: nat, k: nat)
    requires |props| == |r.tiles|
  {
    exists j :: 0 <= j < |props| && r.SameSet(j, k) && props[j].Built() && !props[j].OwnedBy(p)
  }

  /** What tile `k` can bring in: half the cost of its buildings, then its mortgage. */
  function TileRaise(r: Rules, props: seq<PropertyState>, p: nat, k: nat): (amount: int)
    requires |props| == |r.tiles| && k < |props|
  {
    if !props[k].OwnedBy(p) || !r.Ownable(k) then 0
    else SaleValue(r, k, props[k])
         + if props[k].mortgaged || Blocked(r, props, p, k) then 0 else r.tiles[k].mortgageValue
  }

  function RaiseUpTo(r: Rules, props: seq<PropertyState>, p: nat, n: nat): (amount: int)
    requires |props| == |r.tiles| && n <= |props|
  {
    if n == 0 then 0 else RaiseUpTo(r, props, p, n - 1) + TileRaise(r, props, p, n - 1)
  }

  function Raiseable(r: Rules, s: State, p: nat): (amount: int)
    requires |s.props| == |r.tiles| && s.HasPlayer(p)
  {
    s.players[p].cash + RaiseUpTo(r, s.props, p, |s.props|)
  }

  /** Every building of `p` stands in a set that `p` owns whole. */
  predicate OwnBuildingsWhole(r: Rules, s: State, p: nat)
    requires Shape(r, s)
  {
    forall k :: 0 <= k < |s.props| && HasBuilding(s.props, p, k) ==> OwnsSetOf(r, s, p, k)
  }

  lemma BlockedSame(r: Rules, props: seq<PropertyState>, p: nat, k: nat, q: PropertyState, j: nat)
    requires |props| == |r.tiles| && k < |props| && props[k].OwnedBy(p) && q.OwnedBy(p)
    ensures Blocked(r, props[k := q], p, j) == Blocked(r, props, p, j)
  {
    var props' := props[k := q];
    if Blocked(r, props, p, j) {
      var i :| 0 <= i < |props| && r.SameSet(i, j) && props[i].Built() && !props[i].OwnedBy(p);
      assert props'[i] == props[i];
    }
    if Blocked(r, props', p, j) {
      var i :| 0 <= i < |props'| && r.SameSet(i, j) && props'[i].Built() && !props'[i].OwnedBy(p);
      assert props'[i] == props[i];
    }
  }

  lemma {:induction false} RaiseUpdate(r: Rules, props: seq<PropertyState>, p: nat, k: nat, q: PropertyState, n: nat)
    requires |props| == |r.tiles| && k < |props| && n <= |props| && props[k].OwnedBy(p) && q.OwnedBy(p)
    ensures RaiseUpTo(r, props[k := q], p, n)
         == RaiseUpTo(r, props, p, n)
            + if k < n then TileRaise(r, props[k := q], p, k) - TileRaise(r, props, p, k) else 0
  {
    hide Blocked, SaleValue;
    if n > 0 {
      RaiseUpdate(r, props, p, k, q, n - 1);
      BlockedSame(r, props, p, k, q, n - 1);
    }
  }

  lemma {:induction false} RaiseNotNegative(r: Rules, props: seq<PropertyState>, p: nat, n: nat)
    requires ValidRules(r) && LevelsOk(r, props) && n <= |props|
    ensures RaiseUpTo(r, props, p, n) >= 0
  {
    hide Blocked, ValidRules, SaleValue;
    if n > 0 {
      RaiseNotNegative(r, props, p, n - 1);
      NoSaleMeansNoBuilding(r, props, n - 1);
    }
  }

  lemma {:induction false} NothingToRaise(r: Rules, props: seq<PropertyState>, p: nat, n: nat)
    requires |props| == |r.tiles| && n <= |props|
    requires forall k :: 0 <= k < |props| ==> TileRaise(r, props, p, k) == 0
    ensures RaiseUpTo(r, props, p, n) == 0
  {
    hide TileRaise;
    if n > 0 {
      NothingToRaise(r, props, p, n - 1);
    }
  }

  // ----- one pass of the loop

  ghost predicate InDebt(r: Rules, s: State, p: nat) {
    Inv(r, s) && s.phase == AwaitingDebt && s.debt.Some? && s.debt.value.player == p
  }

  /** Between two passes only the debtor's cash and tiles move; owners stay and the total stays. */
  predicate SamePool(r: Rules, s: State, s': State, p: nat)
    requires |s.props| == |r.tiles| && s.HasPlayer(p)
  {
    && |s'.players| == |s.players| && |s'.props| == |s.props|
    && s' == s.(players := s'.players, props := s'.props)
    && s'.players == s.players[p := s.players[p].(cash := s'.players[p].cash)]
    && (forall k :: 0 <= k < |s.props| ==> s'.props[k].owner == s.props[k].owner)
    && (forall k :: 0 <= k < |s.props| && !s.props[k].OwnedBy(p) ==> s'.props[k] == s.props[k])
    && (forall k :: 0 <= k < |s.props| && s'.props[k].Built() ==> s.props[k].Built())
    && s'.players[p].cash >= s.players[p].cash
    && Raiseable(r, s', p) == Raiseable(r, s, p)
  }

  lemma PoolTrans(r: Rules, a: State, b: State, c: State, p: nat)
    requires |a.props| == |r.tiles| && a.HasPlayer(p) && SamePool(r, a, b, p) && SamePool(r, b, c, p)
    ensures SamePool(r, a, c, p)
  {
    hide Raiseable;
  }

  lemma SaleRaises(r: Rules, s: State, p: nat, k: nat)
    requires Core(r, s) && s.HasPlayer(p) && r.IsProperty(k) && s.props[k].OwnedBy(p) && s.props[k].Built()
    ensures var s' := WithCash(s, p, s.players[p].cash + r.tiles[k].houseCost / 2)
                      .(props := s.props[k := SoldTile(s.props[k])]);
            SamePool(r, s, s', p)
  {
    hide PlayersOk, PropsOk, Discipline, CardsOk, Blocked;
    PropertyAt(r, s, k);
    assert ValidTile(r.tiles[k]);
    var q, half := SoldTile(s.props[k]), r.tiles[k].houseCost / 2;
    assert q.Level() == s.props[k].Level() - 1;
    assert q.Level() * half == s.props[k].Level() * half - half;
    RaiseUpdate(r, s.props, p, k, q, |s.props|);
    BlockedSame(r, s.props, p, k, q, k);
  }

  lemma MortgageRaises(r: Rules, s: State, p: nat, k: nat)
    requires Core(r, s) && s.HasPlayer(p) && CanMortgage(r, s, p, k)
    ensures var s' := WithCash(s, p, s.players[p].cash + r.tiles[k].mortgageValue)
                      .(props := s.props[k := s.props[k].(mortgaged := true)]);
            SamePool(r, s, s', p)
  {
    hide PlayersOk, PropsOk, Discipline, CardsOk, ValidRules;
    PropertyAt(r, s, k);
    var q := s.props[k].(mortgaged := true);
    assert !Blocked(r, s.props, p, k);
    RaiseUpdate(r, s.props, p, k, q, |s.props|);
  }

  /** The tallest building can always be sold when its set is owned whole. */
  lemma TallestSells(r: Rules, s: State, p: nat, k: nat)
    requires InDebt(r, s, p) && Shape(r, s)
    requires BuildingToSell(s.props, p, |s.props|) == Some(k)
    ensures r.IsProperty(k) && s.HasPlayer(p)
    ensures SellBuilding(r, s, p, k).Ok? <==> OwnsSetOf(r, s, p, k)
  {
    hide PlayersOk, PropsOk, Discipline, CardsOk, ValidRules, BuildingToSell;
    TallestIsTallest(s.props, p, k);
    PropertyAt(r, s, k);
    if OwnsSetOf(r, s, p, k) && !s.props[k].hotel {
      forall j | 0 <= j < |r.tiles| && r.SameSet(j, k)
        ensures !s.props[j].hotel && s.props[j].houses <= s.props[k].houses
      {
        assert s.props[j].OwnedBy(p);
        assert HasBuilding(s.props, p, j) ==> !Taller(s.props[j], s.props[k]);
      }
    }
  }

  lemma TallestIsTallest(props: seq<PropertyState>, p: nat, k: nat)
    requires BuildingToSell(props, p, |props|) == Some(k)
    ensures HasBuilding(props, p, k)
    ensures forall j :: 0 <= j < |props| && HasBuilding(props, p, j) ==> !Taller(props[j], props[k])
  {}

  lemma MortgageAccepted(r: Rules, s: State, p: nat, k: nat)
    requires InDebt(r, s, p) && Shape(r, s) && CanMortgage(r, s, p, k)
    ensures s.HasPlayer(p) && MortgageProperty(r, s, p, k).Ok?
    ensures MortgageProperty(r, s, p, k).value
         == WithCash(s, p, s.players[p].cash + r.tiles[k].mortgageValue).(props := s.props[k := s.props[k].(mortgaged := true)])
  {
    hide PlayersOk, PropsOk, Discipline, CardsOk, ValidRules;
  }

  lemma Exhausted(r: Rules, s: State, p: nat)
    requires Core(r, s) && s.HasPlayer(p)
    requires BuildingToSell(s.props, p, |s.props|).None? && TileToMortgage(r, s, p, 0).None?
    ensures Raiseable(r, s, p) == s.players[p].cash
  {
    hide PlayersOk, PropsOk, Discipline, CardsOk, ValidRules;
    forall k | 0 <= k < |s.props|
      ensures TileRaise(r, s.props, p, k) == 0
    {
      if s.props[k].OwnedBy(p) && r.Ownable(k) {
        PropertyAt(r, s, k);
        assert !HasBuilding(s.props, p, k);
        assert !CanMortgage(r, s, p, k);
        if !s.props[k].mortgaged {
          var j :| 0 <= j < |r.tiles| && r.SameSet(j, k) && s.props[j].Built();
          assert !HasBuilding(s.props, p, j);
        }
      }
    }
    NothingToRaise(r, s.props, p, |s.props|);
  }

  lemma PoolKeepsWhole(r: Rules, s: State, s': State, p: nat)
    requires Shape(r, s) && s.HasPlayer(p) && SamePool(r, s, s', p) && OwnBuildingsWhole(r, s, p)
    ensures Shape(r, s') && OwnBuildingsWhole(r, s', p)
  {
    hide Raiseable, ValidRules;
    forall k | 0 <= k < |s'.props| && HasBuilding(s'.props, p, k)
      ensures OwnsSetOf(r, s', p, k)
    {
      assert HasBuilding(s.props, p, k);
      assert OwnsSetOf(r, s, p, k);
    }
  }

  lemma PoolStaysInDebt(r: Rules, s: State, s': State, p: nat)
    requires InDebt(r, s, p) && Inv(r, s') && |s.props| == |r.tiles| && s.HasPlayer(p) && SamePool(r, s, s', p)
    ensures InDebt(r, s', p)
  {
    hide Inv, Raiseable;
  }

  lemma DebtorHere(r: Rules, s: State, p: nat)
    requires InDebt(r, s, p)
    ensures Shape(r, s) && LevelsOk(r, s.props) && s.HasPlayer(p) && s.current == p && !s.players[p].bankrupt
  {
    InvShape(r, s);
  }

  /** The loop raises everything there is unless it can pay earlier. */
  lemma {:induction false} RaiseOutcome(r: Rules, s: State, p: nat)
    requires InDebt(r, s, p) && Shape(r, s) && LevelsOk(r, s.props) && s.HasPlayer(p) && OwnBuildingsWhole(r, s, p)
    ensures RaiseCash(r, s, p).Ok?
    ensures var s' := RaiseCash(r, s, p).value;
            && InDebt(r, s', p) && SamePool(r, s, s', p)
            && (CanPayDebt(s', p) || Raiseable(r, s', p) == s'.players[p].cash)
    decreases Measure(r, s, p)
  {
    hide Inv, ValidRules, LevelsOk, OwnBuildingsWhole, SellBuilding, MortgageProperty, BuildingToSell, TileToMortgage,
      SamePool, CanMortgage, Raiseable;
    if CanPayDebt(s, p) {
      SamePoolRefl(r, s, p);
    } else {
      var building := BuildingToSell(s.props, p, |s.props|);
      if building.Some? {
        var k := building.value;
        SellPass(r, s, p, k);
        var s1 := SellBuilding(r, s, p, k).value;
        SellDecreases(r, s, p, k);
        RaiseOutcome(r, s1, p);
        PoolTrans(r, s, s1, RaiseCash(r, s1, p).value, p);
      } else {
        var tile := TileToMortgage(r, s, p, 0);
        if tile.Some? {
          MortgagePass(r, s, p);
          var s1 := MortgageProperty(r, s, p, tile.value).value;
          MortgageDecreases(r, s, p, tile.value);
          RaiseOutcome(r, s1, p);
          PoolTrans(r, s, s1, RaiseCash(r, s1, p).value, p);
        } else {
          SamePoolRefl(r, s, p);
          InvCore(r, s);
          Exhausted(r, s, p);
        }
      }
    }
  }

  lemma InvCore(r: Rules, s: State)
    requires Inv(r, s)
    ensures Core(r, s)
  {}

  lemma SamePoolRefl(r: Rules, s: State, p: nat)
    requires InDebt(r, s, p) && |s.props| == |r.tiles| && s.HasPlayer(p)
    ensures SamePool(r, s, s, p)
  {
    hide Inv, Raiseable;
    assert s.players[p := s.players[p]] == s.players;
  }

  lemma SellPass(r: Rules, s: State, p: nat, k: nat)
    requires InDebt(r, s, p) && Shape(r, s) && LevelsOk(r, s.props) && s.HasPlayer(p) && OwnBuildingsWhole(r, s, p)
    requires BuildingToSell(s.props, p, |s.props|) == Some(k)
    ensures SellBuilding(r, s, p, k).Ok?
    ensures var s' := SellBuilding(r, s, p, k).value;
            InDebt(r, s', p) && SamePool(r, s, s', p) && s'.HasPlayer(p) && Shape(r, s') && OwnBuildingsWhole(r, s', p)
  {
    hide Core, PhaseOk, TurnOk, AuctionOk, TradeOk, ValidRules, LevelsOk, SellBuilding, BuildingToSell, SamePool, Raiseable, OwnsSetOf;
    TallestIsTallest(s.props, p, k);
    assert OwnsSetOf(r, s, p, k);
    TallestSells(r, s, p, k);
    SaleEffect(r, s, p, k);
    SaleRaises(r, s, p, k);
    SellKeeps(r, s, p, k);
    var s' := SellBuilding(r, s, p, k).value;
    PoolStaysInDebt(r, s, s', p);
    PoolKeepsWhole(r, s, s', p);
  }

  lemma MortgagePass(r: Rules, s: State, p: nat)
    requires InDebt(r, s, p) && Shape(r, s) && LevelsOk(r, s.props) && s.HasPlayer(p) && OwnBuildingsWhole(r, s, p)
    requires TileToMortgage(r, s, p, 0).Some?
    ensures var k := TileToMortgage(r, s, p, 0).value;
            && MortgageProperty(r, s, p, k).Ok?
            && var s' := MortgageProperty(r, s, p, k).value;
            InDebt(r, s', p) && SamePool(r, s, s', p) && s'.HasPlayer(p) && Shape(r, s') && OwnBuildingsWhole(r, s', p)
  {
    hide Core, PhaseOk, TurnOk, AuctionOk, TradeOk, ValidRules, LevelsOk, MortgageProperty, SamePool, Raiseable, CanMortgage, OwnBuildingsWhole;
    var k := TileToMortgage(r, s, p, 0).value;
    MortgageAccepted(r, s, p, k);
    MortgageRaises(r, s, p, k);
    MortgageKeeps(r, s, p, k);
    var s' := MortgageProperty(r, s, p, k).value;
    PoolStaysInDebt(r, s, s', p);
    PoolKeepsWhole(r, s, s', p);
  }

  // ----- the exact outcome

  /** Who owed the jail fine is out of jail once it is paid. */
  function Discharged(player: Player, debt: Debt): (player': Player) {
    if debt.reason == JailFine then player.(inJail := false, jailTurns := 0) else player
  }

  /** Settling moves exactly the debt from the debtor to the creditor or the bank, and touches no other player. */
  predicate DebtMoved(s: State, s': State, debt: Debt) {
    && |s'.players| == |s.players| && s.HasPlayer(debt.player)
    && s'.players[debt.player]
       == Discharged(s.players[debt.player].(cash := s.players[debt.player].cash - debt.amount), debt)
    && (forall i :: 0 <= i < |s.players| && i != debt.player ==>
          s'.players[i]
          == s.players[i].(cash := s.players[i].cash + if debt.creditor == Some(i) then debt.amount else 0))
  }

  lemma PayDebtOutcome(r: Rules, s: State, p: nat)
    requires InDebt(r, s, p) && CanPayDebt(s, p)
    ensures PayDebt(s, p).Ok?
    ensures var s' := PayDebt(s, p).value;
            s' == s.(phase := AwaitingTurnEnd, debt := None, players := s'.players) && DebtMoved(s, s', s.debt.value)
  {
    hide Core, AuctionOk, TradeOk, Active, HumanActive;
  }

  /** The debt is paid: no tile changes hands and everybody else keeps their cash but the creditor. */
  predicate DebtSettled(s: State, s': State, p: nat, debt: Debt) {
    && s'.phase == AwaitingTurnEnd && s'.debt.None? && s'.turn == s.turn
    && |s'.players| == |s.players| && |s'.props| == |s.props| && s.HasPlayer(p)
    && !s'.players[p].bankrupt
    && (forall k :: 0 <= k < |s.props| ==> s'.props[k].owner == s.props[k].owner)
    && (forall i :: 0 <= i < |s.players| && i != p ==>
          s'.players[i].cash == s.players[i].cash + if debt.creditor == Some(i) then debt.amount else 0)
  }

  lemma SolventOutcome(r: Rules, s: State, raised: State, p: nat)
    requires InDebt(r, s, p) && InDebt(r, raised, p) && |s.props| == |r.tiles| && s.HasPlayer(p)
    requires SamePool(r, s, raised, p) && CanPayDebt(raised, p)
    ensures PayDebt(raised, p).Ok? && DebtSettled(s, PayDebt(raised, p).value, p, s.debt.value)
  {
    hide Inv, Raiseable, PayDebt;
    PayDebtOutcome(r, raised, p);
    DebtorHere(r, raised, p);
  }

  /**
   If every building of the debtor stands in a set the debtor owns whole, the loop never throws,
   and it is decided by one number fixed in advance: with enough to raise the debt is paid in full
   and no tile changes hands; otherwise the debtor goes bankrupt, which is accepted exactly when
   the creditor is the bank or an active player, and every tile goes bare to that creditor.
   */
  lemma AutoResolveExact(r: Rules, s: State, p: nat)
    requires InDebt(r, s, p) && Shape(r, s) && LevelsOk(r, s.props) && s.HasPlayer(p) && OwnBuildingsWhole(r, s, p)
    ensures var res, debt := AutoResolveDebt(r, s, p), s.debt.value;
            var solvent := Raiseable(r, s, p) >= debt.amount;
            && (res.Ok? <==> solvent || CreditorOk(s, p, debt.creditor))
            && (solvent ==> DebtSettled(s, res.value, p, debt))
            && (!solvent && res.Ok? ==> TilesHandedOver(s, res.value, p, debt.creditor) && LeavesEmptyHanded(s, res.value, p))
  {
    hide Inv, ValidRules, LevelsOk, OwnBuildingsWhole, RaiseCash, PayDebt, DeclareBankruptcy, Raiseable, SamePool, DebtSettled,
      TilesHandedOver, LeavesEmptyHanded;
    RaiseOutcome(r, s, p);
    var raised := RaiseCash(r, s, p).value;
    PoolFacts(r, s, raised, p);
    DebtorHere(r, raised, p);
    RaisedCovers(r, raised, p);
    if CanPayDebt(raised, p) {
      SolventOutcome(r, s, raised, p);
    } else {
      InsolventOutcome(r, s, raised, p);
    }
  }

  lemma PoolFacts(r: Rules, s: State, s': State, p: nat)
    requires |s.props| == |r.tiles| && s.HasPlayer(p) && SamePool(r, s, s', p)
    ensures s'.debt == s.debt && s'.phase == s.phase && Raiseable(r, s', p) == Raiseable(r, s, p)
  {}

  lemma RaisedCovers(r: Rules, s: State, p: nat)
    requires InDebt(r, s, p) && Shape(r, s) && LevelsOk(r, s.props) && s.HasPlayer(p)
    requires CanPayDebt(s, p) || Raiseable(r, s, p) == s.players[p].cash
    ensures CanPayDebt(s, p) <==> Raiseable(r, s, p) >= s.debt.value.amount
  {
    hide Inv, LevelsOk;
    RaiseNotNegative(r, s.props, p, |s.props|);
  }

  lemma InsolventOutcome(r: Rules, s: State, raised: State, p: nat)
    requires InDebt(r, s, p) && InDebt(r, raised, p) && |s.props| == |r.tiles| && s.HasPlayer(p)
    requires SamePool(r, s, raised, p)
    ensures var debt := s.debt.value;
            var res := DeclareBankruptcy(r, raised, p, debt.creditor);
            && (res.Ok? <==> CreditorOk(s, p, debt.creditor))
            && (res.Ok? ==> TilesHandedOver(s, res.value, p, debt.creditor) && LeavesEmptyHanded(s, res.value, p))
  {
    hide Core, Raiseable, AuctionOk, TradeOk, DeclareBankruptcy, Active, HumanActive;
    BankruptcyAccepted(r, raised, p, s.debt.value.creditor);
    if DeclareBankruptcy(r, raised, p, s.debt.value.creditor).Ok? {
      BankruptcyOutcome(r, raised, p, s.debt.value.creditor);
    }
  }

  // ----- the condition is exact

  /** A building in a set that is not owned whole is never sold, so the loop cannot run dry. */
  lemma {:induction false} SplitNeverSold(r: Rules, s: State, p: nat, k: nat)
    requires InDebt(r, s, p) && Shape(r, s) && LevelsOk(r, s.props) && s.HasPlayer(p)
    requires HasBuilding(s.props, p, k) && !OwnsSetOf(r, s, p, k)
    requires s.debt.value.amount > Raiseable(r, s, p)
    ensures RaiseCash(r, s, p).Err?
    decreases Measure(r, s, p)
  {
    hide Inv, ValidRules, LevelsOk, SellBuilding, MortgageProperty, BuildingToSell, TileToMortgage, Raiseable;
    CannotPay(r, s, p);
    var building := BuildingToSell(s.props, p, |s.props|);
    BuildingFound(s.props, p, k);
    var b := building.value;
    TallestSells(r, s, p, b);
    if SellBuilding(r, s, p, b).Ok? {
      SplitPass(r, s, p, k, b);
      SellDecreases(r, s, p, b);
      SplitNeverSold(r, SellBuilding(r, s, p, b).value, p, k);
    }
  }

  lemma BuildingFound(props: seq<PropertyState>, p: nat, k: nat)
    requires HasBuilding(props, p, k)
    ensures BuildingToSell(props, p, |props|).Some?
  {}

  lemma CannotPay(r: Rules, s: State, p: nat)
    requires Shape(r, s) && LevelsOk(r, s.props) && s.HasPlayer(p) && s.debt.Some? && s.debt.value.amount > Raiseable(r, s, p)
    ensures !CanPayDebt(s, p)
  {
    hide LevelsOk, ValidRules;
    RaiseNotNegative(r, s.props, p, |s.props|);
  }

  lemma SplitPass(r: Rules, s: State, p: nat, k: nat, b: nat)
    requires InDebt(r, s, p) && Shape(r, s) && LevelsOk(r, s.props) && s.HasPlayer(p)
    requires HasBuilding(s.props, p, k) && !OwnsSetOf(r, s, p, k) && SellBuilding(r, s, p, b).Ok?
    ensures var s' := SellBuilding(r, s, p, b).value;
            && InDebt(r, s', p) && s'.HasPlayer(p) && Shape(r, s') && s'.debt == s.debt
            && Raiseable(r, s', p) == Raiseable(r, s, p)
            && HasBuilding(s'.props, p, k) && !OwnsSetOf(r, s', p, k)
  {
    hide Core, PhaseOk, TurnOk, AuctionOk, TradeOk, ValidRules, SellBuilding, Raiseable;
    SaleEffect(r, s, p, b);
    SaleRaises(r, s, p, b);
    SellKeeps(r, s, p, b);
    var s' := SellBuilding(r, s, p, b).value;
    var j :| 0 <= j < |r.tiles| && r.SameSet(j, k) && !s.props[j].OwnedBy(p);
    assert k != b;
    assert !s'.props[j].OwnedBy(p);
  }

  /** The same debtor owing `amount` to the bank. */
  function Owing(s: State, p: nat, amount: int): (s': State) {
    s.(debt := Some(Debt(p, None, amount, Card)))
  }

  lemma OwingInDebt(r: Rules, s: State, p: nat, amount: int)
    requires InDebt(r, s, p) && amount > 0
    ensures InDebt(r, Owing(s, p, amount), p) && Shape(r, Owing(s, p, amount)) && LevelsOk(r, Owing(s, p, amount).props)
    ensures s.HasPlayer(p)
  {
    hide PlayersOk, PropsOk, Discipline, CardsOk, ValidRules;
    CoreFrame(r, s, Owing(s, p, amount));
    InvShape(r, Owing(s, p, amount));
  }

  /**
   Automatic resolution is safe for every amount the debtor may owe the bank if and only if every
   building of the debtor stands in a set the debtor owns whole.
   */
  lemma AutoResolveNeverThrowsIff(r: Rules, s: State, p: nat)
    requires InDebt(r, s, p) && Shape(r, s) && LevelsOk(r, s.props) && s.HasPlayer(p)
    ensures OwnBuildingsWhole(r, s, p)
       <==> forall amount: int :: amount > 0 ==> AutoResolveDebt(r, Owing(s, p, amount), p).Ok?
  {
    hide Inv, ValidRules, LevelsOk, AutoResolveDebt, Raiseable, OwnsSetOf, HasBuilding;
    if OwnBuildingsWhole(r, s, p) {
      forall amount: int | amount > 0
        ensures AutoResolveDebt(r, Owing(s, p, amount), p).Ok?
      {
        OwingInDebt(r, s, p, amount);
        WholeIgnoresDebt(r, s, p, amount);
        AutoResolveExact(r, Owing(s, p, amount), p);
      }
    } else {
      var k :| 0 <= k < |s.props| && HasBuilding(s.props, p, k) && !OwnsSetOf(r, s, p, k);
      var amount := if Raiseable(r, s, p) > 0 then Raiseable(r, s, p) + 1 else 1;
      OwingInDebt(r, s, p, amount);
      SplitIgnoresDebt(r, s, p, amount, k);
      SplitNeverSold(r, Owing(s, p, amount), p, k);
      AutoFails(r, Owing(s, p, amount), p);
    }
  }

  lemma WholeIgnoresDebt(r: Rules, s: State, p: nat, amount: int)
    requires Shape(r, s) && OwnBuildingsWhole(r, s, p)
    ensures Shape(r, Owing(s, p, amount)) && OwnBuildingsWhole(r, Owing(s, p, amount), p)
  {
    forall k | 0 <= k < |s.props| && HasBuilding(s.props, p, k)
      ensures OwnsSetOf(r, Owing(s, p, amount), p, k)
    {
      assert OwnsSetOf(r, s, p, k);
    }
  }

  lemma SplitIgnoresDebt(r: Rules, s: State, p: nat, amount: int, k: nat)
    requires Shape(r, s) && s.HasPlayer(p) && !OwnsSetOf(r, s, p, k)
    ensures Shape(r, Owing(s, p, amount)) && !OwnsSetOf(r, Owing(s, p, amount), p, k)
    ensures Raiseable(r, Owing(s, p, amount), p) == Raiseable(r, s, p)
  {
    var j :| 0 <= j < |r.tiles| && r.SameSet(j, k) && !s.props[j].OwnedBy(p);
    assert !Owing(s, p, amount).props[j].OwnedBy(p);
  }

  lemma AutoFails(r: Rules, s: State, p: nat)
    requires InDebt(r, s, p) && Shape(r, s) && LevelsOk(r, s.props) && s.HasPlayer(p) && RaiseCash(r, s, p).Err?
    ensures AutoResolveDebt(r, s, p).Err?
  {
    hide Inv, ValidRules, LevelsOk, RaiseCash;
  }
}
