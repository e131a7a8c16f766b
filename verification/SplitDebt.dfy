/** Automatic debt resolution with a split set: for each amount, exactly whether it throws. */
module SplitDebt {
  import opened Rules
  import opened State
  import opened CardDecks
  import opened Landing
  import opened Properties
  import opened Trades
  import opened AutoDebt
  import opened Invariant
  import opened Preservation
  import opened BankruptcyProof
  import opened Solvency

  /** A building of `p` in a set that `p` does not own whole. */
  predicate SplitBuilding(r: Rules, s: State, p: nat, k: nat)
    requires Shape(r, s)
  {
    HasBuilding(s.props, p, k) && !OwnsSetOf(r, s, p, k)
  }

  /** `x` is sold before `k`: it is taller, or as tall and earlier on the board. */
  predicate SoldBefore(props: seq<PropertyState>, x: nat, k: nat)
    requires x < |props| && k < |props|
  {
    props[x].Level() > props[k].Level() || (props[x].Level() == props[k].Level() && x < k)
  }

  /** The split building that comes up for sale first. */
  predicate FirstSplit(r: Rules, s: State, p: nat, x: nat)
    requires Shape(r, s)
  {
    SplitBuilding(r, s, p, x) && forall k :: 0 <= k < |s.props| && k != x && SplitBuilding(r, s, p, k) ==> SoldBefore(s.props, x, k)
  }

  lemma {:induction false} FirstSplitExists(r: Rules, s: State, p: nat, n: nat) returns (x: nat)
    requires Shape(r, s) && n <= |s.props| && exists k :: 0 <= k < n && SplitBuilding(r, s, p, k)
    ensures x < n && SplitBuilding(r, s, p, x)
    ensures forall k :: 0 <= k < n && k != x && SplitBuilding(r, s, p, k) ==> SoldBefore(s.props, x, k)
  {
    hide ValidRules, SplitBuilding;
    if exists k :: 0 <= k < n - 1 && SplitBuilding(r, s, p, k) {
      x := FirstSplitExists(r, s, p, n - 1);
      if SplitBuilding(r, s, p, n - 1) && SoldBefore(s.props, n - 1, x) {
        x := n - 1;
      }
    } else {
      x := n - 1;
    }
  }

  /** How far a whole tile is sold down before `x` comes up: to its level, or one below if the tile comes earlier. */
  function LevelLeft(props: seq<PropertyState>, x: nat, k: nat): (level: int)
    requires x < |props|
  {
    if k < x then props[x].Level() - 1 else props[x].Level()
  }

  /** What tile `k` brings in before `x` comes up for sale. */
  function Before(r: Rules, s: State, p: nat, x: nat, k: nat): (amount: int)
    requires Shape(r, s) && x < |s.props| && k < |s.props|
  {
    if r.IsProperty(k) && s.props[k].OwnedBy(p) && OwnsSetOf(r, s, p, k) && s.props[k].Level() > LevelLeft(s.props, x, k)
    then (s.props[k].Level() - LevelLeft(s.props, x, k)) * (r.tiles[k].houseCost / 2) else 0
  }

  function BeforeUpTo(r: Rules, s: State, p: nat, x: nat, n: nat): (amount: int)
    requires Shape(r, s) && x < |s.props| && n <= |s.props|
  {
    if n == 0 then 0 else BeforeUpTo(r, s, p, x, n - 1) + Before(r, s, p, x, n - 1)
  }

  /** Cash, and what the whole sets bring in before the split building `x` comes up for sale. */
  function Reach(r: Rules, s: State, p: nat, x: nat): (amount: int)
    requires Shape(r, s) && s.HasPlayer(p) && x < |s.props|
  {
    s.players[p].cash + BeforeUpTo(r, s, p, x, |s.props|)
  }

  lemma ProductAtLeast(a: int, b: nat)
    requires a >= 0
    ensures a * b >= 0
  {}

  lemma {:induction false} BeforeNotNegative(r: Rules, s: State, p: nat, x: nat, n: nat)
    requires Shape(r, s) && x < |s.props| && n <= |s.props|
    ensures BeforeUpTo(r, s, p, x, n) >= 0
  {
    hide ValidRules, OwnsSetOf;
    if n > 0 {
      BeforeNotNegative(r, s, p, x, n - 1);
      if s.props[n - 1].Level() > LevelLeft(s.props, x, n - 1) && r.IsProperty(n - 1) {
        ProductAtLeast(s.props[n - 1].Level() - LevelLeft(s.props, x, n - 1), r.tiles[n - 1].houseCost / 2);
      }
    }
  }

  lemma {:induction false} BeforeUpdate(r: Rules, s: State, s': State, p: nat, x: nat, b: nat, n: nat)
    requires Shape(r, s) && Shape(r, s') && x < |s.props| && b < |s.props| && n <= |s.props|
    requires forall k :: 0 <= k < |s.props| && k != b ==> Before(r, s', p, x, k) == Before(r, s, p, x, k)
    ensures BeforeUpTo(r, s', p, x, n)
         == BeforeUpTo(r, s, p, x, n) + if b < n then Before(r, s', p, x, b) - Before(r, s, p, x, b) else 0
  {
    hide ValidRules, Before;
    if n > 0 {
      BeforeUpdate(r, s, s', p, x, b, n - 1);
    }
  }

  lemma {:induction false} NothingBefore(r: Rules, s: State, p: nat, x: nat, n: nat)
    requires Shape(r, s) && x < |s.props| && n <= |s.props|
    requires forall k :: 0 <= k < |s.props| ==> Before(r, s, p, x, k) == 0
    ensures BeforeUpTo(r, s, p, x, n) == 0
  {
    hide ValidRules, Before;
    if n > 0 {
      NothingBefore(r, s, p, x, n - 1);
    }
  }

  // ----- the loop sells in this order

  lemma TallerIsLevel(r: Rules, s: State, j: nat, k: nat)
    requires Core(r, s) && j < |r.tiles| && k < |r.tiles|
    ensures Shape(r, s) && (Taller(s.props[j], s.props[k]) <==> s.props[j].Level() > s.props[k].Level())
  {
    hide PlayersOk, PropsOk, Discipline, CardsOk, ValidRules;
    PropertyAt(r, s, j);
    PropertyAt(r, s, k);
  }

  lemma {:induction false} FirstOfTallest(props: seq<PropertyState>, p: nat, n: nat, j: nat)
    requires n <= |props| && BuildingToSell(props, p, n).Some? && j < BuildingToSell(props, p, n).value && HasBuilding(props, p, j)
    ensures BuildingToSell(props, p, n).value < n && Taller(props[BuildingToSell(props, p, n).value], props[j])
  {
    if n > 0 && BuildingToSell(props, p, n) == BuildingToSell(props, p, n - 1) {
      FirstOfTallest(props, p, n - 1, j);
    }
  }

  lemma {:induction false} ToSellBelow(props: seq<PropertyState>, p: nat, n: nat)
    requires n <= |props| && BuildingToSell(props, p, n).Some?
    ensures BuildingToSell(props, p, n).value < n
  {
    if n > 0 && BuildingToSell(props, p, n) == BuildingToSell(props, p, n - 1) {
      ToSellBelow(props, p, n - 1);
    }
  }

  /** The building the loop picks comes before every other building of the debtor. */
  lemma PickedFirst(r: Rules, s: State, p: nat, b: nat, k: nat)
    requires Core(r, s) && BuildingToSell(s.props, p, |s.props|) == Some(b) && HasBuilding(s.props, p, k) && k != b
    ensures b < |s.props| && SoldBefore(s.props, b, k)
  {
    hide PlayersOk, PropsOk, Discipline, CardsOk, ValidRules, BuildingToSell, Taller;
    TallestIsTallest(s.props, p, b);
    CoreShape(r, s);
    TallerIsLevel(r, s, k, b);
    TallerIsLevel(r, s, b, k);
    if k < b {
      FirstOfTallest(s.props, p, |s.props|, k);
    }
  }

  /** A whole building goes first: it brings in what it was counted for, and `x` stays the first split one. */
  lemma WholeGoesFirst(r: Rules, s: State, p: nat, x: nat, b: nat)
    requires InDebt(r, s, p) && Shape(r, s) && LevelsOk(r, s.props) && s.HasPlayer(p) && FirstSplit(r, s, p, x)
    requires BuildingToSell(s.props, p, |s.props|) == Some(b) && SellBuilding(r, s, p, b).Ok?
    ensures var s' := SellBuilding(r, s, p, b).value;
            && InDebt(r, s', p) && Shape(r, s') && LevelsOk(r, s'.props) && s'.HasPlayer(p) && s'.debt == s.debt
            && FirstSplit(r, s', p, x) && Reach(r, s', p, x) == Reach(r, s, p, x) && SamePool(r, s, s', p)
  {
    hide Core, PhaseOk, TurnOk, AuctionOk, TradeOk, ValidRules, LevelsOk, SellBuilding, BuildingToSell, Raiseable, BeforeUpTo, Before,
      SamePool, FirstSplit, OwnsSetOf;
    SaleEffect(r, s, p, b);
    SaleRaises(r, s, p, b);
    SellKeeps(r, s, p, b);
    var s' := SellBuilding(r, s, p, b).value;
    SaleFacts(r, s, s', p, x, b);
    BeforeUpdate(r, s, s', p, x, b, |s.props|);
  }

  lemma SameOwners(r: Rules, s: State, s': State, p: nat, k: nat)
    requires Shape(r, s) && Shape(r, s') && forall j :: 0 <= j < |s.props| ==> s'.props[j].owner == s.props[j].owner
    ensures OwnsSetOf(r, s', p, k) <==> OwnsSetOf(r, s, p, k)
  {
    hide ValidRules;
    if OwnsSetOf(r, s', p, k) {
      forall j | 0 <= j < |r.tiles| && r.SameSet(j, k)
        ensures s.props[j].OwnedBy(p)
      {
        assert s'.props[j].OwnedBy(p);
      }
    }
    if OwnsSetOf(r, s, p, k) {
      forall j | 0 <= j < |r.tiles| && r.SameSet(j, k)
        ensures s'.props[j].OwnedBy(p)
      {
        assert s.props[j].OwnedBy(p);
      }
    }
  }

  lemma SaleFacts(r: Rules, s: State, s': State, p: nat, x: nat, b: nat)
    requires InDebt(r, s, p) && Shape(r, s) && Shape(r, s') && FirstSplit(r, s, p, x) && BuildingToSell(s.props, p, |s.props|) == Some(b)
    requires r.IsProperty(b) && s.props[b].OwnedBy(p) && s.props[b].Built() && OwnsSetOf(r, s, p, b)
    requires s'.props == s.props[b := SoldTile(s.props[b])]
    ensures x < |s.props| && FirstSplit(r, s', p, x)
    ensures forall k :: 0 <= k < |s.props| && k != b ==> Before(r, s', p, x, k) == Before(r, s, p, x, k)
    ensures Before(r, s', p, x, b) == Before(r, s, p, x, b) - r.tiles[b].houseCost / 2
  {
    hide PlayersOk, PropsOk, Discipline, CardsOk, ValidRules, BuildingToSell, OwnsSetOf, PhaseOk, TurnOk, AuctionOk, TradeOk;
    assert b != x;
    PickedFirst(r, s, p, b, x);
    PropertyAt(r, s, b);
    forall k: nat | k < |s.props|
      ensures OwnsSetOf(r, s', p, k) <==> OwnsSetOf(r, s, p, k)
    {
      SameOwners(r, s, s', p, k);
    }
    forall k: nat | k < |s.props|
      ensures SplitBuilding(r, s', p, k) <==> SplitBuilding(r, s, p, k)
    {
      assert OwnsSetOf(r, s', p, k) <==> OwnsSetOf(r, s, p, k);
    }
    assert SoldTile(s.props[b]).Level() == s.props[b].Level() - 1;
    OneLevelLess(s.props[b].Level() - LevelLeft(s.props, x, b), r.tiles[b].houseCost / 2);
  }

  lemma OneLevelLess(a: int, c: nat)
    ensures (a - 1) * c == a * c - c
  {}

  /** When the split building comes up, everything counted before it has been sold. */
  lemma SplitComesUp(r: Rules, s: State, p: nat, x: nat, b: nat)
    requires InDebt(r, s, p) && Shape(r, s) && s.HasPlayer(p) && FirstSplit(r, s, p, x)
    requires BuildingToSell(s.props, p, |s.props|) == Some(b) && !OwnsSetOf(r, s, p, b)
    ensures Reach(r, s, p, x) == s.players[p].cash
  {
    hide PlayersOk, PropsOk, Discipline, CardsOk, ValidRules, BuildingToSell, OwnsSetOf, PhaseOk, TurnOk, AuctionOk, TradeOk, BeforeUpTo;
    TallestIsTallest(s.props, p, b);
    assert SplitBuilding(r, s, p, b);
    if b != x {
      PickedFirst(r, s, p, b, x);
    }
    PropertyAt(r, s, x);
    forall k | 0 <= k < |s.props|
      ensures Before(r, s, p, x, k) == 0
    {
      PropertyAt(r, s, k);
      if HasBuilding(s.props, p, k) && k != x {
        PickedFirst(r, s, p, x, k);
      }
    }
    NothingBefore(r, s, p, x, |s.props|);
  }

  lemma {:induction false} RaiseWithSplit(r: Rules, s: State, p: nat, x: nat)
    requires InDebt(r, s, p) && Shape(r, s) && LevelsOk(r, s.props) && s.HasPlayer(p) && FirstSplit(r, s, p, x)
    ensures RaiseCash(r, s, p).Ok? <==> s.debt.value.amount <= Reach(r, s, p, x)
    ensures RaiseCash(r, s, p).Ok? ==>
              var s' := RaiseCash(r, s, p).value;
              SamePool(r, s, s', p) && InDebt(r, s', p) && CanPayDebt(s', p)
    decreases Measure(r, s, p)
  {
    hide Inv, ValidRules, LevelsOk, SellBuilding, MortgageProperty, BuildingToSell, TileToMortgage, Raiseable, BeforeUpTo, SamePool,
      OwnsSetOf;
    BeforeNotNegative(r, s, p, x, |s.props|);
    if CanPayDebt(s, p) {
      SamePoolRefl(r, s, p);
    } else {
      BuildingFound(s.props, p, x);
      var b := BuildingToSell(s.props, p, |s.props|).value;
      TallestSells(r, s, p, b);
      if OwnsSetOf(r, s, p, b) {
        WholeGoesFirst(r, s, p, x, b);
        SellDecreases(r, s, p, b);
        var sold := SellBuilding(r, s, p, b).value;
        RaiseWithSplit(r, sold, p, x);
        if RaiseCash(r, sold, p).Ok? {
          PoolTrans(r, s, sold, RaiseCash(r, sold, p).value, p);
        }
      } else {
        SplitComesUp(r, s, p, x, b);
      }
    }
  }

  /**
   With a split building, resolution is decided by one number fixed in advance, whoever the creditor:
   the debt is paid in full without a tile changing hands if it is at most the cash and what the whole
   sets bring in before the first split building comes up for sale; otherwise resolution throws.
   */
  lemma SplitResolveExact(r: Rules, s: State, p: nat, x: nat)
    requires InDebt(r, s, p) && Shape(r, s) && LevelsOk(r, s.props) && s.HasPlayer(p) && FirstSplit(r, s, p, x)
    ensures var res := AutoResolveDebt(r, s, p);
            && (res.Ok? <==> s.debt.value.amount <= Reach(r, s, p, x))
            && (res.Ok? ==> DebtSettled(s, res.value, p, s.debt.value))
  {
    hide Inv, ValidRules, LevelsOk, RaiseCash, PayDebt, DeclareBankruptcy, Reach, SamePool, DebtSettled, FirstSplit;
    RaiseWithSplit(r, s, p, x);
    if RaiseCash(r, s, p).Ok? {
      SolventOutcome(r, s, RaiseCash(r, s, p).value, p);
    }
  }

  /** For every debt: whole sets are decided by what can be raised, split ones by what comes before the split. */
  lemma EveryDebtIsDecided(r: Rules, s: State, p: nat)
    requires InDebt(r, s, p) && Shape(r, s) && LevelsOk(r, s.props) && s.HasPlayer(p)
    ensures if OwnBuildingsWhole(r, s, p)
            then AutoResolveDebt(r, s, p).Ok?
                 <==> Raiseable(r, s, p) >= s.debt.value.amount || CreditorOk(s, p, s.debt.value.creditor)
            else exists x: nat :: x < |s.props| && FirstSplit(r, s, p, x)
                   && (AutoResolveDebt(r, s, p).Ok? <==> s.debt.value.amount <= Reach(r, s, p, x))
  {
    hide Inv, ValidRules, LevelsOk, AutoResolveDebt, Raiseable, OwnsSetOf, Reach, DebtSettled;
    if OwnBuildingsWhole(r, s, p) {
      AutoResolveExact(r, s, p);
    } else {
      var k :| 0 <= k < |s.props| && HasBuilding(s.props, p, k) && !OwnsSetOf(r, s, p, k);
      assert SplitBuilding(r, s, p, k);
      var x := FirstSplitExists(r, s, p, |s.props|);
      SplitResolveExact(r, s, p, x);
    }
  }
}
