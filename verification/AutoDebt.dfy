/**
 Automatic debt resolution (game-engine-auto-debt.ts): sell the tallest building, then mortgage
 the first free tile, until the debt can be paid or nothing is left.
 */
module AutoDebt {
  import opened Rules
  import opened State
  import opened Landing
  import opened Properties
  import opened Trades

  // ----- what the loop picks

  predicate Taller(a: PropertyState, b: PropertyState) {
    (a.hotel && !b.hotel) || (a.hotel == b.hotel && a.houses > b.houses)
  }

  predicate HasBuilding(props: seq<PropertyState>, p: nat, k: nat) {
    k < |props| && props[k].OwnedBy(p) && props[k].Built()
  }

  /** The first of the tallest buildings of `p`: the head of a stable sort. */
  function BuildingToSell(props: seq<PropertyState>, p: nat, n: nat): (k: Option<nat>)
    requires n <= |props|
    ensures k.None? ==> forall j :: 0 <= j < n ==> !HasBuilding(props, p, j)
    ensures k.Some? ==> HasBuilding(props, p, k.value)
    ensures k.Some? ==> forall j :: 0 <= j < n && HasBuilding(props, p, j) ==> !Taller(props[j], props[k.value])
  {
    if n == 0 then None
    else
      var best := BuildingToSell(props, p, n - 1);
      if !HasBuilding(props, p, n - 1) then best
      else if best.None? || Taller(props[n - 1], props[best.value]) then Some(n - 1)
      else best
  }

  predicate CanMortgage(r: Rules, s: State, p: nat, k: nat)
    requires Shape(r, s)
  {
    && r.Ownable(k) && s.props[k].OwnedBy(p) && !s.props[k].mortgaged && !s.props[k].Built()
    && (r.IsProperty(k) ==> !SetHasBuilding(r, s, k))
  }

  function TileToMortgage(r: Rules, s: State, p: nat, from: nat): (k: Option<nat>)
    requires Shape(r, s) && from <= |s.props|
    ensures k.Some? ==> from <= k.value < |s.props| && CanMortgage(r, s, p, k.value)
    ensures k.Some? ==> forall j :: from <= j < k.value ==> !CanMortgage(r, s, p, j)
    ensures k.None? ==> forall j :: from <= j < |s.props| ==> !CanMortgage(r, s, p, j)
    decreases |s.props| - from
  {
    if from == |s.props| then None
    else if CanMortgage(r, s, p, from) then Some(from)
    else TileToMortgage(r, s, p, from + 1)
  }

  // ----- termination

  function TileAssets(q: PropertyState, p: nat): (n: int) {
    if q.OwnedBy(p) then q.Level() + (if q.mortgaged then 0 else 1) else 0
  }

  function AssetsLeft(props: seq<PropertyState>, p: nat, n: nat): (sum: int)
    requires n <= |props|
  {
    if n == 0 then 0 else AssetsLeft(props, p, n - 1) + TileAssets(props[n - 1], p)
  }

  lemma {:induction false} AssetsUpdate(props: seq<PropertyState>, p: nat, k: nat, q: PropertyState, n: nat)
    requires k < |props| && n <= |props|
    ensures AssetsLeft(props[k := q], p, n)
         == AssetsLeft(props, p, n) + if k < n then TileAssets(q, p) - TileAssets(props[k], p) else 0
  {
    if n > 0 {
      AssetsUpdate(props, p, k, q, n - 1);
    }
  }

  lemma {:induction false} AssetsNonNegative(r: Rules, props: seq<PropertyState>, p: nat, n: nat)
    requires LevelsOk(r, props) && n <= |props|
    ensures AssetsLeft(props, p, n) >= 0
  {
    if n > 0 {
      AssetsNonNegative(r, props, p, n - 1);
    }
  }

  function Measure(r: Rules, s: State, p: nat): (m: nat)
    requires LevelsOk(r, s.props)
  {
    AssetsNonNegative(r, s.props, p, |s.props|);
    AssetsLeft(s.props, p, |s.props|)
  }

  function SoldTile(q: PropertyState): (q': PropertyState) {
    if q.hotel then q.(houses := 4, hotel := false) else q.(houses := q.houses - 1)
  }

  /** A sale is one level of one tile for half the house cost; everything else stays. */
  lemma SaleEffect(r: Rules, s: State, p: nat, k: nat)
    requires Shape(r, s) && LevelsOk(r, s.props) && SellBuilding(r, s, p, k).Ok?
    ensures s.HasPlayer(p) && r.IsProperty(k)
    ensures OwnsSetOf(r, s, p, k) && s.props[k].OwnedBy(p) && s.props[k].Built()
    ensures SellBuilding(r, s, p, k).value
         == WithCash(s, p, s.players[p].cash + r.tiles[k].houseCost / 2).(props := s.props[k := SoldTile(s.props[k])])
    ensures LevelsOk(r, SellBuilding(r, s, p, k).value.props)
  {
    assert r.SameSet(k, k);
  }

  lemma SellDecreases(r: Rules, s: State, p: nat, k: nat)
    requires Shape(r, s) && LevelsOk(r, s.props) && SellBuilding(r, s, p, k).Ok?
    ensures var s' := SellBuilding(r, s, p, k).value;
            Shape(r, s') && LevelsOk(r, s'.props) && Measure(r, s', p) < Measure(r, s, p)
  {
    SaleEffect(r, s, p, k);
    var s' := SellBuilding(r, s, p, k).value;
    AssetsUpdate(s.props, p, k, s'.props[k], |s.props|);
  }

  lemma MortgageDecreases(r: Rules, s: State, p: nat, k: nat)
    requires Shape(r, s) && LevelsOk(r, s.props) && MortgageProperty(r, s, p, k).Ok?
    ensures var s' := MortgageProperty(r, s, p, k).value;
            Shape(r, s') && LevelsOk(r, s'.props) && Measure(r, s', p) < Measure(r, s, p)
  {
    var s' := MortgageProperty(r, s, p, k).value;
    AssetsUpdate(s.props, p, k, s'.props[k], |s.props|);
  }

  // ----- the loop

  predicate CanPayDebt(s: State, p: nat) {
    s.HasPlayer(p) && s.debt.Some? && s.players[p].cash >= s.debt.value.amount
  }

  function RaiseCash(r: Rules, s: State, p: nat): (res: Result<State>)
    requires Shape(r, s) && LevelsOk(r, s.props)
    ensures res.Ok? ==> Shape(r, res.value) && LevelsOk(r, res.value.props)
    decreases Measure(r, s, p)
  {
    if CanPayDebt(s, p) then Ok(s)
    else
      var building := BuildingToSell(s.props, p, |s.props|);
      if building.Some? then
        var sold :- SellBuilding(r, s, p, building.value);
        SellDecreases(r, s, p, building.value);
        RaiseCash(r, sold, p)
      else
        var tile := TileToMortgage(r, s, p, 0);
        if tile.Some? then
          var mortgaged :- MortgageProperty(r, s, p, tile.value);
          MortgageDecreases(r, s, p, tile.value);
          RaiseCash(r, mortgaged, p)
        else Ok(s)
  }

  function AutoResolveDebt(r: Rules, s: State, p: nat): (res: Result<State>)
    requires Shape(r, s) && LevelsOk(r, s.props)
  {
    if s.phase != AwaitingDebt || s.debt.None? || s.debt.value.player != p then Err(DebtResolutionRequired)
    else if !s.HasPlayer(p) then Err(PlayerNotFound)
    else
      var raised :- RaiseCash(r, s, p);
      if CanPayDebt(raised, p) then PayDebt(raised, p)
      else DeclareBankruptcy(r, raised, p, if raised.debt.Some? then raised.debt.value.creditor else None)
  }

  /** The program's loop, with its early exits on a thrown error. */
  method ResolveDebtAutomatically(r: Rules, s: State, p: nat) returns (res: Result<State>)
    requires Shape(r, s) && LevelsOk(r, s.props)
    ensures res == AutoResolveDebt(r, s, p)
  {
    if s.phase != AwaitingDebt || s.debt.None? || s.debt.value.player != p {
      return Err(DebtResolutionRequired);
    }
    if !s.HasPlayer(p) {
      return Err(PlayerNotFound);
    }
    var next := s;
    while !CanPayDebt(next, p)
      invariant Shape(r, next) && LevelsOk(r, next.props)
      invariant RaiseCash(r, next, p) == RaiseCash(r, s, p)
      decreases Measure(r, next, p)
    {
      var building := BuildingToSell(next.props, p, |next.props|);
      if building.Some? {
        var sold := SellBuilding(r, next, p, building.value);
        if sold.Err? {
          return Err(sold.code);
        }
        SellDecreases(r, next, p, building.value);
        next := sold.value;
        continue;
      }
      var tile := TileToMortgage(r, next, p, 0);
      if tile.Some? {
        var mortgaged := MortgageProperty(r, next, p, tile.value);
        if mortgaged.Err? {
          return Err(mortgaged.code);
        }
        MortgageDecreases(r, next, p, tile.value);
        next := mortgaged.value;
        continue;
      }
      break;
    }
    if CanPayDebt(next, p) {
      return PayDebt(next, p);
    }
    return DeclareBankruptcy(r, next, p, if next.debt.Some? then next.debt.value.creditor else None);
  }
}
