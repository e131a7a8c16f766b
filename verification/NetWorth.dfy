/** Net worth (game-engine-derived-state.ts) and the operations that leave it alone. */
module NetWorth {
  import opened Rules
  import opened State
  import opened CardDecks
  import opened Landing
  import opened Properties
  import opened Trades
  import opened AutoDebt
  import opened Invariant
  import opened Preservation
  import opened TradeProof
  import opened Solvency

  function AssetWorth(r: Rules, k: nat, q: PropertyState): (worth: int)
    requires r.Ownable(k)
  {
    r.tiles[k].price + SaleValue(r, k, q) - if q.mortgaged then r.tiles[k].mortgageValue else 0
  }

  /** What tile `k` adds to the net worth of `p`. */
  function Share(r: Rules, props: seq<PropertyState>, p: nat, k: nat): (worth: int)
    requires |props| == |r.tiles| && k < |props|
  {
    if props[k].OwnedBy(p) && r.Ownable(k) then AssetWorth(r, k, props[k]) else 0
  }

  function SharesUpTo(r: Rules, props: seq<PropertyState>, p: nat, n: nat): (worth: int)
    requires |props| == |r.tiles| && n <= |props|
  {
    if n == 0 then 0 else SharesUpTo(r, props, p, n - 1) + Share(r, props, p, n - 1)
  }

  function PlayerNetWorth(r: Rules, s: State, p: nat): (worth: int)
    requires |s.props| == |r.tiles| && s.HasPlayer(p)
  {
    s.players[p].cash + SharesUpTo(r, s.props, p, |s.props|)
  }

  lemma {:induction false} ShareUpdate(r: Rules, props: seq<PropertyState>, p: nat, k: nat, q: PropertyState, n: nat)
    requires |props| == |r.tiles| && k < |props| && n <= |props|
    ensures SharesUpTo(r, props[k := q], p, n)
         == SharesUpTo(r, props, p, n) + if k < n then Share(r, props[k := q], p, k) - Share(r, props, p, k) else 0
  {
    hide AssetWorth;
    if n > 0 {
      ShareUpdate(r, props, p, k, q, n - 1);
    }
  }

  predicate SameNetWorths(r: Rules, s: State, s': State)
    requires |s.props| == |r.tiles|
  {
    && |s'.props| == |s.props| && |s'.players| == |s.players|
    && forall i: nat :: i < |s.players| ==> PlayerNetWorth(r, s', i) == PlayerNetWorth(r, s, i)
  }

  /** Cash of `p` and one tile change by opposite amounts. */
  lemma NeutralExchange(r: Rules, s: State, p: nat, cash: int, k: nat, q: PropertyState)
    requires |s.props| == |r.tiles| && s.HasPlayer(p) && k < |s.props|
    requires forall i: nat :: i < |s.players| && i != p ==> Share(r, s.props[k := q], i, k) == Share(r, s.props, i, k)
    requires cash - s.players[p].cash == Share(r, s.props, p, k) - Share(r, s.props[k := q], p, k)
    ensures SameNetWorths(r, s, WithProperty(WithCash(s, p, cash), k, q))
  {
    hide Share;
    var s' := WithProperty(WithCash(s, p, cash), k, q);
    forall i: nat | i < |s.players|
      ensures PlayerNetWorth(r, s', i) == PlayerNetWorth(r, s, i)
    {
      ShareUpdate(r, s.props, i, k, q, |s.props|);
    }
  }

  /** Buying at the list price leaves everybody's net worth as it was. */
  lemma BuyIsNeutral(r: Rules, s: State, p: nat)
    requires Core(r, s) && BuyProperty(r, s, p).Ok?
    ensures SameNetWorths(r, s, BuyProperty(r, s, p).value)
  {
    hide PlayersOk, PropsOk, Discipline, CardsOk, ValidRules;
    var k := s.pending.value;
    PropertyAt(r, s, k);
    NeutralExchange(r, s, p, s.players[p].cash - r.tiles[k].price, k, s.props[k].(owner := Some(p)));
  }

  lemma SaleIsNeutral(r: Rules, s: State, p: nat, k: nat)
    requires Core(r, s) && SellBuilding(r, s, p, k).Ok?
    ensures SameNetWorths(r, s, SellBuilding(r, s, p, k).value)
  {
    hide PlayersOk, PropsOk, Discipline, CardsOk, SellBuilding;
    CoreShape(r, s);
    SaleEffect(r, s, p, k);
    PropertyAt(r, s, k);
    assert ValidTile(r.tiles[k]);
    var q, half := SoldTile(s.props[k]), r.tiles[k].houseCost / 2;
    assert q.Level() == s.props[k].Level() - 1;
    assert q.Level() * half == s.props[k].Level() * half - half;
    NeutralExchange(r, s, p, s.players[p].cash + half, k, q);
  }

  lemma MortgageIsNeutral(r: Rules, s: State, p: nat, k: nat)
    requires Core(r, s) && MortgageProperty(r, s, p, k).Ok?
    ensures SameNetWorths(r, s, MortgageProperty(r, s, p, k).value)
  {
    hide PlayersOk, PropsOk, Discipline, CardsOk, ValidRules;
    NeutralExchange(r, s, p, s.players[p].cash + r.tiles[k].mortgageValue, k, s.props[k].(mortgaged := true));
  }

  // ----- raising cash and settling a debt

  lemma NetWorthsTrans(r: Rules, a: State, b: State, c: State)
    requires |a.props| == |r.tiles| && SameNetWorths(r, a, b) && SameNetWorths(r, b, c)
    ensures SameNetWorths(r, a, c)
  {
    hide PlayerNetWorth;
    forall i: nat | i < |a.players|
      ensures PlayerNetWorth(r, c, i) == PlayerNetWorth(r, a, i)
    {
      assert PlayerNetWorth(r, b, i) == PlayerNetWorth(r, a, i);
    }
  }

  /** However the loop raises cash, nobody's net worth moves. */
  lemma {:induction false} RaisingIsNeutral(r: Rules, s: State, p: nat)
    requires Inv(r, s) && Shape(r, s) && LevelsOk(r, s.props) && RaiseCash(r, s, p).Ok?
    ensures SameNetWorths(r, s, RaiseCash(r, s, p).value)
    decreases Measure(r, s, p)
  {
    hide Inv, ValidRules, LevelsOk, SellBuilding, MortgageProperty, BuildingToSell, TileToMortgage, PlayerNetWorth;
    if !CanPayDebt(s, p) {
      InvCore(r, s);
      var building := BuildingToSell(s.props, p, |s.props|);
      if building.Some? {
        var s1 := SellBuilding(r, s, p, building.value).value;
        SellKeeps(r, s, p, building.value);
        SellDecreases(r, s, p, building.value);
        SaleIsNeutral(r, s, p, building.value);
        RaisingIsNeutral(r, s1, p);
        NetWorthsTrans(r, s, s1, RaiseCash(r, s1, p).value);
      } else {
        var tile := TileToMortgage(r, s, p, 0);
        if tile.Some? {
          var s1 := MortgageProperty(r, s, p, tile.value).value;
          MortgageKeeps(r, s, p, tile.value);
          MortgageDecreases(r, s, p, tile.value);
          MortgageIsNeutral(r, s, p, tile.value);
          RaisingIsNeutral(r, s1, p);
          NetWorthsTrans(r, s, s1, RaiseCash(r, s1, p).value);
        }
      }
    }
  }

  /** What settling a debt does to net worths. */
  predicate WorthMoved(r: Rules, s: State, s': State, debt: Debt)
    requires |s.props| == |r.tiles|
  {
    && |s'.props| == |s.props| && |s'.players| == |s.players| && s.HasPlayer(debt.player)
    && forall i: nat :: i < |s.players| ==>
         PlayerNetWorth(r, s', i)
         == PlayerNetWorth(r, s, i)
            + (if debt.creditor == Some(i) then debt.amount else 0) - (if i == debt.player then debt.amount else 0)
  }

  lemma PaymentMovesWorth(r: Rules, s: State, p: nat)
    requires InDebt(r, s, p) && |s.props| == |r.tiles| && CanPayDebt(s, p)
    ensures PayDebt(s, p).Ok? && WorthMoved(r, s, PayDebt(s, p).value, s.debt.value)
  {
    hide Inv, PayDebt;
    PayDebtOutcome(r, s, p);
    DebtorHere(r, s, p);
    CreditorIsOther(r, s, p);
    var s' := PayDebt(s, p).value;
  }

  lemma CreditorIsOther(r: Rules, s: State, p: nat)
    requires InDebt(r, s, p)
    ensures s.debt.value.creditor != Some(p)
  {}

  /**
   Resolving a debt the debtor can raise costs the debtor exactly the debt in net worth, gives the
   creditor exactly that much, and leaves everybody else's net worth alone.
   */
  lemma SolventResolutionMovesWorth(r: Rules, s: State, p: nat)
    requires InDebt(r, s, p) && Shape(r, s) && LevelsOk(r, s.props) && s.HasPlayer(p) && OwnBuildingsWhole(r, s, p)
    requires Raiseable(r, s, p) >= s.debt.value.amount
    ensures AutoResolveDebt(r, s, p).Ok? && WorthMoved(r, s, AutoResolveDebt(r, s, p).value, s.debt.value)
  {
    hide Inv, ValidRules, LevelsOk, OwnBuildingsWhole, RaiseCash, PayDebt, DeclareBankruptcy, Raiseable, SamePool, PlayerNetWorth;
    RaiseOutcome(r, s, p);
    var raised := RaiseCash(r, s, p).value;
    PoolFacts(r, s, raised, p);
    DebtorHere(r, raised, p);
    RaisedCovers(r, raised, p);
    RaisingIsNeutral(r, s, p);
    PaymentMovesWorth(r, raised, p);
    var s' := PayDebt(raised, p).value;
    forall i: nat | i < |s.players|
      ensures PlayerNetWorth(r, s', i)
           == PlayerNetWorth(r, s, i) + (if s.debt.value.creditor == Some(i) then s.debt.value.amount else 0)
              - (if i == p then s.debt.value.amount else 0)
    {
      assert PlayerNetWorth(r, raised, i) == PlayerNetWorth(r, s, i);
    }
  }

  // ----- trades

  /** Sale values of the tiles below `n` that are in `keys`. */
  function SalesIn(r: Rules, props: seq<PropertyState>, keys: seq<nat>, n: nat): (amount: int)
    requires |props| == |r.tiles| && n <= |props|
  {
    if n == 0 then 0
    else SalesIn(r, props, keys, n - 1) + if n - 1 in keys then SaleValue(r, n - 1, props[n - 1]) else 0
  }

  lemma {:induction false} SalesInAppend(r: Rules, props: seq<PropertyState>, keys: seq<nat>, k: nat, n: nat)
    requires |props| == |r.tiles| && n <= |props| && k !in keys && k < |props|
    ensures SalesIn(r, props, keys + [k], n) == SalesIn(r, props, keys, n) + if k < n then SaleValue(r, k, props[k]) else 0
  {
    hide SaleValue;
    if n > 0 {
      SalesInAppend(r, props, keys, k, n - 1);
    }
  }

  /** Summing over a list of distinct tiles is summing over the board. */
  lemma {:induction false} SalesByTile(r: Rules, props: seq<PropertyState>, keys: seq<nat>, n: nat)
    requires |props| == |r.tiles| && n <= |keys| && NoDuplicates(keys) && KeysInRange(props, keys)
    ensures SaleValues(r, props, keys, n) == SalesIn(r, props, keys[..n], |props|)
  {
    hide SaleValue;
    if n == 0 {
      NoSales(r, props, |props|);
      assert keys[..0] == [];
    } else {
      SalesByTile(r, props, keys, n - 1);
      assert keys[n - 1] !in keys[..n - 1];
      SalesInAppend(r, props, keys[..n - 1], keys[n - 1], |props|);
      assert keys[..n] == keys[..n - 1] + [keys[n - 1]];
    }
  }

  lemma {:induction false} NoSales(r: Rules, props: seq<PropertyState>, n: nat)
    requires |props| == |r.tiles| && n <= |props|
    ensures SalesIn(r, props, [], n) == 0
  {
    if n > 0 {
      NoSales(r, props, n - 1);
    }
  }

  /** A traded tile keeps its worth, less the buildings sold, between the two parties. */
  lemma TradedShares(r: Rules, s: State, props': seq<PropertyState>, t: Trade, k: nat)
    requires |s.props| == |r.tiles| == |props'| && k < |props'| && t.from != t.to
    requires props'[k] == TradedTile(s.props[k], t, k)
    requires k in t.offered ==> s.props[k].OwnedBy(t.from) && r.Ownable(k) && k !in t.requested
    requires k in t.requested ==> s.props[k].OwnedBy(t.to) && r.Ownable(k)
    ensures Share(r, props', t.from, k) + Share(r, props', t.to, k)
         == Share(r, s.props, t.from, k) + Share(r, s.props, t.to, k)
            - (if k in t.offered then SaleValue(r, k, s.props[k]) else 0)
            - (if k in t.requested then SaleValue(r, k, s.props[k]) else 0)
    ensures forall i: nat :: i != t.from && i != t.to ==> Share(r, props', i, k) == Share(r, s.props, i, k)
  {
    if r.tiles[k].Property? {
      assert Cleared(s.props[k]).Level() * (r.tiles[k].houseCost / 2) == 0;
    }
  }

  lemma {:induction false} TradedSums(r: Rules, s: State, props': seq<PropertyState>, t: Trade, i: nat, n: nat)
    requires |s.props| == |r.tiles| == |props'| && n <= |props'| && t.from != t.to && i != t.from && i != t.to
    requires forall k :: 0 <= k < |props'| ==> props'[k] == TradedTile(s.props[k], t, k)
    requires forall k: nat :: k in t.offered ==> k < |props'| && s.props[k].OwnedBy(t.from) && r.Ownable(k) && k !in t.requested
    requires forall k: nat :: k in t.requested ==> k < |props'| && s.props[k].OwnedBy(t.to) && r.Ownable(k)
    ensures SharesUpTo(r, props', t.from, n) + SharesUpTo(r, props', t.to, n)
         == SharesUpTo(r, s.props, t.from, n) + SharesUpTo(r, s.props, t.to, n)
            - SalesIn(r, s.props, t.offered, n) - SalesIn(r, s.props, t.requested, n)
    ensures SharesUpTo(r, props', i, n) == SharesUpTo(r, s.props, i, n)
  {
    hide Share, SaleValue;
    if n > 0 {
      TradedSums(r, s, props', t, i, n - 1);
      TradedShares(r, s, props', t, n - 1);
    }
  }

  lemma TradeTotals(r: Rules, s: State, t: Trade, i: nat)
    requires Tradeable(r, s, t) && i != t.from && i != t.to
    ensures var s' := AcceptOffer(r, s, t);
            && s'.Ok? && |s'.value.props| == |r.tiles| == |s.props| && |s'.value.players| == |s.players|
            && s.HasPlayer(t.from) && s.HasPlayer(t.to)
            && PlayerNetWorth(r, s'.value, t.from) + PlayerNetWorth(r, s'.value, t.to)
               == PlayerNetWorth(r, s, t.from) + PlayerNetWorth(r, s, t.to)
            && (s.HasPlayer(i) ==> PlayerNetWorth(r, s'.value, i) == PlayerNetWorth(r, s, i))
  {
    hide ValidRules, LevelsOk, AcceptOffer, Share, NoDuplicates, ValidateTrade, SaleValue;
    AcceptOutcome(r, s, t);
    TradeableKeys(r, s, t);
    var s' := AcceptOffer(r, s, t).value;
    assert t.offered[..|t.offered|] == t.offered && t.requested[..|t.requested|] == t.requested;
    SalesByTile(r, s.props, t.offered, |t.offered|);
    SalesByTile(r, s.props, t.requested, |t.requested|);
    TradedSums(r, s, s'.props, t, i, |s.props|);
  }

  /**
   An offer that validates is carried out without an error, keeps the combined net worth of the
   two parties exactly, and touches nobody else's.
   */
  lemma TradePreservesNetWorth(r: Rules, s: State, t: Trade)
    requires Tradeable(r, s, t)
    ensures AcceptOffer(r, s, t).Ok?
    ensures var s' := AcceptOffer(r, s, t).value;
            && |s'.props| == |r.tiles| == |s.props| && |s'.players| == |s.players|
            && s.HasPlayer(t.from) && s.HasPlayer(t.to)
            && PlayerNetWorth(r, s', t.from) + PlayerNetWorth(r, s', t.to)
               == PlayerNetWorth(r, s, t.from) + PlayerNetWorth(r, s, t.to)
            && (forall i: nat :: i < |s.players| && i != t.from && i != t.to ==>
                  PlayerNetWorth(r, s', i) == PlayerNetWorth(r, s, i))
  {
    hide ValidRules, LevelsOk, AcceptOffer, NoDuplicates, ValidateTrade, PlayerNetWorth;
    TradeTotals(r, s, t, t.from + t.to + 1);
    forall i: nat | i < |s.players| && i != t.from && i != t.to
      ensures PlayerNetWorth(r, AcceptOffer(r, s, t).value, i) == PlayerNetWorth(r, s, i)
    {
      TradeTotals(r, s, t, i);
    }
  }
}
