/** Trades between two players (game-engine-trades.ts). */
module Trades {
  import opened Rules
  import opened State
  import opened Money
  import opened Landing

  predicate Common(left: seq<nat>, right: seq<nat>) {
    exists i :: 0 <= i < |left| && left[i] in right
  }

  function OwnershipError(r: Rules, s: State, keys: seq<nat>, owner: nat): (c: Option<ErrorCode>)
    requires Shape(r, s)
    ensures c.None? <==> forall i :: 0 <= i < |keys| ==> HasProperty(r, s, keys[i]) && s.props[keys[i]].OwnedBy(owner)
  {
    if |keys| == 0 then None
    else if !HasProperty(r, s, keys[0]) then Some(TileNotOwnable)
    else if !s.props[keys[0]].OwnedBy(owner) then Some(PropertyNotOwned)
    else
      var rest := OwnershipError(r, s, keys[1..], owner);
      assert rest.None? ==> forall i :: 1 <= i < |keys| ==> keys[i] == keys[1..][i - 1];
      assert forall i :: 0 <= i < |keys[1..]| ==> keys[1..][i] == keys[i + 1];
      rest
  }

  function ValidateTrade(r: Rules, s: State, t: Trade): (c: Option<ErrorCode>)
    requires Shape(r, s)
  {
    if !s.HasPlayer(t.from) || !s.HasPlayer(t.to) then Some(PlayerNotFound)
    else if s.players[t.from].bankrupt || s.players[t.to].bankrupt then Some(InvalidTrade)
    else if s.players[t.from].cash < t.offeredCash || s.players[t.to].cash < t.requestedCash then Some(InsufficientFunds)
    else if (t.offeredCash == 0 && |t.offered| == 0) || (t.requestedCash == 0 && |t.requested| == 0) then Some(InvalidTrade)
    else if Common(t.requested, t.offered) then Some(InvalidTrade)
    else if OwnershipError(r, s, t.offered, t.from).Some? then OwnershipError(r, s, t.offered, t.from)
    else OwnershipError(r, s, t.requested, t.to)
  }

  // ----- liquidating the buildings of the traded tiles

  function SaleValue(r: Rules, k: nat, q: PropertyState): (amount: int)
    requires k < |r.tiles|
  {
    if r.tiles[k].Property? then q.Level() * (r.tiles[k].houseCost / 2) else 0
  }

  function Cleared(q: PropertyState): (q': PropertyState) {
    q.(houses := 0, hotel := false)
  }

  /** One pass of the loop over the traded tiles of one player. */
  function LiquidateTile(r: Rules, s: State, p: nat, k: nat): (res: Result<State>)
    requires Shape(r, s)
    ensures res.Ok? ==> Shape(r, res.value)
  {
    if !HasProperty(r, s, k) then Err(TileNotOwnable)
    else if SaleValue(r, k, s.props[k]) <= 0 then Ok(s)
    else
      var credited :- Credit(s, p, SaleValue(r, k, s.props[k]));
      Ok(WithProperty(credited, k, Cleared(s.props[k])))
  }

  function LiquidateTiles(r: Rules, s: State, p: nat, keys: seq<nat>, n: nat): (res: Result<State>)
    requires Shape(r, s) && n <= |keys|
    ensures res.Ok? ==> Shape(r, res.value)
  {
    if n == 0 then Ok(s)
    else
      var before :- LiquidateTiles(r, s, p, keys, n - 1);
      LiquidateTile(r, before, p, keys[n - 1])
  }

  method LiquidateTradeBuildings(r: Rules, s: State, p: nat, keys: seq<nat>) returns (res: Result<State>)
    requires Shape(r, s)
    ensures res == LiquidateTiles(r, s, p, keys, |keys|)
  {
    hide LiquidateTile, ValidRules;
    var next := s;
    for i := 0 to |keys|
      invariant LiquidateTiles(r, s, p, keys, i) == Ok(next)
    {
      var tile := LiquidateTile(r, next, p, keys[i]);
      if tile.Err? {
        LiquidateStopsOnError(r, s, p, keys, i + 1);
        return tile;
      }
      next := tile.value;
    }
    return Ok(next);
  }

  lemma {:induction false} LiquidateStopsOnError(r: Rules, s: State, p: nat, keys: seq<nat>, n: nat)
    requires Shape(r, s) && n <= |keys| && LiquidateTiles(r, s, p, keys, n).Err?
    ensures LiquidateTiles(r, s, p, keys, |keys|) == LiquidateTiles(r, s, p, keys, n)
    decreases |keys| - n
  {
    if n < |keys| {
      LiquidateStopsOnError(r, s, p, keys, n + 1);
    }
  }

  function SaleValues(r: Rules, props: seq<PropertyState>, keys: seq<nat>, n: nat): (amount: int)
    requires n <= |keys| && |props| == |r.tiles|
    requires forall i :: 0 <= i < |keys| ==> keys[i] < |props|
  {
    if n == 0 then 0 else SaleValues(r, props, keys, n - 1) + SaleValue(r, keys[n - 1], props[keys[n - 1]])
  }

  function ClearedTiles(props: seq<PropertyState>, keys: seq<nat>, n: nat): (props': seq<PropertyState>)
    requires n <= |keys| && forall i :: 0 <= i < |keys| ==> keys[i] < |props|
    ensures |props'| == |props|
  {
    if n == 0 then props
    else
      var before := ClearedTiles(props, keys, n - 1);
      before[keys[n - 1] := Cleared(before[keys[n - 1]])]
  }

  lemma {:induction false} ClearedAt(props: seq<PropertyState>, keys: seq<nat>, n: nat, k: nat)
    requires n <= |keys| && k < |props| && forall i :: 0 <= i < |keys| ==> keys[i] < |props|
    ensures ClearedTiles(props, keys, n)[k] == if k in keys[..n] then Cleared(props[k]) else props[k]
  {
    if n > 0 {
      ClearedAt(props, keys, n - 1, k);
      assert keys[..n] == keys[..n - 1] + [keys[n - 1]];
    }
  }

  /** Buildings stand only on property tiles and levels are not negative. */
  predicate LevelsOk(r: Rules, props: seq<PropertyState>) {
    && |props| == |r.tiles|
    && forall k :: 0 <= k < |props| ==>
         0 <= props[k].houses && (props[k].Built() ==> r.tiles[k].Property?)
  }

  predicate KeysOk(r: Rules, props: seq<PropertyState>, keys: seq<nat>) {
    NoDuplicates(keys) && forall i :: 0 <= i < |keys| ==> r.Ownable(keys[i]) && keys[i] < |props|
  }

  lemma NoSaleMeansNoBuilding(r: Rules, props: seq<PropertyState>, k: nat)
    requires ValidRules(r) && LevelsOk(r, props) && k < |props|
    ensures SaleValue(r, k, props[k]) >= 0
    ensures SaleValue(r, k, props[k]) == 0 <==> Cleared(props[k]) == props[k]
  {
    assert ValidTile(r.tiles[k]);
    if r.tiles[k].Property? {
      var half := r.tiles[k].houseCost / 2;
      assert half >= 1;
      if props[k].Level() > 0 {
        assert props[k].Level() * half >= half;
      }
    }
  }

  /** The state after liquidating the first `n` tiles, in closed form. */
  function Liquidated(r: Rules, s: State, p: nat, keys: seq<nat>, n: nat): (s': State)
    requires s.HasPlayer(p) && n <= |keys| && |s.props| == |r.tiles|
    requires forall i :: 0 <= i < |keys| ==> keys[i] < |s.props|
  {
    WithCash(s, p, s.players[p].cash + SaleValues(r, s.props, keys, n)).(props := ClearedTiles(s.props, keys, n))
  }

  lemma CashTwice(s: State, p: nat, a: int, b: int)
    requires s.HasPlayer(p)
    ensures WithCash(WithCash(s, p, a), p, b) == WithCash(s, p, b)
    ensures WithCash(s, p, s.players[p].cash) == s
  {
    assert s.players[p := s.players[p]] == s.players;
  }

  lemma LiquidateTileIs(r: Rules, s: State, p: nat, cash: int, props: seq<PropertyState>, k: nat)
    requires ValidRules(r) && s.HasPlayer(p) && |props| == |r.tiles| && r.Ownable(k)
    requires SaleValue(r, k, props[k]) >= 0
    requires SaleValue(r, k, props[k]) == 0 ==> Cleared(props[k]) == props[k]
    ensures LiquidateTile(r, WithCash(s, p, cash).(props := props), p, k)
         == Ok(WithCash(s, p, cash + SaleValue(r, k, props[k])).(props := props[k := Cleared(props[k])]))
  {
    if SaleValue(r, k, props[k]) == 0 {
      assert props[k := props[k]] == props;
    } else {
      CashTwice(s, p, cash, cash + SaleValue(r, k, props[k]));
    }
  }

  lemma LiquidationStep(r: Rules, s: State, p: nat, keys: seq<nat>, n: nat)
    requires Shape(r, s) && s.HasPlayer(p) && 1 <= n <= |keys|
    requires LevelsOk(r, s.props) && KeysOk(r, s.props, keys)
    ensures LiquidateTile(r, Liquidated(r, s, p, keys, n - 1), p, keys[n - 1]) == Ok(Liquidated(r, s, p, keys, n))
  {
    var k := keys[n - 1];
    ClearedAt(s.props, keys, n - 1, k);
    NoSaleMeansNoBuilding(r, s.props, k);
    LiquidateTileIs(r, s, p, s.players[p].cash + SaleValues(r, s.props, keys, n - 1), ClearedTiles(s.props, keys, n - 1), k);
  }

  /** The loop credits the sale value of every traded tile and clears exactly those tiles. */
  lemma {:induction false} LiquidationOutcome(r: Rules, s: State, p: nat, keys: seq<nat>, n: nat)
    requires Shape(r, s) && s.HasPlayer(p) && n <= |keys|
    requires LevelsOk(r, s.props) && KeysOk(r, s.props, keys)
    ensures LiquidateTiles(r, s, p, keys, n) == Ok(Liquidated(r, s, p, keys, n))
    ensures SaleValues(r, s.props, keys, n) >= 0
  {
    if n == 0 {
      assert ClearedTiles(s.props, keys, 0) == s.props;
      CashTwice(s, p, 0, 0);
    } else {
      LiquidationOutcome(r, s, p, keys, n - 1);
      LiquidationStep(r, s, p, keys, n);
      NoSaleMeansNoBuilding(r, s.props, keys[n - 1]);
    }
  }

  // ----- accepting

  function TransferTiles(props: seq<PropertyState>, keys: seq<nat>, owner: nat): (props': seq<PropertyState>)
    ensures |props'| == |props|
  {
    seq(|props|, k requires 0 <= k < |props| => if k in keys then props[k].(owner := Some(owner)) else props[k])
  }

  function AcceptOffer(r: Rules, s: State, t: Trade): (res: Result<State>)
    requires Shape(r, s)
  {
    var c := ValidateTrade(r, s, t);
    if c.Some? then Err(c.value)
    else
      var sold1 :- LiquidateTiles(r, s, t.from, t.offered, |t.offered|);
      var sold2 :- LiquidateTiles(r, sold1, t.to, t.requested, |t.requested|);
      var paid1 :- if t.offeredCash > 0 then Transfer(sold2, t.from, t.to, t.offeredCash) else Ok(sold2);
      var paid2 :- if t.requestedCash > 0 then Transfer(paid1, t.to, t.from, t.requestedCash) else Ok(paid1);
      var props := TransferTiles(TransferTiles(paid2.props, t.offered, t.to), t.requested, t.from);
      Ok(paid2.(props := props, trade := None))
  }

  // ----- what a bot makes of an offer

  function SetCompletionWeight(d: Difficulty): (w: real) {
    match d
    case Easy => 0.0
    case Normal => 0.75
    case Hard => 1.75
  }

  function AcceptanceMargin(d: Difficulty): (m: real) {
    match d
    case Easy => 0.95
    case Normal => 1.1
    case Hard => 1.3
  }

  function TradeValue(r: Rules, s: State, cash: int, keys: seq<nat>): (value: int)
    requires Shape(r, s)
  {
    if |keys| == 0 then cash
    else
      TradeValue(r, s, cash, keys[1..])
      + if HasProperty(r, s, keys[0]) then r.tiles[keys[0]].price + SaleValue(r, keys[0], s.props[keys[0]]) else 0
  }

  predicate CompletesSet(r: Rules, s: State, p: nat, incoming: seq<nat>, outgoing: seq<nat>, k: nat)
    requires Shape(r, s)
  {
    && k < |r.tiles| && r.IsProperty(k)
    && (exists i :: 0 <= i < |incoming| && r.SameSet(incoming[i], k))
    && forall j :: 0 <= j < |r.tiles| && r.SameSet(j, k) ==>
         j !in outgoing && (j in incoming || s.props[j].OwnedBy(p))
  }

  function CompletionValue(r: Rules, s: State, p: nat, incoming: seq<nat>, outgoing: seq<nat>, n: nat): (value: int)
    requires Shape(r, s) && n <= |r.tiles|
  {
    if n == 0 then 0
    else CompletionValue(r, s, p, incoming, outgoing, n - 1)
         + if CompletesSet(r, s, p, incoming, outgoing, n - 1) then r.tiles[n - 1].price else 0
  }

  predicate Completed(r: Rules, s: State, p: nat, incoming: seq<nat>, outgoing: seq<nat>, setKey: nat)
    requires Shape(r, s)
  {
    forall j :: 0 <= j < |r.tiles| && r.IsProperty(j) && r.tiles[j].setKey == setKey ==>
      j !in outgoing && (j in incoming || s.props[j].OwnedBy(p))
  }

  /** The loop of the program: the sets the incoming tiles complete, then the prices of their tiles. */
  method SetCompletionValue(r: Rules, s: State, p: nat, incoming: seq<nat>, outgoing: seq<nat>) returns (value: int)
    requires Shape(r, s)
    ensures value == CompletionValue(r, s, p, incoming, outgoing, |r.tiles|)
  {
    var completed: set<nat> := {};
    for n := 0 to |incoming|
      invariant forall key :: key in completed <==>
                  Completed(r, s, p, incoming, outgoing, key)
                  && exists i :: 0 <= i < n && r.IsProperty(incoming[i]) && r.tiles[incoming[i]].setKey == key
    {
      var k := incoming[n];
      if r.IsProperty(k) && r.tiles[k].setKey !in completed && Completed(r, s, p, incoming, outgoing, r.tiles[k].setKey) {
        completed := completed + {r.tiles[k].setKey};
      }
    }
    value := 0;
    for n := 0 to |r.tiles|
      invariant value == CompletionValue(r, s, p, incoming, outgoing, n)
    {
      CompletedMeansSet(r, s, p, incoming, outgoing, n);
      if r.tiles[n].Property? && r.tiles[n].setKey in completed {
        value := value + r.tiles[n].price;
      }
    }
  }

  lemma CompletedMeansSet(r: Rules, s: State, p: nat, incoming: seq<nat>, outgoing: seq<nat>, k: nat)
    requires Shape(r, s) && k < |r.tiles|
    ensures CompletesSet(r, s, p, incoming, outgoing, k)
       <==> && r.IsProperty(k) && Completed(r, s, p, incoming, outgoing, r.tiles[k].setKey)
            && exists i :: 0 <= i < |incoming| && r.IsProperty(incoming[i]) && r.tiles[incoming[i]].setKey == r.tiles[k].setKey
  {
    if r.IsProperty(k) && Completed(r, s, p, incoming, outgoing, r.tiles[k].setKey) {
      assert forall j :: 0 <= j < |r.tiles| && r.SameSet(j, k) ==> r.IsProperty(j) && r.tiles[j].setKey == r.tiles[k].setKey;
    }
    if CompletesSet(r, s, p, incoming, outgoing, k) {
      assert forall j :: 0 <= j < |r.tiles| && r.IsProperty(j) && r.tiles[j].setKey == r.tiles[k].setKey ==> r.SameSet(j, k);
    }
  }

  predicate BotAccepts(r: Rules, s: State, t: Trade)
    requires Shape(r, s) && s.HasPlayer(t.to)
  {
    var difficulty := s.players[t.to].difficulty;
    var weight := SetCompletionWeight(difficulty);
    var receives := TradeValue(r, s, t.offeredCash, t.offered) as real
                    + CompletionValue(r, s, t.to, t.offered, t.requested, |r.tiles|) as real * weight;
    var gives := TradeValue(r, s, t.requestedCash, t.requested) as real
                 + CompletionValue(r, s, t.from, t.requested, t.offered, |r.tiles|) as real * weight;
    receives >= gives * AcceptanceMargin(difficulty)
  }

  // ----- the four trade intents

  function AssertCanTrade(s: State, p: nat): (c: Option<ErrorCode>) {
    if s.Over() then Some(GameNotActive)
    else if s.phase !in {AwaitingFirstTurn, AwaitingRoll, AwaitingDecision, AwaitingTurnEnd} then Some(TradeNotAllowed)
    else if s.debt.Some? then Some(DebtResolutionRequired)
    else if !s.HasPlayer(p) then Some(PlayerNotFound)
    else if s.players[p].bankrupt then Some(InvalidTrade)
    else None
  }

  function MarkBotProposal(s: State, p: nat): (s': State)
    requires s.HasPlayer(p)
  {
    if s.players[p].playerType == Bot then WithPlayer(s, p, s.players[p].(lastTradeTurn := Some(s.turn))) else s
  }

  function ProposeTrade(r: Rules, s: State, t: Trade): (res: Result<State>)
    requires Shape(r, s)
  {
    var c := AssertCanTrade(s, t.from);
    if c.Some? then Err(c.value)
    else if t.from == t.to then Err(InvalidTrade)
    else if s.trade.Some? then Err(TradeNotAllowed)
    else if t.offeredCash < 0 || t.requestedCash < 0 || !NoDuplicates(t.offered) || !NoDuplicates(t.requested)
    then Err(InvalidTrade)
    else
      var v := ValidateTrade(r, s, t);
      if v.Some? then Err(v.value)
      else
        var marked := MarkBotProposal(s, t.from);
        if s.players[t.to].playerType == Bot then
          if BotAccepts(r, marked, t) then AcceptOffer(r, marked, t) else Ok(marked.(trade := None))
        else Ok(marked.(trade := Some(t)))
  }

  function AssertOffer(s: State, id: int): (c: Option<ErrorCode>) {
    if s.trade.None? || s.trade.value.id != id then Some(TradeNotFound) else None
  }

  function AcceptTrade(r: Rules, s: State, p: nat, id: int): (res: Result<State>)
    requires Shape(r, s)
  {
    if AssertOffer(s, id).Some? then Err(TradeNotFound)
    else if s.trade.value.to != p then Err(TradeNotAllowed)
    else AcceptOffer(r, s, s.trade.value)
  }

  function RejectTrade(s: State, p: nat, id: int): (res: Result<State>) {
    if AssertOffer(s, id).Some? then Err(TradeNotFound)
    else if s.trade.value.to != p then Err(TradeNotAllowed)
    else Ok(s.(trade := None))
  }

  function CancelTrade(s: State, p: nat, id: int): (res: Result<State>) {
    if AssertOffer(s, id).Some? then Err(TradeNotFound)
    else if s.trade.value.from != p then Err(TradeNotAllowed)
    else Ok(s.(trade := None))
  }
}
