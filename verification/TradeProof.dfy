/** What an accepted trade does, in closed form, and that it keeps the invariant. */
module TradeProof {
  import opened Rules
  import opened State
  import opened Money
  import opened CardDecks
  import opened Landing
  import opened AuctionRounds
  import opened Trades
  import opened Invariant
  import opened Preservation

  /** The state of a tile after the trade: traded tiles lose their buildings and change hands. */
  function TradedTile(q: PropertyState, t: Trade, k: nat): (q': PropertyState) {
    if k in t.requested then Cleared(q).(owner := Some(t.from))
    else if k in t.offered then Cleared(q).(owner := Some(t.to))
    else q
  }

  function TradedCash(r: Rules, s: State, t: Trade): (cash: (int, int))
    requires |s.props| == |r.tiles| && s.HasPlayer(t.from) && s.HasPlayer(t.to)
    requires KeysInRange(s.props, t.offered) && KeysInRange(s.props, t.requested)
  {
    var net := t.requestedCash - t.offeredCash;
    (s.players[t.from].cash + SaleValues(r, s.props, t.offered, |t.offered|) + net,
     s.players[t.to].cash + SaleValues(r, s.props, t.requested, |t.requested|) - net)
  }

  predicate Tradeable(r: Rules, s: State, t: Trade) {
    Shape(r, s) && LevelsOk(r, s.props) && OfferOk(t) && ValidateTrade(r, s, t).None?
  }

  lemma TradeableKeys(r: Rules, s: State, t: Trade)
    requires Tradeable(r, s, t)
    ensures s.HasPlayer(t.from) && s.HasPlayer(t.to)
    ensures KeysOk(r, s.props, t.offered) && KeysOk(r, s.props, t.requested)
    ensures forall k: nat :: k in t.offered ==> k < |s.props| && s.props[k].OwnedBy(t.from) && k !in t.requested
    ensures forall k: nat :: k in t.requested ==> k < |s.props| && s.props[k].OwnedBy(t.to) && k !in t.offered
  {
    hide ValidRules, LevelsOk;
    forall k: nat | k in t.offered
      ensures k < |s.props| && s.props[k].OwnedBy(t.from) && k !in t.requested
    {
      var i :| 0 <= i < |t.offered| && t.offered[i] == k;
    }
    forall k: nat | k in t.requested
      ensures k < |s.props| && s.props[k].OwnedBy(t.to) && k !in t.offered
    {
      var j :| 0 <= j < |t.requested| && t.requested[j] == k;
    }
  }

  lemma {:induction false} SalesUnaffected(r: Rules, props: seq<PropertyState>, props': seq<PropertyState>, keys: seq<nat>, n: nat)
    requires |props| == |props'| == |r.tiles| && n <= |keys| && forall i :: 0 <= i < |keys| ==> keys[i] < |props|
    requires forall i :: 0 <= i < |keys| ==> props'[keys[i]] == props[keys[i]]
    ensures SaleValues(r, props', keys, n) == SaleValues(r, props, keys, n)
  {
    if n > 0 {
      SalesUnaffected(r, props, props', keys, n - 1);
    }
  }

  predicate ClearedBy(props: seq<PropertyState>, props': seq<PropertyState>, keys: seq<nat>) {
    && |props'| == |props|
    && forall k :: 0 <= k < |props| ==> props'[k] == if k in keys then Cleared(props[k]) else props[k]
  }

  predicate KeysInRange(props: seq<PropertyState>, keys: seq<nat>) {
    forall i :: 0 <= i < |keys| ==> keys[i] < |props|
  }

  /** One player's liquidation, in closed form. */
  lemma SideLiquidated(r: Rules, s: State, p: nat, keys: seq<nat>)
    requires Shape(r, s) && s.HasPlayer(p) && LevelsOk(r, s.props) && KeysOk(r, s.props, keys)
    ensures LiquidateTiles(r, s, p, keys, |keys|).Ok?
    ensures var s' := LiquidateTiles(r, s, p, keys, |keys|).value;
            && s' == WithCash(s, p, s.players[p].cash + SaleValues(r, s.props, keys, |keys|)).(props := s'.props)
            && ClearedBy(s.props, s'.props, keys) && LevelsOk(r, s'.props)
    ensures SaleValues(r, s.props, keys, |keys|) >= 0
  {
    hide ValidRules, SaleValue, SaleValues, LiquidateTiles, NoDuplicates;
    LiquidationOutcome(r, s, p, keys, |keys|);
    assert keys[..|keys|] == keys;
    var props := ClearedTiles(s.props, keys, |keys|);
    forall k | 0 <= k < |s.props|
      ensures props[k] == if k in keys then Cleared(s.props[k]) else s.props[k]
    {
      ClearedAt(s.props, keys, |keys|, k);
    }
  }

  predicate Disjoint(t: Trade) {
    forall i :: 0 <= i < |t.requested| ==> t.requested[i] !in t.offered
  }

  lemma TradeableSides(r: Rules, s: State, t: Trade)
    requires Tradeable(r, s, t)
    ensures s.HasPlayer(t.from) && s.HasPlayer(t.to) && Disjoint(t)
    ensures KeysOk(r, s.props, t.offered) && KeysOk(r, s.props, t.requested)
  {
    hide ValidRules, LevelsOk, ValidateTrade, KeysOk;
    TradeableKeys(r, s, t);
  }

  /** Liquidating the offered tiles leaves the requested ones alone. */
  lemma OtherSide(r: Rules, props: seq<PropertyState>, props': seq<PropertyState>, t: Trade)
    requires |props| == |r.tiles| && KeysOk(r, props, t.offered) && KeysOk(r, props, t.requested) && ClearedBy(props, props', t.offered)
    requires Disjoint(t)
    ensures |props'| == |r.tiles| && KeysOk(r, props', t.requested)
    ensures KeysInRange(props, t.offered) && KeysInRange(props, t.requested)
    ensures SaleValues(r, props', t.requested, |t.requested|) == SaleValues(r, props, t.requested, |t.requested|)
  {
    hide SaleValue, NoDuplicates;
    SalesUnaffected(r, props, props', t.requested, |t.requested|);
  }

  /** The player's cash grew by `amount`; besides that only tiles may differ. */
  predicate Credited(s: State, s': State, p: nat, amount: int) {
    s.HasPlayer(p) && s' == WithCash(s, p, s.players[p].cash + amount).(props := s'.props)
  }

  /** After both liquidations. */
  lemma BothLiquidated(r: Rules, s: State, t: Trade) returns (s1: State, s2: State)
    requires Tradeable(r, s, t)
    ensures s.HasPlayer(t.from) && s.HasPlayer(t.to) && KeysInRange(s.props, t.offered) && KeysInRange(s.props, t.requested)
    ensures LiquidateTiles(r, s, t.from, t.offered, |t.offered|) == Ok(s1)
    ensures Shape(r, s1) && LiquidateTiles(r, s1, t.to, t.requested, |t.requested|) == Ok(s2)
    ensures Credited(s, s1, t.from, SaleValues(r, s.props, t.offered, |t.offered|))
    ensures Credited(s1, s2, t.to, SaleValues(r, s.props, t.requested, |t.requested|))
    ensures ClearedBy(s.props, s1.props, t.offered) && ClearedBy(s1.props, s2.props, t.requested)
    ensures SaleValues(r, s.props, t.offered, |t.offered|) >= 0
    ensures SaleValues(r, s.props, t.requested, |t.requested|) >= 0
  {
    hide ValidRules, ValidateTrade, LevelsOk, LiquidateTiles, NoDuplicates, KeysOk, KeysInRange, SaleValues, ClearedBy, Disjoint, OfferOk;
    TradeableSides(r, s, t);
    SideLiquidated(r, s, t.from, t.offered);
    s1 := LiquidateTiles(r, s, t.from, t.offered, |t.offered|).value;
    OtherSide(r, s.props, s1.props, t);
    SideLiquidated(r, s1, t.to, t.requested);
    s2 := LiquidateTiles(r, s1, t.to, t.requested, |t.requested|).value;
  }

  lemma CashPaid(s: State, t: Trade)
    requires s.HasPlayer(t.from) && s.HasPlayer(t.to) && OfferOk(t)
    requires s.players[t.from].cash >= t.offeredCash && s.players[t.to].cash >= t.requestedCash
    ensures var paid1 := if t.offeredCash > 0 then Transfer(s, t.from, t.to, t.offeredCash) else Ok(s);
            && paid1.Ok?
            && var paid2 := if t.requestedCash > 0 then Transfer(paid1.value, t.to, t.from, t.requestedCash) else Ok(paid1.value);
            && paid2.Ok?
            && var net := t.requestedCash - t.offeredCash;
            paid2.value == s.(players := s.players[t.from := s.players[t.from].(cash := s.players[t.from].cash + net)]
                                                  [t.to := s.players[t.to].(cash := s.players[t.to].cash - net)])
  {
    hide Transfer;
    TransferIs(s, t.from, t.to, t.offeredCash);
    var paid1 := if t.offeredCash > 0 then Transfer(s, t.from, t.to, t.offeredCash).value else s;
    assert paid1.players == CashShifted(s.players, t.from, t.to, t.offeredCash);
    TransferIs(paid1, t.to, t.from, t.requestedCash);
    ShiftedBack(s.players, t.from, t.to, t.offeredCash, t.requestedCash);
  }

  function CashShifted(players: seq<Player>, from: nat, to: nat, amount: int): (players': seq<Player>)
    requires from < |players| && to < |players|
  {
    players[from := players[from].(cash := players[from].cash - amount)][to := players[to].(cash := players[to].cash + amount)]
  }

  lemma TransferIs(s: State, from: nat, to: nat, amount: int)
    requires s.HasPlayer(from) && s.HasPlayer(to) && from != to && 0 <= amount <= s.players[from].cash
    ensures Transfer(s, from, to, amount) == Ok(s.(players := CashShifted(s.players, from, to, amount)))
    ensures CashShifted(s.players, from, to, 0) == s.players
  {}

  lemma ShiftedBack(players: seq<Player>, a: nat, b: nat, x: int, y: int)
    requires a < |players| && b < |players| && a != b
    ensures CashShifted(CashShifted(players, a, b, x), b, a, y)
         == players[a := players[a].(cash := players[a].cash + (y - x))][b := players[b].(cash := players[b].cash - (y - x))]
  {}

  /** Two changes of cash of the same two players amount to one. */
  lemma CashMerged(s: State, a: nat, b: nat, x: int, y: int, net: int)
    requires s.HasPlayer(a) && s.HasPlayer(b) && a != b
    ensures var s1 := WithCash(WithCash(s, a, s.players[a].cash + x), b, s.players[b].cash + y);
            s1.players[a := s1.players[a].(cash := s1.players[a].cash + net)][b := s1.players[b].(cash := s1.players[b].cash - net)]
            == s.players[a := s.players[a].(cash := s.players[a].cash + x + net)][b := s.players[b].(cash := s.players[b].cash + y - net)]
  {}

  lemma FundsAtHand(r: Rules, s: State, t: Trade)
    requires Tradeable(r, s, t)
    ensures s.HasPlayer(t.from) && s.HasPlayer(t.to)
    ensures s.players[t.from].cash >= t.offeredCash && s.players[t.to].cash >= t.requestedCash
    ensures !s.players[t.from].bankrupt && !s.players[t.to].bankrupt
  {}

  lemma TransferredTiles(s: State, s1: State, s2: State, t: Trade)
    requires ClearedBy(s.props, s1.props, t.offered) && ClearedBy(s1.props, s2.props, t.requested)
    requires Disjoint(t)
    ensures var props := TransferTiles(TransferTiles(s2.props, t.offered, t.to), t.requested, t.from);
            |props| == |s.props| && forall k :: 0 <= k < |s.props| ==> props[k] == TradedTile(s.props[k], t, k)
  {}

  /** A validated trade never fails, and this is all it does. */
  lemma AcceptOutcome(r: Rules, s: State, t: Trade)
    requires Tradeable(r, s, t)
    ensures AcceptOffer(r, s, t).Ok? && s.HasPlayer(t.from) && s.HasPlayer(t.to)
    ensures KeysInRange(s.props, t.offered) && KeysInRange(s.props, t.requested)
    ensures var s' := AcceptOffer(r, s, t).value;
            && s' == s.(players := s'.players, props := s'.props, trade := None)
            && s'.players == s.players[t.from := s.players[t.from].(cash := TradedCash(r, s, t).0)]
                                      [t.to := s.players[t.to].(cash := TradedCash(r, s, t).1)]
            && |s'.props| == |s.props|
            && (forall k :: 0 <= k < |s.props| ==> s'.props[k] == TradedTile(s.props[k], t, k))
    ensures TradedCash(r, s, t).0 >= 0 && TradedCash(r, s, t).1 >= 0
  {
    hide ValidRules, LevelsOk, LiquidateTiles, Transfer, SaleValues, TransferTiles, ClearedBy, NoDuplicates, ValidateTrade,
      Disjoint, KeysOk, TradedTile;
    var s1, s2 := BothLiquidated(r, s, t);
    FundsAtHand(r, s, t);
    CashPaid(s2, t);
    TradeableSides(r, s, t);
    CashMerged(s, t.from, t.to, SaleValues(r, s.props, t.offered, |t.offered|),
               SaleValues(r, s.props, t.requested, |t.requested|), t.requestedCash - t.offeredCash);
    TransferredTiles(s, s1, s2, t);
  }

  // ----- the invariant

  lemma TradedPlayers(r: Rules, s: State, t: Trade)
    requires Core(r, s) && Tradeable(r, s, t)
    ensures var s' := AcceptOffer(r, s, t);
            && s'.Ok? && SameRoster(s.players, s'.value.players) && SameHands(s.players, s'.value.players)
            && PlayersOk(r, s'.value.players)
            && (forall i :: 0 <= i < |s.players| && s.players[i].bankrupt ==> s'.value.players[i] == s.players[i])
  {
    hide PropsOk, Discipline, CardsOk, ValidRules, AcceptOffer, TradedCash, LevelsOk, NoDuplicates;
    AcceptOutcome(r, s, t);
    FundsAtHand(r, s, t);
    var s' := AcceptOffer(r, s, t).value;
    RosterSeats(s.players, s'.players);
    forall i | 0 <= i < |s'.players|
      ensures PlayerOk(r, s'.players[i])
    {
      assert PlayerOk(r, s.players[i]);
    }
  }

  lemma TradedProps(r: Rules, s: State, t: Trade)
    requires Core(r, s) && Tradeable(r, s, t)
    ensures var s' := AcceptOffer(r, s, t);
            && s'.Ok? && PropsOk(r, s'.value.players, s'.value.props) && Discipline(r, s'.value.props)
  {
    hide PlayersOk, CardsOk, ValidRules, AcceptOffer, TradedCash, LevelsOk, NoDuplicates;
    AcceptOutcome(r, s, t);
    FundsAtHand(r, s, t);
    TradeableKeys(r, s, t);
    var s' := AcceptOffer(r, s, t).value;
    forall k | 0 <= k < |s'.props|
      ensures PropertyOk(r, s'.players, k, s'.props[k])
    {
      assert PropertyOk(r, s.players, k, s.props[k]);
    }
    forall j, k | 0 <= j < |s'.props| && 0 <= k < |s'.props| && r.SameSet(j, k) && s'.props[j].mortgaged
      ensures !s'.props[k].Built()
    {
      assert s.props[j].mortgaged;
    }
  }

  /** Only tiles that had an owner change hands, so what is up for sale stays up for sale. */
  lemma TradedBuyable(r: Rules, s: State, t: Trade, k: nat)
    requires Tradeable(r, s, t) && BuyableTile(r, s, k)
    ensures AcceptOffer(r, s, t).Ok? && BuyableTile(r, AcceptOffer(r, s, t).value, k)
  {
    hide ValidRules, AcceptOffer, TradedCash, LevelsOk, NoDuplicates;
    AcceptOutcome(r, s, t);
    TradeableKeys(r, s, t);
  }

  lemma AcceptedIsTradeable(r: Rules, s: State, t: Trade)
    requires Shape(r, s) && LevelsOk(r, s.props) && OfferOk(t) && AcceptOffer(r, s, t).Ok?
    ensures Tradeable(r, s, t)
  {
    hide ValidRules, LevelsOk, ValidateTrade, LiquidateTiles, Transfer, TransferTiles;
  }

  lemma AcceptKeeps(r: Rules, s: State, t: Trade)
    requires Inv(r, s) && OfferOk(t) && AcceptOffer(r, s, t).Ok?
    ensures Inv(r, AcceptOffer(r, s, t).value)
    ensures AcceptOffer(r, s, t).value.phase == s.phase
  {
    hide PlayersOk, PropsOk, Discipline, CardsOk, ValidRules, TradedCash, LevelsOk, NoDuplicates, BuyableTile, AcceptOffer,
      ValidateTrade, RingOk, TradedTile;
    CoreShape(r, s);
    AcceptedIsTradeable(r, s, t);
    AcceptOutcome(r, s, t);
    TradedPlayers(r, s, t);
    TradedProps(r, s, t);
    var s' := AcceptOffer(r, s, t).value;
    CardsSame(r, s.players, s'.players, s.decks);
    RosterActive(s.players, s'.players);
    if s.auction.Some? {
      TradedBuyable(r, s, t, s.auction.value.tile);
    }
    if s.pending.Some? {
      TradedBuyable(r, s, t, s.pending.value);
    }
  }

  lemma MarkKeeps(r: Rules, s: State, p: nat)
    requires Inv(r, s) && s.HasPlayer(p)
    ensures Inv(r, MarkBotProposal(s, p))
  {
    hide PropsOk, Discipline, CardsOk, ValidRules;
    assert PlayerOk(r, s.players[p]);
    PlayerUpdateCore(r, s, p, s.players[p].(lastTradeTurn := Some(s.turn)));
    if s.players[p].playerType == Bot {
      PlayersKeep(r, s, MarkBotProposal(s, p));
    }
  }

  lemma OfferKeeps(r: Rules, s: State, offer: Option<Trade>)
    requires Inv(r, s) && s.phase != Finished && (offer.Some? ==> OfferOk(offer.value))
    ensures Inv(r, s.(trade := offer))
  {
    hide PlayersOk, PropsOk, Discipline, CardsOk, ValidRules;
    CoreFrame(r, s, s.(trade := offer));
  }

  lemma ProposeKeeps(r: Rules, s: State, t: Trade)
    requires Inv(r, s) && Shape(r, s) && ProposeTrade(r, s, t).Ok?
    ensures Inv(r, ProposeTrade(r, s, t).value)
    ensures ProposeTrade(r, s, t).value.phase == s.phase
  {
    hide Core, PhaseOk, TurnOk, AuctionOk, TradeOk, AcceptOffer, ValidRules, BotAccepts, ValidateTrade, NoDuplicates;
    ProposerFound(r, s, t);
    var marked := MarkBotProposal(s, t.from);
    MarkKeeps(r, s, t.from);
    if s.players[t.to].playerType == Bot {
      if BotAccepts(r, marked, t) {
        AcceptKeeps(r, marked, t);
      } else {
        OfferKeeps(r, marked, None);
      }
    } else {
      OfferKeeps(r, marked, Some(t));
    }
  }

  lemma ProposerFound(r: Rules, s: State, t: Trade)
    requires Shape(r, s) && ProposeTrade(r, s, t).Ok?
    ensures s.HasPlayer(t.from) && s.HasPlayer(t.to) && OfferOk(t) && !s.Over() && s.trade.None?
    ensures ValidateTrade(r, s, t).None?
  {}
}
