/**
 What a bot may do (game-bot.service.ts). The scores that rank its candidates are left open: the
 results hold for every candidate, hence for whichever one the scores prefer.
 */
module Bots {
  import opened Rules
  import opened State
  import opened CardDecks
  import opened Turns
  import opened Landing
  import opened Properties
  import opened Auctions
  import opened AuctionRounds
  import opened Trades
  import opened AutoDebt
  import opened Engine
  import opened Invariant
  import opened RollProof
  import opened Preservation
  import opened TradeProof
  import opened BankruptcyProof
  import opened Runs
  import opened Sets
  import opened Timer
  import opened Frames
  import opened Shuffle
  import opened Start

  function CashReserve(d: Difficulty): (cash: nat) {
    match d
    case Easy => 200
    case Normal => 350
    case Hard => 300
  }

  function MaxDevelopment(d: Difficulty): (level: nat)
    ensures level <= 5
  {
    match d
    case Easy => 1
    case Normal => 3
    case Hard => 5
  }

  /** Whose decision it is, if a bot's. */
  function ActionBot(s: State): (bot: Option<nat>)
    ensures bot.Some? ==> s.HasPlayer(bot.value) && s.players[bot.value].playerType == Bot
  {
    if s.Over() then None
    else if s.phase == AwaitingAuction && s.auction.Some? then
      var bidder := CurrentBidder(s.auction.value);
      if bidder.Some? && s.HasPlayer(bidder.value) && s.players[bidder.value].playerType == Bot then bidder else None
    else if s.HasPlayer(s.current) && s.players[s.current].playerType == Bot && !s.players[s.current].bankrupt then Some(s.current)
    else None
  }

  predicate PaysFine(player: Player) {
    player.inJail && player.cash >= JAIL_FINE && (player.difficulty == Hard || player.jailTurns >= 2)
  }

  /** The raise over the minimum bid, limited by the bot's own maximum and by its reserve. */
  function BidAmount(cash: int, reserve: nat, minimum: int, maxBid: int, step: nat): (amount: int)
    requires minimum <= maxBid && minimum <= cash - reserve
    ensures minimum <= amount <= maxBid && amount <= cash - reserve
  {
    var capped := if maxBid < cash - reserve then maxBid else cash - reserve;
    var room := capped - minimum;
    if room <= 0 then minimum else minimum + if room < step then room else step
  }

  predicate CanUnmortgage(r: Rules, s: State, p: nat, k: nat)
    requires s.HasPlayer(p)
  {
    && HasProperty(r, s, k) && s.props[k].OwnedBy(p) && s.props[k].mortgaged
    && s.players[p].cash - r.tiles[k].unmortgageCost >= CashReserve(s.players[p].difficulty)
  }

  function Development(q: PropertyState): (level: int) {
    if q.hotel then 5 else q.houses
  }

  predicate CanBuild(r: Rules, s: State, p: nat, k: nat)
    requires Shape(r, s) && s.HasPlayer(p)
  {
    && r.IsProperty(k)
    && (forall j :: 0 <= j < |r.tiles| && r.SameSet(j, k) ==>
          s.props[j].OwnedBy(p) && !s.props[j].mortgaged && Development(s.props[k]) <= Development(s.props[j]))
    && Development(s.props[k]) < MaxDevelopment(s.players[p].difficulty)
    && s.players[p].cash - r.tiles[k].houseCost >= CashReserve(s.players[p].difficulty)
  }

  predicate InSet(r: Rules, k: nat, setKey: nat) {
    r.IsProperty(k) && r.tiles[k].setKey == setKey
  }

  /** The bot owns the whole set, none of it mortgaged, and `lowest` is its lowest development. */
  predicate BuildableSet(r: Rules, s: State, p: nat, setKey: nat, lowest: int)
    requires Shape(r, s)
  {
    && (forall j :: 0 <= j < |r.tiles| && InSet(r, j, setKey) ==>
          s.props[j].OwnedBy(p) && !s.props[j].mortgaged && lowest <= Development(s.props[j]))
    && (exists j :: 0 <= j < |r.tiles| && InSet(r, j, setKey) && Development(s.props[j]) == lowest)
  }

  /** Walks one set: `None` if a tile is not the bot's or is mortgaged. */
  method LowestLevel(r: Rules, s: State, p: nat, setKey: nat) returns (lowest: Option<int>)
    requires Shape(r, s) && exists j :: 0 <= j < |r.tiles| && InSet(r, j, setKey)
    ensures lowest.Some? ==> BuildableSet(r, s, p, setKey, lowest.value)
    ensures lowest.None? ==> exists j :: 0 <= j < |r.tiles| && InSet(r, j, setKey) && !(s.props[j].OwnedBy(p) && !s.props[j].mortgaged)
  {
    lowest := None;
    for n := 0 to |r.tiles|
      invariant forall j :: 0 <= j < n && InSet(r, j, setKey) ==>
                  s.props[j].OwnedBy(p) && !s.props[j].mortgaged && lowest.Some? && lowest.value <= Development(s.props[j])
      invariant lowest.Some? ==> exists j :: 0 <= j < n && InSet(r, j, setKey) && Development(s.props[j]) == lowest.value
    {
      if InSet(r, n, setKey) {
        if !s.props[n].OwnedBy(p) || s.props[n].mortgaged {
          return None;
        }
        if lowest.None? || Development(s.props[n]) < lowest.value {
          lowest := Some(Development(s.props[n]));
        }
      }
    }
  }

  /** The loop over the sets of the board that collects every tile the bot could build on. */
  method BuildCandidates(r: Rules, s: State, p: nat) returns (candidates: seq<nat>)
    requires Shape(r, s) && s.HasPlayer(p)
    ensures forall k: nat :: k in candidates <==> k < |r.tiles| && CanBuild(r, s, p, k)
  {
    candidates := [];
    var seen: set<nat> := {};
    for n := 0 to |r.tiles|
      invariant forall j :: 0 <= j < n && r.tiles[j].Property? ==> r.tiles[j].setKey in seen
      invariant forall k: nat :: k in candidates <==> k < |r.tiles| && CanBuild(r, s, p, k) && r.tiles[k].setKey in seen
    {
      if r.tiles[n].Property? && r.tiles[n].setKey !in seen {
        var key := r.tiles[n].setKey;
        assert InSet(r, n, key);
        var lowest := LowestLevel(r, s, p, key);
        var found := SetCandidates(r, s, p, key, lowest);
        candidates := candidates + found;
        seen := seen + {key};
      }
    }
  }

  method SetCandidates(r: Rules, s: State, p: nat, setKey: nat, lowest: Option<int>) returns (found: seq<nat>)
    requires Shape(r, s) && s.HasPlayer(p)
    requires lowest.Some? ==> BuildableSet(r, s, p, setKey, lowest.value)
    requires lowest.None? ==> exists j :: 0 <= j < |r.tiles| && InSet(r, j, setKey) && !(s.props[j].OwnedBy(p) && !s.props[j].mortgaged)
    ensures forall k: nat :: k in found <==> k < |r.tiles| && InSet(r, k, setKey) && CanBuild(r, s, p, k)
  {
    found := [];
    if lowest.None? || lowest.value >= MaxDevelopment(s.players[p].difficulty) {
      NoCandidates(r, s, p, setKey, lowest);
      return;
    }
    for n := 0 to |r.tiles|
      invariant forall k: nat :: k in found <==> k < n && InSet(r, k, setKey) && CanBuild(r, s, p, k)
    {
      if InSet(r, n, setKey) {
        CanBuildLowest(r, s, p, setKey, lowest.value, n);
        if Development(s.props[n]) == lowest.value
           && s.players[p].cash - r.tiles[n].houseCost >= CashReserve(s.players[p].difficulty) {
          found := found + [n];
        }
      }
    }
  }

  lemma CanBuildLowest(r: Rules, s: State, p: nat, setKey: nat, lowest: int, k: nat)
    requires Shape(r, s) && s.HasPlayer(p) && BuildableSet(r, s, p, setKey, lowest) && InSet(r, k, setKey)
    ensures CanBuild(r, s, p, k)
       <==> && Development(s.props[k]) == lowest && lowest < MaxDevelopment(s.players[p].difficulty)
            && s.players[p].cash - r.tiles[k].houseCost >= CashReserve(s.players[p].difficulty)
  {
    hide ValidRules;
    assert forall j :: 0 <= j < |r.tiles| && r.SameSet(j, k) ==> InSet(r, j, setKey);
    if CanBuild(r, s, p, k) {
      var j :| 0 <= j < |r.tiles| && InSet(r, j, setKey) && Development(s.props[j]) == lowest;
      assert r.SameSet(j, k);
    }
  }

  lemma NoCandidates(r: Rules, s: State, p: nat, setKey: nat, lowest: Option<int>)
    requires Shape(r, s) && s.HasPlayer(p)
    requires lowest.Some? ==> BuildableSet(r, s, p, setKey, lowest.value) && lowest.value >= MaxDevelopment(s.players[p].difficulty)
    requires lowest.None? ==> exists j :: 0 <= j < |r.tiles| && InSet(r, j, setKey) && !(s.props[j].OwnedBy(p) && !s.props[j].mortgaged)
    ensures forall k: nat :: k < |r.tiles| && InSet(r, k, setKey) ==> !CanBuild(r, s, p, k)
  {
    hide ValidRules;
    forall k: nat | k < |r.tiles| && InSet(r, k, setKey)
      ensures !CanBuild(r, s, p, k)
    {
      if lowest.Some? {
        CanBuildLowest(r, s, p, setKey, lowest.value, k);
      } else {
        var j :| 0 <= j < |r.tiles| && InSet(r, j, setKey) && !(s.props[j].OwnedBy(p) && !s.props[j].mortgaged);
        assert r.SameSet(j, k);
      }
    }
  }

  /** An offer of cash, at least the price, for the one tile missing from a set. */
  predicate CanOffer(r: Rules, s: State, p: nat, t: Trade)
    requires Shape(r, s) && s.HasPlayer(p)
  {
    && s.players[p].lastTradeTurn != Some(s.turn)
    && t.from == p && t.offered == [] && t.requestedCash == 0 && |t.requested| == 1
    && var k := t.requested[0];
    && r.IsProperty(k) && s.props[k].OwnedBy(t.to) && t.to != p
    && (forall j :: 0 <= j < |r.tiles| && r.SameSet(j, k) && j != k ==> s.props[j].OwnedBy(p))
    && s.HasPlayer(t.to) && !s.players[t.to].bankrupt
    && !s.props[k].mortgaged && !s.props[k].Built()
    && t.offeredCash >= r.tiles[k].price
    && s.players[p].cash - t.offeredCash >= CashReserve(s.players[p].difficulty)
  }

  predicate MayInTurnEnd(r: Rules, s: State, p: nat, intent: Intent)
    requires Shape(r, s) && s.HasPlayer(p)
  {
    if s.trade.Some? then
      && s.trade.value.to == p
      && intent == if BotAccepts(r, s, s.trade.value) then Accept(p, s.trade.value.id) else Reject(p, s.trade.value.id)
    else if exists k :: 0 <= k < |r.tiles| && CanUnmortgage(r, s, p, k) then
      intent.Unmortgage? && intent.player == p && CanUnmortgage(r, s, p, intent.tile)
    else if exists k :: 0 <= k < |r.tiles| && CanBuild(r, s, p, k) then
      intent.Build? && intent.player == p && CanBuild(r, s, p, intent.tile)
    else (intent.Propose? && CanOffer(r, s, p, intent.offer)) || intent == PassTurn(p)
  }

  predicate MayBid(s: State, p: nat, intent: Intent)
    requires s.HasPlayer(p) && s.auction.Some?
  {
    || intent == Pass(p)
    || (&& intent.Bid? && intent.player == p
        && MinimumBid(s.auction.value) <= intent.amount <= s.players[p].cash - CashReserve(s.players[p].difficulty))
  }

  /** The bid the program computes is one of these, whatever its maximum and step. */
  lemma ComputedBidIsAllowed(s: State, p: nat, maxBid: int, step: nat)
    requires s.HasPlayer(p) && s.auction.Some?
    requires MinimumBid(s.auction.value) <= maxBid
    requires MinimumBid(s.auction.value) <= s.players[p].cash - CashReserve(s.players[p].difficulty)
    ensures MayBid(s, p, Bid(p, BidAmount(s.players[p].cash, CashReserve(s.players[p].difficulty),
                                          MinimumBid(s.auction.value), maxBid, step)))
  {}

  /** The intents a bot may choose, whatever its scores and dice. */
  predicate BotMay(r: Rules, s: State, p: nat, intent: Intent)
    requires Shape(r, s) && s.HasPlayer(p)
  {
    match s.phase
    case AwaitingFirstTurn => MayRoll(s, p, intent)
    case AwaitingRoll => MayRoll(s, p, intent)
    case AwaitingDecision =>
      || intent == Decline(p)
      || (intent == Buy(p) && s.pending.Some? && r.Ownable(s.pending.value) && r.tiles[s.pending.value].price <= s.players[p].cash)
    case AwaitingAuction => s.auction.Some? && MayBid(s, p, intent)
    case AwaitingDebt => s.debt.Some? && s.debt.value.player == p && intent == AutoResolve(p)
    case AwaitingTurnEnd => MayInTurnEnd(r, s, p, intent)
    case _ => false
  }

  predicate MayRoll(s: State, p: nat, intent: Intent)
    requires s.HasPlayer(p)
  {
    if PaysFine(s.players[p]) then intent == PayFine(p)
    else intent.RollDice? && intent.player == p && ValidDice(intent.dice)
  }

  // ----- every choice is accepted

  predicate PricesPositive(r: Rules) {
    forall k :: 0 <= k < |r.tiles| && r.tiles[k].Property? ==> r.tiles[k].price > 0
  }

  /** Offers to bots are answered at once, so an open offer is one to a human. */
  predicate OfferToHuman(s: State) {
    s.trade.Some? ==> s.HasPlayer(s.trade.value.to) && s.players[s.trade.value.to].playerType == Human
  }

  lemma UnmortgageAccepted(r: Rules, s: State, p: nat, k: nat)
    requires Shape(r, s) && s.phase == AwaitingTurnEnd && AssertCurrentTurn(s, p).None? && CanUnmortgage(r, s, p, k)
    ensures UnmortgageProperty(r, s, p, k).Ok?
    ensures UnmortgageProperty(r, s, p, k).value
         == WithProperty(WithCash(s, p, s.players[p].cash - r.tiles[k].unmortgageCost), k, s.props[k].(mortgaged := false))
  {
    hide ValidRules;
  }

  lemma BuildAccepted(r: Rules, s: State, p: nat, k: nat)
    requires Core(r, s) && s.phase == AwaitingTurnEnd && s.debt.None? && AssertCurrentTurn(s, p).None? && CanBuild(r, s, p, k)
    ensures BuildProperty(r, s, p, k).Ok?
  {
    hide PlayersOk, PropsOk, Discipline, CardsOk, ValidRules;
    PropertyAt(r, s, k);
    forall j | 0 <= j < |r.tiles| && r.SameSet(j, k)
      ensures s.props[j].OwnedBy(p) && !s.props[j].mortgaged
      ensures s.props[j].hotel || s.props[j].houses <= 4
    {
      PropertyAt(r, s, j);
    }
  }

  predicate NobodyNegative(s: State) {
    forall i :: 0 <= i < |s.players| ==> s.players[i].cash >= 0
  }

  lemma OfferValid(r: Rules, s: State, p: nat, t: Trade)
    requires Shape(r, s) && LevelsOk(r, s.props) && PricesPositive(r) && NobodyNegative(s) && s.HasPlayer(p) && !s.players[p].bankrupt && CanOffer(r, s, p, t)
    ensures Tradeable(r, s, t)
  {
    hide ValidRules, LevelsOk;
    assert r.tiles[t.requested[0]].price > 0;
  }

  /** What comes of a bot's offer: an open offer, a refusal, or the tile for the cash. */
  lemma OfferOutcome(r: Rules, s: State, p: nat, t: Trade)
    requires Shape(r, s) && LevelsOk(r, s.props) && PricesPositive(r) && NobodyNegative(s) && s.HasPlayer(p) && s.players[p].playerType == Bot
    requires s.phase == AwaitingTurnEnd && s.debt.None? && s.trade.None? && !s.players[p].bankrupt && CanOffer(r, s, p, t)
    ensures ProposeTrade(r, s, t).Ok?
    ensures var s' := ProposeTrade(r, s, t).value;
            && s' == s.(players := s'.players, props := s'.props, trade := s'.trade)
            && |s'.players| == |s.players| && |s'.props| == |s.props|
            && s'.players[p].lastTradeTurn == Some(s.turn) && s'.players[p].cash <= s.players[p].cash
            && (s'.trade.Some? ==> s.players[t.to].playerType == Human && s'.trade == Some(t))
            && (forall k :: 0 <= k < |s.props| && s'.props[k].OwnedBy(p) && s'.props[k].mortgaged ==>
                  s.props[k].OwnedBy(p) && s.props[k].mortgaged)
  {
    hide ValidRules, LevelsOk, AcceptOffer, ValidateTrade, BotAccepts;
    OfferValid(r, s, p, t);
    var marked := MarkBotProposal(s, p);
    if s.players[t.to].playerType == Bot && BotAccepts(r, marked, t) {
      OfferTraded(r, s, marked, p, t);
    }
  }

  lemma OfferTraded(r: Rules, s: State, marked: State, p: nat, t: Trade)
    requires Shape(r, s) && LevelsOk(r, s.props) && PricesPositive(r) && NobodyNegative(s) && s.HasPlayer(p) && !s.players[p].bankrupt
    requires CanOffer(r, s, p, t) && marked == WithPlayer(s, p, s.players[p].(lastTradeTurn := Some(s.turn)))
    ensures AcceptOffer(r, marked, t).Ok?
    ensures var s' := AcceptOffer(r, marked, t).value;
            && s' == s.(players := s'.players, props := s'.props, trade := None)
            && |s'.players| == |s.players| && |s'.props| == |s.props|
            && s'.players[p].lastTradeTurn == Some(s.turn) && s'.players[p].cash == s.players[p].cash - t.offeredCash
            && (forall k :: 0 <= k < |s.props| && s'.props[k].OwnedBy(p) && s'.props[k].mortgaged ==>
                  s.props[k].OwnedBy(p) && s.props[k].mortgaged)
  {
    hide ValidRules, LevelsOk, AcceptOffer, SaleValues;
    MarkedTradeable(r, s, marked, p, t);
    AcceptOutcome(r, marked, t);
    NothingSold(r, marked.props);
  }

  lemma NothingSold(r: Rules, props: seq<PropertyState>)
    requires |props| == |r.tiles|
    ensures SaleValues(r, props, [], 0) == 0
  {}

  lemma MarkedTradeable(r: Rules, s: State, marked: State, p: nat, t: Trade)
    requires Shape(r, s) && LevelsOk(r, s.props) && PricesPositive(r) && NobodyNegative(s) && s.HasPlayer(p) && !s.players[p].bankrupt
    requires CanOffer(r, s, p, t) && marked == WithPlayer(s, p, s.players[p].(lastTradeTurn := Some(s.turn)))
    ensures Tradeable(r, marked, t)
  {
    hide ValidRules, LevelsOk;
    assert r.tiles[t.requested[0]].price > 0;
  }

  lemma BidAccepted(r: Rules, s: State, now: int, p: nat, amount: int)
    requires Inv(r, s) && Shape(r, s) && s.auction.Some? && s.HasPlayer(p) && CurrentBidder(s.auction.value) == Some(p)
    requires MinimumBid(s.auction.value) <= amount <= s.players[p].cash
    ensures PlaceBid(r, s, now, p, amount).Ok?
  {
    hide Core, TurnOk, TradeOk, ValidRules, RingOk, NextBidder, BuyableTile;
    RingBidder(s.auction.value);
  }

  lemma FineAccepted(s: State, p: nat)
    requires AssertCurrentTurn(s, p).None? && PaysFine(s.players[p])
    ensures PayJailFine(s, p).Ok?
  {}

  lemma BuyAccepted(r: Rules, s: State, p: nat)
    requires Inv(r, s) && Shape(r, s) && s.phase == AwaitingDecision && AssertCurrentTurn(s, p).None? && s.pending.Some?
    requires r.Ownable(s.pending.value) && r.tiles[s.pending.value].price <= s.players[p].cash
    ensures BuyProperty(r, s, p).Ok?
  {
    hide Core, TurnOk, TradeOk, AuctionOk, ValidRules;
  }

  lemma TurnEndAccepted(r: Rules, s: State, p: nat, now: int, intent: Intent)
    requires Inv(r, s) && Shape(r, s) && LevelsOk(r, s.props) && PricesPositive(r) && OfferToHuman(s)
    requires s.phase == AwaitingTurnEnd && s.HasPlayer(p) && s.current == p && s.players[p].playerType == Bot
    requires MayInTurnEnd(r, s, p, intent)
    ensures Reduce(r, s, now, intent).Ok?
  {
    hide Core, TurnOk, TradeOk, AuctionOk, ValidRules, LevelsOk, UnmortgageProperty, BuildProperty, ProposeTrade, EndTurn,
      BotAccepts, CanUnmortgage, CanBuild, CanOffer;
    TurnHolder(r, s);
    if s.trade.None? {
      if intent.Unmortgage? {
        UnmortgageAccepted(r, s, p, intent.tile);
      } else if intent.Build? {
        BuildAccepted(r, s, p, intent.tile);
      } else if intent.Propose? {
        OfferOutcome(r, s, p, intent.offer);
      } else {
        EndTurnProgress(r, s);
      }
    }
  }

  lemma TurnHolder(r: Rules, s: State)
    requires Inv(r, s) && s.phase != Finished
    ensures AssertCurrentTurn(s, s.current).None? && NobodyNegative(s) && (s.phase == AwaitingTurnEnd ==> s.debt.None?)
  {
    hide PropsOk, Discipline, CardsOk, ValidRules, Active;
    CashOfCurrent(r, s);
  }

  /**
   In a coherent state with no split built set, an active creditor and a highest bidder able to pay,
   every intent a bot may choose is accepted.
   */
  lemma BotIntentAccepted(r: Rules, s: State, p: nat, now: int, intent: Intent)
    requires Unblocked(r, s) && Shape(r, s) && PricesPositive(r) && OfferToHuman(s)
    requires ActionBot(s) == Some(p) && BotMay(r, s, p, intent)
    ensures Accepted(r, s, Step(now, intent))
  {
    hide Core, TurnOk, TradeOk, AuctionOk, ValidRules, LevelsOk, SetsOk, RollAndMove, BuyProperty, DeclineProperty, PlaceBid, PassBid,
      AutoResolveDebt, PayJailFine, MayInTurnEnd, MinimumBid, CurrentBidder, PaysFine, Progress, HighestCanPay, CreditorOk;
    InvShape(r, s);
    TurnHolder(r, s);
    match s.phase
    case AwaitingFirstTurn => RollOrFine(r, s, p, now, intent);
    case AwaitingRoll => RollOrFine(r, s, p, now, intent);
    case AwaitingDecision =>
      if intent.Buy? {
        BuyAccepted(r, s, p);
      } else {
        DeclineProgress(r, s, now);
      }
    case AwaitingAuction =>
      AuctionBidder(s);
      if intent.Bid? {
        BidAccepted(r, s, now, p, intent.amount);
      } else {
        PassProgress(r, s, now);
      }
    case AwaitingDebt => ResolveProgress(r, s);
    case AwaitingTurnEnd => TurnEndAccepted(r, s, p, now, intent);
  }

  lemma RollOrFine(r: Rules, s: State, p: nat, now: int, intent: Intent)
    requires Inv(r, s) && Shape(r, s) && LevelsOk(r, s.props) && s.phase in {AwaitingFirstTurn, AwaitingRoll}
    requires s.HasPlayer(p) && s.current == p && MayRoll(s, p, intent)
    ensures Reduce(r, s, now, intent).Ok?
  {
    hide Inv, ValidRules, LevelsOk, RollAndMove, PayJailFine, PaysFine, Progress;
    TurnHolder(r, s);
    if PaysFine(s.players[p]) {
      FineAccepted(s, p);
    } else {
      RollProgress(r, s, intent.dice);
    }
  }

  // ----- a bot's turn end is finite

  function MortgagedUpTo(props: seq<PropertyState>, p: nat, n: nat): (count: nat)
    requires n <= |props|
  {
    if n == 0 then 0 else MortgagedUpTo(props, p, n - 1) + if props[n - 1].OwnedBy(p) && props[n - 1].mortgaged then 1 else 0
  }

  lemma {:induction false} FewerMortgaged(props: seq<PropertyState>, props': seq<PropertyState>, p: nat, k: nat, n: nat)
    requires |props| == |props'| && n <= |props|
    requires forall i :: 0 <= i < |props| && props'[i].OwnedBy(p) && props'[i].mortgaged ==> props[i].OwnedBy(p) && props[i].mortgaged
    ensures MortgagedUpTo(props', p, n) <= MortgagedUpTo(props, p, n)
    ensures k < n && props[k].OwnedBy(p) && props[k].mortgaged && !props'[k].mortgaged ==>
              MortgagedUpTo(props', p, n) < MortgagedUpTo(props, p, n)
  {
    if n > 0 {
      FewerMortgaged(props, props', p, k, n - 1);
    }
  }

  /** Cash, mortgaged tiles and the proposal of this turn: what a bot can still spend. */
  function Budget(s: State, p: nat): (n: int)
    requires s.HasPlayer(p)
  {
    s.players[p].cash + MortgagedUpTo(s.props, p, |s.props|) + if s.players[p].lastTradeTurn == Some(s.turn) then 0 else 1
  }

  lemma UnmortgageSpends(r: Rules, s: State, p: nat, k: nat)
    requires Shape(r, s) && s.phase == AwaitingTurnEnd && AssertCurrentTurn(s, p).None? && CanUnmortgage(r, s, p, k)
    ensures UnmortgageProperty(r, s, p, k).Ok?
    ensures var s' := UnmortgageProperty(r, s, p, k).value;
            s' == s.(players := s'.players, props := s'.props) && s'.HasPlayer(p) && Budget(s', p) < Budget(s, p)
  {
    hide ValidRules, UnmortgageProperty;
    UnmortgageAccepted(r, s, p, k);
    FewerMortgaged(s.props, UnmortgageProperty(r, s, p, k).value.props, p, k, |s.props|);
  }

  lemma BuildSpends(r: Rules, s: State, p: nat, k: nat)
    requires Core(r, s) && s.phase == AwaitingTurnEnd && s.debt.None? && AssertCurrentTurn(s, p).None? && CanBuild(r, s, p, k)
    ensures BuildProperty(r, s, p, k).Ok?
    ensures var s' := BuildProperty(r, s, p, k).value;
            s' == s.(players := s'.players, props := s'.props) && s'.HasPlayer(p) && Budget(s', p) < Budget(s, p)
  {
    hide PlayersOk, PropsOk, Discipline, CardsOk, BuildProperty, OwnsSetOf, SetHasMortgage, CanBuild;
    BuildAccepted(r, s, p, k);
    BuildEffect(r, s, p, k);
    assert ValidTile(r.tiles[k]);
    FewerMortgaged(s.props, BuildProperty(r, s, p, k).value.props, p, k, |s.props|);
  }

  lemma OfferSpends(r: Rules, s: State, p: nat, t: Trade)
    requires Shape(r, s) && LevelsOk(r, s.props) && PricesPositive(r) && NobodyNegative(s) && s.HasPlayer(p) && s.players[p].playerType == Bot
    requires s.phase == AwaitingTurnEnd && s.debt.None? && s.trade.None? && !s.players[p].bankrupt && CanOffer(r, s, p, t)
    ensures ProposeTrade(r, s, t).Ok?
    ensures var s' := ProposeTrade(r, s, t).value;
            && s' == s.(players := s'.players, props := s'.props, trade := s'.trade)
            && s'.HasPlayer(p) && Budget(s', p) < Budget(s, p)
  {
    hide ValidRules, LevelsOk, ProposeTrade;
    OfferOutcome(r, s, p, t);
    FewerMortgaged(s.props, ProposeTrade(r, s, t).value.props, p, 0, |s.props|);
  }

  /** Every decision of a bot at its turn end, short of ending the turn, stays there and spends something. */
  lemma BotDecisionSpends(r: Rules, s: State, p: nat, now: int, intent: Intent)
    requires Inv(r, s) && Shape(r, s) && PricesPositive(r) && s.trade.None?
    requires s.phase == AwaitingTurnEnd && ActionBot(s) == Some(p) && BotMay(r, s, p, intent) && !intent.PassTurn?
    ensures Accepted(r, s, Step(now, intent))
    ensures var s' := Next(r, s, Step(now, intent));
            && s'.phase == AwaitingTurnEnd && s'.current == s.current && s'.turn == s.turn && s'.HasPlayer(p)
            && 0 <= Budget(s', p) < Budget(s, p)
  {
    hide Core, TurnOk, TradeOk, AuctionOk, PhaseOk, ValidRules, LevelsOk, UnmortgageProperty, BuildProperty, ProposeTrade,
      BotAccepts, CanUnmortgage, CanBuild, CanOffer, Budget;
    InvShape(r, s);
    TurnHolder(r, s);
    if intent.Unmortgage? {
      UnmortgageSpends(r, s, p, intent.tile);
    } else if intent.Build? {
      BuildSpends(r, s, p, intent.tile);
    } else {
      OfferSpends(r, s, p, intent.offer);
    }
    BudgetNotNegative(r, Next(r, s, Step(now, intent)), p);
  }

  lemma BudgetNotNegative(r: Rules, s: State, p: nat)
    requires Inv(r, s) && s.HasPlayer(p)
    ensures Budget(s, p) >= 0
  {
    hide PropsOk, Discipline, CardsOk, ValidRules;
    CashOfCurrent(r, s);
  }

  ghost predicate BotDecides(r: Rules, s: State, p: nat, step: Step, s': State) {
    && Inv(r, s) && Shape(r, s) && s.trade.None? && s.phase == AwaitingTurnEnd && ActionBot(s) == Some(p)
    && BotMay(r, s, p, step.intent) && !step.intent.PassTurn? && Next(r, s, step) == s'
  }

  /**
   A bot's decisions at the end of its turn come to an end: however its scores rank the candidates,
   it reaches `end_turn` or an open offer after at most as many decisions as its budget.
   */
  lemma {:induction false} BotTurnEnds(r: Rules, states: seq<State>, steps: seq<Step>, p: nat, n: nat)
    requires PricesPositive(r) && |states| == |steps| + 1 && n <= |steps| && states[0].HasPlayer(p)
    requires forall i :: 0 <= i < |steps| ==> BotDecides(r, states[i], p, steps[i], states[i + 1])
    requires Inv(r, states[0])
    ensures states[n].HasPlayer(p) && 0 <= Budget(states[n], p) <= Budget(states[0], p) - n
    ensures n <= Budget(states[0], p)
  {
    hide Inv, BotMay, ActionBot, Budget, Next, PricesPositive, ValidRules;
    if n == 0 {
      BudgetNotNegative(r, states[0], p);
    } else {
      BotTurnEnds(r, states, steps, p, n - 1);
      assert BotDecides(r, states[n - 1], p, steps[n - 1], states[n]);
      BotDecisionSpends(r, states[n - 1], p, steps[n - 1].now, steps[n - 1].intent);
    }
  }

  // ----- open offers are offers to humans, over every run

  lemma CalmKeepsOffer(s: State, s': State)
    requires OfferToHuman(s) && Calm(s, s')
    ensures OfferToHuman(s')
  {}

  lemma RollKeepsOffer(r: Rules, s: State, p: nat, dice: (int, int))
    requires Inv(r, s) && Shape(r, s) && OfferToHuman(s) && RollAndMove(r, s, p, dice).Ok?
    ensures OfferToHuman(RollAndMove(r, s, p, dice).value)
  {
    hide PlayersOk, PropsOk, Discipline, CardsOk, ValidRules, RollFromJail, MoveIgnoringJail;
    RollOutcome(r, s, p, dice);
  }

  lemma ProposeOffersToHuman(r: Rules, s: State, t: Trade)
    requires Inv(r, s) && Shape(r, s) && LevelsOk(r, s.props) && ProposeTrade(r, s, t).Ok?
    ensures OfferToHuman(ProposeTrade(r, s, t).value)
  {
    hide Inv, ValidRules, LevelsOk, AcceptOffer, BotAccepts, ValidateTrade, NoDuplicates;
    ProposerFound(r, s, t);
    var marked := MarkBotProposal(s, t.from);
    if s.players[t.to].playerType == Bot && BotAccepts(r, marked, t) {
      AcceptCalm(r, marked, t);
    }
  }

  /** Every step keeps open offers addressed to humans, so bots never find one to answer. */
  lemma StepKeepsOffers(r: Rules, s: State, step: Step)
    requires Inv(r, s) && OfferToHuman(s)
    ensures OfferToHuman(Next(r, s, step))
  {
    hide Inv, ValidRules, LevelsOk, RollAndMove, ProposeTrade, Calm, Reduce;
    InvShape(r, s);
    if Accepted(r, s, step) {
      match step.intent
      case RollDice(p, dice) => ReduceRoll(r, s, step.now, p, dice); RollKeepsOffer(r, s, p, dice);
      case Propose(offer) => ReducePropose(r, s, step.now, offer); ProposeOffersToHuman(r, s, offer);
      case _ => StepCalm(r, s, step); CalmKeepsOffer(s, Next(r, s, step));
    }
  }

  lemma {:induction false} RunKeepsOffers(r: Rules, start: State, steps: seq<Step>, n: nat)
    requires Inv(r, start) && OfferToHuman(start) && n <= |steps|
    ensures OfferToHuman(After(r, start, steps, n))
  {
    hide Inv, Next, OfferToHuman;
    if n > 0 {
      RunKeepsOffers(r, start, steps, n - 1);
      StepKeepsOffers(r, After(r, start, steps, n - 1), steps[n - 1]);
    }
  }

  /** In no state of any game is an open offer waiting for a bot. */
  lemma EveryGameOffersToHumans(r: Rules, joined: seq<Entrant>, difficulty: Difficulty, seed: Seed, startedAt: int, minutes: int,
                                steps: seq<Step>, n: nat)
    requires ValidRules(r) && LobbyOk(joined) && n <= |steps|
    ensures OfferToHuman(Game(r, joined, difficulty, seed, startedAt, minutes, steps, n))
  {
    hide Inv, After, ValidRules, LineUp;
    StartHolds(r, joined, difficulty, seed, startedAt, minutes);
    RunKeepsOffers(r, InitialState(r, LineUp(joined, difficulty), seed, startedAt, minutes), steps, n);
  }

  /** So in every unblocked state of every game, each intent a bot may choose is accepted. */
  lemma EveryGameAcceptsBots(r: Rules, joined: seq<Entrant>, difficulty: Difficulty, seed: Seed, startedAt: int, minutes: int,
                             steps: seq<Step>, n: nat, p: nat, now: int, intent: Intent)
    requires ValidRules(r) && PricesPositive(r) && LobbyOk(joined) && n <= |steps|
    requires var s := Game(r, joined, difficulty, seed, startedAt, minutes, steps, n);
             Unblocked(r, s) && Shape(r, s) && ActionBot(s) == Some(p) && BotMay(r, s, p, intent)
    ensures Accepted(r, Game(r, joined, difficulty, seed, startedAt, minutes, steps, n), Step(now, intent))
  {
    hide Inv, Game, ValidRules, LineUp, Unblocked, BotMay, ActionBot, OfferToHuman, PricesPositive, Accepted;
    EveryGameOffersToHumans(r, joined, difficulty, seed, startedAt, minutes, steps, n);
    BotIntentAccepted(r, Game(r, joined, difficulty, seed, startedAt, minutes, steps, n), p, now, intent);
  }
}
