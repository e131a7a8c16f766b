/** What a drawn card does, effect by effect. */
module CardOutcomes {
  import opened Rules
  import opened State
  import opened Money
  import opened CardDecks
  import opened Turns
  import opened Landing
  import opened Properties
  import opened AuctionRounds
  import opened Invariant
  import opened RollProof
  import opened Outcomes
  import opened RollOutcomes

  // ----- the draw

  /** The order in which a deck's cards come up: the draw pile, then the discard pile. */
  function Queue(pile: Pile): (cards: seq<CardKey>) {
    pile.draw + pile.discard
  }

  /**
   The first card of the queue is drawn and, unless it is a jail card, goes to the queue's end; the
   other deck, the players and the board are untouched.
   */
  lemma DrawOutcome(r: Rules, s: State, deck: DeckKey)
    requires DrawCard(r, s, deck).Ok?
    ensures var Drawn(s', card) := DrawCard(r, s, deck).value;
            var before, after := Queue(s.decks.Get(deck)), Queue(s'.decks.Get(deck));
            && |before| > 0 && card == before[0]
            && after == before[1..] + (if r.IsJailCard(card) then [] else [card])
            && s' == s.(decks := s.decks.Set(deck, s'.decks.Get(deck)))
  {
    var pile := s.decks.Get(deck);
    if |pile.draw| > 0 {
      assert Queue(pile)[1..] == pile.draw[1..] + pile.discard;
    } else {
      assert Queue(pile) == pile.discard;
    }
  }

  // ----- repairs, counted as a set

  /** The houses of `p`: one pair of tile and storey each. */
  function Houses(props: seq<PropertyState>, p: nat, n: nat): (houses: set<(nat, nat)>)
    requires n <= |props|
  {
    set k: nat, h: nat | k < n && h < 4 && props[k].OwnedBy(p) && !props[k].hotel && h < props[k].houses :: (k, h)
  }

  function Hotels(props: seq<PropertyState>, p: nat, n: nat): (hotels: set<nat>)
    requires n <= |props|
  {
    set k: nat | k < n && props[k].OwnedBy(p) && props[k].hotel
  }

  function Storeys(k: nat, count: nat): (storeys: set<(nat, nat)>)
    requires count <= 4
  {
    set h: nat | h < 4 && h < count :: (k, h)
  }

  lemma {:induction false} StoreyCount(k: nat, count: nat)
    requires count <= 4
    ensures |Storeys(k, count)| == count
  {
    if count == 0 {
      assert Storeys(k, count) == {};
    } else {
      StoreyCount(k, count - 1);
      assert Storeys(k, count) == Storeys(k, count - 1) + {(k, count - 1)};
    }
  }

  lemma Sum(a: int, b: int, c: int)
    ensures (a + b) * c == a * c + b * c
  {}

  lemma HousesGrow(props: seq<PropertyState>, p: nat, n: nat)
    requires 0 < n <= |props| && 0 <= props[n - 1].houses <= 4
    ensures |Houses(props, p, n)|
         == |Houses(props, p, n - 1)| + if props[n - 1].OwnedBy(p) && !props[n - 1].hotel then props[n - 1].houses else 0
  {
    var q, houses := props[n - 1], Houses(props, p, n - 1);
    if q.OwnedBy(p) && !q.hotel {
      StoreyCount(n - 1, q.houses);
      assert Houses(props, p, n) == houses + Storeys(n - 1, q.houses) && houses !! Storeys(n - 1, q.houses);
    } else {
      assert Houses(props, p, n) == houses;
    }
  }

  lemma HotelsGrow(props: seq<PropertyState>, p: nat, n: nat)
    requires 0 < n <= |props|
    ensures |Hotels(props, p, n)| == |Hotels(props, p, n - 1)| + if props[n - 1].OwnedBy(p) && props[n - 1].hotel then 1 else 0
  {
    if props[n - 1].OwnedBy(p) && props[n - 1].hotel {
      assert Hotels(props, p, n) == Hotels(props, p, n - 1) + {n - 1};
    } else {
      assert Hotels(props, p, n) == Hotels(props, p, n - 1);
    }
  }

  lemma NothingBuilt(props: seq<PropertyState>, p: nat)
    ensures |Houses(props, p, 0)| == 0 && |Hotels(props, p, 0)| == 0
  {
    assert Houses(props, p, 0) == {} && Hotels(props, p, 0) == {};
  }

  lemma {:induction false} RepairsCount(props: seq<PropertyState>, p: nat, house: nat, hotel: nat, n: nat)
    requires n <= |props| && forall k :: 0 <= k < |props| ==> 0 <= props[k].houses <= 4
    ensures RepairsUpTo(props, p, house, hotel, n) == |Houses(props, p, n)| * house + |Hotels(props, p, n)| * hotel
  {
    hide Houses, Hotels;
    if n == 0 {
      NothingBuilt(props, p);
    } else {
      RepairsCount(props, p, house, hotel, n - 1);
      HousesGrow(props, p, n);
      HotelsGrow(props, p, n);
      Sum(|Hotels(props, p, n - 1)|, 1, hotel);
      Sum(|Houses(props, p, n - 1)|, props[n - 1].houses, house);
    }
  }

  // ----- the others at the table, counted as a set

  function Others(players: seq<Player>, p: nat, n: nat): (others: set<nat>)
    requires n <= |players|
  {
    set i: nat | i < n && i != p && !players[i].bankrupt
  }

  lemma {:induction false} OthersCount(players: seq<Player>, p: nat, n: nat)
    requires n <= |players|
    ensures OthersUpTo(players, p, n) == |Others(players, p, n)|
  {
    if n == 0 {
      assert Others(players, p, 0) == {};
    } else {
      OthersCount(players, p, n - 1);
      if n - 1 == p || players[n - 1].bankrupt {
        assert Others(players, p, n) == Others(players, p, n - 1);
      } else {
        assert Others(players, p, n) == Others(players, p, n - 1) + {n - 1};
      }
    }
  }

  // ----- where a card sends the player

  /** The tile a card names, from `from` on a board of `n` tiles. */
  ghost predicate IsTarget(r: Rules, from: nat, effect: CardEffect, k: nat) {
    && from < |r.tiles| && k < |r.tiles|
    && match effect
       case MoveToTile(tile, _) => k == tile
       case MoveRelative(spaces) => exists laps: nat :: from + spaces + |r.tiles| == k + |r.tiles| * laps
       case MoveToNearest(kind, _) =>
         && r.tiles[k].HasKind(kind)
         && forall j: nat {:trigger r.tiles[j].HasKind(kind)} :: j < |r.tiles| && r.tiles[j].HasKind(kind) ==>
              Gap(|r.tiles|, from, k) <= Gap(|r.tiles|, from, j)
       case _ => false
  }

  predicate Moves(effect: CardEffect) {
    effect.MoveToTile? || effect.MoveRelative? || effect.MoveToNearest?
  }

  lemma TargetOutcome(r: Rules, from: nat, effect: CardEffect)
    requires ValidRules(r) && from < |r.tiles| && ValidEffect(r.tiles, effect) && Moves(effect)
    ensures CardTarget(r, from, effect).Ok? && IsTarget(r, from, effect, CardTarget(r, from, effect).value)
  {
    TargetExists(r, from, effect);
    var k := CardTarget(r, from, effect).value;
    match effect
    case MoveRelative(spaces) =>
      DivMod(from + spaces + |r.tiles|, |r.tiles|);
      var laps := (from + spaces + |r.tiles|) / |r.tiles|;
      assert from + spaces + |r.tiles| == k + |r.tiles| * laps;
    case MoveToNearest(kind, _) =>
      forall j: nat {:trigger r.tiles[j].HasKind(kind)} | j < |r.tiles| && r.tiles[j].HasKind(kind)
        ensures Gap(|r.tiles|, from, k) <= Gap(|r.tiles|, from, j)
      {
        NearestIsNearest(r, kind, from, j, 0);
      }
    case _ =>
  }

  /** The passing bonus is paid exactly when the card allows it and the target lies behind the player. */
  predicate BonusDue(effect: CardEffect, from: nat, k: nat) {
    k < from && ((effect.MoveToTile? && effect.collectPassGo) || (effect.MoveToNearest? && effect.collectPassGo))
  }

  /** Placed on tile `k`, with the bonus if it is due. */
  function Placed(r: Rules, s: State, p: nat, effect: CardEffect, k: nat): (s': State)
    requires s.HasPlayer(p)
  {
    s.(phase := AwaitingTurnEnd, pending := None,
       players := s.players[p := s.players[p].(position := k,
         cash := s.players[p].cash + if BonusDue(effect, s.players[p].position, k) then r.passGoCash else 0)])
  }

  /** What the tile a card sent the player to asks for: no further card is drawn there. */
  ghost predicate ArrivalSettled(r: Rules, s: State, p: nat, k: nat, dice: (int, int), s': State)
    requires Shape(r, s) && s.HasPlayer(p) && k < |r.tiles|
  {
    match r.tiles[k]
    case GoToJail => s' == Imprisoned(r, s, p)
    case Tax(amount) => s' == Charged(s, p, amount, TaxDue)
    case _ =>
      if r.Ownable(k) && s.props[k].owner.None? then s' == s.(phase := AwaitingDecision, pending := Some(k))
      else RentSettled(r, s, p, k, dice, s')
  }

  lemma ArrivalOutcome(r: Rules, s: State, p: nat, k: nat, dice: (int, int))
    requires Core(r, s) && s.HasPlayer(p) && k < |r.tiles| && dice.0 + dice.1 >= 0
    ensures Shape(r, s) && (ArriveByCard(r, s, p, k, dice).Ok? ==> ArrivalSettled(r, s, p, k, dice, ArriveByCard(r, s, p, k, dice).value))
  {
    hide PlayersOk, PropsOk, Discipline, CardsOk, ValidRules, PayRent, RentSettled;
    RentOutcome(r, s, p, k, dice);
  }

  lemma MoveIs(r: Rules, s: State, p: nat, effect: CardEffect, k: nat)
    requires Shape(r, s) && s.HasPlayer(p) && Moves(effect) && CardTarget(r, s.players[p].position, effect) == Ok(k) && s.lastDice.Some?
    ensures MoveByCard(r, s, p, effect) == ArriveByCard(r, Placed(r, s, p, effect, k), p, k, s.lastDice.value)
  {
    hide ValidRules, CardTarget, ArriveByCard;
    var player := s.players[p];
    var bonus := CollectsPassGo(effect) && k < player.position;
    var credited := if bonus then WithCash(s, p, player.cash + r.passGoCash) else s;
    assert credited.players[p := credited.players[p].(position := k)] == Placed(r, s, p, effect, k).players;
    assert WithPlayer(credited, p, credited.players[p].(position := k)).(phase := AwaitingTurnEnd, pending := None)
        == Placed(r, s, p, effect, k);
    assert bonus ==> Credit(s, p, r.passGoCash) == Ok(credited);
  }

  // ----- each effect

  /** Every other active player gave `amount`, or all they had, to `p`; no cash appeared or vanished. */
  predicate CollectedFromOthers(s: State, p: nat, amount: nat, s': State) {
    && CashMoved(s, s') && s.HasPlayer(p) && s'.players[p].cash >= s.players[p].cash
    && forall i :: 0 <= i < |s.players| && i != p ==>
         s'.players[i].cash
         == if s.players[i].bankrupt then s.players[i].cash
            else if s.players[i].cash < amount then 0
            else s.players[i].cash - amount
  }

  /** `p` paid `amount` to every other active player. */
  predicate PaidToOthers(s: State, p: nat, amount: nat, s': State) {
    && CashMoved(s, s') && s.HasPlayer(p)
    && s'.players[p].cash == s.players[p].cash - |Others(s.players, p, |s.players|)| * amount
    && forall i :: 0 <= i < |s.players| && i != p ==>
         s'.players[i].cash == s.players[i].cash + if s.players[i].bankrupt then 0 else amount
  }

  /** What a card with this effect does to the player who drew it. */
  ghost predicate EffectDone(r: Rules, s: State, p: nat, effect: CardEffect, card: CardKey, s': State)
    requires Shape(r, s) && s.HasPlayer(p) && s.lastDice.Some?
  {
    match effect
    case CollectMoney(amount) => s' == s.(players := s.players[p := s.players[p].(cash := s.players[p].cash + amount)])
    case PayMoney(amount) => s' == Charged(s, p, amount, Card)
    case SendToJail => s' == Imprisoned(r, s, p)
    case GetOutOfJailFree =>
      s' == s.(players := s.players[p := s.players[p].(jailCards := s.players[p].jailCards + 1,
                                                       jailCardKeys := s.players[p].jailCardKeys + [card])])
    case CollectFromEach(amount) => CollectedFromOthers(s, p, amount, s')
    case PayEach(amount) =>
      var total := |Others(s.players, p, |s.players|)| * amount;
      if total <= s.players[p].cash then PaidToOthers(s, p, amount, s') else s' == Charged(s, p, total, Card)
    case Repairs(house, hotel) =>
      s' == Charged(s, p, |Houses(s.props, p, |s.props|)| * house + |Hotels(s.props, p, |s.props|)| * hotel, Card)
    case _ =>
      exists k: nat {:trigger IsTarget(r, s.players[p].position, effect, k)} ::
        && IsTarget(r, s.players[p].position, effect, k)
        && ArrivalSettled(r, Placed(r, s, p, effect, k), p, k, s.lastDice.value, s')
  }

  lemma MoneyCards(r: Rules, s: State, p: nat, card: CardKey)
    requires Core(r, s) && s.HasPlayer(p) && r.HasCard(card) && s.lastDice.Some?
    ensures var effect := r.Deck(card.deck)[card.index];
            effect.CollectMoney? || effect.PayMoney? || effect.SendToJail? || effect.GetOutOfJailFree? ==>
              Shape(r, s) && ApplyCard(r, s, p, card).Ok? && EffectDone(r, s, p, effect, card, ApplyCard(r, s, p, card).value)
  {
    hide PlayersOk, PropsOk, Discipline, CardsOk, ValidRules;
  }

  lemma OthersCards(r: Rules, s: State, p: nat, card: CardKey)
    requires Core(r, s) && s.HasPlayer(p) && r.HasCard(card) && s.lastDice.Some?
    ensures var effect := r.Deck(card.deck)[card.index];
            effect.CollectFromEach? || effect.PayEach? ==>
              Shape(r, s) && ApplyCard(r, s, p, card).Ok? && EffectDone(r, s, p, effect, card, ApplyCard(r, s, p, card).value)
  {
    hide PropsOk, Discipline, CardsOk, ValidRules, CollectFrom, PayTo, OthersUpTo, Others, CashMoved, DueUpTo;
    assert forall i :: 0 <= i < |s.players| ==> PlayerOk(r, s.players[i]);
    match r.Deck(card.deck)[card.index]
    case CollectFromEach(amount) => CollectOutcome(s, p, amount, |s.players|);
    case PayEach(amount) =>
      OthersCount(s.players, p, |s.players|);
      DueIsProduct(s.players, p, amount, |s.players|);
      ProductNotNegative(|Others(s.players, p, |s.players|)|, amount);
      if s.players[p].cash >= OthersUpTo(s.players, p, |s.players|) * amount {
        PayEachOutcome(s, p, amount, |s.players|);
      }
    case _ =>
  }

  lemma RepairCards(r: Rules, s: State, p: nat, card: CardKey)
    requires Core(r, s) && s.HasPlayer(p) && r.HasCard(card) && s.lastDice.Some? && r.Deck(card.deck)[card.index].Repairs?
    ensures Shape(r, s) && ApplyCard(r, s, p, card).Ok?
    ensures EffectDone(r, s, p, r.Deck(card.deck)[card.index], card, ApplyCard(r, s, p, card).value)
  {
    hide PlayersOk, PropsOk, Discipline, CardsOk, ValidRules, RepairsUpTo, Houses, Hotels;
    var Repairs(house, hotel) := r.Deck(card.deck)[card.index];
    PlayerAt(r, s, p);
    forall k | 0 <= k < |s.props|
      ensures 0 <= s.props[k].houses <= 4
    {
      PropertyAt(r, s, k);
    }
    RepairsCount(s.props, p, house, hotel, |s.props|);
    RepairsNotNegative(r, s, p, house, hotel, |s.props|);
    assert s.players[p := s.players[p].(cash := s.players[p].cash - 0)] == s.players;
  }

  lemma MoveCards(r: Rules, s: State, p: nat, card: CardKey)
    requires Arrived(r, s, p) && r.HasCard(card) && Moves(r.Deck(card.deck)[card.index])
    ensures Shape(r, s) && ApplyCard(r, s, p, card).Ok?
    ensures EffectDone(r, s, p, r.Deck(card.deck)[card.index], card, ApplyCard(r, s, p, card).value)
  {
    hide PropsOk, Discipline, CardsOk, IsTarget, ArrivalSettled, CardTarget, ArriveByCard, MoveByCard, Placed, LandingFrame, Settled,
      BonusDue, ValidEffect;
    var effect := r.Deck(card.deck)[card.index];
    assert ValidDeck(r.tiles, r.Deck(card.deck));
    assert ValidEffect(r.tiles, effect);
    PlayerAt(r, s, p);
    TargetOutcome(r, s.players[p].position, effect);
    var k := CardTarget(r, s.players[p].position, effect).value;
    CardMoveLanded(r, s, p, effect);
    MoveIs(r, s, p, effect, k);
    PlacedCore(r, s, p, effect, k);
    ArrivalOutcome(r, Placed(r, s, p, effect, k), p, k, s.lastDice.value);
  }

  lemma PlacedCore(r: Rules, s: State, p: nat, effect: CardEffect, k: nat)
    requires Core(r, s) && s.HasPlayer(p) && k < |r.tiles|
    ensures Core(r, Placed(r, s, p, effect, k)) && Placed(r, s, p, effect, k).HasPlayer(p)
  {
    hide PropsOk, Discipline, CardsOk, ValidRules;
    PlayerAt(r, s, p);
    var s' := Placed(r, s, p, effect, k);
    PlayerUpdateCore(r, s, p, s'.players[p]);
    CoreFrame(r, WithPlayer(s, p, s'.players[p]), s');
  }

  /** Every card of either deck is accepted and does exactly what its effect says. */
  lemma CardOutcome(r: Rules, s: State, p: nat, card: CardKey)
    requires Arrived(r, s, p) && r.HasCard(card)
    ensures Shape(r, s) && ApplyCard(r, s, p, card).Ok?
    ensures EffectDone(r, s, p, r.Deck(card.deck)[card.index], card, ApplyCard(r, s, p, card).value)
  {
    hide Core, EffectDone, ApplyCard;
    match r.Deck(card.deck)[card.index]
    case CollectMoney(_) => MoneyCards(r, s, p, card);
    case PayMoney(_) => MoneyCards(r, s, p, card);
    case SendToJail => MoneyCards(r, s, p, card);
    case GetOutOfJailFree => MoneyCards(r, s, p, card);
    case CollectFromEach(_) => OthersCards(r, s, p, card);
    case PayEach(_) => OthersCards(r, s, p, card);
    case Repairs(_, _) => RepairCards(r, s, p, card);
    case _ => MoveCards(r, s, p, card);
  }

  /** Landing on a card tile: the first card of that deck's queue is drawn and does what its effect says. */
  lemma DrawnCardOutcome(r: Rules, s: State, p: nat, deck: DeckKey) returns (drawn: State, card: CardKey)
    requires Arrived(r, s, p)
    ensures Shape(r, s) && Shape(r, drawn) && DrawAndApply(r, s, p, deck).Ok? && r.HasCard(card) && drawn.HasPlayer(p)
    ensures |Queue(s.decks.Get(deck))| > 0 && card == Queue(s.decks.Get(deck))[0] && card.deck == deck
    ensures Queue(drawn.decks.Get(deck)) == Queue(s.decks.Get(deck))[1..] + (if r.IsJailCard(card) then [] else [card])
    ensures drawn == s.(decks := s.decks.Set(deck, drawn.decks.Get(deck))) && drawn.lastDice.Some?
    ensures EffectDone(r, drawn, p, r.Deck(deck)[card.index], card, DrawAndApply(r, s, p, deck).value)
  {
    hide PropsOk, Discipline, CardsOk, EffectDone, ApplyCard, DrawCard, Queue;
    assert forall i :: 0 <= i < |s.players| ==> PlayerOk(r, s.players[i]);
    DrawConserves(r, s, deck, p);
    DrawOutcome(r, s, deck);
    drawn, card := DrawCard(r, s, deck).value.state, DrawCard(r, s, deck).value.card;
    if r.IsJailCard(card) {
      JailCardKept(r, drawn, p, card);
    } else {
      CoreAfterDraw(r, s, drawn);
      CardOutcome(r, drawn, p, card);
    }
  }

  lemma CoreAfterDraw(r: Rules, s: State, drawn: State)
    requires Core(r, s) && drawn == s.(decks := drawn.decks) && CardsOk(r, s.players, drawn.decks)
    ensures Core(r, drawn)
  {}

  lemma JailCardKept(r: Rules, s: State, p: nat, card: CardKey)
    requires Shape(r, s) && s.HasPlayer(p) && r.IsJailCard(card) && s.lastDice.Some?
    ensures ApplyCard(r, s, p, card).Ok? && EffectDone(r, s, p, r.Deck(card.deck)[card.index], card, ApplyCard(r, s, p, card).value)
  {
    hide ValidRules;
  }
}
