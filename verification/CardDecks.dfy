/** Drawing cards and giving them back (game-engine-cards.ts). */
module CardDecks {
  import opened Rules
  import opened State

  datatype Drawn = Drawn(state: State, card: CardKey)

  /** An exhausted draw pile is replaced by the discard pile, in its order. */
  function DrawCard(r: Rules, s: State, deck: DeckKey): (res: Result<Drawn>) {
    var pile := s.decks.Get(deck);
    var draw := if |pile.draw| > 0 then pile.draw else pile.discard;
    var discard := if |pile.draw| > 0 then pile.discard else [];
    if |draw| == 0 then Err(CardDeckEmpty)
    else if !r.HasCard(draw[0]) then Err(CardNotFound)
    else
      var kept := if r.IsJailCard(draw[0]) then discard else discard + [draw[0]];
      Ok(Drawn(s.(decks := s.decks.Set(deck, Pile(draw[1..], kept))), draw[0]))
  }

  function ReturnJailCard(r: Rules, s: State, card: Option<CardKey>): (res: Result<State>) {
    var key := if card.Some? then card.value else r.fallbackJailCard;
    if !r.HasCard(key) then Err(CardNotFound)
    else
      var pile := s.decks.Get(key.deck);
      Ok(s.(decks := s.decks.Set(key.deck, pile.(discard := pile.discard + [key]))))
  }

  function ReturnJailCards(r: Rules, s: State, cards: seq<CardKey>): (res: Result<State>)
    decreases |cards|
  {
    if |cards| == 0 then Ok(s)
    else
      var returned :- ReturnJailCard(r, s, Some(cards[0]));
      ReturnJailCards(r, returned, cards[1..])
  }

  // ----- conservation of cards

  function Held(players: seq<Player>, n: nat): (cards: multiset<CardKey>)
    requires n <= |players|
  {
    if n == 0 then multiset{} else Held(players, n - 1) + multiset(players[n - 1].jailCardKeys)
  }

  function InPiles(decks: Decks, c: CardKey): (count: nat) {
    var pile := decks.Get(c.deck);
    multiset(pile.draw)[c] + multiset(pile.discard)[c]
  }

  function Places(players: seq<Player>, decks: Decks, c: CardKey): (count: nat) {
    InPiles(decks, c) + Held(players, |players|)[c]
  }

  predicate PileOf(deck: DeckKey, pile: Pile) {
    && (forall i :: 0 <= i < |pile.draw| ==> pile.draw[i].deck == deck)
    && (forall i :: 0 <= i < |pile.discard| ==> pile.discard[i].deck == deck)
  }

  /**
   Every card of the game is in exactly one place: one copy in its own deck's draw pile or
   discard pile, or in one player's hand; nothing else is anywhere.
   */
  ghost predicate CardsOk(r: Rules, players: seq<Player>, decks: Decks) {
    && PileOf(ChanceDeck, decks.chance)
    && PileOf(WorldFundDeck, decks.worldFund)
    && (forall c: CardKey :: Places(players, decks, c) == if r.HasCard(c) then 1 else 0)
  }

  lemma NobodyHeld(players: seq<Player>)
    ensures Held(players, 0) == multiset{}
  {}

  lemma HeldCount(players: seq<Player>, n: nat, c: CardKey)
    requires 0 < n <= |players|
    ensures Held(players, n)[c] == Held(players, n - 1)[c] + multiset(players[n - 1].jailCardKeys)[c]
  {}

  lemma {:induction false} HeldUpdate(players: seq<Player>, p: nat, player: Player, n: nat, c: CardKey)
    requires p < |players| && n <= |players|
    ensures Held(players[p := player], n)[c] + (if p < n then multiset(players[p].jailCardKeys)[c] else 0)
         == Held(players, n)[c] + (if p < n then multiset(player.jailCardKeys)[c] else 0)
  {
    hide Held;
    if n == 0 {
      NobodyHeld(players);
      NobodyHeld(players[p := player]);
    } else {
      HeldUpdate(players, p, player, n - 1, c);
      HeldCount(players, n, c);
      HeldCount(players[p := player], n, c);
    }
  }

  lemma {:induction false} HeldSame(players: seq<Player>, players': seq<Player>, n: nat)
    requires |players| == |players'| && n <= |players|
    requires forall i :: 0 <= i < |players| ==> players'[i].jailCardKeys == players[i].jailCardKeys
    ensures Held(players', n) == Held(players, n)
  {
    if n > 0 {
      HeldSame(players, players', n - 1);
    }
  }

  lemma CardsSame(r: Rules, players: seq<Player>, players': seq<Player>, decks: Decks)
    requires CardsOk(r, players, decks) && |players| == |players'|
    requires forall i :: 0 <= i < |players| ==> players'[i].jailCardKeys == players[i].jailCardKeys
    ensures CardsOk(r, players', decks)
  {
    HeldSame(players, players', |players|);
    assert forall c: CardKey :: Places(players', decks, c) == Places(players, decks, c);
  }

  predicate HoldsJailCards(r: Rules, keys: seq<CardKey>) {
    forall i :: 0 <= i < |keys| ==> r.IsJailCard(keys[i])
  }

  lemma {:induction false} HeldAreJailCards(r: Rules, players: seq<Player>, n: nat, c: CardKey)
    requires n <= |players| && forall i :: 0 <= i < |players| ==> HoldsJailCards(r, players[i].jailCardKeys)
    requires Held(players, n)[c] > 0
    ensures r.IsJailCard(c)
  {
    if multiset(players[n - 1].jailCardKeys)[c] > 0 {
      assert c in players[n - 1].jailCardKeys;
    } else {
      HeldAreJailCards(r, players, n - 1, c);
    }
  }

  function WithJailCard(player: Player, card: CardKey): (player': Player) {
    player.(jailCards := player.jailCards + 1, jailCardKeys := player.jailCardKeys + [card])
  }

  /**
   Drawing never meets an empty deck or an unknown card, takes a card of that deck, and keeps
   every card in one place once a drawn jail card is handed to the player who drew it.
   */
  lemma DrawConserves(r: Rules, s: State, deck: DeckKey, p: nat)
    requires ValidRules(r) && CardsOk(r, s.players, s.decks) && s.HasPlayer(p)
    requires forall i :: 0 <= i < |s.players| ==> HoldsJailCards(r, s.players[i].jailCardKeys)
    ensures DrawCard(r, s, deck).Ok?
    ensures var Drawn(s', card) := DrawCard(r, s, deck).value;
            && r.HasCard(card) && card.deck == deck
            && s' == s.(decks := s'.decks)
            && (if r.IsJailCard(card)
                then CardsOk(r, s.players[p := WithJailCard(s.players[p], card)], s'.decks)
                else CardsOk(r, s.players, s'.decks))
  {
    hide Places, PileOf, ValidRules, HoldsJailCards;
    DrawnDeckIsNotEmpty(r, s, deck);
    var pile := s.decks.Get(deck);
    var card := if |pile.draw| > 0 then pile.draw[0] else pile.discard[0];
    TopCardIsKnown(r, s, deck);
    var decks' := DrawCard(r, s, deck).value.state.decks;
    DrawnPileOf(r, s, deck);
    assert PileOf(ChanceDeck, decks'.chance) && PileOf(WorldFundDeck, decks'.worldFund);
    forall c: CardKey
      ensures r.IsJailCard(card) ==>
                Places(s.players[p := WithJailCard(s.players[p], card)], decks', c) == Places(s.players, s.decks, c)
      ensures !r.IsJailCard(card) ==> Places(s.players, decks', c) == Places(s.players, s.decks, c)
    {
      DrawnPlaces(r, s, deck, p, c);
    }
  }

  lemma DrawnPlaces(r: Rules, s: State, deck: DeckKey, p: nat, c: CardKey)
    requires DrawCard(r, s, deck).Ok? && DrawCard(r, s, deck).value.card.deck == deck && s.HasPlayer(p)
    ensures var Drawn(s', card) := DrawCard(r, s, deck).value;
            if r.IsJailCard(card)
            then Places(s.players[p := WithJailCard(s.players[p], card)], s'.decks, c) == Places(s.players, s.decks, c)
            else Places(s.players, s'.decks, c) == Places(s.players, s.decks, c)
  {
    hide InPiles, Held, DrawCard;
    DrawnPiles(r, s, deck, c);
    HandedCard(s.players, p, DrawCard(r, s, deck).value.card, c);
  }

  lemma HandedCard(players: seq<Player>, p: nat, card: CardKey, c: CardKey)
    requires p < |players|
    ensures Held(players[p := WithJailCard(players[p], card)], |players|)[c]
         == Held(players, |players|)[c] + if c == card then 1 else 0
  {
    var keys := players[p].jailCardKeys;
    assert multiset(keys + [card]) == multiset(keys) + multiset{card};
    HeldUpdate(players, p, WithJailCard(players[p], card), |players|, c);
  }

  lemma DrawnPileOf(r: Rules, s: State, deck: DeckKey)
    requires PileOf(deck, s.decks.Get(deck)) && DrawCard(r, s, deck).Ok?
    ensures PileOf(deck, DrawCard(r, s, deck).value.state.decks.Get(deck))
  {}

  lemma TopCardIsKnown(r: Rules, s: State, deck: DeckKey)
    requires CardsOk(r, s.players, s.decks)
    requires |s.decks.Get(deck).draw| + |s.decks.Get(deck).discard| > 0
    ensures var pile := s.decks.Get(deck);
            var card := if |pile.draw| > 0 then pile.draw[0] else pile.discard[0];
            card.deck == deck && r.HasCard(card)
  {
    var pile := s.decks.Get(deck);
    var card := if |pile.draw| > 0 then pile.draw[0] else pile.discard[0];
    assert PileOf(deck, pile);
    assert card in multiset(pile.draw) || card in multiset(pile.discard);
    assert Places(s.players, s.decks, card) > 0;
  }

  /** Over the two piles together only a jail card goes missing when it is drawn. */
  lemma DrawnPiles(r: Rules, s: State, deck: DeckKey, c: CardKey)
    requires DrawCard(r, s, deck).Ok?
    requires DrawCard(r, s, deck).value.card.deck == deck
    ensures var Drawn(s', card) := DrawCard(r, s, deck).value;
            InPiles(s'.decks, c) + (if r.IsJailCard(card) && c == card then 1 else 0) == InPiles(s.decks, c)
  {
    var pile := s.decks.Get(deck);
    var draw := if |pile.draw| > 0 then pile.draw else pile.discard;
    var discard := if |pile.draw| > 0 then pile.discard else [];
    CountTop(draw, c);
    CountPut(discard, draw[0], c);
  }

  lemma CountTop(cards: seq<CardKey>, c: CardKey)
    requires |cards| > 0
    ensures multiset(cards)[c] == multiset(cards[1..])[c] + if c == cards[0] then 1 else 0
  {
    assert cards == [cards[0]] + cards[1..];
  }

  lemma CountPut(cards: seq<CardKey>, card: CardKey, c: CardKey)
    ensures multiset(cards + [card])[c] == multiset(cards)[c] + if c == card then 1 else 0
  {}

  lemma DrawnDeckIsNotEmpty(r: Rules, s: State, deck: DeckKey)
    requires ValidRules(r) && CardsOk(r, s.players, s.decks)
    requires forall i :: 0 <= i < |s.players| ==> HoldsJailCards(r, s.players[i].jailCardKeys)
    ensures |s.decks.Get(deck).draw| + |s.decks.Get(deck).discard| > 0
  {
    assert ValidDeck(r.tiles, r.Deck(deck));
    var i :| 0 <= i < |r.Deck(deck)| && !r.Deck(deck)[i].GetOutOfJailFree?;
    var c := CardKey(deck, i);
    assert Places(s.players, s.decks, c) == 1;
    if Held(s.players, |s.players|)[c] > 0 {
      HeldAreJailCards(r, s.players, |s.players|, c);
    }
    var pile := s.decks.Get(deck);
    assert c in pile.draw || c in pile.discard;
  }

  lemma ReturnedPiles(r: Rules, s: State, card: CardKey, c: CardKey)
    requires r.HasCard(card)
    ensures InPiles(ReturnJailCard(r, s, Some(card)).value.decks, c) == InPiles(s.decks, c) + if c == card then 1 else 0
  {
    var discard := s.decks.Get(card.deck).discard;
    assert multiset(discard + [card]) == multiset(discard) + multiset{card};
  }

  /** Giving back the first card of a hand keeps every card in one place. */
  lemma ReturnConserves(r: Rules, s: State, p: nat, player: Player)
    requires CardsOk(r, s.players, s.decks) && s.HasPlayer(p) && |s.players[p].jailCardKeys| > 0
    requires HoldsJailCards(r, s.players[p].jailCardKeys)
    requires player.jailCardKeys == s.players[p].jailCardKeys[1..]
    ensures var res := ReturnJailCard(r, s, Some(s.players[p].jailCardKeys[0]));
            && res.Ok? && res.value == s.(decks := res.value.decks)
            && CardsOk(r, s.players[p := player], res.value.decks)
  {
    hide Places;
    var card := s.players[p].jailCardKeys[0];
    assert r.IsJailCard(card);
    assert s.players[p].jailCardKeys == [card] + player.jailCardKeys;
    var decks' := ReturnJailCard(r, s, Some(card)).value.decks;
    assert PileOf(card.deck, s.decks.Get(card.deck));
    assert PileOf(card.deck, decks'.Get(card.deck));
    forall c: CardKey
      ensures Places(s.players[p := player], decks', c) == Places(s.players, s.decks, c)
    {
      ReturnedPlaces(r, s, p, player, card, c);
    }
  }

  lemma ReturnedPlaces(r: Rules, s: State, p: nat, player: Player, card: CardKey, c: CardKey)
    requires s.HasPlayer(p) && r.HasCard(card) && s.players[p].jailCardKeys == [card] + player.jailCardKeys
    ensures Places(s.players[p := player], ReturnJailCard(r, s, Some(card)).value.decks, c) == Places(s.players, s.decks, c)
  {
    hide Held, InPiles;
    assert multiset(s.players[p].jailCardKeys) == multiset{card} + multiset(player.jailCardKeys);
    ReturnedPiles(r, s, card, c);
    HeldUpdate(s.players, p, player, |s.players|, c);
  }

  /** Giving back a whole hand, as bankruptcy does. */
  lemma {:induction false} ReturnAllConserves(r: Rules, s: State, p: nat, player: Player)
    requires CardsOk(r, s.players, s.decks) && s.HasPlayer(p)
    requires HoldsJailCards(r, s.players[p].jailCardKeys) && player.jailCardKeys == []
    ensures var res := ReturnJailCards(r, s, s.players[p].jailCardKeys);
            && res.Ok? && res.value == s.(decks := res.value.decks)
            && CardsOk(r, s.players[p := player], res.value.decks)
    decreases |s.players[p].jailCardKeys|
  {
    var keys := s.players[p].jailCardKeys;
    if |keys| == 0 {
      CardsSame(r, s.players, s.players[p := player], s.decks);
    } else {
      var rest := s.players[p].(jailCardKeys := keys[1..]);
      ReturnConserves(r, s, p, rest);
      var decks' := ReturnJailCard(r, s, Some(keys[0])).value.decks;
      var s' := s.(players := s.players[p := rest], decks := decks');
      ReturnAllConserves(r, s', p, player);
      assert s'.players[p := player] == s.players[p := player];
      ReturnIgnoresPlayers(r, s', s.(decks := decks'), keys[1..]);
    }
  }

  lemma {:induction false} ReturnIgnoresPlayers(r: Rules, a: State, b: State, cards: seq<CardKey>)
    requires a.decks == b.decks && forall i :: 0 <= i < |cards| ==> r.HasCard(cards[i])
    ensures ReturnJailCards(r, a, cards).Ok? && ReturnJailCards(r, b, cards).Ok?
    ensures ReturnJailCards(r, a, cards).value == a.(decks := ReturnJailCards(r, a, cards).value.decks)
    ensures ReturnJailCards(r, b, cards).value == b.(decks := ReturnJailCards(r, a, cards).value.decks)
    decreases |cards|
  {
    if |cards| > 0 {
      ReturnIgnoresPlayers(r, ReturnJailCard(r, a, Some(cards[0])).value,
                           ReturnJailCard(r, b, Some(cards[0])).value, cards[1..]);
    }
  }
}
