/** Seeded shuffling of the two decks (game-engine-cards.ts). */
module Shuffle {
  import opened Rules
  import opened State
  import opened CardDecks

  /** Seeds are strings of 16-bit code units. */
  type Seed = seq<bv16>

  // ----- the random source: 32-bit arithmetic that wraps

  function Mix(value: bv32, unit: bv32): (mixed: bv32) {
    value ^ unit
  }

  /** The factor of the hash is odd, so that multiplying by it can be undone. */
  function Multiply(value: bv32): (product: bv32)
    ensures Divide(product) == value
  {
    FactorInverts(value);
    value * 16777619
  }

  lemma FactorInverts(value: bv32)
    ensures Divide(value * 16777619) == value
  {}

  function Divide(product: bv32): (value: bv32) {
    product * 899433627
  }

  function Widen(unit: bv16): (wide: bv32) {
    unit as bv32
  }

  function HashStep(value: bv32, unit: bv16): (next: bv32) {
    Multiply(Mix(value, Widen(unit)))
  }

  function SeedHash(seed: Seed, n: nat): (value: bv32)
    requires n <= |seed|
  {
    if n == 0 then 2166136261 else HashStep(SeedHash(seed, n - 1), seed[n - 1])
  }

  method CreateSeededRandom(seed: Seed) returns (value: bv32)
    ensures value == SeedHash(seed, |seed|)
  {
    value := 2166136261;
    for i := 0 to |seed|
      invariant value == SeedHash(seed, i)
    {
      value := HashStep(value, seed[i]);
    }
  }

  // the three shifts of the random source, each of which can be undone

  function Left13(x: bv32): (y: bv32)
    ensures UndoLeft13(y) == x
  {
    Left13Undone(x);
    x ^ (x << 13)
  }

  lemma Left13Undone(x: bv32)
    ensures UndoLeft13(x ^ (x << 13)) == x
  {}

  function UndoLeft13(y: bv32): (x: bv32) {
    y ^ (y << 13) ^ (y << 26)
  }

  function Right17(x: bv32): (y: bv32)
    ensures UndoRight17(y) == x
  {
    Right17Undone(x);
    x ^ (x >> 17)
  }

  lemma Right17Undone(x: bv32)
    ensures UndoRight17(x ^ (x >> 17)) == x
  {}

  function UndoRight17(y: bv32): (x: bv32) {
    y ^ (y >> 17)
  }

  function Left5(x: bv32): (y: bv32)
    ensures UndoLeft5(y) == x
  {
    Left5Undone(x);
    x ^ (x << 5)
  }

  lemma Left5Undone(x: bv32)
    ensures UndoLeft5(x ^ (x << 5)) == x
  {}

  function UndoLeft5(y: bv32): (x: bv32) {
    y ^ (y << 5) ^ (y << 10) ^ (y << 15) ^ (y << 20) ^ (y << 25) ^ (y << 30)
  }

  function NextRandom(value: bv32): (next: bv32)
    ensures UndoLeft13(UndoRight17(UndoLeft5(next))) == value
  {
    Left5(Right17(Left13(value)))
  }

  // ----- nothing is lost along the way

  lemma MixInverts(a: bv32, x: bv32)
    ensures Mix(Mix(a, x), x) == a && Mix(a, Mix(a, x)) == x
  {}

  function Narrow(wide: bv32): (unit: bv16) {
    (wide & 0xFFFF) as bv16
  }

  lemma WidenInverts(u: bv16)
    ensures Narrow(Widen(u)) == u
  {}

  /** A step of the hash loses nothing: from its result and either input the other can be recovered. */
  lemma HashStepLosesNothing(a: bv32, b: bv32, u: bv16, v: bv16)
    requires HashStep(a, u) == HashStep(b, v)
    ensures a == b <==> u == v
  {
    hide Mix, Multiply, Divide, Widen, Narrow;
    MixInverts(a, Widen(u));
    MixInverts(b, Widen(v));
    WidenInverts(u);
    WidenInverts(v);
  }

  /** `seed` and `other` differ in exactly one code unit, at `at`. */
  predicate DifferAt(seed: Seed, other: Seed, at: nat) {
    && |seed| == |other| && at < |seed| && seed[at] != other[at]
    && forall i :: 0 <= i < |seed| && i != at ==> seed[i] == other[i]
  }

  lemma {:induction false} SeedHashDiffers(seed: Seed, other: Seed, at: nat, n: nat)
    requires DifferAt(seed, other, at) && n <= |seed|
    ensures SeedHash(seed, n) == SeedHash(other, n) <==> n <= at
  {
    hide HashStep;
    if n > 0 {
      SeedHashDiffers(seed, other, at, n - 1);
      var a, b := SeedHash(seed, n - 1), SeedHash(other, n - 1);
      if HashStep(a, seed[n - 1]) == HashStep(b, other[n - 1]) {
        HashStepLosesNothing(a, b, seed[n - 1], other[n - 1]);
      }
    }
  }

  /** The random value in use at the round `round` of a shuffle. */
  function RandomAt(random: bv32, round: nat): (value: bv32) {
    if round == 0 then random else NextRandom(RandomAt(random, round - 1))
  }

  lemma {:induction false} RandomStaysApart(a: bv32, b: bv32, round: nat)
    requires a != b
    ensures RandomAt(a, round) != RandomAt(b, round)
  {
    hide NextRandom, UndoLeft13, UndoRight17, UndoLeft5;
    if round > 0 {
      RandomStaysApart(a, b, round - 1);
    }
  }

  /** Seeds that differ in a single code unit never draw the same random value in the same round. */
  lemma OneChangeChangesEveryRound(seed: Seed, other: Seed, at: nat, round: nat)
    requires DifferAt(seed, other, at)
    ensures RandomAt(SeedHash(seed, |seed|), round) != RandomAt(SeedHash(other, |other|), round)
  {
    SeedHashDiffers(seed, other, at, |seed|);
    RandomStaysApart(SeedHash(seed, |seed|), SeedHash(other, |other|), round);
  }

  // ----- the shuffle

  function Swap<T>(values: seq<T>, i: nat, j: nat): (swapped: seq<T>)
    requires i < |values| && j < |values|
    ensures |swapped| == |values|
  {
    values[i := values[j]][j := values[i]]
  }

  /** The rounds for positions `index`, `index - 1`, ..., 1. */
  function Shuffled<T>(values: seq<T>, random: bv32, index: nat): (shuffled: seq<T>)
    requires index < |values| || index == 0
    decreases index
  {
    if index == 0 then values
    else
      var next := NextRandom(random);
      Shuffled(Swap(values, index, (next as nat) % (index + 1)), next, index - 1)
  }

  method ShuffleInPlace<T>(values: array<T>, seed: Seed)
    modifies values
    ensures values[..] == Shuffled(old(values[..]), SeedHash(seed, |seed|), if values.Length == 0 then 0 else values.Length - 1)
    ensures multiset(values[..]) == multiset(old(values[..]))
  {
    ghost var before := values[..];
    var random := CreateSeededRandom(seed);
    if values.Length == 0 {
      return;
    }
    var index := values.Length - 1;
    while index > 0
      invariant 0 <= index < values.Length
      invariant Shuffled(values[..], random, index) == Shuffled(before, SeedHash(seed, |seed|), values.Length - 1)
      decreases index
    {
      random := NextRandom(random);
      var swapIndex := (random as nat) % (index + 1);
      ghost var round := values[..];
      values[index], values[swapIndex] := values[swapIndex], values[index];
      assert values[..] == Swap(round, index, swapIndex);
      index := index - 1;
    }
    ShufflePermutes(before, SeedHash(seed, |seed|), values.Length - 1);
  }

  lemma SwapPermutes<T>(values: seq<T>, i: nat, j: nat)
    requires i < |values| && j < |values|
    ensures multiset(Swap(values, i, j)) == multiset(values)
  {}

  /** Whatever the seed, shuffling only reorders. */
  lemma {:induction false} ShufflePermutes<T>(values: seq<T>, random: bv32, index: nat)
    requires index < |values| || index == 0
    ensures multiset(Shuffled(values, random, index)) == multiset(values)
    decreases index
  {
    if index > 0 {
      var next := NextRandom(random);
      var swap := (next as nat) % (index + 1);
      SwapPermutes(values, index, swap);
      ShufflePermutes(Swap(values, index, swap), next, index - 1);
    }
  }

  // ----- the decks of a new game

  const CHANCE_SUFFIX: Seed := [58, 99, 104, 97, 110, 99, 101]
  const WORLD_FUND_SUFFIX: Seed := [58, 119, 111, 114, 108, 100, 95, 102, 117, 110, 100]

  function Catalogue(deck: DeckKey, n: nat): (cards: seq<CardKey>)
    ensures |cards| == n
  {
    if n == 0 then [] else Catalogue(deck, n - 1) + [CardKey(deck, n - 1)]
  }

  /** An empty seed leaves the catalogue order. */
  function InitialPile(r: Rules, deck: DeckKey, seed: Seed): (pile: Pile) {
    var cards := Catalogue(deck, |r.Deck(deck)|);
    var text := seed + if deck == ChanceDeck then CHANCE_SUFFIX else WORLD_FUND_SUFFIX;
    Pile(if seed == [] then cards
         else Shuffled(cards, SeedHash(text, |text|), if |cards| == 0 then 0 else |cards| - 1), [])
  }

  function InitialDecks(r: Rules, seed: Seed): (decks: Decks) {
    Decks(InitialPile(r, ChanceDeck, seed), InitialPile(r, WorldFundDeck, seed))
  }

  lemma {:induction false} CatalogueCount(deck: DeckKey, n: nat, c: CardKey)
    ensures multiset(Catalogue(deck, n))[c] == if c.deck == deck && c.index < n then 1 else 0
  {
    if n > 0 {
      CatalogueCount(deck, n - 1, c);
    }
  }

  lemma InitialPileIs(r: Rules, deck: DeckKey, seed: Seed)
    ensures multiset(InitialPile(r, deck, seed).draw) == multiset(Catalogue(deck, |r.Deck(deck)|))
    ensures InitialPile(r, deck, seed).discard == []
    ensures PileOf(deck, InitialPile(r, deck, seed))
  {
    var cards := Catalogue(deck, |r.Deck(deck)|);
    var text := seed + if deck == ChanceDeck then CHANCE_SUFFIX else WORLD_FUND_SUFFIX;
    ShufflePermutes(cards, SeedHash(text, |text|), if |cards| == 0 then 0 else |cards| - 1);
    var draw := InitialPile(r, deck, seed).draw;
    forall i | 0 <= i < |draw|
      ensures draw[i].deck == deck
    {
      assert draw[i] in multiset(draw);
      CatalogueCount(deck, |r.Deck(deck)|, draw[i]);
    }
  }

  lemma {:induction false} NobodyHolds(players: seq<Player>, n: nat)
    requires n <= |players| && forall i :: 0 <= i < |players| ==> players[i].jailCardKeys == []
    ensures Held(players, n) == multiset{}
  {
    if n > 0 {
      NobodyHolds(players, n - 1);
    }
  }

  /** For every seed, a new game has every card exactly once. */
  lemma InitialCards(r: Rules, players: seq<Player>, seed: Seed)
    requires forall i :: 0 <= i < |players| ==> players[i].jailCardKeys == []
    ensures CardsOk(r, players, InitialDecks(r, seed))
  {
    hide InitialPile, PileOf, Places, Held;
    InitialPileIs(r, ChanceDeck, seed);
    InitialPileIs(r, WorldFundDeck, seed);
    NobodyHolds(players, |players|);
    forall c: CardKey
      ensures Places(players, InitialDecks(r, seed), c) == if r.HasCard(c) then 1 else 0
    {
      InitialPlaces(r, players, seed, c);
    }
  }

  lemma InitialPlaces(r: Rules, players: seq<Player>, seed: Seed, c: CardKey)
    requires Held(players, |players|) == multiset{}
    ensures Places(players, InitialDecks(r, seed), c) == if r.HasCard(c) then 1 else 0
  {
    hide InitialPile, Catalogue, Held;
    InitialPileIs(r, c.deck, seed);
    CatalogueCount(c.deck, |r.Deck(c.deck)|, c);
  }
}
