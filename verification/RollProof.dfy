/** A dice roll is always resolved, and whatever it sets off keeps the invariant. */
module RollProof {
  import opened Rules
  import opened State
  import opened Money
  import opened CardDecks
  import opened Landing
  import opened AuctionRounds
  import opened Invariant

  /** A debt a landing leaves behind: owed by the roller, to the bank or to another active player. */
  predicate FreshDebt(s: State, p: nat) {
    && s.debt.Some? && s.debt.value.player == p && s.HasPlayer(p)
    && s.debt.value.amount > s.players[p].cash
    && (s.debt.value.creditor.Some? ==>
          var c := s.debt.value.creditor.value;
          c != p && s.HasPlayer(c) && !s.players[c].bankrupt)
  }

  predicate Settled(r: Rules, s: State, p: nat) {
    && s.auction.None?
    && (|| (s.phase == AwaitingTurnEnd && s.pending.None? && s.debt.None?)
        || (s.phase == AwaitingDecision && s.debt.None? && s.pending.Some? && BuyableTile(r, s, s.pending.value))
        || (s.phase == AwaitingDebt && s.pending.None? && !s.playAgain && FreshDebt(s, p)))
  }

  /** Jail terms stay, or a new term starts. */
  predicate JailKept(players: seq<Player>, players': seq<Player>) {
    && |players'| == |players|
    && forall i :: 0 <= i < |players| ==>
         || (players'[i].inJail == players[i].inJail && players'[i].jailTurns == players[i].jailTurns)
         || (players'[i].inJail && players'[i].jailTurns == 0)
  }

  /** The count of missed turns is not the engine's business. */
  predicate SameMissed(players: seq<Player>, players': seq<Player>) {
    && |players'| == |players|
    && forall i :: 0 <= i < |players| ==>
         players'[i].missedTurns == players[i].missedTurns && players'[i].lastMissedTurn == players[i].lastMissedTurn
  }

  /** What resolving a landing may change. */
  predicate LandingFrame(s: State, s': State) {
    && SameRoster(s.players, s'.players)
    && JailKept(s.players, s'.players) && SameMissed(s.players, s'.players)
    && s'.props == s.props
    && s'.turn == s.turn && s'.current == s.current && s'.trade == s.trade && s'.expiresAt == s.expiresAt
    && s'.doubles <= s.doubles
    && (s'.playAgain ==> s.playAgain && s'.doubles == s.doubles)
  }

  /** Unless the roller ends up in jail or in debt, the count of doubles and the right to roll again stay. */
  predicate DoublesKept(s: State, s': State, p: nat) {
    || s'.phase == AwaitingDebt
    || (s'.HasPlayer(p) && s'.players[p].inJail)
    || (s'.doubles == s.doubles && s'.playAgain == s.playAgain)
  }

  ghost predicate Landed(r: Rules, s: State, s': State, p: nat) {
    Core(r, s') && LandingFrame(s, s') && DoublesKept(s, s', p) && Settled(r, s', p)
  }

  /** The state a landing starts from: the roller has moved and nothing is open. */
  ghost predicate Arrived(r: Rules, s: State, p: nat) {
    && Core(r, s) && s.HasPlayer(p) && s.auction.None? && s.debt.None?
    && s.phase == AwaitingTurnEnd && s.pending.None?
    && s.lastDice.Some? && s.lastDice.value.0 + s.lastDice.value.1 >= 0
  }

  lemma LandedTrans(r: Rules, a: State, b: State, c: State, p: nat)
    requires LandingFrame(a, b) && b.doubles == a.doubles && b.playAgain == a.playAgain && Landed(r, b, c, p)
    ensures Landed(r, a, c, p)
  {}

  lemma FrameTrans(a: State, b: State, c: State)
    requires LandingFrame(a, b) && LandingFrame(b, c)
    ensures LandingFrame(a, c)
  {}

  // ----- jail, payments, rent and tax

  lemma JailLanded(r: Rules, s: State, p: nat)
    requires Core(r, s) && s.HasPlayer(p) && s.auction.None? && s.debt.None?
    ensures Landed(r, s, SendPlayerToJail(r, s, p), p)
  {
    hide PropsOk, Discipline, CardsOk;
    var player := s.players[p].(position := r.jailPosition, inJail := true, jailTurns := 0);
    assert PlayerOk(r, s.players[p]);
    PlayerUpdateCore(r, s, p, player);
    CoreFrame(r, WithPlayer(s, p, player), SendPlayerToJail(r, s, p));
  }

  lemma DebitLanded(r: Rules, s: State, p: nat, amount: int, reason: DebtReason)
    requires Arrived(r, s, p) && amount >= 0
    ensures DebitOrDebt(s, p, amount, reason).Ok?
    ensures Landed(r, s, DebitOrDebt(s, p, amount, reason).value.state, p)
  {
    hide PropsOk, Discipline, CardsOk;

    assert PlayerOk(r, s.players[p]);
    if s.players[p].cash >= amount {
      CashCore(r, s, p, s.players[p].cash - amount);
    } else {
      CoreFrame(r, s, CreateDebt(s, Debt(p, None, amount, reason)));
    }
  }

  lemma CreditLanded(r: Rules, s: State, p: nat, amount: nat)
    requires Arrived(r, s, p)
    ensures Credit(s, p, amount).Ok?
    ensures Landed(r, s, Credit(s, p, amount).value, p) && Arrived(r, Credit(s, p, amount).value, p)
  {
    hide PropsOk, Discipline, CardsOk;
    assert PlayerOk(r, s.players[p]);
    CashCore(r, s, p, s.players[p].cash + amount);
  }

  lemma TransferCore(r: Rules, s: State, from: nat, to: nat, amount: int)
    requires Core(r, s) && s.HasPlayer(from) && s.HasPlayer(to) && 0 <= amount <= s.players[from].cash
    ensures Transfer(s, from, to, amount).Ok?
    ensures var s' := Transfer(s, from, to, amount).value;
            Core(r, s') && SameRoster(s.players, s'.players) && s' == s.(players := s'.players)
  {
    hide PropsOk, Discipline, CardsOk;
    var debited := WithCash(s, from, s.players[from].cash - amount);
    CashCore(r, s, from, s.players[from].cash - amount);
    assert PlayerOk(r, debited.players[to]);
    CashCore(r, debited, to, debited.players[to].cash + amount);
  }

  lemma RentIsNotNegative(r: Rules, s: State, k: nat, dice: (int, int))
    requires Shape(r, s) && r.Ownable(k) && dice.0 + dice.1 >= 0
    ensures CalculateRent(r, s, k, dice) >= 0
  {
    if r.tiles[k].Utility? {
      assert ValidTile(r.tiles[k]);
      var m := AtOrFirst(r.tiles[k].multiplierByOwned,
                         CountOwned(r, s, UtilityKind, s.props[k].owner, |r.tiles|) - 1);
      assert (dice.0 + dice.1) * m >= 0;
    }
  }

  lemma RentLanded(r: Rules, s: State, p: nat, k: nat, dice: (int, int))
    requires Arrived(r, s, p) && dice.0 + dice.1 >= 0
    ensures PayRent(r, s, p, k, dice).Ok?
    ensures Landed(r, s, PayRent(r, s, p, k, dice).value, p)
  {
    hide PlayersOk, PropsOk, Discipline, CardsOk, ValidRules, CalculateRent;
    if HasProperty(r, s, k) && s.props[k].owner.Some? && s.props[k].owner != Some(p) && !s.props[k].mortgaged {
      PropertyAt(r, s, k);
      RentIsNotNegative(r, s, k, dice);
      var amount := CalculateRent(r, s, k, dice);
      var owner := s.props[k].owner.value;
      if s.players[p].cash >= amount {
        TransferCore(r, s, p, owner, amount);
      } else {
        CoreFrame(r, s, CreateDebt(s, Debt(p, Some(owner), amount, Rent)));
      }
    }
  }

  lemma TaxLanded(r: Rules, s: State, p: nat, k: nat)
    requires Arrived(r, s, p) && k < |r.tiles| && r.tiles[k].Tax?
    ensures PayTax(r, s, p, k).Ok? && Landed(r, s, PayTax(r, s, p, k).value, p)
  {
    hide PropsOk, Discipline, CardsOk;
    DebitLanded(r, s, p, r.tiles[k].amount, TaxDue);
  }

  // ----- the pay-each and collect-from-each folds

  /** Cash after the first `n` others have paid: only cash moves, none is lost, nobody goes below zero. */
  predicate CashMoved(s: State, s': State) {
    && s' == s.(players := s'.players)
    && |s'.players| == |s.players|
    && (forall i :: 0 <= i < |s.players| ==> s'.players[i] == s.players[i].(cash := s'.players[i].cash))
    && TotalCash(s'.players) == TotalCash(s.players)
  }

  lemma NothingMoved(s: State)
    ensures CashMoved(s, s)
  {}

  lemma MovedPlayers(s: State, s': State)
    requires CashMoved(s, s')
    ensures |s'.players| == |s.players|
  {}

  lemma CashMovedStep(s: State, s1: State, from: nat, to: nat, amount: int)
    requires CashMoved(s, s1) && s.HasPlayer(from) && s.HasPlayer(to) && from != to
    requires 0 <= amount <= s1.players[from].cash
    ensures Transfer(s1, from, to, amount).Ok?
    ensures var s2 := Transfer(s1, from, to, amount).value;
            && CashMoved(s, s2)
            && s2.players[from].cash == s1.players[from].cash - amount
            && s2.players[to].cash == s1.players[to].cash + amount
            && (forall i :: 0 <= i < |s.players| && i != from && i != to ==> s2.players[i] == s1.players[i])
  {
    TransferConserves(s1, from, to, amount);
  }

  lemma {:induction false} CollectOutcome(s: State, p: nat, amount: nat, n: nat)
    requires s.HasPlayer(p) && n <= |s.players| && forall i :: 0 <= i < |s.players| ==> s.players[i].cash >= 0
    ensures CollectFrom(s, s.players, p, amount, n).Ok?
    ensures var s' := CollectFrom(s, s.players, p, amount, n).value;
            && CashMoved(s, s')
            && s'.players[p].cash >= s.players[p].cash
            && (forall i :: 0 <= i < |s.players| && i != p ==>
                  s'.players[i].cash
                  == if i < n && !s.players[i].bankrupt
                     then s.players[i].cash - (if s.players[i].cash < amount then s.players[i].cash else amount)
                     else s.players[i].cash)
  {
    hide TotalCash, Transfer;
    if n > 0 {
      CollectOutcome(s, p, amount, n - 1);
      var s1 := CollectFrom(s, s.players, p, amount, n - 1).value;
      var other := s.players[n - 1];
      if n - 1 != p && !other.bankrupt {
        var due := if other.cash < amount then other.cash else amount;
        assert s1.players[n - 1].cash == other.cash;
        CashMovedStep(s, s1, n - 1, p, due);
      }
    }
  }

  /** What the first `n` others are owed when each of them gets `amount`. */
  function DueUpTo(players: seq<Player>, p: nat, amount: nat, n: nat): (due: nat)
    requires n <= |players|
  {
    if n == 0 then 0
    else DueUpTo(players, p, amount, n - 1) + if n - 1 == p || players[n - 1].bankrupt then 0 else amount
  }

  lemma {:induction false} DueIsProduct(players: seq<Player>, p: nat, amount: nat, n: nat)
    requires n <= |players|
    ensures DueUpTo(players, p, amount, n) == OthersUpTo(players, p, n) * amount
  {
    if n > 0 {
      DueIsProduct(players, p, amount, n - 1);
      var count := OthersUpTo(players, p, n - 1);
      assert (count + 1) * amount == count * amount + amount;
    }
  }

  lemma {:induction false} PayEachOutcome(s: State, p: nat, amount: nat, n: nat)
    requires s.HasPlayer(p) && n <= |s.players|
    requires s.players[p].cash >= DueUpTo(s.players, p, amount, n)
    ensures PayTo(s, s.players, p, amount, n).Ok?
    ensures var s' := PayTo(s, s.players, p, amount, n).value;
            && CashMoved(s, s')
            && s'.players[p].cash == s.players[p].cash - DueUpTo(s.players, p, amount, n)
            && (forall i :: 0 <= i < |s.players| && i != p ==>
                  s'.players[i].cash == s.players[i].cash + if i < n && !s.players[i].bankrupt then amount else 0)
  {
    hide TotalCash, Transfer, CashMoved;
    if n == 0 {
      NothingMoved(s);
    } else {
      PayEachOutcome(s, p, amount, n - 1);
      var s1 := PayTo(s, s.players, p, amount, n - 1).value;
      MovedPlayers(s, s1);
      if n - 1 != p && !s.players[n - 1].bankrupt {
        CashMovedStep(s, s1, p, n - 1, amount);
      }
    }
  }

  lemma CashMovedLanded(r: Rules, s: State, s': State, p: nat)
    requires Arrived(r, s, p) && CashMoved(s, s')
    requires forall i :: 0 <= i < |s'.players| ==> s'.players[i].cash >= 0
    ensures Landed(r, s, s', p)
  {
    forall i | 0 <= i < |s'.players|
      ensures PlayerOk(r, s'.players[i])
    {
      assert PlayerOk(r, s.players[i]);
    }
    RosterCore(r, s, s');
  }

  lemma ProductNotNegative(a: int, b: nat)
    requires a >= 0
    ensures a * b >= 0
  {}

  lemma {:induction false} RepairsNotNegative(r: Rules, s: State, p: nat, house: nat, hotel: nat, n: nat)
    requires Core(r, s) && n <= |s.props|
    ensures RepairsUpTo(s.props, p, house, hotel, n) >= 0
  {
    hide PlayersOk, PropsOk, Discipline, CardsOk, ValidRules;
    if n > 0 {
      RepairsNotNegative(r, s, p, house, hotel, n - 1);
      PropertyAt(r, s, n - 1);
      ProductNotNegative(s.props[n - 1].houses, house);
    }
  }

  // ----- card moves

  lemma WrapsTo(a: nat, n: nat, k: nat)
    requires k < n && (a == k || a == k + n)
    ensures a % n == k
  {}

  lemma PlaceAhead(n: nat, position: nat, d: nat)
    requires position < n && d < n
    ensures (position + d) % n < n && Gap(n, position, (position + d) % n) == d
  {
    WrapsTo(position + d, n, if position + d < n then position + d else position + d - n);
  }

  /** If the board has a tile of the kind at least `d` ahead, the search finds one, and none is nearer. */
  lemma {:induction false} NearestIsNearest(r: Rules, kind: OwnableKind, position: nat, k: nat, d: nat)
    requires position < |r.tiles| && k < |r.tiles| && r.tiles[k].HasKind(kind) && d <= Gap(|r.tiles|, position, k)
    ensures var found := NearestFrom(r, kind, position, d);
            && found.Some? && r.tiles[found.value].HasKind(kind)
            && d <= Gap(|r.tiles|, position, found.value) <= Gap(|r.tiles|, position, k)
    decreases |r.tiles| - d
  {
    var gap := Gap(|r.tiles|, position, k);
    WrapsTo(position + gap, |r.tiles|, k);
    PlaceAhead(|r.tiles|, position, d);
    if d < gap && !r.tiles[(position + d) % |r.tiles|].HasKind(kind) {
      NearestIsNearest(r, kind, position, k, d + 1);
    }
  }

  lemma TargetExists(r: Rules, position: nat, effect: CardEffect)
    requires ValidRules(r) && position < |r.tiles| && ValidEffect(r.tiles, effect)
    requires effect.MoveToTile? || effect.MoveRelative? || effect.MoveToNearest?
    ensures CardTarget(r, position, effect).Ok?
  {
    if effect.MoveToNearest? {
      var k :| 0 <= k < |r.tiles| && r.tiles[k].HasKind(effect.kind);
      NearestIsNearest(r, effect.kind, position, k, 0);
    }
  }

  lemma PlacedArrived(r: Rules, s: State, p: nat, target: nat)
    requires Arrived(r, s, p) && target < |r.tiles|
    ensures var s' := WithPlayer(s, p, s.players[p].(position := target)).(phase := AwaitingTurnEnd, pending := None);
            Arrived(r, s', p) && LandingFrame(s, s')
  {
    hide PropsOk, Discipline, CardsOk;
    assert PlayerOk(r, s.players[p]);
    PlayerUpdateCore(r, s, p, s.players[p].(position := target));
  }

  lemma CardArrivalLanded(r: Rules, s: State, p: nat, k: nat, dice: (int, int))
    requires Arrived(r, s, p) && k < |r.tiles| && dice.0 + dice.1 >= 0
    ensures ArriveByCard(r, s, p, k, dice).Ok? && Landed(r, s, ArriveByCard(r, s, p, k, dice).value, p)
  {
    hide PlayersOk, PropsOk, Discipline, CardsOk, ValidRules;
    if r.tiles[k].GoToJail? {
      JailLanded(r, s, p);
    } else if r.tiles[k].Tax? {
      TaxLanded(r, s, p, k);
    } else if r.Ownable(k) && s.props[k].owner.None? {
      CoreFrame(r, s, s.(phase := AwaitingDecision, pending := Some(k)));
    } else {
      RentLanded(r, s, p, k, dice);
    }
  }

  lemma CardMoveLanded(r: Rules, s: State, p: nat, effect: CardEffect)
    requires Arrived(r, s, p) && ValidEffect(r.tiles, effect)
    requires effect.MoveToTile? || effect.MoveRelative? || effect.MoveToNearest?
    ensures MoveByCard(r, s, p, effect).Ok? && Landed(r, s, MoveByCard(r, s, p, effect).value, p)
  {
    hide Core, PlayersOk, LandingFrame, CardTarget, ArriveByCard, Settled, ValidEffect, ValidRules;
    CardTargetFound(r, s, p, effect);
    var target := CardTarget(r, s.players[p].position, effect).value;
    CardPlacement(r, s, p, target, CollectsPassGo(effect) && target < s.players[p].position);
    var credited := if CollectsPassGo(effect) && target < s.players[p].position then Credit(s, p, r.passGoCash).value else s;
    var moved := WithPlayer(credited, p, credited.players[p].(position := target))
                 .(phase := AwaitingTurnEnd, pending := None);
    CardArrivalLanded(r, moved, p, target, s.lastDice.value);
    LandedTrans(r, s, moved, ArriveByCard(r, moved, p, target, s.lastDice.value).value, p);
  }

  lemma CardTargetFound(r: Rules, s: State, p: nat, effect: CardEffect)
    requires Arrived(r, s, p) && ValidEffect(r.tiles, effect)
    requires effect.MoveToTile? || effect.MoveRelative? || effect.MoveToNearest?
    ensures Shape(r, s) && CardTarget(r, s.players[p].position, effect).Ok?
  {
    assert PlayerOk(r, s.players[p]);
    TargetExists(r, s.players[p].position, effect);
  }

  lemma CardPlacement(r: Rules, s: State, p: nat, target: nat, passedGo: bool)
    requires Arrived(r, s, p) && target < |r.tiles|
    ensures Credit(s, p, r.passGoCash).Ok?
    ensures var credited := if passedGo then Credit(s, p, r.passGoCash).value else s;
            && credited.HasPlayer(p) && credited.players[p].position == s.players[p].position
            && var moved := WithPlayer(credited, p, credited.players[p].(position := target))
                            .(phase := AwaitingTurnEnd, pending := None);
            Arrived(r, moved, p) && LandingFrame(s, moved) && Shape(r, moved)
  {
    CreditLanded(r, s, p, r.passGoCash);
    hide PlayersOk, PropsOk, Discipline, CardsOk, ValidRules;
    var credited := if passedGo then Credit(s, p, r.passGoCash).value else s;
    PlacedArrived(r, credited, p, target);
    FrameTrans(s, credited, WithPlayer(credited, p, credited.players[p].(position := target))
                            .(phase := AwaitingTurnEnd, pending := None));
  }

  lemma CollectLanded(r: Rules, s: State, p: nat, amount: nat)
    requires Arrived(r, s, p)
    ensures CollectFrom(s, s.players, p, amount, |s.players|).Ok?
    ensures Landed(r, s, CollectFrom(s, s.players, p, amount, |s.players|).value, p)
  {
    hide PropsOk, Discipline, CardsOk, ValidRules, CollectFrom;
    assert forall i :: 0 <= i < |s.players| ==> PlayerOk(r, s.players[i]);
    CollectOutcome(s, p, amount, |s.players|);
    CashMovedLanded(r, s, CollectFrom(s, s.players, p, amount, |s.players|).value, p);
  }

  lemma PayEachLanded(r: Rules, s: State, p: nat, amount: nat)
    requires Arrived(r, s, p) && s.players[p].cash >= OthersUpTo(s.players, p, |s.players|) * amount
    ensures PayTo(s, s.players, p, amount, |s.players|).Ok?
    ensures Landed(r, s, PayTo(s, s.players, p, amount, |s.players|).value, p)
  {
    hide PropsOk, Discipline, CardsOk, ValidRules, PayTo;
    assert forall i :: 0 <= i < |s.players| ==> PlayerOk(r, s.players[i]);
    DueIsProduct(s.players, p, amount, |s.players|);
    PayEachOutcome(s, p, amount, |s.players|);
    CashMovedLanded(r, s, PayTo(s, s.players, p, amount, |s.players|).value, p);
  }

  lemma CardLanded(r: Rules, s: State, p: nat, card: CardKey)
    requires Arrived(r, s, p) && r.HasCard(card) && !r.IsJailCard(card)
    ensures ApplyCard(r, s, p, card).Ok? && Landed(r, s, ApplyCard(r, s, p, card).value, p)
  {
    hide PlayersOk, PropsOk, Discipline, CardsOk, CollectFrom, PayTo, OthersUpTo, RepairsUpTo;
    var effect := r.Deck(card.deck)[card.index];
    assert ValidDeck(r.tiles, r.Deck(card.deck));
    assert ValidEffect(r.tiles, effect);
    match effect
    case CollectMoney(amount) => CreditLanded(r, s, p, amount);
    case PayMoney(amount) => DebitLanded(r, s, p, amount, Card);
    case SendToJail => JailLanded(r, s, p);
    case CollectFromEach(amount) =>
      CollectLanded(r, s, p, amount);
    case PayEach(amount) =>
      var total := OthersUpTo(s.players, p, |s.players|) * amount;
      if s.players[p].cash < total {
        DebitLanded(r, s, p, total, Card);
      } else {
        PayEachLanded(r, s, p, amount);
      }
    case Repairs(house, hotel) =>
      RepairsNotNegative(r, s, p, house, hotel, |s.props|);
      DebitLanded(r, s, p, RepairsUpTo(s.props, p, house, hotel, |s.props|), Card);
    case _ => CardMoveLanded(r, s, p, effect);
  }

  lemma DrawLanded(r: Rules, s: State, p: nat, deck: DeckKey)
    requires Arrived(r, s, p)
    ensures DrawAndApply(r, s, p, deck).Ok? && Landed(r, s, DrawAndApply(r, s, p, deck).value, p)
  {
    hide PropsOk, Discipline, CardsOk;
    assert forall i :: 0 <= i < |s.players| ==> PlayerOk(r, s.players[i]);
    DrawConserves(r, s, deck, p);
    var Drawn(s1, card) := DrawCard(r, s, deck).value;
    if r.IsJailCard(card) {
      HandLanded(r, s, s1, p, card);
    } else {
      CardLanded(r, s1, p, card);
      LandedTrans(r, s, s1, ApplyCard(r, s1, p, card).value, p);
    }
  }

  lemma HandLanded(r: Rules, s: State, s1: State, p: nat, card: CardKey)
    requires Arrived(r, s, p) && s1 == s.(decks := s1.decks) && r.IsJailCard(card)
    requires CardsOk(r, s.players[p := WithJailCard(s.players[p], card)], s1.decks)
    ensures ApplyCard(r, s1, p, card).Ok? && Landed(r, s, ApplyCard(r, s1, p, card).value, p)
  {
    hide PropsOk, Discipline, CardsOk, ValidRules;
    var s' := ApplyCard(r, s1, p, card).value;
    assert s' == s1.(players := s.players[p := WithJailCard(s.players[p], card)]);
    HandCore(r, s, s', p, card);
  }

  lemma HandCore(r: Rules, s: State, s': State, p: nat, card: CardKey)
    requires Core(r, s) && s.HasPlayer(p) && r.IsJailCard(card)
    requires s'.players == s.players[p := WithJailCard(s.players[p], card)] && s'.props == s.props
    requires CardsOk(r, s'.players, s'.decks)
    ensures Core(r, s') && SameRoster(s.players, s'.players)
  {
    hide PropsOk, Discipline, CardsOk, ValidRules;
    RosterProps(r, s.players, s'.players, s.props);
    RosterSeats(s.players, s'.players);
    forall i | 0 <= i < |s'.players|
      ensures PlayerOk(r, s'.players[i])
    {
      assert PlayerOk(r, s.players[i]);
    }
  }

  // ----- the move

  /** The state a roll starts from: the turn holder may roll and nothing is open. */
  ghost predicate ReadyToRoll(r: Rules, s: State, p: nat) {
    Core(r, s) && s.HasPlayer(p) && s.auction.None? && s.debt.None? && s.pending.None?
  }

  lemma MovedCore(r: Rules, s: State, p: nat, dice: (int, int))
    requires ReadyToRoll(r, s, p) && ValidDice(dice)
    ensures var s' := Moved(r, s, p, dice);
            && Core(r, s') && LandingFrame(s, s') && s'.auction.None? && s'.debt.None?
            && s'.players[p].position < |r.tiles| && s'.lastDice == Some(dice)
  {
    hide PropsOk, Discipline, CardsOk;
    assert PlayerOk(r, s.players[p]);
    var s' := Moved(r, s, p, dice);
    PlayerUpdateCore(r, s, p, s'.players[p]);
    CoreFrame(r, WithPlayer(s, p, s'.players[p]), s');
  }

  lemma ResolveLanded(r: Rules, s: State, p: nat, dice: (int, int))
    requires ReadyToRoll(r, s, p) && ValidDice(dice)
    ensures var moved := Moved(r, s, p, dice);
            var res := ResolveLanding(r, moved, p, moved.players[p].position, dice);
            res.Ok? && Landed(r, s, res.value, p)
  {
    hide Core, LandingFrame, Settled, Moved, DoublesKept;
    CoreShape(r, s);
    MovedCore(r, s, p, dice);
    MovedArrives(r, s, p, dice);
    var moved := Moved(r, s, p, dice);
    var k := moved.players[p].position;
    if r.tiles[k].GoToJail? {
      JailLanded(r, moved, p);
    } else if r.Ownable(k) && moved.props[k].owner.None? {
    } else if r.tiles[k].Chance? {
      DrawLanded(r, moved, p, ChanceDeck);
    } else if r.tiles[k].WorldFund? {
      DrawLanded(r, moved, p, WorldFundDeck);
    } else if r.tiles[k].Tax? {
      TaxLanded(r, moved, p, k);
    } else {
      RentLanded(r, moved, p, k, dice);
    }
    var res := ResolveLanding(r, moved, p, k, dice);
    if res.Ok? && Landed(r, moved, res.value, p) {
      LandedTrans(r, s, moved, res.value, p);
    }
  }

  /** A move keeps the doubles; it ends on an unowned tile to decide on, or with nothing open. */
  lemma MovedArrives(r: Rules, s: State, p: nat, dice: (int, int))
    requires ReadyToRoll(r, s, p) && ValidDice(dice)
    ensures var moved := Moved(r, s, p, dice);
            && moved.HasPlayer(p) && moved.players[p].position < |r.tiles| && Shape(r, moved)
            && moved.doubles == s.doubles && moved.playAgain == s.playAgain && moved.auction.None? && moved.debt.None?
            && var k := moved.players[p].position;
            if r.Ownable(k) && moved.props[k].owner.None? then Landed(r, s, moved, p) else Arrived(r, moved, p)
  {
    hide PlayersOk, PropsOk, Discipline, CardsOk, LandingFrame;
    MovedCore(r, s, p, dice);
  }

  /** What a roll does to the doubles count: it can only stay open for another roll after a double. */
  predicate RollFrame(s: State, s': State) {
    && SameRoster(s.players, s'.players) && SameMissed(s.players, s'.players) && s'.props == s.props
    && s'.turn == s.turn && s'.current == s.current && s'.trade == s.trade && s'.expiresAt == s.expiresAt
    && s'.doubles <= 2
    && (s'.playAgain ==> s'.doubles == s.doubles + 1)
  }

  lemma MoveOutcome(r: Rules, s: State, p: nat, dice: (int, int), suppress: bool)
    requires ReadyToRoll(r, s, p) && ValidDice(dice) && s.doubles <= 2
    ensures var res := MoveIgnoringJail(r, s, p, dice, suppress);
            && res.Ok? && Core(r, res.value) && Settled(r, res.value, p) && RollFrame(s, res.value)
            && (suppress ==> !res.value.playAgain) && JailKept(s.players, res.value.players)
            && (!suppress ==> DoublesKept(ApplyDoubles(s, dice), res.value, p))
            && (!IsDoubles(dice) ==> !res.value.playAgain)
  {
    hide PropsOk, Discipline, CardsOk;
    if !suppress && IsDoubles(dice) && s.doubles + 1 >= 3 {
      var counted := ApplyDoubles(s, dice);
      CoreFrame(r, s, counted);
      JailLanded(r, counted, p);
      CoreFrame(r, SendPlayerToJail(r, counted, p), MoveIgnoringJail(r, s, p, dice, suppress).value);
    } else {
      var counted := if suppress then s.(doubles := 0, playAgain := false) else ApplyDoubles(s, dice);
      CoreFrame(r, s, counted);
      ResolveLanded(r, counted, p, dice);
    }
  }

  lemma ReleaseCore(r: Rules, s: State, p: nat)
    requires ReadyToRoll(r, s, p)
    ensures ReadyToRoll(r, ReleaseFromJail(s, p), p) && SameRoster(s.players, ReleaseFromJail(s, p).players)
  {
    hide PropsOk, Discipline, CardsOk;
    assert PlayerOk(r, s.players[p]);
    PlayerUpdateCore(r, s, p, s.players[p].(inJail := false, jailTurns := 0));
  }

  lemma JailTermCore(r: Rules, s: State, p: nat, turns: nat)
    requires Core(r, s) && s.HasPlayer(p)
    ensures Core(r, WithPlayer(s, p, s.players[p].(jailTurns := turns)))
    ensures SameRoster(s.players, WithPlayer(s, p, s.players[p].(jailTurns := turns)).players)
  {
    hide PropsOk, Discipline, CardsOk;
    assert PlayerOk(r, s.players[p]);
    PlayerUpdateCore(r, s, p, s.players[p].(jailTurns := turns));
  }

  lemma JailRollOutcome(r: Rules, s: State, p: nat, dice: (int, int))
    requires ReadyToRoll(r, s, p) && ValidDice(dice) && s.doubles <= 2
    ensures var res := RollFromJail(r, s, p, dice);
            && res.Ok? && Core(r, res.value) && Settled(r, res.value, p) && RollFrame(s, res.value)
            && !res.value.playAgain
  {
    hide PlayersOk, PropsOk, Discipline, CardsOk, MoveIgnoringJail;
    if IsDoubles(dice) {
      ReleaseCore(r, s, p);
      var released := ReleaseFromJail(s, p).(doubles := 0, playAgain := false);
      CoreFrame(r, ReleaseFromJail(s, p), released);
      MoveOutcome(r, released, p, dice, true);
      var m := MoveIgnoringJail(r, released, p, dice, true).value;
      CoreFrame(r, m, m.(doubles := 0, playAgain := false));
    } else if s.players[p].jailTurns + 1 >= MAX_JAIL_TURNS {
      if s.players[p].cash < JAIL_FINE {
        UnpaidFineOutcome(r, s, p, dice);
      } else {
        PaidFineOutcome(r, s, p, dice);
      }
    } else {
      JailTermCore(r, s, p, s.players[p].jailTurns + 1);
      CoreFrame(r, WithPlayer(s, p, s.players[p].(jailTurns := s.players[p].jailTurns + 1)),
                RollFromJail(r, s, p, dice).value);
    }
  }

  lemma UnpaidFineOutcome(r: Rules, s: State, p: nat, dice: (int, int))
    requires ReadyToRoll(r, s, p) && ValidDice(dice) && s.doubles <= 2
    requires !IsDoubles(dice) && s.players[p].jailTurns + 1 >= MAX_JAIL_TURNS && s.players[p].cash < JAIL_FINE
    ensures var res := RollFromJail(r, s, p, dice);
            && res.Ok? && Core(r, res.value) && Settled(r, res.value, p) && RollFrame(s, res.value)
            && !res.value.playAgain
  {
    hide PlayersOk, PropsOk, Discipline, CardsOk, ValidRules;
    var owed := CreateDebt(s, Debt(p, None, JAIL_FINE, JailFine));
    CoreFrame(r, s, owed);
    JailTermCore(r, owed, p, s.players[p].jailTurns + 1);
    CoreFrame(r, WithPlayer(owed, p, owed.players[p].(jailTurns := s.players[p].jailTurns + 1)),
              RollFromJail(r, s, p, dice).value);
  }

  lemma PaidFineOutcome(r: Rules, s: State, p: nat, dice: (int, int))
    requires ReadyToRoll(r, s, p) && ValidDice(dice) && s.doubles <= 2
    requires !IsDoubles(dice) && s.players[p].jailTurns + 1 >= MAX_JAIL_TURNS && s.players[p].cash >= JAIL_FINE
    ensures var res := RollFromJail(r, s, p, dice);
            && res.Ok? && Core(r, res.value) && Settled(r, res.value, p) && RollFrame(s, res.value)
            && !res.value.playAgain
  {
    hide PlayersOk, PropsOk, Discipline, CardsOk, ValidRules, MoveIgnoringJail;
    var paid := WithCash(s, p, s.players[p].cash - JAIL_FINE);
    CashCore(r, s, p, s.players[p].cash - JAIL_FINE);
    ReleaseCore(r, paid, p);
    var released := ReleaseFromJail(paid, p);
    MoveOutcome(r, released, p, dice, true);
    var m := MoveIgnoringJail(r, released, p, dice, true).value;
    CoreFrame(r, m, m.(doubles := 0, playAgain := false));
  }

  /** The turn holder's roll is accepted with any dice, and everything it sets off is settled. */
  lemma RollOutcome(r: Rules, s: State, p: nat, dice: (int, int))
    requires Inv(r, s) && s.phase in {AwaitingFirstTurn, AwaitingRoll} && s.current == p && ValidDice(dice)
    ensures var res := RollAndMove(r, s, p, dice);
            && res.Ok? && Core(r, res.value) && Settled(r, res.value, p) && RollFrame(s, res.value)
  {
    hide PropsOk, Discipline, CardsOk;
    if s.players[p].inJail {
      JailRollOutcome(r, s, p, dice);
    } else {
      MoveOutcome(r, s, p, dice, false);
    }
  }
}
