/**
 Everything a dice roll sets off: jail, rent, tax, card effects and the move itself
 (game-engine-jail.ts, -rent.ts, -tax.ts, -cards.ts, -dice.ts, -movement.ts).
 */
module Landing {
  import opened Rules
  import opened State
  import opened Money
  import opened CardDecks

  const JAIL_FINE: nat := 50
  const MAX_JAIL_TURNS: nat := 3

  predicate Shape(r: Rules, s: State) {
    ValidRules(r) && |s.props| == |r.tiles|
  }

  // ----- jail

  function SendPlayerToJail(r: Rules, s: State, p: nat): (s': State)
    requires s.HasPlayer(p)
  {
    s.(phase := AwaitingTurnEnd, pending := None, doubles := 0, playAgain := false,
       players := s.players[p := s.players[p].(position := r.jailPosition, inJail := true, jailTurns := 0)])
  }

  function ReleaseFromJail(s: State, p: nat): (s': State)
    requires s.HasPlayer(p)
  {
    WithPlayer(s, p, s.players[p].(inJail := false, jailTurns := 0))
  }

  function PayJailFine(s: State, p: nat): (res: Result<State>) {
    var t := AssertCurrentTurn(s, p);
    if t.Some? then Err(t.value)
    else if !s.players[p].inJail then Err(PlayerNotInJail)
    else
      var debited :- Debit(s, p, JAIL_FINE);
      Ok(ReleaseFromJail(debited, p))
  }

  function UseJailCard(r: Rules, s: State, p: nat): (res: Result<State>) {
    var t := AssertCurrentTurn(s, p);
    if t.Some? then Err(t.value)
    else if !s.players[p].inJail then Err(PlayerNotInJail)
    else if s.players[p].jailCards <= 0 then Err(JailCardRequired)
    else
      var keys := s.players[p].jailCardKeys;
      var returned :- ReturnJailCard(r, s, if |keys| > 0 then Some(keys[0]) else None);
      var player := s.players[p].(jailCards := s.players[p].jailCards - 1,
                                  jailCardKeys := if |keys| > 0 then keys[1..] else []);
      Ok(ReleaseFromJail(WithPlayer(returned, p, player), p))
  }

  // ----- rent and tax

  function CountOwned(r: Rules, s: State, kind: OwnableKind, owner: Option<nat>, n: nat): (count: nat)
    requires Shape(r, s) && n <= |r.tiles|
  {
    if n == 0 then 0
    else CountOwned(r, s, kind, owner, n - 1)
         + if r.tiles[n - 1].HasKind(kind) && s.props[n - 1].owner == owner then 1 else 0
  }

  predicate OwnsFullSet(r: Rules, s: State, k: nat)
    requires Shape(r, s) && r.IsProperty(k)
  {
    && s.props[k].owner.Some?
    && forall j :: 0 <= j < |r.tiles| && r.SameSet(j, k) ==> s.props[j].owner == s.props[k].owner
  }

  function AtOrFirst(values: seq<nat>, i: int): (v: nat)
    requires |values| > 0
  {
    if 0 <= i < |values| then values[i] else values[0]
  }

  function CalculateRent(r: Rules, s: State, k: nat, dice: (int, int)): (amount: int)
    requires Shape(r, s) && r.Ownable(k)
  {
    match r.tiles[k]
    case Property(_, _, baseRent, rents, hotelRent, _, _, _) =>
      if s.props[k].hotel then hotelRent
      else if s.props[k].houses > 0 then AtOrFirst(rents, s.props[k].houses - 1)
      else if OwnsFullSet(r, s, k) then baseRent * 2
      else baseRent
    case Airport(_, rents, _, _) =>
      AtOrFirst(rents, CountOwned(r, s, AirportKind, s.props[k].owner, |r.tiles|) - 1)
    case Utility(_, multipliers, _, _) =>
      (dice.0 + dice.1) * AtOrFirst(multipliers, CountOwned(r, s, UtilityKind, s.props[k].owner, |r.tiles|) - 1)
  }

  function PayRent(r: Rules, s: State, payer: nat, k: nat, dice: (int, int)): (res: Result<State>)
    requires Shape(r, s)
  {
    if !HasProperty(r, s, k) || s.props[k].owner.None? || s.props[k].owner == Some(payer) || s.props[k].mortgaged
    then Ok(s)
    else
      var payment :- TransferOrDebt(s, payer, s.props[k].owner.value, CalculateRent(r, s, k, dice), Rent);
      Ok(payment.state)
  }

  function PayTax(r: Rules, s: State, p: nat, k: nat): (res: Result<State>) {
    if k >= |r.tiles| || !r.tiles[k].Tax? then Err(TileNotOwnable)
    else
      var payment :- DebitOrDebt(s, p, r.tiles[k].amount, TaxDue);
      Ok(payment.state)
  }

  // ----- card effects

  /** Every other active player hands over what the card asks for, or all the cash left. */
  function CollectFrom(s: State, before: seq<Player>, p: nat, amount: nat, n: nat): (res: Result<State>)
    requires n <= |before|
  {
    if n == 0 then Ok(s)
    else
      var s1 :- CollectFrom(s, before, p, amount, n - 1);
      var other := before[n - 1];
      if n - 1 == p || other.bankrupt then Ok(s1)
      else Transfer(s1, n - 1, p, if other.cash < amount then other.cash else amount)
  }

  function PayTo(s: State, before: seq<Player>, p: nat, amount: nat, n: nat): (res: Result<State>)
    requires n <= |before|
  {
    if n == 0 then Ok(s)
    else
      var s1 :- PayTo(s, before, p, amount, n - 1);
      if n - 1 == p || before[n - 1].bankrupt then Ok(s1) else Transfer(s1, p, n - 1, amount)
  }

  function OthersUpTo(players: seq<Player>, p: nat, n: nat): (count: nat)
    requires n <= |players|
  {
    if n == 0 then 0
    else OthersUpTo(players, p, n - 1) + if n - 1 == p || players[n - 1].bankrupt then 0 else 1
  }

  function RepairsUpTo(props: seq<PropertyState>, p: nat, houseAmount: nat, hotelAmount: nat, n: nat): (amount: int)
    requires n <= |props|
  {
    if n == 0 then 0
    else RepairsUpTo(props, p, houseAmount, hotelAmount, n - 1)
         + if !props[n - 1].OwnedBy(p) then 0
           else if props[n - 1].hotel then hotelAmount
           else props[n - 1].houses * houseAmount
  }

  /** The closest tile of a kind, looking forward from `position + d`. */
  function NearestFrom(r: Rules, kind: OwnableKind, position: nat, d: nat): (k: Option<nat>)
    requires |r.tiles| > 0
    ensures k.Some? ==> k.value < |r.tiles| && r.tiles[k.value].HasKind(kind)
    decreases |r.tiles| - d
  {
    if d >= |r.tiles| then None
    else if r.tiles[(position + d) % |r.tiles|].HasKind(kind) then Some((position + d) % |r.tiles|)
    else NearestFrom(r, kind, position, d + 1)
  }

  function CardTarget(r: Rules, position: nat, effect: CardEffect): (k: Result<nat>)
    requires |r.tiles| > 0
    requires effect.MoveToTile? || effect.MoveRelative? || effect.MoveToNearest?
    ensures k.Ok? ==> k.value < |r.tiles|
  {
    match effect
    case MoveToTile(tile, _) => if tile < |r.tiles| then Ok(tile) else Err(CardNotFound)
    case MoveRelative(spaces) =>
      var target := position + spaces + |r.tiles|;
      if target < 0 then Err(UnknownPosition) else Ok(target % |r.tiles|)
    case MoveToNearest(kind, _) =>
      var k := NearestFrom(r, kind, position, 0);
      if k.Some? then Ok(k.value) else Err(CardNotFound)
  }

  predicate CollectsPassGo(effect: CardEffect) {
    (effect.MoveToTile? || effect.MoveToNearest?) && effect.collectPassGo
  }

  function ArriveByCard(r: Rules, s: State, p: nat, k: nat, dice: (int, int)): (res: Result<State>)
    requires Shape(r, s) && s.HasPlayer(p) && k < |r.tiles|
  {
    if r.tiles[k].GoToJail? then Ok(SendPlayerToJail(r, s, p))
    else if r.tiles[k].Tax? then PayTax(r, s, p, k)
    else if r.Ownable(k) && s.props[k].owner.None? then Ok(s.(phase := AwaitingDecision, pending := Some(k)))
    else PayRent(r, s, p, k, dice)
  }

  function MoveByCard(r: Rules, s: State, p: nat, effect: CardEffect): (res: Result<State>)
    requires Shape(r, s)
    requires effect.MoveToTile? || effect.MoveRelative? || effect.MoveToNearest?
  {
    if !s.HasPlayer(p) then Err(PlayerNotFound) else
    var target :- CardTarget(r, s.players[p].position, effect);
    var passedGo := CollectsPassGo(effect) && target < s.players[p].position;
    var credited :- if passedGo then Credit(s, p, r.passGoCash) else Ok(s);
    var moved := WithPlayer(credited, p, credited.players[p].(position := target))
                 .(phase := AwaitingTurnEnd, pending := None);
    ArriveByCard(r, moved, p, target, if s.lastDice.Some? then s.lastDice.value else (0, 0))
  }

  function ApplyCard(r: Rules, s: State, p: nat, card: CardKey): (res: Result<State>)
    requires Shape(r, s) && r.HasCard(card)
  {
    match r.Deck(card.deck)[card.index]
    case CollectMoney(amount) => Credit(s, p, amount)
    case PayMoney(amount) =>
      var payment :- DebitOrDebt(s, p, amount, Card);
      Ok(payment.state)
    case SendToJail => if s.HasPlayer(p) then Ok(SendPlayerToJail(r, s, p)) else Ok(s)
    case CollectFromEach(amount) =>
      if !s.HasPlayer(p) then Err(PlayerNotFound)
      else CollectFrom(s, s.players, p, amount, |s.players|)
    case PayEach(amount) =>
      if !s.HasPlayer(p) then Err(PlayerNotFound)
      else if s.players[p].cash < OthersUpTo(s.players, p, |s.players|) * amount then
        var payment :- DebitOrDebt(s, p, OthersUpTo(s.players, p, |s.players|) * amount, Card);
        Ok(payment.state)
      else PayTo(s, s.players, p, amount, |s.players|)
    case Repairs(houseAmount, hotelAmount) =>
      var amount := RepairsUpTo(s.props, p, houseAmount, hotelAmount, |s.props|);
      if amount == 0 then Ok(s)
      else
        var payment :- DebitOrDebt(s, p, amount, Card);
        Ok(payment.state)
    case GetOutOfJailFree =>
      if s.HasPlayer(p) then Ok(WithPlayer(s, p, WithJailCard(s.players[p], card))) else Ok(s)
    case MoveToTile(_, _) => MoveByCard(r, s, p, r.Deck(card.deck)[card.index])
    case MoveRelative(_) => MoveByCard(r, s, p, r.Deck(card.deck)[card.index])
    case MoveToNearest(_, _) => MoveByCard(r, s, p, r.Deck(card.deck)[card.index])
  }

  function DrawAndApply(r: Rules, s: State, p: nat, deck: DeckKey): (res: Result<State>)
    requires Shape(r, s)
  {
    var drawn :- DrawCard(r, s, deck);
    ApplyCard(r, drawn.state, p, drawn.card)
  }

  // ----- dice and the move

  predicate IsDoubles(dice: (int, int)) {
    dice.0 == dice.1
  }

  predicate ValidDice(dice: (int, int)) {
    1 <= dice.0 <= 6 && 1 <= dice.1 <= 6
  }

  function ApplyDoubles(s: State, dice: (int, int)): (s': State) {
    if !IsDoubles(dice) then s.(doubles := 0, playAgain := false)
    else s.(doubles := s.doubles + 1, playAgain := s.doubles + 1 < 3)
  }

  /** The tile landed on decides what follows: jail, a card, a purchase decision, tax or rent. */
  function ResolveLanding(r: Rules, s: State, p: nat, k: nat, dice: (int, int)): (res: Result<State>)
    requires Shape(r, s) && k < |r.tiles|
  {
    if r.tiles[k].GoToJail? then
      if s.HasPlayer(p) then Ok(SendPlayerToJail(r, s, p)) else Err(PlayerNotFound)
    else if r.tiles[k].Chance? then DrawAndApply(r, s, p, ChanceDeck)
    else if r.tiles[k].WorldFund? then DrawAndApply(r, s, p, WorldFundDeck)
    else if r.Ownable(k) && s.props[k].owner.None? then Ok(s)
    else if r.tiles[k].Tax? then PayTax(r, s, p, k)
    else PayRent(r, s, p, k, dice)
  }

  function Moved(r: Rules, s: State, p: nat, dice: (int, int)): (s': State)
    requires Shape(r, s) && s.HasPlayer(p) && ValidDice(dice)
  {
    var absolute := s.players[p].position + dice.0 + dice.1;
    var target := absolute % |r.tiles|;
    var cash := s.players[p].cash + if absolute >= |r.tiles| then r.passGoCash else 0;
    var buyable := r.Ownable(target) && s.props[target].owner.None?;
    WithPlayer(s, p, s.players[p].(position := target, cash := cash))
    .(phase := if buyable then AwaitingDecision else AwaitingTurnEnd,
      pending := if buyable then Some(target) else None,
      lastDice := Some(dice))
  }

  function MoveIgnoringJail(r: Rules, s: State, p: nat, dice: (int, int), suppressDoubles: bool): (res: Result<State>)
    requires Shape(r, s) && s.HasPlayer(p) && ValidDice(dice)
  {
    if !suppressDoubles && IsDoubles(dice) && s.doubles + 1 >= 3 then
      Ok(SendPlayerToJail(r, ApplyDoubles(s, dice), p).(lastDice := Some(dice), doubles := 0, playAgain := false))
    else
      var counted := if suppressDoubles then s.(doubles := 0, playAgain := false) else ApplyDoubles(s, dice);
      var moved := Moved(r, counted, p, dice);
      ResolveLanding(r, moved, p, moved.players[p].position, dice)
  }

  function RollFromJail(r: Rules, s: State, p: nat, dice: (int, int)): (res: Result<State>)
    requires Shape(r, s) && s.HasPlayer(p) && ValidDice(dice)
  {
    if IsDoubles(dice) then
      var result :- MoveIgnoringJail(r, ReleaseFromJail(s, p).(doubles := 0, playAgain := false), p, dice, true);
      Ok(result.(doubles := 0, playAgain := false))
    else
      var turns := s.players[p].jailTurns + 1;
      if turns >= MAX_JAIL_TURNS then
        var payment :- DebitOrDebt(s, p, JAIL_FINE, JailFine);
        if !payment.paid then
          Ok(WithPlayer(payment.state, p, payment.state.players[p].(jailTurns := turns)).(lastDice := Some(dice)))
        else
          var result :- MoveIgnoringJail(r, ReleaseFromJail(payment.state, p), p, dice, true);
          Ok(result.(doubles := 0, playAgain := false))
      else
        Ok(WithPlayer(s, p, s.players[p].(jailTurns := turns))
           .(phase := AwaitingTurnEnd, lastDice := Some(dice), doubles := 0, playAgain := false))
  }

  function RollAndMove(r: Rules, s: State, p: nat, dice: (int, int)): (res: Result<State>)
    requires Shape(r, s)
  {
    var g := AssertPhase(s, {AwaitingFirstTurn, AwaitingRoll}, RollNotAllowed);
    if g.Some? then Err(g.value) else
    var t := AssertCurrentTurn(s, p);
    if t.Some? then Err(t.value)
    else if !ValidDice(dice) then Err(InvalidDice)
    else if s.players[p].inJail then RollFromJail(r, s, p, dice)
    else MoveIgnoringJail(r, s, p, dice, false)
  }
}
