/** What a roll comes to: the doubles, the tile landed on, and the ways out of jail. */
module RollOutcomes {
  import opened Rules
  import opened State
  import opened Money
  import opened CardDecks
  import opened Turns
  import opened Landing
  import opened Properties
  import opened Invariant
  import opened RollProof
  import opened Outcomes

  // ----- doubles

  /** In jail, the turn over, and nothing open. */
  function Imprisoned(r: Rules, s: State, p: nat): (s': State)
    requires s.HasPlayer(p)
  {
    s.(phase := AwaitingTurnEnd, pending := None, doubles := 0, playAgain := false,
       players := s.players[p := s.players[p].(position := r.jailPosition, inJail := true, jailTurns := 0)])
  }

  predicate FreeToRoll(r: Rules, s: State, p: nat) {
    s.phase in {AwaitingFirstTurn, AwaitingRoll} && s.current == p && s.HasPlayer(p) && !s.players[p].inJail
  }

  /** The third double in a row sends the player to jail, wherever the dice would have led. */
  lemma ThirdDoubleJails(r: Rules, s: State, p: nat, dice: (int, int))
    requires Inv(r, s) && FreeToRoll(r, s, p) && ValidDice(dice) && dice.0 == dice.1 && s.doubles == 2
    ensures Shape(r, s) && RollAndMove(r, s, p, dice) == Ok(Imprisoned(r, s, p).(lastDice := Some(dice)))
  {
    hide PlayersOk, PropsOk, Discipline, CardsOk, ValidRules, AuctionOk, TradeOk, Active, HumanActive;
  }

  /**
   A first or second double that ends neither in jail nor in debt gives another roll and counts; a
   roll without a double gives none and starts the count anew.
   */
  lemma DoublesOutcome(r: Rules, s: State, p: nat, dice: (int, int))
    requires Inv(r, s) && FreeToRoll(r, s, p) && ValidDice(dice)
    ensures Shape(r, s) && RollAndMove(r, s, p, dice).Ok?
    ensures var s' := RollAndMove(r, s, p, dice).value;
            && s'.HasPlayer(p)
            && (dice.0 == dice.1 && s.doubles < 2 ==>
                  s'.phase == AwaitingDebt || s'.players[p].inJail || (s'.playAgain && s'.doubles == s.doubles + 1))
            && (dice.0 != dice.1 ==> !s'.playAgain)
            && (dice.0 != dice.1 && s'.phase != AwaitingDebt && !s'.players[p].inJail ==> s'.doubles == 0)
            && (s'.phase == AwaitingDebt ==> !s'.playAgain)
  {
    hide PlayersOk, PropsOk, Discipline, CardsOk, ValidRules, MoveIgnoringJail, AuctionOk, TradeOk, Active, HumanActive, BuyableTile;
    MoveOutcome(r, s, p, dice, false);
  }

  // ----- the tile landed on

  /** Charged by the bank: paid if the cash is there, otherwise exactly that amount is owed to the bank. */
  function Charged(s: State, p: nat, amount: int, reason: DebtReason): (s': State)
    requires s.HasPlayer(p)
  {
    if amount <= s.players[p].cash then s.(players := s.players[p := s.players[p].(cash := s.players[p].cash - amount)])
    else s.(phase := AwaitingDebt, pending := None, auction := None, debt := Some(Debt(p, None, amount, reason)), playAgain := false)
  }

  /** What the tile asks of whoever lands on it. */
  ghost predicate TileSettled(r: Rules, s: State, p: nat, k: nat, dice: (int, int), s': State)
    requires Shape(r, s) && s.HasPlayer(p) && k < |r.tiles|
  {
    match r.tiles[k]
    case GoToJail => s' == Imprisoned(r, s, p)
    case Tax(amount) => s' == Charged(s, p, amount, TaxDue)
    case Chance => DrawAndApply(r, s, p, ChanceDeck) == Ok(s')
    case WorldFund => DrawAndApply(r, s, p, WorldFundDeck) == Ok(s')
    case Property(_, _, _, _, _, _, _, _) => if s.props[k].owner.None? then s' == s else RentSettled(r, s, p, k, dice, s')
    case Airport(_, _, _, _) => if s.props[k].owner.None? then s' == s else RentSettled(r, s, p, k, dice, s')
    case Utility(_, _, _, _) => if s.props[k].owner.None? then s' == s else RentSettled(r, s, p, k, dice, s')
    case _ => s' == s
  }

  lemma LandingOutcome(r: Rules, s: State, p: nat, k: nat, dice: (int, int))
    requires Core(r, s) && s.HasPlayer(p) && k < |r.tiles| && dice.0 + dice.1 >= 0
    ensures Shape(r, s)
    ensures ResolveLanding(r, s, p, k, dice).Ok? ==> TileSettled(r, s, p, k, dice, ResolveLanding(r, s, p, k, dice).value)
    ensures ResolveLanding(r, s, p, k, dice).Err? ==> r.tiles[k].Chance? || r.tiles[k].WorldFund?
  {
    hide PlayersOk, PropsOk, Discipline, CardsOk, ValidRules, DrawAndApply, PayRent, RentSettled;
    RentOutcome(r, s, p, k, dice);
    if !r.Ownable(k) {
      NoRent(r, s, p, k, dice);
    }
  }

  lemma NoRent(r: Rules, s: State, p: nat, k: nat, dice: (int, int))
    requires Shape(r, s) && !r.Ownable(k)
    ensures PayRent(r, s, p, k, dice) == Ok(s)
  {
    hide ValidRules, CalculateRent;
  }

  /**
   A free roll that is no third double: the player goes forward by the dice, is paid the passing bonus
   exactly if the start was passed, and the tile reached is settled.
   */
  lemma FreeRollOutcome(r: Rules, s: State, p: nat, dice: (int, int)) returns (moved: State, laps: nat)
    requires Inv(r, s) && FreeToRoll(r, s, p) && ValidDice(dice) && (dice.0 == dice.1 ==> s.doubles < 2)
    ensures Shape(r, s) && RollAndMove(r, s, p, dice).Ok?
    ensures |moved.players| == |s.players| && Shape(r, moved)
    ensures var k := moved.players[p].position;
            && Travels(s.players[p].position, k, dice.0 + dice.1, |r.tiles|, laps)
            && moved.players == s.players[p := s.players[p].(position := k,
                                          cash := s.players[p].cash + if laps > 0 then r.passGoCash else 0)]
            && moved.lastDice == Some(dice) && moved.props == s.props && moved.decks == s.decks && moved.debt == s.debt
            && (moved.phase == AwaitingDecision <==> BuyableTile(r, s, k))
            && moved.pending == (if BuyableTile(r, s, k) then Some(k) else None)
            && TileSettled(r, moved, p, k, dice, RollAndMove(r, s, p, dice).value)
  {
    hide PlayersOk, PropsOk, Discipline, CardsOk, ValidRules, Moved, ResolveLanding, TileSettled, AuctionOk, TradeOk, Active, HumanActive;
    RollOutcome(r, s, p, dice);
    var counted := ApplyDoubles(s, dice);
    CoreFrame(r, s, counted);
    MovedCore(r, counted, p, dice);
    laps := MoveExact(r, counted, p, dice);
    moved := Moved(r, counted, p, dice);
    LandingOutcome(r, moved, p, moved.players[p].position, dice);
  }

  // ----- rolling from jail

  predicate RollsInJail(s: State, p: nat, dice: (int, int)) {
    s.phase in {AwaitingFirstTurn, AwaitingRoll} && s.current == p && s.HasPlayer(p) && s.players[p].inJail && ValidDice(dice)
  }

  /** A first or second roll without a double adds one to the term and does nothing else. */
  lemma FailedJailRoll(r: Rules, s: State, p: nat, dice: (int, int))
    requires Inv(r, s) && RollsInJail(s, p, dice) && dice.0 != dice.1 && s.players[p].jailTurns < 2
    ensures Shape(r, s)
    ensures RollAndMove(r, s, p, dice)
         == Ok(s.(phase := AwaitingTurnEnd, lastDice := Some(dice), doubles := 0, playAgain := false,
                  players := s.players[p := s.players[p].(jailTurns := s.players[p].jailTurns + 1)]))
  {
    hide PlayersOk, PropsOk, Discipline, CardsOk, ValidRules, AuctionOk, TradeOk, Active, HumanActive, MoveIgnoringJail;
  }

  /** A third one without the money for the fine leaves the fine owed and the player in jail. */
  lemma UnpaidJailRoll(r: Rules, s: State, p: nat, dice: (int, int))
    requires Inv(r, s) && RollsInJail(s, p, dice) && dice.0 != dice.1 && s.players[p].jailTurns >= 2 && s.players[p].cash < 50
    ensures Shape(r, s)
    ensures RollAndMove(r, s, p, dice)
         == Ok(s.(phase := AwaitingDebt, pending := None, auction := None, debt := Some(Debt(p, None, 50, JailFine)), playAgain := false,
                  lastDice := Some(dice), players := s.players[p := s.players[p].(jailTurns := s.players[p].jailTurns + 1)]))
  {
    hide PlayersOk, PropsOk, Discipline, CardsOk, ValidRules, AuctionOk, TradeOk, Active, HumanActive, MoveIgnoringJail;
  }

  /** What leaving jail by dice costs: nothing after a double, the fine at the third roll. */
  function ExitCost(dice: (int, int)): (cost: nat) {
    if dice.0 == dice.1 then 0 else 50
  }

  lemma ReleasedReady(r: Rules, s: State, p: nat, cost: nat)
    requires Inv(r, s) && s.HasPlayer(p) && s.players[p].cash >= cost && s.phase in {AwaitingFirstTurn, AwaitingRoll}
    ensures ReadyToRoll(r, ReleaseFromJail(WithCash(s, p, s.players[p].cash - cost), p), p)
  {
    hide PropsOk, Discipline, CardsOk, ValidRules, AuctionOk, TradeOk, Active, HumanActive;
    CashCore(r, s, p, s.players[p].cash - cost);
    ReleaseCore(r, WithCash(s, p, s.players[p].cash - cost), p);
  }

  /** The two exits as the program writes them. */
  lemma DoubleExitIs(r: Rules, s: State, p: nat, dice: (int, int))
    requires Inv(r, s) && Shape(r, s) && RollsInJail(s, p, dice) && dice.0 == dice.1
    ensures var res := MoveIgnoringJail(r, ReleaseFromJail(s, p).(doubles := 0, playAgain := false), p, dice, true);
            RollAndMove(r, s, p, dice) == if res.Err? then res else Ok(res.value.(doubles := 0, playAgain := false))
  {
    hide Core, ValidRules, AuctionOk, TradeOk, Active, HumanActive, MoveIgnoringJail, BuyableTile;
  }

  lemma FineExitIs(r: Rules, s: State, p: nat, dice: (int, int))
    requires Inv(r, s) && Shape(r, s) && RollsInJail(s, p, dice) && dice.0 != dice.1
    requires s.players[p].jailTurns >= 2 && s.players[p].cash >= 50
    ensures var res := MoveIgnoringJail(r, ReleaseFromJail(WithCash(s, p, s.players[p].cash - 50), p), p, dice, true);
            RollAndMove(r, s, p, dice) == if res.Err? then res else Ok(res.value.(doubles := 0, playAgain := false))
  {
    hide Core, ValidRules, AuctionOk, TradeOk, Active, HumanActive, MoveIgnoringJail, BuyableTile;
  }

  lemma SuppressedSame(r: Rules, s: State, p: nat, dice: (int, int))
    requires Shape(r, s) && s.HasPlayer(p) && ValidDice(dice)
    ensures MoveIgnoringJail(r, s, p, dice, true) == MoveIgnoringJail(r, s.(doubles := 0, playAgain := false), p, dice, true)
  {
    hide ValidRules, ResolveLanding, Moved;
  }

  lemma JailExitIs(r: Rules, s: State, p: nat, dice: (int, int))
    requires Inv(r, s) && Shape(r, s) && RollsInJail(s, p, dice)
    requires dice.0 == dice.1 || (s.players[p].jailTurns >= 2 && s.players[p].cash >= 50)
    ensures s.players[p].cash >= ExitCost(dice)
    ensures var start := ReleaseFromJail(WithCash(s, p, s.players[p].cash - ExitCost(dice)), p).(doubles := 0, playAgain := false);
            var res := MoveIgnoringJail(r, start, p, dice, true);
            RollAndMove(r, s, p, dice) == if res.Err? then res else Ok(res.value.(doubles := 0, playAgain := false))
  {
    hide PlayersOk, PropsOk, Discipline, CardsOk, ValidRules, PhaseOk, TurnOk, AuctionOk, TradeOk, RollAndMove, MoveIgnoringJail;
    PlayerAt(r, s, p);
    if dice.0 == dice.1 {
      DoubleExitIs(r, s, p, dice);
      assert WithCash(s, p, s.players[p].cash - 0) == s;
    } else {
      FineExitIs(r, s, p, dice);
      SuppressedSame(r, ReleaseFromJail(WithCash(s, p, s.players[p].cash - 50), p), p, dice);
    }
  }

  /**
   A double, or the third roll with the fine at hand, takes the player out of jail and forward by the
   dice; the tile reached is settled, and there is no further roll.
   */
  lemma JailExitRoll(r: Rules, s: State, p: nat, dice: (int, int)) returns (moved: State, laps: nat, settled: State)
    requires Inv(r, s) && RollsInJail(s, p, dice)
    requires dice.0 == dice.1 || (s.players[p].jailTurns >= 2 && s.players[p].cash >= 50)
    ensures Shape(r, s) && Shape(r, moved) && |moved.players| == |s.players|
    ensures var k := moved.players[p].position;
            && Travels(s.players[p].position, k, dice.0 + dice.1, |r.tiles|, laps)
            && moved.players == s.players[p := s.players[p].(position := k, inJail := false, jailTurns := 0,
                 cash := s.players[p].cash - ExitCost(dice) + if laps > 0 then r.passGoCash else 0)]
            && moved.props == s.props && moved.decks == s.decks
            && moved.pending == (if BuyableTile(r, s, k) then Some(k) else None)
            && TileSettled(r, moved, p, k, dice, settled)
    ensures RollAndMove(r, s, p, dice) == Ok(settled.(doubles := 0, playAgain := false))
  {
    hide PlayersOk, PropsOk, Discipline, CardsOk, ValidRules, MoveIgnoringJail, TileSettled, AuctionOk, TradeOk, Active, HumanActive,
      RollAndMove, Travels;
    RollOutcome(r, s, p, dice);
    JailExitIs(r, s, p, dice);
    ReleasedReady(r, s, p, ExitCost(dice));
    var released := ReleaseFromJail(WithCash(s, p, s.players[p].cash - ExitCost(dice)), p);
    var start := released.(doubles := 0, playAgain := false);
    CoreFrame(r, released, start);
    moved, laps, settled := SuppressedMove(r, start, p, dice);
    assert moved.players == s.players[p := moved.players[p]];
  }

  /** A move without counting doubles, from a state where the player may move. */
  lemma SuppressedMove(r: Rules, start: State, p: nat, dice: (int, int)) returns (moved: State, laps: nat, settled: State)
    requires ReadyToRoll(r, start, p) && ValidDice(dice) && start.doubles == 0 && !start.playAgain
    ensures Shape(r, start) && Shape(r, moved) && |moved.players| == |start.players|
    ensures MoveIgnoringJail(r, start, p, dice, true) == Ok(settled)
    ensures var k := moved.players[p].position;
            && Travels(start.players[p].position, k, dice.0 + dice.1, |r.tiles|, laps)
            && moved.players == start.players[p := start.players[p].(position := k,
                 cash := start.players[p].cash + if laps > 0 then r.passGoCash else 0)]
            && moved.props == start.props && moved.decks == start.decks
            && moved.pending == (if BuyableTile(r, start, k) then Some(k) else None)
            && TileSettled(r, moved, p, k, dice, settled)
  {
    hide PlayersOk, PropsOk, Discipline, CardsOk, ValidRules, Moved, ResolveLanding, TileSettled, Travels;
    MoveOutcome(r, start, p, dice, true);
    MovedCore(r, start, p, dice);
    laps := MoveExact(r, start, p, dice);
    moved := Moved(r, start, p, dice);
    LandingOutcome(r, moved, p, moved.players[p].position, dice);
    settled := ResolveLanding(r, moved, p, moved.players[p].position, dice).value;
  }
}
