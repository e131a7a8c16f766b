/** A small board and a table of three humans, for games that can be followed step by step. */
module SmallTable {
  import opened Rules
  import opened State
  import opened Money
  import opened Turns
  import opened Landing
  import opened Properties
  import opened Auctions
  import opened Trades
  import opened Engine
  import opened Invariant
  import opened Runs
  import opened Shuffle
  import opened Start
  import opened Ranking

  // ----- a small board and a table of three humans

  const STREET := Property(0, 100, 10, [10, 20, 30, 40], 50, 50, 50, 55)
  const TOWER := Property(1, 100, 1000, [1000, 1000, 1000, 1000], 1000, 50, 50, 55)

  const ESTATE := Rules([Go, Jail, STREET, TOWER, FreeParking, FreeParking, STREET, FreeParking, FreeParking, Tax(5000)],
                        200, 1, [CollectMoney(10), GetOutOfJailFree], [CollectMoney(10)], CardKey(ChanceDeck, 1))

  const TABLE: seq<Entrant> := [Entrant(Human, Normal, 1), Entrant(Human, Normal, 2), Entrant(Human, Normal, 3)]

  lemma EstateIsValid()
    ensures ValidRules(ESTATE)
  {
    assert !ESTATE.chance[0].GetOutOfJailFree? && !ESTATE.worldFund[0].GetOutOfJailFree?;
  }

  lemma EstateSets(j: nat)
    ensures ESTATE.SameSet(j, 3) <==> j == 3
    ensures ESTATE.SameSet(j, 2) <==> j == 2 || j == 6
  {}

  lemma TableIsSorted()
    ensures LobbyOk(TABLE) && LineUp(TABLE, Normal) == TABLE
  {
    hide SortBySeat;
    assert TABLE[0].playerType == Human;
    assert TABLE + [] == TABLE;
    SortKeepsOrder(TABLE);
  }

  function Opening(): (s: State) {
    InitialState(ESTATE, TABLE, [], 1, 60)
  }

  lemma OpeningFacts()
    ensures var s := Opening();
            && |s.players| == 3 && |s.props| == 10 && s.phase == AwaitingFirstTurn && s.turn == 1 && s.current == 0 && s.doubles == 0
            && !s.playAgain && s.debt.None? && s.auction.None? && s.trade.None? && s.pending.None? && s.expiresAt == Some(3600001)
            && (forall i :: 0 <= i < 3 ==> s.players[i] == NewPlayer(TABLE[i]))
            && (forall k :: 0 <= k < 10 ==> s.props[k] == BLANK)
  {
    hide InitialDecks;
  }

  /** The state of the example game after the first `n` of its steps. */
  ghost function Play(steps: seq<Step>, n: nat): (s: State)
    requires n <= |steps|
    ensures Inv(ESTATE, s)
  {
    EstateIsValid();
    TableIsSorted();
    Game(ESTATE, TABLE, Normal, [], 1, 60, steps, n)
  }

  lemma PlayStarts(steps: seq<Step>)
    ensures Play(steps, 0) == Opening()
  {
    hide Inv, ValidRules, InitialState, LobbyOk, LineUp;
    EstateIsValid();
    TableIsSorted();
  }

  lemma PlayGoesOn(steps: seq<Step>, n: nat, s: State, s': State)
    requires n < |steps| && Play(steps, n) == s && Shape(ESTATE, s) && LevelsOk(ESTATE, s.props)
    requires Reduce(ESTATE, s, steps[n].now, steps[n].intent) == Ok(s')
    ensures Play(steps, n + 1) == s'
  {
    hide Inv, ValidRules, InitialState, LobbyOk, LineUp, Reduce, LevelsOk;
    EstateIsValid();
    TableIsSorted();
  }

  lemma ShapeOf(s: State)
    requires Inv(ESTATE, s)
    ensures Shape(ESTATE, s) && LevelsOk(ESTATE, s.props)
  {
    InvShape(ESTATE, s);
  }

  // ----- rolls of a free player without passing the start

  predicate FreeRoll(r: Rules, s: State, p: nat, dice: (int, int), k: nat) {
    && Shape(r, s) && s.phase in {AwaitingFirstTurn, AwaitingRoll} && s.debt.None? && AssertCurrentTurn(s, p).None?
    && !s.players[p].inJail && ValidDice(dice) && (IsDoubles(dice) ==> s.doubles < 2)
    && k == s.players[p].position + dice.0 + dice.1 && k < |r.tiles|
  }

  function Rolled(s: State, p: nat, dice: (int, int), k: nat): (s': State)
    requires s.HasPlayer(p)
  {
    WithPlayer(ApplyDoubles(s, dice), p, s.players[p].(position := k)).(lastDice := Some(dice), phase := AwaitingTurnEnd, pending := None)
  }

  /** Such a roll is a plain move followed by what the tile asks for. */
  lemma FreeMove(r: Rules, s: State, p: nat, dice: (int, int), k: nat)
    requires FreeRoll(r, s, p, dice, k)
    ensures var moved := Moved(r, ApplyDoubles(s, dice), p, dice);
            && RollAndMove(r, s, p, dice) == ResolveLanding(r, moved, p, k, dice)
            && moved == if r.Ownable(k) && s.props[k].owner.None?
                        then Rolled(s, p, dice, k).(phase := AwaitingDecision, pending := Some(k))
                        else Rolled(s, p, dice, k)
  {
    hide ValidRules, ResolveLanding;
    Remainder(0, |r.tiles|, k);
  }

  lemma RollOntoUnowned(r: Rules, s: State, p: nat, dice: (int, int), k: nat)
    requires FreeRoll(r, s, p, dice, k) && r.Ownable(k) && s.props[k].owner.None?
    ensures RollAndMove(r, s, p, dice) == Ok(Rolled(s, p, dice, k).(phase := AwaitingDecision, pending := Some(k)))
  {
    hide ValidRules, RollAndMove, Moved;
    FreeMove(r, s, p, dice, k);
  }

  lemma RollOntoTax(r: Rules, s: State, p: nat, dice: (int, int), k: nat)
    requires FreeRoll(r, s, p, dice, k) && r.tiles[k].Tax? && r.tiles[k].amount > s.players[p].cash
    ensures RollAndMove(r, s, p, dice)
         == Ok(CreateDebt(Rolled(s, p, dice, k), Debt(p, None, r.tiles[k].amount, TaxDue)))
  {
    hide ValidRules, RollAndMove, Moved;
    FreeMove(r, s, p, dice, k);
  }

  lemma RollOntoRent(r: Rules, s: State, p: nat, dice: (int, int), k: nat, rent: int)
    requires FreeRoll(r, s, p, dice, k) && r.Ownable(k) && s.props[k].owner.Some? && s.props[k].owner != Some(p) && !s.props[k].mortgaged
    requires s.HasPlayer(s.props[k].owner.value) && rent > s.players[p].cash
    requires CalculateRent(r, Rolled(s, p, dice, k), k, dice) == rent
    ensures RollAndMove(r, s, p, dice)
         == Ok(CreateDebt(Rolled(s, p, dice, k), Debt(p, s.props[k].owner, rent, Rent)))
  {
    hide ValidRules, RollAndMove, Moved, CalculateRent;
    FreeMove(r, s, p, dice, k);
  }

  function Bought(r: Rules, s: State, p: nat, k: nat): (s': State)
    requires s.HasPlayer(p) && HasProperty(r, s, k)
  {
    WithProperty(WithCash(s, p, s.players[p].cash - r.tiles[k].price), k, s.props[k].(owner := Some(p)))
    .(phase := AwaitingTurnEnd, pending := None)
  }

  lemma BuyIs(r: Rules, s: State, p: nat, k: nat)
    requires Shape(r, s) && s.phase == AwaitingDecision && s.debt.None? && AssertCurrentTurn(s, p).None? && s.pending == Some(k)
    requires HasProperty(r, s, k) && s.props[k].owner.None? && r.tiles[k].price <= s.players[p].cash
    ensures BuyProperty(r, s, p) == Ok(Bought(r, s, p, k))
  {
    hide ValidRules;
  }

  /** Nobody of the three is bankrupt and they still sit in their order. */
  predicate AllSeated(s: State) {
    |s.players| == 3 && forall i :: 0 <= i < 3 ==> !s.players[i].bankrupt && s.players[i].seat == i + 1
  }

  lemma SeatedInOrder(s: State)
    requires AllSeated(s)
    ensures Active(s.players) == [0, 1, 2]
  {
    hide ActiveBySeat;
    ActiveIsSeatOrder(s.players, [0, 1, 2]);
  }

  lemma EstateTiles()
    ensures |ESTATE.tiles| == 10 && ESTATE.tiles[2] == STREET && ESTATE.tiles[3] == TOWER && ESTATE.tiles[6] == STREET
    ensures ESTATE.tiles[9] == Tax(5000)
    ensures ESTATE.Ownable(2) && ESTATE.Ownable(3) && ESTATE.Ownable(6) && !ESTATE.Ownable(9)
  {}
}
