/** A game that everybody has left: timeouts alone bring it to its end, within a bound fixed at the start. */
module Abandoned {
  import opened Rules
  import opened State
  import opened CardDecks
  import opened Turns
  import opened Landing
  import opened Properties
  import opened Auctions
  import opened AuctionRounds
  import opened Trades
  import opened AutoDebt
  import opened Engine
  import opened Invariant
  import opened RollProof
  import opened Preservation
  import opened BankruptcyProof
  import opened Runs
  import opened Solvency
  import opened Sets
  import opened Timer
  import opened Shuffle
  import opened Start

  // ----- how many missed turns the humans have left

  function Lives(player: Player): (n: nat)
    ensures n <= 3
  {
    if player.bankrupt || player.playerType != Human then 0
    else if player.missedTurns >= 2 then 1
    else 3 - player.missedTurns
  }

  function LivesUpTo(players: seq<Player>, n: nat): (sum: nat)
    requires n <= |players|
    ensures sum <= 3 * n
  {
    if n == 0 then 0 else LivesUpTo(players, n - 1) + Lives(players[n - 1])
  }

  lemma {:induction false} LivesUpdate(players: seq<Player>, players': seq<Player>, p: nat, n: nat)
    requires |players'| == |players| && p < |players| && n <= |players|
    requires forall i :: 0 <= i < |players| && i != p ==> Lives(players'[i]) == Lives(players[i])
    ensures LivesUpTo(players', n) == LivesUpTo(players, n) + if p < n then Lives(players'[p]) - Lives(players[p]) else 0
  {
    hide Lives;
    if n > 0 {
      LivesUpdate(players, players', p, n - 1);
    }
  }

  // ----- how many turns until a human's turn starts

  predicate IsHuman(players: seq<Player>, p: nat) {
    p < |players| && players[p].playerType == Human
  }

  /** The first place at `o` or later around the table where a human sits; the whole round if there is none. */
  function StepsTo(players: seq<Player>, ids: seq<nat>, c: nat, o: nat): (d: nat)
    requires c < |ids|
    ensures d <= |ids| || d == o
    decreases |ids| - o
  {
    if o >= |ids| then o
    else if IsHuman(players, ids[Position(ids, c, o)]) then o
    else StepsTo(players, ids, c, o + 1)
  }

  /** No human sits before the place found, and any human found later is no nearer. */
  lemma {:induction false} StepsToIsFirst(players: seq<Player>, ids: seq<nat>, c: nat, o: nat, at: nat)
    requires c < |ids| && o <= at <= |ids| && IsHuman(players, ids[Position(ids, c, at)])
    ensures var d := StepsTo(players, ids, c, o);
            o <= d <= at && IsHuman(players, ids[Position(ids, c, d)])
    decreases |ids| - o
  {
    if o < at && !IsHuman(players, ids[Position(ids, c, o)]) {
      StepsToIsFirst(players, ids, c, o + 1, at);
    }
  }

  /** The turn holder is a human whose turn has not been counted as missed yet. */
  predicate Fresh(s: State) {
    IsHuman(s.players, s.current) && s.players[s.current].lastMissedTurn != Some(s.turn)
  }

  function Wait(s: State): (d: nat) {
    if Fresh(s) then 0
    else if s.current in Active(s.players) then StepsTo(s.players, Active(s.players), IndexOf(Active(s.players), s.current), 1)
    else 0
  }

  /** Passing the turn on brings the next human's turn nearer. */
  lemma WaitPasses(r: Rules, s: State, s': State)
    requires Inv(r, s) && s.phase != Finished && !Fresh(s)
    requires s'.players == s.players && s'.turn > s.turn && NextActivePlayer(s) == Ok(s'.current)
    requires forall i :: 0 <= i < |s.players| ==> s.players[i].lastMissedTurn.Some? ==> s.players[i].lastMissedTurn.value <= s.turn
    ensures Wait(s') < Wait(s)
  {
    hide PropsOk, Discipline, CardsOk, ValidRules, PhaseOk, AuctionOk, TradeOk, ActiveBySeat, StepsTo;
    var ids := Active(s.players);
    FreshRing(s.players);
    var c := IndexOf(ids, s.current);
    var next := Position(ids, c, 1);
    NextIsPosition(ids, c);
    IndexUnique(ids, next);
    var human :| 0 <= human < |s.players| && !s.players[human].bankrupt && s.players[human].playerType == Human;
    RoundTable(s, ids, c, next, human);
  }

  lemma NextIsPosition(ids: seq<nat>, c: nat)
    requires c < |ids|
    ensures (c + 1) % |ids| == Position(ids, c, 1)
  {
    if c + 1 < |ids| {
      Remainder(0, |ids|, c + 1);
    } else {
      Remainder(1, |ids|, 0);
    }
  }

  lemma RoundTable(s: State, ids: seq<nat>, c: nat, next: nat, human: nat)
    requires NoDuplicates(ids) && c < |ids| && |ids| >= 2 && next == Position(ids, c, 1) && human in ids && IsHuman(s.players, human)
    ensures var d := StepsTo(s.players, ids, c, 1);
            && 1 <= d <= |ids|
            && (IsHuman(s.players, ids[next]) || StepsTo(s.players, ids, next, 1) < d)
  {
    hide StepsTo;
    var h := IndexOf(ids, human);
    var at := if h == c then |ids| else Gap(|ids|, c, h);
    assert Position(ids, c, at) == h;
    StepsToIsFirst(s.players, ids, c, 1, at);
    var d := StepsTo(s.players, ids, c, 1);
    if !IsHuman(s.players, ids[next]) {
      assert d >= 2;
      assert Position(ids, next, d - 1) == Position(ids, c, d);
      StepsToIsFirst(s.players, ids, next, 1, d - 1);
    }
  }

  // ----- what a timeout does to the table

  /** The turn goes on: same players, same counts, same turn. */
  predicate SameTurn(s: State, s': State) {
    SameRoster(s.players, s'.players) && SameMissed(s.players, s'.players) && s'.turn == s.turn && s'.current == s.current
  }

  /** The turn passes to the next active player. */
  predicate PassedOn(s: State, s': State) {
    s'.players == s.players && s'.turn == s.turn + 1 && s'.phase == AwaitingRoll && NextActivePlayer(s) == Ok(s'.current)
  }

  /** The turn holder leaves the game and the turn passes. */
  predicate LeftGame(s: State, s': State) {
    && s.HasPlayer(s.current) && !s.players[s.current].bankrupt && SameMissed(s.players, s'.players)
    && s'.turn == s.turn + 1 && s'.phase == AwaitingRoll
    && forall i :: 0 <= i < |s.players| ==>
         && s'.players[i].playerType == s.players[i].playerType
         && s'.players[i].bankrupt == (s.players[i].bankrupt || i == s.current)
  }

  lemma RollEffect(r: Rules, s: State, dice: (int, int))
    requires Inv(r, s) && Shape(r, s) && s.phase in {AwaitingFirstTurn, AwaitingRoll} && ValidDice(dice)
    ensures var res := RollAndMove(r, s, s.current, dice);
            res.Ok? && SameTurn(s, res.value) && res.value.phase in {AwaitingTurnEnd, AwaitingDecision, AwaitingDebt}
  {
    hide Core, RollAndMove, AuctionOk, TradeOk, Active, BuyableTile;
    RollOutcome(r, s, s.current, dice);
  }

  lemma DeclineEffect(r: Rules, s: State, now: int)
    requires Inv(r, s) && Shape(r, s) && s.phase == AwaitingDecision && DeclineProperty(r, s, now, s.current).Ok?
    ensures SameTurn(s, DeclineProperty(r, s, now, s.current).value)
  {
    hide Core, AuctionOk, TradeOk, Active, BuyableTile, TurnOk, PhaseOk, ValidRules;
  }

  lemma PassEffect(r: Rules, s: State, now: int, p: nat)
    requires Inv(r, s) && Shape(r, s) && PassBid(r, s, now, p).Ok?
    ensures SameTurn(s, PassBid(r, s, now, p).value)
  {
    hide Core, AuctionOk, TradeOk, Active, BuyableTile, TurnOk, PhaseOk, ValidRules, AfterPass, Unpassed;
  }

  lemma EndEffect(r: Rules, s: State)
    requires Inv(r, s) && s.phase == AwaitingTurnEnd && EndTurn(s, s.current).Ok?
    ensures var s' := EndTurn(s, s.current).value; SameTurn(s, s') || PassedOn(s, s')
  {
    hide Core, AuctionOk, TradeOk, Active, TurnOk, PhaseOk, NextActivePlayer;
  }

  lemma ForfeitEffect(r: Rules, s: State, named: Option<nat>)
    requires Inv(r, s) && DeclareBankruptcy(r, s, s.current, named).Ok?
    ensures var s' := DeclareBankruptcy(r, s, s.current, named).value;
            (s'.phase == Finished && |s'.players| == |s.players|) || LeftGame(s, s')
  {
    hide PlayersOk, PropsOk, Discipline, CardsOk, ValidRules, LiquidateAssets, ActiveBySeat, NextAfterBankruptcy, AuctionOk, TradeOk;
    BankruptcyAccepted(r, s, s.current, named);
    LiquidationResult(r, s, s.current, ActualCreditor(s, s.current, named));
  }

  lemma ResolveEffect(r: Rules, s: State)
    requires Unblocked(r, s) && Shape(r, s) && LevelsOk(r, s.props) && s.phase == AwaitingDebt && s.debt.Some?
    requires AutoResolveDebt(r, s, s.current).Ok?
    ensures var s' := AutoResolveDebt(r, s, s.current).value;
            (s'.phase == Finished && |s'.players| == |s.players|) || SameTurn(s, s') || LeftGame(s, s')
  {
    hide Core, AuctionOk, TradeOk, ValidRules, LevelsOk, RaiseCash, PayDebt, DeclareBankruptcy, SetsOk, OwnBuildingsWhole, Raiseable,
      Active, HumanActive, BuyableTile;
    SetsOkMeansWhole(r, s, s.current);
    RaiseOutcome(r, s, s.current);
    var raised := RaiseCash(r, s, s.current).value;
    if CanPayDebt(raised, s.current) {
      PayDebtOutcome(r, raised, s.current);
    } else {
      ForfeitEffect(r, raised, s.debt.value.creditor);
    }
  }

  /** What the engine makes of a due timeout. */
  predicate TimeoutEffect(s: State, intent: Intent, s': State) {
    || (s'.phase == Finished && |s'.players| == |s.players|)
    || (SameTurn(s, s') && !intent.TimeUp? && !intent.GoBankrupt?
        && (intent.RollDice? ==> s'.phase in {AwaitingTurnEnd, AwaitingDecision, AwaitingDebt}))
    || (intent.PassTurn? && PassedOn(s, s'))
    || (!intent.RollDice? && LeftGame(s, s'))
  }

  lemma FiredEffect(r: Rules, s: State, t: Tick)
    requires Unblocked(r, s) && s.phase != Finished && Due(s, t)
    ensures Fired(s, t).Some? && Accepted(r, s, Step(t.now, Fired(s, t).value))
    ensures TimeoutEffect(s, Fired(s, t).value, Next(r, s, Step(t.now, Fired(s, t).value)))
    ensures var intent := Fired(s, t).value;
            && (intent.RollDice? ==> intent.player == s.current && s.phase in {AwaitingFirstTurn, AwaitingRoll} && !ShouldForfeit(s.players[s.current]))
            && (!intent.RollDice? && !intent.TimeUp? && !intent.GoBankrupt? ==> s.phase !in {AwaitingFirstTurn, AwaitingRoll})
            && (intent.PassTurn? ==> s.phase == AwaitingTurnEnd)
  {
    hide Core, AuctionOk, TradeOk, SetsOk, ValidRules, LevelsOk, RollAndMove, DeclineProperty, PassBid, AutoResolveDebt,
      DeclareBankruptcy, EndTurn, Active, HumanActive, BuyableTile, HighestCanPay, CreditorOk, CurrentBidder, Progress, OpenOk,
      SameTurn, PassedOn, LeftGame, CarriedOut;
    InvShape(r, s);
    FiredProgress(r, s, t);
    if s.Expires() && t.now >= s.expiresAt.value {
    } else if s.phase == AwaitingDebt {
      ResolveEffect(r, s);
    } else if ShouldForfeit(s.players[s.current]) {
      ForfeitEffect(r, s, None);
    } else {
      match s.phase
      case AwaitingFirstTurn => RollEffect(r, s, t.dice);
      case AwaitingRoll => RollEffect(r, s, t.dice);
      case AwaitingDecision => DeclineEffect(r, s, t.now);
      case AwaitingAuction => AuctionBidder(s); PassEffect(r, s, t.now, s.auction.value.bidder.value);
      case AwaitingTurnEnd => EndEffect(r, s);
    }
  }

  /** Whom a due timeout makes bankrupt. */
  predicate BankruptedBy(r: Rules, s: State, i: nat)
    requires Shape(r, s) && s.HasPlayer(i)
  {
    && i == s.current
    && if s.phase == AwaitingDebt then s.debt.Some? && Raiseable(r, s, i) < s.debt.value.amount
       else s.players[i].playerType == Human && s.players[i].missedTurns >= 2
  }

  lemma SameTurnSpares(r: Rules, s: State, s': State)
    requires SameTurn(s, s') || s'.players == s.players
    ensures |s'.players| == |s.players| && forall i :: 0 <= i < |s.players| ==> s'.players[i].bankrupt == s.players[i].bankrupt
  {}

  /** Who is bankrupt after a timeout that comes before the game's time is up. */
  lemma TimeoutBankruptsIff(r: Rules, s: State, t: Tick)
    requires Unblocked(r, s) && Shape(r, s) && s.phase != Finished && Due(s, t) && (s.Expires() ==> t.now < s.expiresAt.value)
    ensures Fired(s, t).Some? && Accepted(r, s, Step(t.now, Fired(s, t).value))
    ensures var s' := Next(r, s, Step(t.now, Fired(s, t).value));
            && |s'.players| == |s.players|
            && forall i :: 0 <= i < |s.players| ==> (s'.players[i].bankrupt <==> s.players[i].bankrupt || BankruptedBy(r, s, i))
  {
    hide Core, AuctionOk, TradeOk, SetsOk, ValidRules, LevelsOk, RollAndMove, DeclineProperty, PassBid, AutoResolveDebt,
      DeclareBankruptcy, EndTurn, Active, HumanActive, BuyableTile, HighestCanPay, CreditorOk, CurrentBidder, Progress, OpenOk,
      SameTurn, CarriedOut, Raiseable, NextActivePlayer;
    InvShape(r, s);
    FiredProgress(r, s, t);
    var s' := Next(r, s, Step(t.now, Fired(s, t).value));
    if s.phase == AwaitingDebt {
      DebtBankruptsIff(r, s);
    } else if ShouldForfeit(s.players[s.current]) {
      ForfeitBankrupts(r, s);
    } else {
      match s.phase
      case AwaitingFirstTurn => RollEffect(r, s, t.dice); SameTurnSpares(r, s, s');
      case AwaitingRoll => RollEffect(r, s, t.dice); SameTurnSpares(r, s, s');
      case AwaitingDecision => DeclineEffect(r, s, t.now); SameTurnSpares(r, s, s');
      case AwaitingAuction => AuctionBidder(s); PassEffect(r, s, t.now, s.auction.value.bidder.value); SameTurnSpares(r, s, s');
      case AwaitingTurnEnd => EndEffect(r, s); SameTurnSpares(r, s, s');
    }
  }

  lemma ForfeitBankrupts(r: Rules, s: State)
    requires Inv(r, s) && DeclareBankruptcy(r, s, s.current, None).Ok?
    ensures var s' := DeclareBankruptcy(r, s, s.current, None).value;
            && |s'.players| == |s.players|
            && forall i :: 0 <= i < |s.players| ==> (s'.players[i].bankrupt <==> s.players[i].bankrupt || i == s.current)
  {
    hide Core, PhaseOk, TurnOk, AuctionOk, TradeOk, DeclareBankruptcy, TilesHandedOver, HumanActive;
    BankruptcyOutcome(r, s, s.current, None);
  }

  lemma DebtBankruptsIff(r: Rules, s: State)
    requires Unblocked(r, s) && Shape(r, s) && LevelsOk(r, s.props) && s.phase == AwaitingDebt && s.debt.Some?
    requires AutoResolveDebt(r, s, s.current).Ok?
    ensures s.HasPlayer(s.current)
    ensures var s' := AutoResolveDebt(r, s, s.current).value;
            && |s'.players| == |s.players|
            && forall i :: 0 <= i < |s.players| ==> (s'.players[i].bankrupt <==> s.players[i].bankrupt || BankruptedBy(r, s, i))
  {
    hide Core, AuctionOk, TradeOk, ValidRules, LevelsOk, RaiseCash, PayDebt, DeclareBankruptcy, SetsOk, OwnBuildingsWhole, Raiseable,
      Active, HumanActive, BuyableTile;
    SetsOkMeansWhole(r, s, s.current);
    RaiseOutcome(r, s, s.current);
    var raised := RaiseCash(r, s, s.current).value;
    RaisedCovers(r, raised, s.current);
    if CanPayDebt(raised, s.current) {
      PayDebtOutcome(r, raised, s.current);
    } else {
      var creditor := s.debt.value.creditor;
      BankruptcyOutcome(r, raised, s.current, creditor);
    }
  }

  // ----- the rank of a state falls with every timeout

  /** No turn is counted as missed before it came, and a human's turn is counted with its first roll. */
  predicate Standing(s: State) {
    && (forall i :: 0 <= i < |s.players| && s.players[i].lastMissedTurn.Some? ==> s.players[i].lastMissedTurn.value <= s.turn)
    && (s.phase !in {AwaitingFirstTurn, AwaitingRoll, Finished} && IsHuman(s.players, s.current) ==>
          s.players[s.current].lastMissedTurn == Some(s.turn))
  }

  lemma {:induction false} ActiveAtMost(players: seq<Player>, n: nat)
    requires n <= |players|
    ensures |ActiveBySeat(players, n)| <= n
  {
    hide InsertBySeat;
    if n > 0 {
      ActiveAtMost(players, n - 1);
    }
  }

  lemma WaitAtMost(s: State)
    ensures Wait(s) <= |s.players|
  {
    hide ActiveBySeat;
    ActiveAtMost(s.players, |s.players|);
  }

  lemma {:induction false} DistinctAtMost(ids: seq<nat>, n: nat)
    requires NoDuplicates(ids) && forall i :: 0 <= i < |ids| ==> ids[i] < n
    ensures |ids| <= n
  {
    if |ids| == 0 {
      return;
    }
    assert 0 <= ids[0] < n;
    if n - 1 in ids {
      var i := IndexOf(ids, n - 1);
      var rest := ids[..i] + ids[i + 1..];
      assert forall j :: 0 <= j < |rest| ==> rest[j] == if j < i then ids[j] else ids[j + 1];
      DistinctAtMost(rest, n - 1);
    } else {
      assert forall i :: 0 <= i < |ids| ==> ids[i] in ids;
      DistinctAtMost(ids, n - 1);
    }
  }

  lemma PhaseWorkAtMost(r: Rules, s: State)
    requires Inv(r, s) && s.phase != Finished
    ensures 0 <= PhaseWork(s) <= |s.players| + 2
    ensures s.phase in {AwaitingFirstTurn, AwaitingRoll} ==> PhaseWork(s) == 0
  {
    hide Core, TradeOk, TurnOk, ActiveBySeat, HumanActive, BuyableTile;
    ActiveAtMost(s.players, |s.players|);
    if s.auction.Some? {
      var a := s.auction.value;
      UnpassedBound(a.active, a.passed);
      DistinctAtMost(a.active, |s.players|);
    }
  }

  lemma FewRollsLeft(r: Rules, s: State)
    requires Inv(r, s) && s.phase != Finished
    ensures 0 <= RollsLeft(s) <= if s.phase in {AwaitingFirstTurn, AwaitingRoll} then 3 else 2
  {
    hide Core, TradeOk, AuctionOk, ActiveBySeat, HumanActive, PhaseOk;
  }

  lemma RemainingAtMost(r: Rules, s: State)
    requires Inv(r, s) && s.phase != Finished
    ensures 0 <= Remaining(s) <= 3 * |s.players| + 9
  {
    hide Inv, ActiveBySeat, RollsLeft, PhaseWork;
    ActiveAtMost(s.players, |s.players|);
    PhaseWorkAtMost(r, s);
    FewRollsLeft(r, s);
    var n := |Active(s.players)| + 3;
    AtLeast(n, if s.phase in {AwaitingFirstTurn, AwaitingRoll} then 3 else 2, RollsLeft(s));
    AtLeast(n, RollsLeft(s), 0);
  }

  /** Two numbers in one, the first of them weighing more than any change of the second below `m`. */
  function Weigh(x: int, m: nat, y: int): (n: int) {
    x * m + y
  }

  function Slots(s: State): (n: int) {
    Weigh(Weigh(LivesUpTo(s.players, |s.players|), |s.players| + 1, |Active(s.players)|), |s.players| + 1, Wait(s))
  }

  /** Timeouts the game can still see. */
  function Rank(s: State): (n: int) {
    Weigh(Slots(s), 3 * |s.players| + 10, Remaining(s))
  }

  lemma StepDown(x': int, x: int, m: nat, y': int, y: int)
    requires x' < x && 0 <= y' < m && y >= 0
    ensures Weigh(x', m, y') < Weigh(x, m, y)
  {
    AtLeast(m, x, x' + 1);
  }

  lemma WeighMore(x': int, x: int, m: nat, y': int, y: int)
    requires x' <= x && y' <= y
    ensures Weigh(x', m, y') <= Weigh(x, m, y)
    ensures x' >= 0 && y' > 0 ==> Weigh(x', m, y') > 0
    ensures x' >= 0 && y' >= 0 ==> Weigh(x', m, y') >= 0
  {
    AtLeast(m, x, x');
    if x' >= 0 {
      AtLeast(m, x', 0);
    }
  }

  lemma SecondDown(x': int, x: int, m: nat, y': int, y: int)
    requires x' <= x && y' < y
    ensures Weigh(x', m, y') < Weigh(x, m, y)
  {
    AtLeast(m, x, x');
  }

  lemma SlotsDrop(s: State, s': State)
    requires |s'.players| == |s.players|
    requires var lives', lives := LivesUpTo(s'.players, |s'.players|), LivesUpTo(s.players, |s.players|);
             var active', active := |Active(s'.players)|, |Active(s.players)|;
             lives' < lives || (lives' <= lives && active' < active) || (lives' == lives && active' == active && Wait(s') < Wait(s))
    ensures Slots(s') < Slots(s)
  {
    hide LivesUpTo, ActiveBySeat, Wait, Weigh;
    var m := |s.players| + 1;
    var lives', lives := LivesUpTo(s'.players, |s'.players|), LivesUpTo(s.players, |s.players|);
    var active', active := |Active(s'.players)|, |Active(s.players)|;
    ActiveAtMost(s'.players, |s'.players|);
    WaitAtMost(s');
    if lives' < lives {
      StepDown(lives', lives, m, active', active);
      StepDown(Weigh(lives', m, active'), Weigh(lives, m, active), m, Wait(s'), Wait(s));
    } else if active' < active {
      SecondDown(lives', lives, m, active', active);
      StepDown(Weigh(lives', m, active'), Weigh(lives, m, active), m, Wait(s'), Wait(s));
    } else {
      SecondDown(Weigh(lives', m, active'), Weigh(lives, m, active), m, Wait(s'), Wait(s));
    }
  }

  lemma RankDrops(r: Rules, s: State, s': State)
    requires Inv(r, s) && Inv(r, s') && s.phase != Finished && s'.phase != Finished && |s'.players| == |s.players|
    requires Slots(s') < Slots(s) || (Slots(s') == Slots(s) && Remaining(s') < Remaining(s))
    ensures Rank(s') < Rank(s)
  {
    hide Inv, Slots, Remaining, Weigh;
    RemainingAtMost(r, s);
    RemainingAtMost(r, s');
    if Slots(s') < Slots(s) {
      StepDown(Slots(s'), Slots(s), 3 * |s.players| + 10, Remaining(s'), Remaining(s));
    } else {
      SecondDown(Slots(s'), Slots(s), 3 * |s.players| + 10, Remaining(s'), Remaining(s));
    }
  }

  lemma {:induction false} SameLives(players: seq<Player>, players': seq<Player>, n: nat)
    requires SameRoster(players, players') && SameMissed(players, players') && n <= |players|
    ensures LivesUpTo(players', n) == LivesUpTo(players, n)
  {
    if n > 0 {
      SameLives(players, players', n - 1);
    }
  }

  lemma SameTurnSlots(s: State, s': State)
    requires SameTurn(s, s')
    ensures Slots(s') == Slots(s) && Fresh(s') == Fresh(s)
  {
    hide ActiveBySeat, HumanActive, LivesUpTo;
    SameLives(s.players, s'.players, |s.players|);
    RosterActive(s.players, s'.players);
    SameSteps(s, s');
  }

  lemma SameSteps(s: State, s': State)
    requires SameTurn(s, s') && Active(s'.players) == Active(s.players)
    ensures Wait(s') == Wait(s)
  {
    hide ActiveBySeat;
    if s.current in Active(s.players) {
      SameStepsTo(s.players, s'.players, Active(s.players), IndexOf(Active(s.players), s.current), 1);
    }
  }

  lemma {:induction false} SameStepsTo(players: seq<Player>, players': seq<Player>, ids: seq<nat>, c: nat, o: nat)
    requires SameRoster(players, players') && c < |ids|
    ensures StepsTo(players', ids, c, o) == StepsTo(players, ids, c, o)
    decreases |ids| - o
  {
    if o < |ids| {
      SameStepsTo(players, players', ids, c, o + 1);
    }
  }

  /** A missed turn costs its holder a life. */
  lemma MissedSlots(s: State, next: State, s': State)
    requires SameTurn(s, next) && Fresh(s) && s.HasPlayer(s.current) && !s.players[s.current].bankrupt
    requires !ShouldForfeit(s.players[s.current]) && s' == IncrementMissed(next, s.current, s.turn)
    ensures |s'.players| == |s.players| && Slots(s') < Slots(s)
    ensures s'.players[s.current].lastMissedTurn == Some(s.turn)
  {
    hide ActiveBySeat, HumanActive, LivesUpTo, Wait, Slots;
    SameLives(s.players, next.players, |s.players|);
    LivesUpdate(next.players, s'.players, s.current, |s.players|);
    SlotsDrop(s, s');
  }

  lemma {:induction false} LeftLives(s: State, s': State, n: nat)
    requires LeftGame(s, s') && n <= |s.players|
    ensures LivesUpTo(s'.players, n) <= LivesUpTo(s.players, n)
  {
    if n > 0 {
      LeftLives(s, s', n - 1);
    }
  }

  lemma LeftSlots(s: State, s': State)
    requires LeftGame(s, s')
    ensures Slots(s') < Slots(s)
  {
    hide ActiveBySeat, LivesUpTo, Wait, Slots;
    LeftLives(s, s', |s.players|);
    ActiveCountUpdate(s.players, s'.players, s.current, |s.players|);
    SlotsDrop(s, s');
  }

  lemma PassedSlots(r: Rules, s: State, s': State)
    requires Inv(r, s) && s.phase != Finished && Standing(s) && !Fresh(s) && PassedOn(s, s')
    ensures Slots(s') < Slots(s)
  {
    hide Inv, ActiveBySeat, LivesUpTo, Wait, Slots, NextActivePlayer, Fresh;
    WaitPasses(r, s, s');
    SlotsDrop(s, s');
  }

  /** The state after a firing, in terms of the engine's step. */
  lemma FireIs(r: Rules, s: State, t: Tick)
    requires Unblocked(r, s) && s.phase != Finished && Due(s, t)
    ensures Fired(s, t).Some? && Fire(r, s, t).Ok?
    ensures var intent := Fired(s, t).value;
            Fire(r, s, t).value == ApplySource(s, Next(r, s, Step(t.now, intent)), FromTimer, intent)
  {
    hide Inv, Unblocked, Due, ChooseTimeout, ValidRules, LevelsOk, Reduce, ApplySource, EffectiveIntent;
    TimeoutStep(r, s, t);
  }

  /** Every due timeout of a game in good standing ends it or brings its rank down. */
  lemma TimeoutLowersRank(r: Rules, s: State, t: Tick)
    requires Unblocked(r, s) && Standing(s) && s.phase != Finished && Due(s, t)
    ensures Fired(s, t).Some? && Fire(r, s, t).Ok? && Unblocked(r, Fire(r, s, t).value)
    ensures var s' := Fire(r, s, t).value;
            |s'.players| == |s.players| && (s'.phase == Finished || (Standing(s') && Rank(s') < Rank(s)))
  {
    hide Inv, SetsOk, Due, Fired, Fire, ValidRules, LevelsOk, Rank, Slots, Remaining, ShouldForfeit, ApplySource, Accepted, Next,
      HighestCanPay, CreditorOk, TimeoutEffect;
    TimeoutStep(r, s, t);
    FiredEffect(r, s, t);
    FireIs(r, s, t);
    TurnHolderHere(r, s);
    var intent := Fired(s, t).value;
    var next := Next(r, s, Step(t.now, intent));
    var s' := Fire(r, s, t).value;
    EffectRank(r, s, intent, next, s');
  }

  lemma SourceIs(s: State, next: State, intent: Intent)
    requires intent.RollDice? ==> intent.player == s.current
    ensures ApplySource(s, next, FromTimer, intent) == if intent.RollDice? then IncrementMissed(next, s.current, s.turn) else next
  {}

  lemma TurnHolderHere(r: Rules, s: State)
    requires Inv(r, s) && s.phase != Finished
    ensures s.HasPlayer(s.current) && !s.players[s.current].bankrupt
  {}

  lemma EffectRank(r: Rules, s: State, intent: Intent, next: State, s': State)
    requires Inv(r, s) && Inv(r, s') && Standing(s) && s.phase != Finished && Progress(s, s')
    requires s.HasPlayer(s.current) && !s.players[s.current].bankrupt
    requires TimeoutEffect(s, intent, next) && s' == ApplySource(s, next, FromTimer, intent)
    requires intent.RollDice? ==> intent.player == s.current && s.phase in {AwaitingFirstTurn, AwaitingRoll} && !ShouldForfeit(s.players[s.current])
    requires !intent.RollDice? && !intent.TimeUp? && !intent.GoBankrupt? ==> s.phase !in {AwaitingFirstTurn, AwaitingRoll}
    ensures |s'.players| == |s.players| && (s'.phase == Finished || (Standing(s') && Rank(s') < Rank(s)))
  {
    hide Inv, Slots, Rank, Remaining, NextActivePlayer, ActiveBySeat, Active, HumanActive, LivesUpTo, Wait, ApplySource;
    SourceIs(s, next, intent);
    if next.phase == Finished {
    } else if SameTurn(s, next) && intent.RollDice? {
      SameTurnSlots(s, next);
      if Fresh(s) {
        MissedSlots(s, next, s');
      }
      RankDrops(r, s, s');
    } else if SameTurn(s, next) {
      SameTurnSlots(s, next);
      RankDrops(r, s, s');
    } else if intent.PassTurn? && PassedOn(s, next) {
      PassedSlots(r, s, next);
      RankDrops(r, s, s');
    } else {
      LeftSlots(s, next);
      RankDrops(r, s, s');
    }
  }

  // ----- whole games

  lemma {:induction false} AbandonedRun(r: Rules, states: seq<State>, ticks: seq<Tick>, n: nat)
    requires TimerRun(r, states, ticks) && n < |states| && Unblocked(r, states[0]) && Standing(states[0])
    requires forall i :: 0 <= i < n ==> states[i].phase != Finished
    ensures Unblocked(r, states[n]) && |states[n].players| == |states[0].players|
    ensures states[n].phase == Finished || (Standing(states[n]) && Rank(states[n]) <= Rank(states[0]) - n)
  {
    hide Inv, Unblocked, Rank, Fires, Standing;
    if n > 0 {
      AbandonedRun(r, states, ticks, n - 1);
      FiringLowersRank(r, states[n - 1], ticks[n - 1], states[n]);
    }
  }

  lemma FiringLowersRank(r: Rules, s: State, t: Tick, s': State)
    requires Inv(r, s) && Unblocked(r, s) && Standing(s) && s.phase != Finished && Fires(r, s, t, s')
    ensures Unblocked(r, s') && |s'.players| == |s.players| && (s'.phase == Finished || (Standing(s') && Rank(s') < Rank(s)))
  {
    hide Inv, Unblocked, Standing, Rank, Due, Fired, Fire;
    TimeoutLowersRank(r, s, t);
  }

  /** A bound on the timeouts of a game of `n` players. */
  function Patience(n: nat): (bound: int) {
    Weigh(Weigh(Weigh(3 * n, n + 1, n), n + 1, n), 3 * n + 10, 3 * n + 9)
  }

  lemma RankAtMost(r: Rules, s: State)
    requires Inv(r, s) && s.phase != Finished
    ensures 0 < Rank(s) <= Patience(|s.players|)
  {
    hide Inv, Remaining, LivesUpTo, ActiveBySeat, Wait, Weigh;
    var n := |s.players|;
    var lives, active := LivesUpTo(s.players, n), |Active(s.players)|;
    ActiveAtMost(s.players, n);
    WaitAtMost(s);
    RemainingAtMost(r, s);
    RemainingIsPositive(r, s);
    WeighMore(lives, 3 * n, n + 1, active, n);
    WeighMore(Weigh(lives, n + 1, active), Weigh(3 * n, n + 1, n), n + 1, Wait(s), n);
    WeighMore(Slots(s), Weigh(Weigh(3 * n, n + 1, n), n + 1, n), 3 * n + 10, Remaining(s), 3 * n + 9);
  }

  /**
   A game nobody attends to comes to its end by timeouts alone: whatever the dice, an unfinished game
   started from any lobby has seen fewer than a fixed number of them, and the next one is accepted.
   */
  lemma AbandonedGamesFinish(r: Rules, joined: seq<Entrant>, difficulty: Difficulty, seed: Seed, startedAt: int, minutes: int,
                             states: seq<State>, ticks: seq<Tick>)
    requires ValidRules(r) && LobbyOk(joined) && TimerRun(r, states, ticks)
    requires states[0] == InitialState(r, LineUp(joined, difficulty), seed, startedAt, minutes)
    requires forall i :: 0 <= i < |states| ==> states[i].phase != Finished
    ensures |ticks| < Patience(|states[0].players|)
    ensures forall t: Tick {:trigger Due(states[|ticks|], t)} :: Due(states[|ticks|], t) ==>
              Fired(states[|ticks|], t).Some? && Fire(r, states[|ticks|], t).Ok?
  {
    hide Inv, LineUp, InitialState, TimerRun, Fired, Due, Fire, Rank, Patience, Standing, Unblocked, ValidRules;
    RunShape(r, states, ticks);
    StartHolds(r, joined, difficulty, seed, startedAt, minutes);
    StartStands(r, LineUp(joined, difficulty), seed, startedAt, minutes);
    StartUnblocked(r, states[0]);
    var last := states[|ticks|];
    AbandonedRun(r, states, ticks, |ticks|);
    RankAtMost(r, states[0]);
    RankAtMost(r, last);
    forall t: Tick | Due(last, t)
      ensures Fired(last, t).Some? && Fire(r, last, t).Ok?
    {
      TimeoutStep(r, last, t);
    }
  }

  lemma StartStands(r: Rules, entrants: seq<Entrant>, seed: Seed, startedAt: int, minutes: int)
    ensures var s := InitialState(r, entrants, seed, startedAt, minutes); Standing(s) && s.debt.None? && s.auction.None?
  {
    hide InitialDecks;
  }

  lemma StartUnblocked(r: Rules, s: State)
    requires Inv(r, s) && |s.props| == |r.tiles| && SetsOk(r, s.props) && s.debt.None? && s.auction.None?
    ensures Unblocked(r, s)
  {
    hide Inv, SetsOk;
  }
}
