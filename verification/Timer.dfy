/**
 Commands and timeouts: what wraps an intent before it reaches the store
 (game-commands.service.ts, game-engine-missed-turns.ts, game-turn-timer-policy.service.ts).
 */
module Timer {
  import opened Rules
  import opened State
  import opened CardDecks
  import opened Turns
  import opened Landing
  import opened Properties
  import opened Auctions
  import opened AuctionRounds
  import opened Trades
  import opened AutoDebt
  import opened Engine
  import opened Invariant
  import opened RollProof
  import opened Preservation
  import opened BankruptcyProof
  import opened Runs
  import opened Solvency
  import opened Sets

  const MAX_MISSED_TURNS: nat := 3

  // ----- commands

  datatype Source = FromPlayer | FromBot | FromTimer

  function Actor(intent: Intent): (p: Option<nat>) {
    match intent
    case TimeUp(_) => None
    case LastHumanLeft(_) => None
    case Propose(offer) => Some(offer.from)
    case _ => Some(intent.player)
  }

  /** Once the game time is up, every command finishes the game instead. */
  function EffectiveIntent(s: State, now: int, intent: Intent): (effective: Intent) {
    if intent.TimeUp? || s.Over() || !s.Expires() || now < s.expiresAt.value then intent else TimeUp(now)
  }

  function IncrementMissed(s: State, p: nat, turn: int): (s': State) {
    if !s.HasPlayer(p) then s
    else
      var player := s.players[p];
      if player.playerType != Human || player.bankrupt || player.lastMissedTurn == Some(turn) then s
      else WithPlayer(s, p, player.(missedTurns := player.missedTurns + 1, lastMissedTurn := Some(turn)))
  }

  function ResetMissed(s: State, p: nat): (s': State) {
    if s.HasPlayer(p) && s.players[p].playerType == Human
    then WithPlayer(s, p, s.players[p].(missedTurns := 0, lastMissedTurn := None))
    else s
  }

  function ApplySource(before: State, s: State, source: Source, intent: Intent): (s': State) {
    var actor := Actor(intent);
    if actor.None? then s
    else
      match source
      case FromPlayer => ResetMissed(s, actor.value)
      case FromBot => s
      case FromTimer =>
        if intent.RollDice? && actor.value == before.current then IncrementMissed(s, actor.value, before.turn) else s
  }

  function Execute(r: Rules, s: State, now: int, source: Source, intent: Intent): (res: Result<State>)
    requires Shape(r, s) && LevelsOk(r, s.props)
  {
    var effective := EffectiveIntent(s, now, intent);
    var next :- Reduce(r, s, now, effective);
    Ok(ApplySource(s, next, source, effective))
  }

  /** Missed-turn bookkeeping is all that a command adds to the step it takes. */
  predicate Bookkeeping(s: State, s': State) {
    && |s'.players| == |s.players|
    && s' == s.(players := s'.players)
    && forall i :: 0 <= i < |s.players| ==>
         s'.players[i] == s.players[i].(missedTurns := s'.players[i].missedTurns, lastMissedTurn := s'.players[i].lastMissedTurn)
  }

  lemma BookkeepingKeeps(r: Rules, s: State, s': State)
    requires Inv(r, s) && Bookkeeping(s, s')
    ensures Inv(r, s') && RollsLeft(s') == RollsLeft(s)
  {
    hide PropsOk, Discipline, CardsOk, ValidRules;
    forall i | 0 <= i < |s'.players|
      ensures PlayerOk(r, s'.players[i])
    {
      assert PlayerOk(r, s.players[i]);
    }
    RosterCore(r, s, s');
    PlayersKeep(r, s, s');
  }

  lemma SourceIsBookkeeping(before: State, s: State, source: Source, intent: Intent)
    ensures Bookkeeping(s, ApplySource(before, s, source, intent))
  {}

  /**
   A player's own command wipes the player's missed turns; a timer roll counts the turn as missed once,
   for a human still in the game; nothing else counts or wipes anything.
   */
  lemma SourceOutcome(before: State, s: State, source: Source, intent: Intent, i: nat)
    requires s.HasPlayer(i) && (intent.RollDice? ==> intent.player == before.current)
    ensures var s', player := ApplySource(before, s, source, intent), s.players[i];
            && |s'.players| == |s.players|
            && var wiped := source == FromPlayer && Actor(intent) == Some(i) && player.playerType == Human;
               var counted := source == FromTimer && intent.RollDice? && i == before.current
                              && player.playerType == Human && !player.bankrupt && player.lastMissedTurn != Some(before.turn);
               && s'.players[i].missedTurns == (if wiped then 0 else if counted then player.missedTurns + 1 else player.missedTurns)
               && s'.players[i].lastMissedTurn == (if wiped then None else if counted then Some(before.turn) else player.lastMissedTurn)
  {}

  /** A command is one step of the engine plus bookkeeping, whatever its source, and keeps the invariant. */
  lemma CommandIsStep(r: Rules, s: State, now: int, source: Source, intent: Intent)
    requires Inv(r, s) && Shape(r, s) && LevelsOk(r, s.props) && Execute(r, s, now, source, intent).Ok?
    ensures var s' := Execute(r, s, now, source, intent).value;
            var step := Step(now, EffectiveIntent(s, now, intent));
            && Accepted(r, s, step) && Bookkeeping(Next(r, s, step), s') && Inv(r, s')
            && RollsLeft(s') == RollsLeft(Next(r, s, step))
  {
    hide Inv, ValidRules, LevelsOk, Reduce, RollsLeft, EffectiveIntent, ApplySource, Bookkeeping;
    var step := Step(now, EffectiveIntent(s, now, intent));
    SourceIsBookkeeping(s, Next(r, s, step), source, step.intent);
    BookkeepingKeeps(r, Next(r, s, step), Execute(r, s, now, source, intent).value);
  }

  // ----- the timeout policy

  predicate ShouldForfeit(player: Player) {
    player.playerType == Human && player.missedTurns >= MAX_MISSED_TURNS - 1
  }

  /** What the timer does for the player who let the deadline pass. */
  function ChooseTimeout(s: State, now: int, dice: (int, int)): (intent: Option<Intent>) {
    if s.Over() then None
    else if s.Expires() && now >= s.expiresAt.value then Some(TimeUp(now))
    else if !s.HasPlayer(s.current) || s.players[s.current].bankrupt then None
    else if s.phase == AwaitingDebt then
      if s.debt.Some? then Some(AutoResolve(s.debt.value.player)) else None
    else if ShouldForfeit(s.players[s.current]) then Some(GoBankrupt(s.current, None))
    else
      match s.phase
      case AwaitingFirstTurn => Some(RollDice(s.current, dice))
      case AwaitingRoll => Some(RollDice(s.current, dice))
      case AwaitingDecision => Some(Decline(s.current))
      case AwaitingAuction =>
        if s.auction.None? || (s.auction.value.bidExpiresAt != 0 && now < s.auction.value.bidExpiresAt) then None
        else
          var bidder := CurrentBidder(s.auction.value);
          if bidder.Some? then Some(Pass(bidder.value)) else None
      case AwaitingTurnEnd => Some(PassTurn(s.current))
  }

  /** One firing of the timer: the clock when the intent is chosen, the clock when it runs, and the dice. */
  datatype Tick = Tick(chosenAt: int, now: int, dice: (int, int))

  predicate TickOk(t: Tick) {
    0 < t.chosenAt <= t.now && ValidDice(t.dice)
  }

  /** The timer of an auction fires once the bid deadline has passed. */
  predicate Due(s: State, t: Tick) {
    TickOk(t) && (s.auction.Some? ==> s.auction.value.bidExpiresAt <= t.chosenAt)
  }

  /** No split built set, a creditor still in the game, and a highest bidder who can pay. */
  ghost predicate Unblocked(r: Rules, s: State) {
    && Inv(r, s)
    && |s.props| == |r.tiles| && SetsOk(r, s.props)
    && (s.debt.Some? ==> CreditorOk(s, s.debt.value.player, s.debt.value.creditor))
    && (s.auction.Some? ==> HighestCanPay(s, s.auction.value))
  }

  predicate HighestCanPay(s: State, a: Auction) {
    a.highest.Some? ==> s.HasPlayer(a.highest.value) && s.players[a.highest.value].cash >= a.bid
  }

  /** Timeouts the rest of the turn can still take. */
  function Remaining(s: State): (n: int) {
    RollsLeft(s) * (|Active(s.players)| + 3) + PhaseWork(s)
  }

  function PhaseWork(s: State): (n: int) {
    match s.phase
    case AwaitingDecision => |Active(s.players)| + 2
    case AwaitingAuction => if s.auction.Some? then |Unpassed(s.auction.value.active, s.auction.value.passed)| + 1 else 0
    case AwaitingDebt => 2
    case AwaitingTurnEnd => 1
    case _ => 0
  }

  /** The turn went on, the game ended, or fewer timeouts remain. */
  predicate Progress(s: State, s': State) {
    s'.turn > s.turn || s'.phase == Finished || (s'.turn == s.turn && Remaining(s') < Remaining(s))
  }

  lemma RemainingIsPositive(r: Rules, s: State)
    requires Inv(r, s) && s.phase != Finished
    ensures Remaining(s) >= 1
  {
    hide Core, AuctionOk, TradeOk;
    var n := |Active(s.players)| + 3;
    RollsLeftRange(r, s);
    if RollsLeft(s) >= 1 {
      AtLeast(n, RollsLeft(s), 1);
    } else {
      assert RollsLeft(s) * n == 0;
    }
  }

  // ----- each timeout makes progress

  /** Whatever is left open can be carried through. */
  predicate OpenOk(s: State) {
    && (s.debt.Some? ==> CreditorOk(s, s.debt.value.player, s.debt.value.creditor))
    && (s.auction.Some? ==> HighestCanPay(s, s.auction.value))
  }

  lemma RollProgress(r: Rules, s: State, dice: (int, int))
    requires Inv(r, s) && Shape(r, s) && s.phase in {AwaitingFirstTurn, AwaitingRoll} && ValidDice(dice)
    ensures var res := RollAndMove(r, s, s.current, dice);
            res.Ok? && Progress(s, res.value) && OpenOk(res.value)
  {
    hide PlayersOk, PropsOk, Discipline, CardsOk, ValidRules, RollAndMove, Active, BuyableTile;
    RollOutcome(r, s, s.current, dice);
    RollSpends(r, s, s.current, dice);
    var s' := RollAndMove(r, s, s.current, dice).value;
    RosterActive(s.players, s'.players);
    AtLeast(|Active(s.players)| + 3, RollsLeft(s), RollsLeft(s') + 1);
  }

  lemma DeclineProgress(r: Rules, s: State, now: int)
    requires Inv(r, s) && Shape(r, s) && s.phase == AwaitingDecision
    ensures var res := DeclineProperty(r, s, now, s.current);
            res.Ok? && Progress(s, res.value) && OpenOk(res.value)
  {
    hide Core, AuctionOk, TradeOk, ValidRules, Active, HumanActive;
    UnpassedBound(Active(s.players), []);
  }

  lemma LessPhaseWork(s: State, s': State)
    requires s'.turn == s.turn && RollsLeft(s') == RollsLeft(s) && SameRoster(s.players, s'.players)
    requires PhaseWork(s') < PhaseWork(s)
    ensures Progress(s, s')
  {
    hide RollsLeft, PhaseWork, Active;
    RosterActive(s.players, s'.players);
  }

  lemma PassProgress(r: Rules, s: State, now: int)
    requires Inv(r, s) && Shape(r, s) && s.phase == AwaitingAuction && s.auction.Some? && OpenOk(s)
    ensures s.auction.value.bidder.Some?
    ensures var res := PassBid(r, s, now, s.auction.value.bidder.value);
            res.Ok? && Progress(s, res.value) && OpenOk(res.value)
  {
    hide Core, TradeOk, ValidRules, RingOk, NextBidder, Active, HumanActive, BuyableTile, Progress, CompleteAuction, Unpassed;
    var a := s.auction.value;
    RingBidder(a);
    var p := a.bidder.value;
    UnpassedAfterPass(a.active, a.passed, p);
    PassSettles(r, s, a, AfterPass(s, now, a, p));
    assert p in Unpassed(a.active, a.passed);
    LessPhaseWork(s, PassBid(r, s, now, p).value);
  }

  /**
   The current bidder's pass is refused exactly when it would settle the auction and the highest
   bidder can no longer pay.
   */
  lemma PassAcceptedIff(r: Rules, s: State, now: int)
    requires Inv(r, s) && Shape(r, s) && s.auction.Some?
    ensures s.auction.value.bidder.Some?
    ensures var a := s.auction.value;
            PassBid(r, s, now, a.bidder.value).Ok?
            <==> a.highest.None? || |Unpassed(a.active, a.passed)| > 2 || HighestCanPay(s, a)
  {
    hide Core, TradeOk, TurnOk, ValidRules, RingOk, NextBidder, BuyableTile, Unpassed;
    var a := s.auction.value;
    RingBidder(a);
    UnpassedAfterPass(a.active, a.passed, a.bidder.value);
  }

  lemma PassSettles(r: Rules, s: State, a: Auction, a': Auction)
    requires Shape(r, s) && s.auction == Some(a) && OpenOk(s) && a'.highest == a.highest && a'.bid == a.bid
    requires a.highest.Some? ==> a.bid >= MINIMUM_BID
    ensures CompleteAuction(r, s, a').Ok?
    ensures var s' := CompleteAuction(r, s, a').value;
            && s'.phase == AwaitingTurnEnd && s'.auction.None? && s'.debt == s.debt && SameRoster(s.players, s'.players)
            && s'.turn == s.turn && s'.playAgain == s.playAgain && s'.doubles == s.doubles
  {
    hide ValidRules;
  }

  lemma ResolveProgress(r: Rules, s: State)
    requires Unblocked(r, s) && Shape(r, s) && LevelsOk(r, s.props) && s.phase == AwaitingDebt && s.debt.Some?
    ensures s.debt.value.player == s.current
    ensures var res := AutoResolveDebt(r, s, s.current);
            res.Ok? && Progress(s, res.value) && OpenOk(res.value)
  {
    hide Core, TradeOk, ValidRules, LevelsOk, AutoResolveDebt, Active, HumanActive, BuyableTile, SetsOk, DebtSettled, Raiseable,
      OwnBuildingsWhole;
    SetsOkMeansWhole(r, s, s.current);
    AutoResolveExact(r, s, s.current);
    AutoResolveMovesOn(r, s, s.current);
    AutoResolveKeeps(r, s, s.current);
    BankruptOrPaid(r, s, s.current);
  }

  /** Automatic resolution never ends with a debt or an auction open. */
  lemma BankruptOrPaid(r: Rules, s: State, p: nat)
    requires Inv(r, s) && Shape(r, s) && LevelsOk(r, s.props) && AutoResolveDebt(r, s, p).Ok? && p == s.current
    ensures AutoResolveDebt(r, s, p).value.phase in {AwaitingTurnEnd, AwaitingRoll, Finished}
  {
    hide Inv, RaiseCash, LevelsOk, ValidRules, LiquidateAssets, NextAfterBankruptcy, Active, HumanActive;
    RaiseFrame(r, s, p);
    RaiseKeeps(r, s, p);
    var raised := RaiseCash(r, s, p).value;
    if !CanPayDebt(raised, p) {
      CurrentBankrupt(r, raised, if raised.debt.Some? then raised.debt.value.creditor else None);
    }
  }

  lemma CurrentBankrupt(r: Rules, s: State, named: Option<nat>)
    requires Inv(r, s) && DeclareBankruptcy(r, s, s.current, named).Ok?
    ensures DeclareBankruptcy(r, s, s.current, named).value.phase in {AwaitingRoll, Finished}
  {
    hide Inv, ValidRules, LiquidateAssets, NextAfterBankruptcy, Active, HumanActive;
  }

  lemma ForfeitProgress(r: Rules, s: State)
    requires Inv(r, s) && s.phase !in {AwaitingDebt, Finished}
    ensures var res := DeclareBankruptcy(r, s, s.current, None);
            res.Ok? && Progress(s, res.value) && OpenOk(res.value)
  {
    hide Core, TradeOk, DeclareBankruptcy, Active, HumanActive, BuyableTile, AuctionOk, RollsLeft;
    BankruptcyAccepted(r, s, s.current, None);
    BankruptcyMovesOn(r, s, s.current, None);
    BankruptcyKeeps(r, s, s.current, None);
    CurrentBankrupt(r, s, None);
  }

  lemma EndTurnProgress(r: Rules, s: State)
    requires Inv(r, s) && s.phase == AwaitingTurnEnd
    ensures var res := EndTurn(s, s.current);
            res.Ok? && Progress(s, res.value) && OpenOk(res.value)
  {
    hide PropsOk, Discipline, CardsOk, ValidRules, Active, HumanActive, BuyableTile, NextActivePlayer;
    NextActiveIsNextSeat(s);
  }

  lemma TimeUpProgress(s: State, at: int)
    requires !s.Over() && at > 0 && (s.Expires() ==> at >= s.expiresAt.value)
    ensures var res := FinishByTime(s, at); res.Ok? && Progress(s, res.value) && OpenOk(res.value)
  {
    hide Active;
  }

  /** The intent a firing executes; by then the game time may have run out. */
  function Fired(s: State, t: Tick): (intent: Option<Intent>) {
    var chosen := ChooseTimeout(s, t.chosenAt, t.dice);
    if chosen.Some? then Some(EffectiveIntent(s, t.now, chosen.value)) else None
  }

  /** Every due timeout chooses an intent, the engine accepts it, and it makes progress. */
  lemma FiredProgress(r: Rules, s: State, t: Tick)
    requires Unblocked(r, s) && s.phase != Finished && Due(s, t)
    ensures Fired(s, t).Some?
    ensures var step := Step(t.now, Fired(s, t).value);
            && Accepted(r, s, step) && Progress(s, Next(r, s, step)) && OpenOk(Next(r, s, step))
            && Shape(r, s) && CarriedOut(r, s, step.intent).None?
  {
    hide Core, AuctionOk, TradeOk, SetsOk, ValidRules, LevelsOk, Progress, RollAndMove, DeclineProperty, PassBid,
      AutoResolveDebt, DeclareBankruptcy, EndTurn, FinishByTime, Active, HumanActive, BuyableTile, HighestCanPay, CreditorOk,
      CurrentBidder;
    InvShape(r, s);
    if s.Expires() && t.now >= s.expiresAt.value {
      TimeUpProgress(s, t.now);
      if t.chosenAt >= s.expiresAt.value {
        TimeUpProgress(s, t.chosenAt);
      } else if s.auction.Some? {
        AuctionBidder(s);
      }
    } else if s.phase == AwaitingDebt {
      ResolveProgress(r, s);
    } else if ShouldForfeit(s.players[s.current]) {
      ForfeitProgress(r, s);
    } else {
      match s.phase
      case AwaitingFirstTurn => RollProgress(r, s, t.dice);
      case AwaitingRoll => RollProgress(r, s, t.dice);
      case AwaitingDecision => DeclineProgress(r, s, t.now);
      case AwaitingAuction => PassProgress(r, s, t.now); AuctionBidder(s);
      case AwaitingTurnEnd => EndTurnProgress(r, s);
    }
  }

  lemma AuctionBidder(s: State)
    requires AuctionOk(s) && s.auction.Some?
    ensures CurrentBidder(s.auction.value) == s.auction.value.bidder && s.auction.value.bidder.Some?
  {}

  // ----- timeouts alone finish the turn

  ghost function Fire(r: Rules, s: State, t: Tick): (res: Result<State>)
    requires Inv(r, s) && Fired(s, t).Some?
  {
    CoreShape(r, s);
    Execute(r, s, t.now, FromTimer, ChooseTimeout(s, t.chosenAt, t.dice).value)
  }

  lemma BookkeepingProgress(s: State, mid: State, s': State)
    requires Progress(s, mid) && OpenOk(mid) && Bookkeeping(mid, s')
    ensures Progress(s, s') && OpenOk(s')
  {
    hide Active;
    RosterActive(mid.players, s'.players);
  }

  /**
   From a state with no split built set, an active creditor and a highest bidder able to pay, a due
   timeout is accepted, leads to such a state again, and moves the turn on, ends the game or leaves
   fewer timeouts to go.
   */
  lemma TimeoutStep(r: Rules, s: State, t: Tick)
    requires Unblocked(r, s) && s.phase != Finished && Due(s, t)
    ensures Fired(s, t).Some? && Fire(r, s, t).Ok?
    ensures Unblocked(r, Fire(r, s, t).value) && Progress(s, Fire(r, s, t).value)
  {
    hide Inv, SetsOk, ValidRules, LevelsOk, Reduce, Progress, ChooseTimeout, Due, CreditorOk, HighestCanPay, NothingLeftBehind, ApplySource;
    InvShape(r, s);
    FiredProgress(r, s, t);
    var step := Step(t.now, Fired(s, t).value);
    StepKeepsSetsIff(r, s, step);
    CommandIsStep(r, s, t.now, FromTimer, ChooseTimeout(s, t.chosenAt, t.dice).value);
    BookkeepingProgress(s, Next(r, s, step), Fire(r, s, t).value);
  }

  /** A game in which only due timeouts act. */
  ghost predicate TimerRun(r: Rules, states: seq<State>, ticks: seq<Tick>) {
    && |states| == |ticks| + 1
    && (forall i :: 0 <= i < |states| ==> Inv(r, states[i]))
    && forall i :: 0 <= i < |ticks| ==> Fires(r, states[i], ticks[i], states[i + 1])
  }

  ghost predicate Fires(r: Rules, s: State, t: Tick, s': State)
    requires Inv(r, s)
  {
    Due(s, t) && Fired(s, t).Some? && Fire(r, s, t) == Ok(s')
  }

  lemma {:induction false} TimerRunProgress(r: Rules, states: seq<State>, ticks: seq<Tick>, n: nat)
    requires TimerRun(r, states, ticks) && n < |states| && Unblocked(r, states[0])
    requires forall i :: 0 <= i < n ==> states[i].phase != Finished
    ensures Unblocked(r, states[n])
    ensures states[n].turn > states[0].turn || states[n].phase == Finished
            || (states[n].turn == states[0].turn && Remaining(states[n]) <= Remaining(states[0]) - n)
  {
    hide Inv, Unblocked, Remaining, Fires;
    if n > 0 {
      TimerRunProgress(r, states, ticks, n - 1);
      FiresProgress(r, states[n - 1], ticks[n - 1], states[n]);
    }
  }

  lemma FiresProgress(r: Rules, s: State, t: Tick, s': State)
    requires Inv(r, s) && Unblocked(r, s) && s.phase != Finished && Fires(r, s, t, s')
    ensures Unblocked(r, s') && Progress(s, s')
  {
    hide Inv, Unblocked, Progress, Due, Fired, Fire;
    TimeoutStep(r, s, t);
  }

  /**
   Timer-only progress: start a turn with no split built set and let only timeouts act. As long as
   the turn number stays and the game is not finished, the next due timeout is accepted, and fewer
   than 3(n + 3) timeouts have passed, n being the number of active players.
   */
  lemma TimeoutsFinishTheTurn(r: Rules, states: seq<State>, ticks: seq<Tick>)
    requires TimerRun(r, states, ticks)
    requires states[0].phase in {AwaitingFirstTurn, AwaitingRoll} && |states[0].props| == |r.tiles| && SetsOk(r, states[0].props)
    requires forall i :: 0 <= i < |states| ==> states[i].turn == states[0].turn && states[i].phase != Finished
    ensures |ticks| < 3 * (|Active(states[0].players)| + 3)
    ensures forall t: Tick {:trigger Due(states[|ticks|], t)} :: Due(states[|ticks|], t) ==>
              Fired(states[|ticks|], t).Some? && Fire(r, states[|ticks|], t).Ok?
  {
    hide Core, AuctionOk, TradeOk, SetsOk, TimerRun, Fired, Due, Fire, Remaining;
    RunShape(r, states, ticks);
    StartRemaining(r, states[0]);
    var last := states[|ticks|];
    TimerRunProgress(r, states, ticks, |ticks|);
    RemainingIsPositive(r, last);
    forall t: Tick | Due(last, t)
      ensures Fired(last, t).Some? && Fire(r, last, t).Ok?
    {
      TimeoutStep(r, last, t);
    }
  }

  lemma StartRemaining(r: Rules, s: State)
    requires Inv(r, s) && s.phase in {AwaitingFirstTurn, AwaitingRoll}
    ensures Remaining(s) <= 3 * (|Active(s.players)| + 3)
  {
    hide Core, PhaseOk, TurnOk, AuctionOk, TradeOk, Active, RollsLeft;
    RollsLeftRange(r, s);
    AtLeast(|Active(s.players)| + 3, 3, RollsLeft(s));
  }

  lemma RunShape(r: Rules, states: seq<State>, ticks: seq<Tick>)
    requires TimerRun(r, states, ticks)
    ensures |states| == |ticks| + 1 && forall i :: 0 <= i < |states| ==> Inv(r, states[i])
  {}
}
