/** Nobody stays in jail beyond the third failed roll, over every run (game-engine-jail.ts). */
module JailTerms {
  import opened Rules
  import opened State
  import opened CardDecks
  import opened Turns
  import opened Landing
  import opened Properties
  import opened Auctions
  import opened Trades
  import opened AutoDebt
  import opened Invariant
  import opened RollProof
  import opened TradeProof
  import opened BankruptcyProof
  import opened Runs
  import opened Solvency
  import opened Frames
  import opened Shuffle
  import opened Start

  /** A term has run out. */
  predicate Served(player: Player) {
    player.inJail && player.jailTurns >= MAX_JAIL_TURNS
  }

  predicate OwesFine(s: State, p: nat) {
    s.debt.Some? && s.debt.value.player == p && s.debt.value.reason == JailFine
  }

  /** While the game is on, whoever has failed three jail rolls and is still in jail owes the fine. */
  predicate TermsOk(s: State) {
    s.phase != Finished ==> forall p :: 0 <= p < |s.players| && Served(s.players[p]) ==> OwesFine(s, p)
  }

  /** With no debt open, a state that keeps terms or starts new ones has nobody overdue. */
  lemma KeptTerms(players: seq<Player>, players': seq<Player>)
    requires JailKept(players, players') && forall p :: 0 <= p < |players| ==> !Served(players[p])
    ensures forall p :: 0 <= p < |players'| ==> !Served(players'[p])
  {}

  lemma NobodyOverdue(r: Rules, s: State)
    requires Inv(r, s) && TermsOk(s) && s.phase in {AwaitingFirstTurn, AwaitingRoll}
    ensures forall p :: 0 <= p < |s.players| ==> !Served(s.players[p])
  {
    hide Core, TurnOk, AuctionOk, TradeOk;
  }

  lemma ReleasedTerms(s: State, p: nat)
    requires s.HasPlayer(p) && forall i :: 0 <= i < |s.players| ==> !Served(s.players[i])
    ensures forall i :: 0 <= i < |s.players| ==> !Served(ReleaseFromJail(s, p).players[i])
  {}

  /** A roll from jail that moves the player. */
  lemma ReleasedMove(r: Rules, s: State, p: nat, dice: (int, int))
    requires ReadyToRoll(r, s, p) && ValidDice(dice) && s.doubles <= 2
    requires forall i :: 0 <= i < |s.players| ==> !Served(s.players[i])
    ensures var res := MoveIgnoringJail(r, ReleaseFromJail(s, p), p, dice, true);
            res.Ok? && forall i :: 0 <= i < |res.value.players| ==> !Served(res.value.players[i])
  {
    hide PlayersOk, PropsOk, Discipline, CardsOk, ValidRules, MoveIgnoringJail, Settled, RollFrame, ReleaseFromJail, JailKept, Served;
    ReleaseCore(r, s, p);
    var released := ReleaseFromJail(s, p);
    ReleasedTerms(s, p);
    ReleasedSame(s, p);
    MoveOutcome(r, released, p, dice, true);
    KeptTerms(released.players, MoveIgnoringJail(r, released, p, dice, true).value.players);
  }

  lemma ReleasedSame(s: State, p: nat)
    requires s.HasPlayer(p)
    ensures ReleaseFromJail(s, p).doubles == s.doubles && |ReleaseFromJail(s, p).players| == |s.players|
  {}

  lemma JailRollTerms(r: Rules, s: State, p: nat, dice: (int, int))
    requires ReadyToRoll(r, s, p) && ValidDice(dice) && s.doubles <= 2 && s.players[p].inJail
    requires forall i :: 0 <= i < |s.players| ==> !Served(s.players[i])
    ensures Shape(r, s) && (RollFromJail(r, s, p, dice).Ok? ==> TermsOk(RollFromJail(r, s, p, dice).value))
  {
    hide PlayersOk, PropsOk, Discipline, CardsOk, ValidRules, MoveIgnoringJail;
    if IsDoubles(dice) {
      var quiet := s.(doubles := 0, playAgain := false);
      CoreFrame(r, s, quiet);
      ReleasedMove(r, quiet, p, dice);
      assert ReleaseFromJail(quiet, p) == ReleaseFromJail(s, p).(doubles := 0, playAgain := false);
    } else if s.players[p].jailTurns + 1 >= MAX_JAIL_TURNS && s.players[p].cash >= JAIL_FINE {
      var paid := WithCash(s, p, s.players[p].cash - JAIL_FINE);
      CashCore(r, s, p, s.players[p].cash - JAIL_FINE);
      ReleasedMove(r, paid, p, dice);
    }
  }

  lemma RollTerms(r: Rules, s: State, p: nat, dice: (int, int))
    requires Inv(r, s) && Shape(r, s) && TermsOk(s) && RollAndMove(r, s, p, dice).Ok?
    ensures TermsOk(RollAndMove(r, s, p, dice).value)
  {
    hide PlayersOk, PropsOk, Discipline, CardsOk, ValidRules, RollFromJail, MoveIgnoringJail, AuctionOk, TradeOk, Active, HumanActive,
      JailKept, Served;
    NobodyOverdue(r, s);
    if s.players[p].inJail {
      JailRollTerms(r, s, p, dice);
    } else {
      MoveOutcome(r, s, p, dice, false);
      KeptTerms(s.players, RollAndMove(r, s, p, dice).value.players);
    }
  }

  lemma SteadyTerms(s: State, s': State)
    requires TermsOk(s) && JailEased(s.players, s'.players) && s'.debt == s.debt && (s.phase == Finished ==> s'.phase == Finished)
    ensures TermsOk(s')
  {}

  lemma PaidTerms(s: State, p: nat)
    requires TermsOk(s) && PayDebt(s, p).Ok?
    ensures TermsOk(PayDebt(s, p).value)
  {
    hide PayDebt;
    DebtCalm(s, p);
    PayDebtPhase(s, p);
  }

  lemma PayDebtPhase(s: State, p: nat)
    requires PayDebt(s, p).Ok?
    ensures s.phase == AwaitingDebt
  {}

  lemma BankruptTerms(r: Rules, s: State, p: nat, named: Option<nat>)
    requires Core(r, s) && TermsOk(s) && DeclareBankruptcy(r, s, p, named).Ok?
    ensures TermsOk(DeclareBankruptcy(r, s, p, named).value)
  {
    hide Core, DeclareBankruptcy;
    BankruptCalm(r, s, p, named);
    BankruptcyAccepted(r, s, p, named);
  }

  lemma ResolvedTerms(r: Rules, s: State, p: nat)
    requires Inv(r, s) && Shape(r, s) && LevelsOk(r, s.props) && TermsOk(s) && AutoResolveDebt(r, s, p).Ok?
    ensures TermsOk(AutoResolveDebt(r, s, p).value)
  {
    hide Inv, ValidRules, LevelsOk, RaiseCash, PayDebt, DeclareBankruptcy, TermsOk, JailEased, SameTypes;
    RaiseSteady(r, s, p);
    RaiseFrame(r, s, p);
    RaiseKeeps(r, s, p);
    var raised := RaiseCash(r, s, p).value;
    InvCore(r, raised);
    SteadyTerms(s, raised);
    if CanPayDebt(raised, p) {
      PaidTerms(raised, p);
    } else {
      BankruptTerms(r, raised, p, if raised.debt.Some? then raised.debt.value.creditor else None);
    }
  }

  lemma ProposeTerms(r: Rules, s: State, t: Trade)
    requires Inv(r, s) && Shape(r, s) && LevelsOk(r, s.props) && TermsOk(s) && ProposeTrade(r, s, t).Ok?
    ensures TermsOk(ProposeTrade(r, s, t).value)
  {
    hide Inv, ValidRules, LevelsOk, AcceptOffer, BotAccepts, ValidateTrade, NoDuplicates;
    ProposerFound(r, s, t);
    var marked := MarkBotProposal(s, t.from);
    if s.players[t.to].playerType == Bot && BotAccepts(r, marked, t) {
      AcceptCalm(r, marked, t);
    }
    ProposeKeeps(r, s, t);
    SteadyTerms(s, ProposeTrade(r, s, t).value);
  }

  lemma FinishTerms(s: State, at: int)
    ensures FinishByTime(s, at).Ok? ==> TermsOk(FinishByTime(s, at).value)
    ensures FinishAfterLastHumanLeft(s, at).Ok? ==> TermsOk(FinishAfterLastHumanLeft(s, at).value)
  {}

  /** Every step of the game keeps jail terms within their limit. */
  lemma StepKeepsTerms(r: Rules, s: State, step: Step)
    requires Inv(r, s) && TermsOk(s)
    ensures TermsOk(Next(r, s, step))
  {
    hide Core, PhaseOk, TurnOk, AuctionOk, TradeOk, ValidRules, LevelsOk, RollAndMove, BuyProperty, DeclineProperty, PlaceBid, PassBid,
      BuildProperty, SellBuilding, MortgageProperty, UnmortgageProperty, ProposeTrade, AcceptOffer, DeclareBankruptcy, PayDebt,
      AutoResolveDebt, PayJailFine, UseJailCard, EndTurn, FinishByTime, FinishAfterLastHumanLeft, TermsOk, JailEased, SameTypes;
    InvShape(r, s);
    if Accepted(r, s, step) {
      var s' := Next(r, s, step);
      if s.phase == Finished {
        FinishedStep(r, s, step);
        OverTerms(s');
      } else {
        match step.intent
        case RollDice(p, dice) => RollTerms(r, s, p, dice);
        case Propose(offer) => ProposeTerms(r, s, offer);
        case GoBankrupt(p, creditor) => BankruptTerms(r, s, p, creditor);
        case SettleDebt(p) => PaidTerms(s, p);
        case AutoResolve(p) => ResolvedTerms(r, s, p);
        case TimeUp(at) => FinishTerms(s, at);
        case LastHumanLeft(at) => FinishTerms(s, at);
        case _ => StepSteady(r, s, step); SteadyTerms(s, s');
      }
    }
  }

  lemma OverTerms(s: State)
    requires s.phase == Finished
    ensures TermsOk(s)
  {}

  lemma StepSteady(r: Rules, s: State, step: Step)
    requires Inv(r, s) && Accepted(r, s, step)
    requires !step.intent.RollDice? && !step.intent.Propose? && !step.intent.GoBankrupt? && !step.intent.SettleDebt?
    requires !step.intent.AutoResolve? && !step.intent.TimeUp? && !step.intent.LastHumanLeft?
    ensures JailEased(s.players, Next(r, s, step).players) && Next(r, s, step).debt == s.debt
  {
    hide Core, PhaseOk, TurnOk, AuctionOk, TradeOk, ValidRules, LevelsOk, BuyProperty, DeclineProperty, PlaceBid, PassBid,
      BuildProperty, SellBuilding, MortgageProperty, UnmortgageProperty, AcceptOffer, PayJailFine, UseJailCard, EndTurn;
    InvShape(r, s);
    match step.intent
    case Accept(p, id) => OpenOffer(r, s); AcceptCalm(r, s, s.trade.value);
    case Bid(p, amount) => BiddingSteady(r, s, step.now, p, amount);
    case Pass(p) => BiddingSteady(r, s, step.now, p, 0);
    case Decline(p) => TurnSteady(r, s, step.now, p);
    case PassTurn(p) => TurnSteady(r, s, step.now, p);
    case Build(p, k) => ManagingSteady(r, s, p, k);
    case Sell(p, k) => ManagingSteady(r, s, p, k);
    case Mortgage(p, k) => MortgagingSteady(r, s, p, k);
    case Unmortgage(p, k) => MortgagingSteady(r, s, p, k);
    case Buy(p) => BuyingSteady(r, s, p);
    case PayFine(p) => JailSteady(r, s, p);
    case UseCard(p) => JailSteady(r, s, p);
    case _ =>
  }

  lemma {:induction false} RunKeepsTerms(r: Rules, start: State, steps: seq<Step>, n: nat)
    requires Inv(r, start) && TermsOk(start) && n <= |steps|
    ensures TermsOk(After(r, start, steps, n))
  {
    hide Inv, Next, TermsOk;
    if n > 0 {
      RunKeepsTerms(r, start, steps, n - 1);
      StepKeepsTerms(r, After(r, start, steps, n - 1), steps[n - 1]);
    }
  }

  /** In every game, whoever rolls from jail has failed at most twice before. */
  lemma AtMostThreeJailRolls(r: Rules, joined: seq<Entrant>, difficulty: Difficulty, seed: Seed, startedAt: int, minutes: int,
                             steps: seq<Step>, n: nat)
    requires ValidRules(r) && LobbyOk(joined) && n < |steps|
    requires var s := Game(r, joined, difficulty, seed, startedAt, minutes, steps, n);
             s.phase in {AwaitingFirstTurn, AwaitingRoll}
    ensures var s := Game(r, joined, difficulty, seed, startedAt, minutes, steps, n);
            forall p :: 0 <= p < |s.players| && s.players[p].inJail ==> s.players[p].jailTurns <= 2
  {
    hide Inv, After, ValidRules, LineUp;
    StartHolds(r, joined, difficulty, seed, startedAt, minutes);
    var start := InitialState(r, LineUp(joined, difficulty), seed, startedAt, minutes);
    RunKeepsTerms(r, start, steps, n);
    NobodyOverdue(r, After(r, start, steps, n));
    assert forall p :: 0 <= p < |After(r, start, steps, n).players| ==> !Served(After(r, start, steps, n).players[p]);
  }
}
