/** What comes of offers: who is asked, and what a bot makes of a better one. */
module TradeOutcomes {
  import opened Rules
  import opened State
  import opened Money
  import opened CardDecks
  import opened Turns
  import opened Landing
  import opened Properties
  import opened Trades
  import opened Invariant
  import opened TradeProof

  // ----- a better offer is never refused where a worse one is accepted

  lemma {:induction false} TradeValueSum(r: Rules, s: State, cash: int, a: seq<nat>, b: seq<nat>)
    requires Shape(r, s)
    ensures TradeValue(r, s, cash, a + b) == TradeValue(r, s, cash, a) + TradeValue(r, s, 0, b)
  {
    hide ValidRules, SaleValue;
    if |a| == 0 {
      assert a + b == b;
      TradeValueCash(r, s, cash, b);
    } else {
      assert (a + b)[0] == a[0] && (a + b)[1..] == a[1..] + b;
      TradeValueSum(r, s, cash, a[1..], b);
    }
  }

  lemma {:induction false} TradeValueCash(r: Rules, s: State, cash: int, keys: seq<nat>)
    requires Shape(r, s)
    ensures TradeValue(r, s, cash, keys) == cash + TradeValue(r, s, 0, keys)
  {
    hide ValidRules, SaleValue;
    if |keys| > 0 {
      TradeValueCash(r, s, cash, keys[1..]);
    }
  }

  lemma {:induction false} TilesAreWorthSomething(r: Rules, s: State, keys: seq<nat>)
    requires Shape(r, s) && LevelsOk(r, s.props)
    ensures TradeValue(r, s, 0, keys) >= 0
  {
    hide ValidRules, SaleValue, LevelsOk;
    if |keys| > 0 {
      TilesAreWorthSomething(r, s, keys[1..]);
      if HasProperty(r, s, keys[0]) {
        NoSaleMeansNoBuilding(r, s.props, keys[0]);
      }
    }
  }

  predicate Within(inner: seq<nat>, outer: seq<nat>) {
    forall i :: 0 <= i < |inner| ==> inner[i] in outer
  }

  lemma MoreCompletes(r: Rules, s: State, p: nat, incoming: seq<nat>, incoming': seq<nat>, outgoing: seq<nat>, outgoing': seq<nat>, k: nat)
    requires Shape(r, s) && Within(incoming, incoming') && Within(outgoing', outgoing)
    ensures CompletesSet(r, s, p, incoming, outgoing, k) ==> CompletesSet(r, s, p, incoming', outgoing', k)
  {
    hide ValidRules;
    if CompletesSet(r, s, p, incoming, outgoing, k) {
      var i :| 0 <= i < |incoming| && r.SameSet(incoming[i], k);
      assert incoming[i] in incoming';
      var i' :| 0 <= i' < |incoming'| && incoming'[i'] == incoming[i];
      forall j | 0 <= j < |r.tiles| && r.SameSet(j, k)
        ensures j !in outgoing' && (j in incoming' || s.props[j].OwnedBy(p))
      {}
    }
  }

  /** Getting more and giving less completes no fewer sets. */
  lemma {:induction false} CompletionGrows(r: Rules, s: State, p: nat, incoming: seq<nat>, incoming': seq<nat>, outgoing: seq<nat>,
                                           outgoing': seq<nat>, n: nat)
    requires Shape(r, s) && Within(incoming, incoming') && Within(outgoing', outgoing) && n <= |r.tiles|
    ensures 0 <= CompletionValue(r, s, p, incoming, outgoing, n) <= CompletionValue(r, s, p, incoming', outgoing', n)
  {
    hide ValidRules, CompletesSet, Within;
    if n > 0 {
      CompletionGrows(r, s, p, incoming, incoming', outgoing, outgoing', n - 1);
      MoreCompletes(r, s, p, incoming, incoming', outgoing, outgoing', n - 1);
      CompletesMeansProperty(r, s, p, incoming, outgoing, n - 1);
      CompletesMeansProperty(r, s, p, incoming', outgoing', n - 1);
    }
  }

  lemma CompletesMeansProperty(r: Rules, s: State, p: nat, incoming: seq<nat>, outgoing: seq<nat>, k: nat)
    requires Shape(r, s)
    ensures CompletesSet(r, s, p, incoming, outgoing, k) ==> r.IsProperty(k)
  {}

  /** `better` offers the same partner more cash and tiles for less cash and fewer tiles. */
  predicate AtLeastAsGood(worse: Trade, better: Trade) {
    && better.from == worse.from && better.to == worse.to
    && better.offeredCash >= worse.offeredCash && better.requestedCash <= worse.requestedCash
    && |worse.offered| <= |better.offered| && better.offered[..|worse.offered|] == worse.offered
    && |better.requested| <= |worse.requested| && worse.requested[..|better.requested|] == better.requested
  }

  lemma Weighted(a: real, b: real, w: real)
    requires a <= b && w >= 0.0
    ensures a * w <= b * w
  {}

  /** A bot that accepts an offer accepts every better one. */
  lemma BetterOfferIsAccepted(r: Rules, s: State, worse: Trade, better: Trade)
    requires Shape(r, s) && LevelsOk(r, s.props) && s.HasPlayer(worse.to) && AtLeastAsGood(worse, better) && BotAccepts(r, s, worse)
    ensures BotAccepts(r, s, better)
  {
    hide ValidRules, LevelsOk, TradeValue, CompletionValue, Within;
    var extra, spared := better.offered[|worse.offered|..], worse.requested[|better.requested|..];
    assert better.offered == worse.offered + extra && worse.requested == better.requested + spared;
    TradeValueSum(r, s, better.offeredCash, worse.offered, extra);
    TradeValueSum(r, s, worse.requestedCash, better.requested, spared);
    TilesAreWorthSomething(r, s, extra);
    TilesAreWorthSomething(r, s, spared);
    TradeValueCash(r, s, better.offeredCash, worse.offered);
    TradeValueCash(r, s, worse.offeredCash, worse.offered);
    TradeValueCash(r, s, better.requestedCash, better.requested);
    TradeValueCash(r, s, worse.requestedCash, better.requested);
    PrefixWithin(worse.offered, extra);
    PrefixWithin(better.requested, spared);
    var n := |r.tiles|;
    CompletionGrows(r, s, worse.to, worse.offered, better.offered, worse.requested, better.requested, n);
    CompletionGrows(r, s, worse.from, better.requested, worse.requested, better.offered, worse.offered, n);
    var weight, margin := SetCompletionWeight(s.players[worse.to].difficulty), AcceptanceMargin(s.players[worse.to].difficulty);
    Weighted(CompletionValue(r, s, worse.to, worse.offered, worse.requested, n) as real,
             CompletionValue(r, s, worse.to, better.offered, better.requested, n) as real, weight);
    Weighted(CompletionValue(r, s, worse.from, better.requested, better.offered, n) as real,
             CompletionValue(r, s, worse.from, worse.requested, worse.offered, n) as real, weight);
    var gives, gives' := Given(r, s, worse, weight), Given(r, s, better, weight);
    Weighted(gives', gives, margin);
  }

  function Given(r: Rules, s: State, t: Trade, weight: real): (value: real)
    requires Shape(r, s)
  {
    TradeValue(r, s, t.requestedCash, t.requested) as real
    + CompletionValue(r, s, t.from, t.requested, t.offered, |r.tiles|) as real * weight
  }

  lemma PrefixWithin(a: seq<nat>, b: seq<nat>)
    ensures Within(a, a + b)
  {
    assert forall i :: 0 <= i < |a| ==> (a + b)[i] == a[i];
  }

  // ----- proposing

  /**
   A valid proposal opens an offer to a human, and is answered at once by a bot: refused without a
   trace but the bot proposer's mark, or carried out.
   */
  lemma ProposeOutcome(r: Rules, s: State, t: Trade)
    requires Core(r, s) && Shape(r, s) && LevelsOk(r, s.props)
    ensures ProposeTrade(r, s, t).Ok?
       <==> && s.phase in {AwaitingFirstTurn, AwaitingRoll, AwaitingDecision, AwaitingTurnEnd} && s.debt.None? && s.trade.None?
            && OfferOk(t) && ValidateTrade(r, s, t).None?
    ensures ProposeTrade(r, s, t).Ok? ==>
              && s.HasPlayer(t.from) && s.HasPlayer(t.to)
              && var marked := MarkBotProposal(s, t.from);
                 ProposeTrade(r, s, t)
                 == if s.players[t.to].playerType == Human then Ok(marked.(trade := Some(t)))
                    else if BotAccepts(r, marked, t) then AcceptOffer(r, marked, t)
                    else Ok(marked.(trade := None))
  {
    hide PlayersOk, PropsOk, Discipline, CardsOk, ValidRules, LevelsOk, AcceptOffer, BotAccepts, ValidateTrade, NoDuplicates;
    if ValidateTrade(r, s, t).None? && OfferOk(t) {
      PartnersKnown(r, s, t);
      MarkedIsTradeable(r, s, t);
      AcceptOutcome(r, MarkBotProposal(s, t.from), t);
    } else if ValidateTrade(r, s, t).None? {
      PartnersKnown(r, s, t);
    }
  }

  lemma PartnersKnown(r: Rules, s: State, t: Trade)
    requires Shape(r, s) && ValidateTrade(r, s, t).None?
    ensures s.HasPlayer(t.from) && s.HasPlayer(t.to) && !s.players[t.from].bankrupt && !s.players[t.to].bankrupt
  {
    hide ValidRules, OwnershipError;
  }

  lemma MarkedIsTradeable(r: Rules, s: State, t: Trade)
    requires Tradeable(r, s, t) && s.HasPlayer(t.from)
    ensures Tradeable(r, MarkBotProposal(s, t.from), t)
  {
    hide ValidRules, LevelsOk;
    var marked := MarkBotProposal(s, t.from);
    assert OwnershipError(r, marked, t.offered, t.from).None? <==> OwnershipError(r, s, t.offered, t.from).None?;
    assert OwnershipError(r, marked, t.requested, t.to).None? <==> OwnershipError(r, s, t.requested, t.to).None?;
  }
}
