/** Whole auctions: any sequence of bids and passes ends soon, and only the tile and the price change hands. */
module AuctionRuns {
  import opened Rules
  import opened State
  import opened Landing
  import opened Auctions
  import opened AuctionRounds
  import opened Trades
  import opened Engine
  import opened Invariant
  import opened Preservation
  import opened Runs
  import opened Timer

  predicate CashAtMost(players: seq<Player>, most: int) {
    forall i :: 0 <= i < |players| ==> players[i].cash <= most
  }

  /** How many more bids and passes the auction can see when nobody has more than `most`. */
  function MovesLeft(a: Auction, most: int): (n: int) {
    |Unpassed(a.active, a.passed)| + most - a.bid
  }

  /** The tile goes to the winner for the bid; without a winner nothing changes hands. */
  predicate Sold(s: State, s': State, tile: nat, winner: Option<nat>, bid: int) {
    && tile < |s.props| && |s'.players| == |s.players|
    && (winner.Some? ==> s.HasPlayer(winner.value) && MINIMUM_BID <= bid <= s.players[winner.value].cash)
    && s' == s.(phase := AwaitingTurnEnd, auction := None,
                props := s.props[tile := s.props[tile].(owner := winner)],
                players := if winner.Some? then WithCash(s, winner.value, s.players[winner.value].cash - bid).players
                           else s.players)
  }

  /** An auction in progress differs from another only in the auction record, which is about the same tile. */
  predicate SameAuction(s: State, s': State) {
    && s.auction.Some? && s'.auction.Some? && s' == s.(auction := s'.auction)
    && s'.auction.value.tile == s.auction.value.tile && s'.auction.value.active == s.auction.value.active
  }

  ghost predicate InAuction(r: Rules, s: State) {
    Inv(r, s) && s.auction.Some? && HighestCanPay(s, s.auction.value)
  }

  lemma BidMove(r: Rules, s: State, now: int, p: nat, amount: int, most: int)
    requires InAuction(r, s) && Shape(r, s) && CashAtMost(s.players, most) && PlaceBid(r, s, now, p, amount).Ok?
    ensures var s', a := PlaceBid(r, s, now, p, amount).value, s.auction.value;
            if s'.auction.Some?
            then SameAuction(s, s') && HighestCanPay(s', s'.auction.value)
                 && 0 <= MovesLeft(s'.auction.value, most) < MovesLeft(a, most)
            else Sold(s, s', a.tile, Some(p), amount) && p in a.active
  {
    hide Core, PhaseOk, TurnOk, TradeOk, AuctionOk, ValidRules, NextBidder, RingOk, Unpassed;
    AuctionTile(r, s);
  }

  lemma AuctionTile(r: Rules, s: State)
    requires Inv(r, s) && s.auction.Some?
    ensures Shape(r, s) && s.auction.value.tile < |s.props| && RingOk(s.auction.value)
    ensures s.props[s.auction.value.tile].owner.None?
    ensures s.auction.value.bid == 0 || s.auction.value.bid >= MINIMUM_BID
  {}

  lemma PassMove(r: Rules, s: State, now: int, p: nat, most: int)
    requires InAuction(r, s) && Shape(r, s) && CashAtMost(s.players, most) && PassBid(r, s, now, p).Ok?
    ensures var s', a := PassBid(r, s, now, p).value, s.auction.value;
            if s'.auction.Some?
            then SameAuction(s, s') && HighestCanPay(s', s'.auction.value)
                 && MovesLeft(s'.auction.value, most) < MovesLeft(a, most)
            else Sold(s, s', a.tile, a.highest, a.bid) && (a.highest.Some? ==> a.highest.value in a.active)
  {
    hide Core, PhaseOk, TurnOk, TradeOk, AuctionOk, ValidRules, NextBidder, RingOk, Unpassed;
    AuctionTile(r, s);
    var a := s.auction.value;
    RingBidder(a);
    UnpassedAfterPass(a.active, a.passed, p);
  }

  // ----- runs of bids and passes

  predicate IsMove(intent: Intent) {
    intent.Bid? || intent.Pass?
  }

  ghost predicate MoveTaken(r: Rules, s: State, step: Step, s': State) {
    Inv(r, s) && s.auction.Some? && IsMove(step.intent) && Accepted(r, s, step) && Next(r, s, step) == s'
  }

  /** Consecutive accepted bids and passes of one auction. */
  ghost predicate AuctionRun(r: Rules, states: seq<State>, steps: seq<Step>) {
    && |states| == |steps| + 1
    && forall i :: 0 <= i < |steps| ==> MoveTaken(r, states[i], steps[i], states[i + 1])
  }

  /** How an auction stands or ended, seen from its start. */
  ghost predicate Outcome(start: State, s: State) {
    SameAuction(start, s) || (start.auction.Some? && exists winner: Option<nat>, bid: int :: SoldTo(start, s, winner, bid))
  }

  predicate SoldTo(start: State, s: State, winner: Option<nat>, bid: int)
    requires start.auction.Some?
  {
    var a := start.auction.value;
    Sold(start, s, a.tile, winner, bid) && (winner.Some? ==> winner.value in a.active)
  }

  lemma MoveOutcome(r: Rules, s: State, step: Step, s': State, most: int)
    requires InAuction(r, s) && CashAtMost(s.players, most) && MoveTaken(r, s, step, s')
    ensures Inv(r, s') && Outcome(s, s')
    ensures s'.auction.Some? ==>
              && SameAuction(s, s') && InAuction(r, s')
              && MovesLeft(s'.auction.value, most) < MovesLeft(s.auction.value, most)
  {
    hide Inv, ValidRules, PlaceBid, PassBid, MovesLeft, Sold, SameAuction, LevelsOk, HighestCanPay;
    InvShape(r, s);
    match step.intent
    case Bid(p, amount) =>
      BidMove(r, s, step.now, p, amount, most);
      assert s'.auction.None? ==> SoldTo(s, s', Some(p), amount);
    case Pass(p) =>
      PassMove(r, s, step.now, p, most);
      assert s'.auction.None? ==> SoldTo(s, s', s.auction.value.highest, s.auction.value.bid);
  }

  lemma SoldFromStart(start: State, s: State, s': State)
    requires SameAuction(start, s) && Outcome(s, s')
    ensures Outcome(start, s')
  {
    if !SameAuction(s, s') {
      var winner, bid :| SoldTo(s, s', winner, bid);
      assert SoldTo(start, s', winner, bid);
    }
  }

  lemma SomethingLeft(r: Rules, s: State, most: int)
    requires InAuction(r, s) && CashAtMost(s.players, most) && most >= 0
    ensures MovesLeft(s.auction.value, most) >= 1
  {
    hide Core, PhaseOk, TurnOk, TradeOk, AuctionOk, RingOk, ValidRules;
    var a := s.auction.value;
    AuctionTile(r, s);
    RingBidder(a);
    assert a.bidder.value in Unpassed(a.active, a.passed);
  }

  lemma {:induction false} AuctionRunKeeps(r: Rules, states: seq<State>, steps: seq<Step>, most: int, n: nat)
    requires AuctionRun(r, states, steps) && n < |states| && InAuction(r, states[0])
    requires CashAtMost(states[0].players, most) && most >= 0
    ensures Outcome(states[0], states[n]) && n <= MovesLeft(states[0].auction.value, most)
    ensures states[n].auction.Some? ==>
              && SameAuction(states[0], states[n]) && InAuction(r, states[n])
              && MovesLeft(states[n].auction.value, most) + n <= MovesLeft(states[0].auction.value, most)
  {
    hide InAuction, Outcome, MovesLeft, MoveTaken, CashAtMost;
    if n == 0 {
      Standing(r, states[0]);
      SomethingLeft(r, states[0], most);
    } else {
      var s := states[n - 1];
      AuctionRunKeeps(r, states, steps, most, n - 1);
      assert MoveTaken(r, s, steps[n - 1], states[n]);
      MoveStarts(r, s, steps[n - 1], states[n]);
      SameCash(states[0], s, most);
      SomethingLeft(r, s, most);
      MoveOutcome(r, s, steps[n - 1], states[n], most);
      SoldFromStart(states[0], s, states[n]);
    }
  }

  lemma MoveStarts(r: Rules, s: State, step: Step, s': State)
    requires MoveTaken(r, s, step, s')
    ensures s.auction.Some?
  {}

  lemma SameCash(start: State, s: State, most: int)
    requires CashAtMost(start.players, most) && SameAuction(start, s)
    ensures CashAtMost(s.players, most)
  {}

  lemma Standing(r: Rules, s: State)
    requires InAuction(r, s)
    ensures SameAuction(s, s) && Outcome(s, s)
  {}

  /**
   However bids and passes follow each other, an auction sees at most as many of them as there are
   bidders plus the largest cash, and all it ever changes is the owner of its tile and the cash of
   a winner who bid at least ten and no more than that cash.
   */
  lemma AuctionEnds(r: Rules, states: seq<State>, steps: seq<Step>, most: int)
    requires AuctionRun(r, states, steps) && InAuction(r, states[0])
    requires CashAtMost(states[0].players, most) && most >= 0
    ensures |steps| <= |states[0].auction.value.active| + most
    ensures Outcome(states[0], states[|steps|])
  {
    hide InAuction, Outcome, AuctionRun;
    RunLength(r, states, steps);
    AuctionRunKeeps(r, states, steps, most, |steps|);
    Standing(r, states[0]);
    var a := states[0].auction.value;
    UnpassedBound(a.active, a.passed);
    NotNegative(r, states[0]);
  }

  lemma RunLength(r: Rules, states: seq<State>, steps: seq<Step>)
    requires AuctionRun(r, states, steps)
    ensures |states| == |steps| + 1
  {}

  lemma NotNegative(r: Rules, s: State)
    requires InAuction(r, s)
    ensures s.auction.value.bid >= 0
  {
    hide Core, TurnOk, TradeOk, PhaseOk;
  }
}
