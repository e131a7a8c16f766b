/** Auctions of declined properties (game-engine-auctions.ts). */
module Auctions {
  import opened Rules
  import opened State
  import opened Money
  import opened Turns
  import opened Landing

  const MINIMUM_BID: int := 10
  const BID_TIMEOUT_MS: int := 25000

  function BidDeadline(s: State, now: int): (t: int) {
    if s.Expires() && s.expiresAt.value < now + BID_TIMEOUT_MS then s.expiresAt.value else now + BID_TIMEOUT_MS
  }

  function DeclineProperty(r: Rules, s: State, now: int, p: nat): (res: Result<State>)
    requires Shape(r, s)
  {
    var g := AssertPhase(s, {AwaitingDecision}, BuyNotAllowed);
    if g.Some? then Err(g.value) else
    var t := AssertCurrentTurn(s, p);
    if t.Some? then Err(t.value)
    else if s.pending.None? then Err(NoPropertyDecision)
    else
      var k := s.pending.value;
      if !HasProperty(r, s, k) then Err(TileNotOwnable)
      else if s.props[k].owner.Some? then Err(PropertyAlreadyOwned)
      else
        var active := Active(s.players);
        var bidder := if |active| > 0 then Some(active[0]) else None;
        Ok(s.(phase := AwaitingAuction, pending := None,
              auction := Some(Auction(k, 0, None, bidder, BidDeadline(s, now), active, []))))
  }

  /** The bidders that have not passed, in seat order. */
  function Unpassed(active: seq<nat>, passed: seq<nat>): (ids: seq<nat>)
    ensures forall x :: x in ids <==> x in active && x !in passed
  {
    if |active| == 0 then []
    else
      var rest := Unpassed(active[1..], passed);
      if active[0] in passed then rest else [active[0]] + rest
  }

  function CurrentBidder(a: Auction): (bidder: Option<nat>) {
    if a.bidder.Some? && a.bidder.value in a.active && a.bidder.value !in a.passed then a.bidder
    else
      var ids := Unpassed(a.active, a.passed);
      if |ids| > 0 then Some(ids[0]) else None
  }

  function MinimumBid(a: Auction): (bid: int) {
    if a.bid <= 0 then MINIMUM_BID else a.bid + 1
  }

  /** Going `offset` places around the table: `(from + offset) % |active|`. */
  function Position(active: seq<nat>, from: nat, offset: nat): (i: nat)
    requires from < |active| && offset <= |active|
    ensures i < |active|
  {
    if from + offset < |active| then from + offset else from + offset - |active|
  }

  lemma AtLeast(n: nat, k: int, m: int)
    requires k >= m
    ensures n * k >= n * m
  {}

  lemma QuotientIs(n: nat, k: int, m: nat, x: nat, y: nat)
    requires x < n && y < n && n * k + y == n * m + x
    ensures k == m && x == y
  {
    if k > m {
      AtLeast(n, k, m + 1);
    } else if k < m {
      AtLeast(n, m, k + 1);
    }
  }

  lemma Remainder(q: nat, n: nat, x: nat)
    requires x < n
    ensures (n * q + x) % n == x
  {
    var a := n * q + x;
    QuotientIs(n, a / n, q, x, a % n);
  }

  lemma PositionIsModulus(active: seq<nat>, from: nat, offset: nat)
    requires from < |active| && offset <= |active|
    ensures (from + offset + |active|) % |active| == Position(active, from, offset)
  {
    Remainder(if from + offset < |active| then 1 else 2, |active|, Position(active, from, offset));
  }

  /** The first bidder at `from + offset` or later around the table that has not passed. */
  function ScanBidder(a: Auction, from: nat, offset: nat): (bidder: Option<nat>)
    requires from < |a.active|
    decreases |a.active| + 1 - offset
  {
    if offset > |a.active| then None
    else
      var candidate := a.active[Position(a.active, from, offset)];
      if candidate in a.passed then ScanBidder(a, from, offset + 1)
      else if a.highest == Some(candidate) && |Unpassed(a.active, a.passed)| <= 1 then None
      else Some(candidate)
  }

  function NextBidder(a: Auction, p: nat): (bidder: Option<nat>)
    requires p in a.active
  {
    if |Unpassed(a.active, a.passed)| == 0 then None else ScanBidder(a, IndexOf(a.active, p), 1)
  }

  /** The loop of the program that looks for the next bidder. */
  method FindNextBidder(a: Auction, p: nat) returns (bidder: Option<nat>)
    requires p in a.active
    ensures bidder == NextBidder(a, p)
  {
    var remaining := Unpassed(a.active, a.passed);
    if |remaining| == 0 {
      return None;
    }
    var from := IndexOf(a.active, p);
    var offset := 1;
    while offset <= |a.active|
      invariant 1 <= offset <= |a.active| + 1
      invariant ScanBidder(a, from, offset) == ScanBidder(a, from, 1)
      decreases |a.active| + 1 - offset
    {
      var candidate := a.active[(from + offset + |a.active|) % |a.active|];
      PositionIsModulus(a.active, from, offset);
      if candidate !in a.passed {
        if a.highest == Some(candidate) && |remaining| <= 1 {
          return None;
        }
        return Some(candidate);
      }
      offset := offset + 1;
    }
    return None;
  }

  function CompleteWithoutWinner(r: Rules, s: State, a: Auction): (s': State)
    requires Shape(r, s)
  {
    s.(phase := AwaitingTurnEnd, auction := None,
       props := if a.tile < |s.props| then s.props[a.tile := s.props[a.tile].(owner := None)] else s.props)
  }

  function CompleteAuction(r: Rules, s: State, a: Auction): (res: Result<State>)
    requires Shape(r, s)
  {
    if a.highest.None? then Ok(CompleteWithoutWinner(r, s, a))
    else
      var paid :- Debit(s, a.highest.value, a.bid);
      Ok(paid.(phase := AwaitingTurnEnd, auction := None,
               props := if a.tile < |s.props| then s.props[a.tile := s.props[a.tile].(owner := a.highest)] else s.props))
  }

  function AssertCanBid(s: State, p: nat): (c: Option<ErrorCode>) {
    if s.phase != AwaitingAuction || s.auction.None? then Some(NoActiveAuction)
    else if p !in s.auction.value.active || p in s.auction.value.passed then Some(AuctionPlayerNotActive)
    else if CurrentBidder(s.auction.value) != Some(p) then Some(AuctionPlayerNotCurrent)
    else None
  }

  function AfterBid(s: State, now: int, a: Auction, p: nat, amount: int): (a': Auction)
    requires p in a.active
  {
    var bid := a.(bid := amount, highest := Some(p), bidExpiresAt := BidDeadline(s, now));
    bid.(bidder := NextBidder(bid, p))
  }

  function AfterPass(s: State, now: int, a: Auction, p: nat): (a': Auction)
    requires p in a.active
  {
    var passed := a.(passed := if p in a.passed then a.passed else a.passed + [p]);
    passed.(bidder := NextBidder(passed, p), bidExpiresAt := BidDeadline(s, now))
  }

  function PlaceBid(r: Rules, s: State, now: int, p: nat, amount: int): (res: Result<State>)
    requires Shape(r, s)
  {
    var g := AssertCanBid(s, p);
    if g.Some? then Err(g.value)
    else
      var a := s.auction.value;
      if amount < MinimumBid(a) then Err(InvalidAuctionBid)
      else if !s.HasPlayer(p) then Err(PlayerNotFound)
      else if s.players[p].cash < amount then Err(InsufficientFunds)
      else
        var a' := AfterBid(s, now, a, p, amount);
        if a'.bidder.None? then CompleteAuction(r, s, a') else Ok(s.(auction := Some(a')))
  }

  function PassBid(r: Rules, s: State, now: int, p: nat): (res: Result<State>)
    requires Shape(r, s)
  {
    var g := AssertCanBid(s, p);
    if g.Some? then Err(g.value)
    else
      var a' := AfterPass(s, now, s.auction.value, p);
      var left := |Unpassed(a'.active, a'.passed)|;
      if a'.highest.Some? && left <= 1 then CompleteAuction(r, s, a')
      else if a'.highest.None? && left == 0 then Ok(CompleteWithoutWinner(r, s, a'))
      else Ok(s.(auction := Some(a')))
  }
}
