/** What every auction keeps, and why a round of bids and passes always ends. */
module AuctionRounds {
  import opened Rules
  import opened State
  import opened Turns
  import opened Auctions

  /** How many places around the table `to` comes after `from`. */
  function Gap(n: nat, from: nat, to: nat): (d: nat)
    requires from < n && to < n
    ensures d < n
  {
    if to >= from then to - from else to + n - from
  }

  /** Everybody strictly between places `from` and `to` around the table has passed. */
  predicate PassedBetween(a: Auction, from: nat, to: nat)
    requires from < |a.active| && to < |a.active|
  {
    forall o :: 1 <= o < Gap(|a.active|, from, to) ==> a.active[Position(a.active, from, o)] in a.passed
  }

  /**
   The shape of every auction in progress: somebody who has not passed has the turn, and the
   highest bidder has not passed, is not the one whose turn it is, and everybody seated between
   the highest bidder and the current bidder has passed.
   */
  predicate RingOk(a: Auction) {
    && |a.active| >= 2 && NoDuplicates(a.active)
    && a.bidder.Some? && a.bidder.value in a.active && a.bidder.value !in a.passed
    && (a.highest.None? ==> a.bid == 0)
    && (a.highest.Some? ==>
          && a.bid >= MINIMUM_BID
          && a.highest.value in a.active && a.highest.value !in a.passed
          && a.highest.value != a.bidder.value
          && PassedBetween(a, IndexOf(a.active, a.highest.value), IndexOf(a.active, a.bidder.value)))
  }

  // ----- counting the bidders that remain

  lemma {:induction false} UnpassedDistinct(active: seq<nat>, passed: seq<nat>)
    requires NoDuplicates(active)
    ensures NoDuplicates(Unpassed(active, passed))
  {
    if |active| > 0 {
      UnpassedDistinct(active[1..], passed);
      assert active[0] !in active[1..];
    }
  }

  lemma {:induction false} UnpassedAfterPass(active: seq<nat>, passed: seq<nat>, p: nat)
    requires NoDuplicates(active) && p !in passed
    ensures |Unpassed(active, passed + [p])| == |Unpassed(active, passed)| - if p in active then 1 else 0
  {
    if |active| > 0 {
      UnpassedAfterPass(active[1..], passed, p);
      assert active[0] !in active[1..];
      assert forall x :: x in active <==> x == active[0] || x in active[1..];
    }
  }

  lemma {:induction false} UnpassedBound(active: seq<nat>, passed: seq<nat>)
    ensures |Unpassed(active, passed)| <= |active|
  {
    if |active| > 0 {
      UnpassedBound(active[1..], passed);
    }
  }

  /** At least two remain exactly when somebody other than `p` remains. */
  lemma AnotherRemains(a: Auction, p: nat) returns (other: nat)
    requires NoDuplicates(a.active) && |Unpassed(a.active, a.passed)| >= 2
    ensures other in a.active && other !in a.passed && other != p
  {
    UnpassedDistinct(a.active, a.passed);
    var ids := Unpassed(a.active, a.passed);
    assert ids[0] in ids && ids[1] in ids;
    other := if ids[0] != p then ids[0] else ids[1];
  }

  lemma OnlyOneRemains(a: Auction, x: nat, y: nat)
    requires |Unpassed(a.active, a.passed)| <= 1
    requires x in a.active && x !in a.passed && y in a.active && y !in a.passed
    ensures x == y
  {
    var ids := Unpassed(a.active, a.passed);
    assert x in ids && y in ids;
  }

  // ----- the scan around the table

  /** If nobody before `at` remains and the one at `at` does, the scan stops there. */
  lemma {:induction false} ScanStopsAt(a: Auction, from: nat, offset: nat, at: nat)
    requires from < |a.active| && 1 <= offset <= at <= |a.active|
    requires forall o :: offset <= o < at ==> a.active[Position(a.active, from, o)] in a.passed
    requires a.active[Position(a.active, from, at)] !in a.passed
    ensures var x := a.active[Position(a.active, from, at)];
            ScanBidder(a, from, offset)
            == if a.highest == Some(x) && |Unpassed(a.active, a.passed)| <= 1 then None else Some(x)
    decreases at - offset
  {
    if offset < at {
      ScanStopsAt(a, from, offset + 1, at);
    }
  }

  /** The first place from `offset` on whose bidder remains. */
  lemma {:induction false} FirstRemaining(a: Auction, from: nat, offset: nat, bound: nat) returns (at: nat)
    requires from < |a.active| && 1 <= offset <= bound <= |a.active|
    requires a.active[Position(a.active, from, bound)] !in a.passed
    ensures offset <= at <= bound
    ensures a.active[Position(a.active, from, at)] !in a.passed
    ensures forall o :: offset <= o < at ==> a.active[Position(a.active, from, o)] in a.passed
    decreases bound - offset
  {
    if a.active[Position(a.active, from, offset)] !in a.passed {
      at := offset;
    } else {
      at := FirstRemaining(a, from, offset + 1, bound);
    }
  }

  lemma IndexUnique(ids: seq<nat>, i: nat)
    requires NoDuplicates(ids) && i < |ids|
    ensures ids[i] in ids && IndexOf(ids, ids[i]) == i
  {
    var j := IndexOf(ids, ids[i]);
    assert ids[j] == ids[i];
  }

  /** After a bid the turn moves to the next bidder that remains, unless nobody else does. */
  lemma BidKeepsRing(s: State, now: int, a: Auction, p: nat, amount: int)
    requires RingOk(a) && a.bidder == Some(p) && amount >= MinimumBid(a)
    ensures var a' := AfterBid(s, now, a, p, amount);
            if |Unpassed(a.active, a.passed)| >= 2 then RingOk(a') else a'.bidder.None?
  {
    hide Unpassed, IndexOf, BidDeadline, ScanBidder;
    var bid := a.(bid := amount, highest := Some(p), bidExpiresAt := BidDeadline(s, now));
    var from := IndexOf(a.active, p);
    var n := |a.active|;
    assert p in Unpassed(a.active, a.passed);
    if |Unpassed(a.active, a.passed)| >= 2 {
      var other := AnotherRemains(bid, p);
      var bound := Gap(n, from, IndexOf(a.active, other));
      assert a.active[Position(a.active, from, bound)] == other;
      var at := FirstRemaining(bid, from, 1, bound);
      ScanStopsAt(bid, from, 1, at);
      var to := Position(a.active, from, at);
      assert to != from;
      IndexUnique(a.active, to);
      assert Gap(n, from, to) == at;
      assert AfterBid(s, now, a, p, amount).bidder == Some(a.active[to]);
    } else {
      assert Position(a.active, from, n) == from;
      var at := FirstRemaining(bid, from, 1, n);
      ScanStopsAt(bid, from, 1, at);
      OnlyOneRemains(bid, a.active[Position(a.active, from, at)], p);
    }
  }

  /** After a pass the turn moves on and never reaches the highest bidder. */
  lemma PassKeepsRing(s: State, now: int, a: Auction, p: nat)
    requires RingOk(a) && a.bidder == Some(p)
    requires |Unpassed(a.active, a.passed + [p])| >= if a.highest.Some? then 2 else 1
    ensures RingOk(AfterPass(s, now, a, p))
  {
    hide Unpassed, IndexOf, BidDeadline, ScanBidder;
    var passed := a.(passed := a.passed + [p]);
    var from := IndexOf(a.active, p);
    var n := |a.active|;
    var ids := Unpassed(passed.active, passed.passed);
    assert ids[0] in ids;
    var bound := Gap(n, from, IndexOf(a.active, ids[0]));
    assert a.active[Position(a.active, from, bound)] == ids[0];
    var at := FirstRemaining(passed, from, 1, bound);
    ScanStopsAt(passed, from, 1, at);
    var to := Position(a.active, from, at);
    IndexUnique(a.active, to);
    assert Gap(n, from, to) == at;
    if a.highest.Some? {
      PassSkipsHighest(a, p, at);
      assert AfterPass(s, now, a, p).bidder == Some(a.active[to]);
    }
  }

  lemma NextIsBeforeHighest(a: Auction, p: nat, at: nat)
    requires RingOk(a) && a.bidder == Some(p) && a.highest.Some? && 1 <= at < |a.active|
    requires |Unpassed(a.active, a.passed + [p])| >= 2
    requires var from := IndexOf(a.active, p);
             forall o :: 1 <= o < at ==> a.active[Position(a.active, from, o)] in a.passed + [p]
    ensures at < Gap(|a.active|, IndexOf(a.active, p), IndexOf(a.active, a.highest.value))
  {
    var from, high := IndexOf(a.active, p), IndexOf(a.active, a.highest.value);
    var n := |a.active|;
    var passed := a.(passed := a.passed + [p]);
    var other := AnotherRemains(passed, a.highest.value);
    var i := IndexOf(a.active, other);
    assert other !in a.passed && other != p;
    assert a.active[Position(a.active, high, Gap(n, high, i))] == other;
    EveryPlaceIsBetween(n, high, from, i);
    assert Gap(n, from, i) < Gap(n, from, high);
    assert a.active[Position(a.active, from, Gap(n, from, i))] == other;
  }

  /** The place the turn moves to lies strictly before the highest bidder's. */
  lemma PassSkipsHighest(a: Auction, p: nat, at: nat)
    requires RingOk(a) && a.bidder == Some(p) && a.highest.Some? && 1 <= at < |a.active|
    requires |Unpassed(a.active, a.passed + [p])| >= 2
    requires var from := IndexOf(a.active, p);
             && a.active[Position(a.active, from, at)] !in a.passed + [p]
             && forall o :: 1 <= o < at ==> a.active[Position(a.active, from, o)] in a.passed + [p]
    ensures var from, high := IndexOf(a.active, p), IndexOf(a.active, a.highest.value);
            var to := Position(a.active, from, at);
            && a.active[to] != a.highest.value
            && PassedBetween(a.(passed := a.passed + [p]), high, to)
  {
    var from, high := IndexOf(a.active, p), IndexOf(a.active, a.highest.value);
    var n := |a.active|;
    var passed := a.(passed := a.passed + [p]);
    var to := Position(a.active, from, at);
    NextIsBeforeHighest(a, p, at);
    forall o | 1 <= o < Gap(n, high, to)
      ensures a.active[Position(a.active, high, o)] in passed.passed
    {
      var d := Gap(n, high, from);
      if o > d {
        assert Position(a.active, high, o) == Position(a.active, from, o - d);
      } else if o == d {
        assert Position(a.active, high, o) == from;
      }
    }
  }

  lemma EveryPlaceIsBetween(n: nat, high: nat, from: nat, i: nat)
    requires high < n && from < n && i < n && i != high && i != from && high != from
    ensures Gap(n, high, i) < Gap(n, high, from) || Gap(n, from, i) < Gap(n, from, high)
  {}
}
