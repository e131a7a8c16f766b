/** Seat order and the passing of turns (game-engine-turns.ts, game-engine-bankruptcy.ts). */
module Turns {
  import opened Rules
  import opened State
  import opened Sorting

  predicate DistinctSeats(players: seq<Player>) {
    forall i, j :: 0 <= i < j < |players| ==> players[i].seat != players[j].seat
  }

  function SeatOrder(players: seq<Player>): (less: (nat, nat) -> bool) {
    (a: nat, b: nat) => a < |players| && b < |players| && players[a].seat < players[b].seat
  }

  function InsertBySeat(players: seq<Player>, ids: seq<nat>, p: nat): (out: seq<nat>)
    ensures |out| == |ids| + 1
    ensures forall x: nat :: x in out <==> x == p || x in ids
  {
    Inserted(SeatOrder(players), ids, p);
    Insert(SeatOrder(players), ids, p)
  }

  /** The active players among the first `n`, by ascending seat: a filter followed by a sort. */
  function ActiveBySeat(players: seq<Player>, n: nat): (ids: seq<nat>)
    requires n <= |players|
    ensures forall x: nat :: x in ids <==> x < n && !players[x].bankrupt
  {
    if n == 0 then []
    else if players[n - 1].bankrupt then ActiveBySeat(players, n - 1)
    else
      var ids := ActiveBySeat(players, n - 1);
      assert forall i :: 0 <= i < |ids| ==> ids[i] in ids;
      InsertBySeat(players, ids, n - 1)
  }

  function Active(players: seq<Player>): (ids: seq<nat>)
    ensures forall x: nat :: x in ids <==> x < |players| && !players[x].bankrupt
  {
    ActiveBySeat(players, |players|)
  }

  predicate SeatSorted(players: seq<Player>, ids: seq<nat>) {
    && (forall i :: 0 <= i < |ids| ==> ids[i] < |players|)
    && (forall i, j :: 0 <= i < j < |ids| ==> players[ids[i]].seat < players[ids[j]].seat)
  }

  lemma PrependSorted(players: seq<Player>, x: nat, rest: seq<nat>)
    requires x < |players| && SeatSorted(players, rest)
    requires forall y: nat :: y in rest ==> y < |players| && players[x].seat < players[y].seat
    ensures SeatSorted(players, [x] + rest)
  {
    var all := [x] + rest;
    forall i, j | 0 <= i < j < |all|
      ensures all[i] < |players| && all[j] < |players| && players[all[i]].seat < players[all[j]].seat
    {
      assert all[j] == rest[j - 1] && all[j] in rest;
    }
  }

  lemma SeatsDiffer(players: seq<Player>, a: nat, b: nat)
    requires DistinctSeats(players) && a < |players| && b < |players| && a != b
    ensures players[a].seat != players[b].seat
  {}

  lemma {:induction false} InsertSorted(players: seq<Player>, ids: seq<nat>, p: nat)
    requires DistinctSeats(players) && p < |players| && SeatSorted(players, ids) && p !in ids
    ensures SeatSorted(players, InsertBySeat(players, ids, p))
  {
    if |ids| > 0 {
      SeatsDiffer(players, p, ids[0]);
      if players[p].seat < players[ids[0]].seat {
        forall y: nat | y in ids
          ensures y < |players| && players[p].seat < players[y].seat
        {
          HeadIsLowest(players, ids, y);
        }
        PrependSorted(players, p, ids);
      } else {
        InsertSorted(players, ids[1..], p);
        var rest := InsertBySeat(players, ids[1..], p);
        forall y: nat | y in rest
          ensures y < |players| && players[ids[0]].seat < players[y].seat
        {
          if y != p {
            TailIsHigher(players, ids, y);
          }
        }
        PrependSorted(players, ids[0], rest);
      }
    }
  }

  lemma HeadIsLowest(players: seq<Player>, ids: seq<nat>, y: nat)
    requires SeatSorted(players, ids) && |ids| > 0 && y in ids
    ensures y < |players| && players[ids[0]].seat <= players[y].seat
  {
    var i := IndexOf(ids, y);
  }

  lemma TailIsHigher(players: seq<Player>, ids: seq<nat>, y: nat)
    requires SeatSorted(players, ids) && |ids| > 0 && y in ids[1..]
    ensures y < |players| && players[ids[0]].seat < players[y].seat
  {
    var i := IndexOf(ids[1..], y);
    assert ids[i + 1] == y;
  }

  lemma {:induction false} ActiveSorted(players: seq<Player>, n: nat)
    requires DistinctSeats(players) && n <= |players|
    ensures SeatSorted(players, ActiveBySeat(players, n))
  {
    hide InsertBySeat;
    if n > 0 {
      ActiveSorted(players, n - 1);
      if !players[n - 1].bankrupt {
        InsertSorted(players, ActiveBySeat(players, n - 1), n - 1);
      }
    }
  }

  function IndexOf(ids: seq<nat>, x: nat): (i: nat)
    requires x in ids
    ensures i < |ids| && ids[i] == x
  {
    if ids[0] == x then 0 else 1 + IndexOf(ids[1..], x)
  }

  function NextActivePlayer(s: State): (res: Result<nat>) {
    var ids := Active(s.players);
    if |ids| == 0 then Err(NoActivePlayers)
    else if s.current !in ids then Err(PlayerNotFound)
    else Ok(ids[(IndexOf(ids, s.current) + 1) % |ids|])
  }

  function FirstAfterSeat(players: seq<Player>, ids: seq<nat>, seat: int): (next: Option<nat>)
    requires forall i :: 0 <= i < |ids| ==> ids[i] < |players|
  {
    if |ids| == 0 then None
    else if players[ids[0]].seat > seat then Some(ids[0])
    else FirstAfterSeat(players, ids[1..], seat)
  }

  /** `players` already marks the bankrupt player, whose seat is given. */
  function NextAfterBankruptcy(players: seq<Player>, seat: int): (next: nat)
    requires |Active(players)| > 0
  {
    var ids := Active(players);
    assert forall i :: 0 <= i < |ids| ==> ids[i] in ids;
    var next := FirstAfterSeat(players, ids, seat);
    if next.Some? then next.value else ids[0]
  }

  /** `q` is whom the turn passes to after `seat`: the next higher active seat, else the lowest one. */
  predicate NextSeat(players: seq<Player>, seat: int, q: nat) {
    && q < |players| && !players[q].bankrupt
    && (forall i :: 0 <= i < |players| && !players[i].bankrupt && players[i].seat > seat ==>
                      seat < players[q].seat <= players[i].seat)
    && (players[q].seat <= seat ==>
          forall i :: 0 <= i < |players| && !players[i].bankrupt ==> players[q].seat <= players[i].seat)
  }

  lemma NextSeatUnique(players: seq<Player>, seat: int, a: nat, b: nat)
    requires DistinctSeats(players) && NextSeat(players, seat, a) && NextSeat(players, seat, b)
    ensures a == b
  {
    assert players[a].seat == players[b].seat;
  }

  /** In a list sorted by seat, the entry cyclically after position `c` holds the next seat. */
  lemma CyclicSuccessor(players: seq<Player>, ids: seq<nat>, c: nat, k: nat)
    requires SeatSorted(players, ids) && c < |ids| && k < |ids|
    ensures var n := (c + 1) % |ids|;
            && (players[ids[k]].seat > players[ids[c]].seat ==>
                  players[ids[c]].seat < players[ids[n]].seat <= players[ids[k]].seat)
            && (players[ids[n]].seat <= players[ids[c]].seat ==> players[ids[n]].seat <= players[ids[k]].seat)
            && (|ids| >= 2 ==> ids[n] != ids[c])
  {
    var n := (c + 1) % |ids|;
    assert n == if c + 1 < |ids| then c + 1 else 0;
  }

  /** Passing the turn goes to the next active seat, cyclically. */
  lemma NextActiveIsNextSeat(s: State)
    requires DistinctSeats(s.players) && s.HasPlayer(s.current) && !s.players[s.current].bankrupt
    ensures NextActivePlayer(s).Ok?
    ensures NextSeat(s.players, s.players[s.current].seat, NextActivePlayer(s).value)
    ensures |Active(s.players)| >= 2 ==> NextActivePlayer(s).value != s.current
  {
    hide ActiveBySeat, IndexOf;
    var ids := Active(s.players);
    ActiveSorted(s.players, |s.players|);
    var c := IndexOf(ids, s.current);
    var q := ids[(c + 1) % |ids|];
    assert q in ids;
    CyclicSuccessor(s.players, ids, c, c);
    forall i | 0 <= i < |s.players| && !s.players[i].bankrupt
      ensures s.players[i].seat > s.players[s.current].seat ==>
                s.players[s.current].seat < s.players[q].seat <= s.players[i].seat
      ensures s.players[q].seat <= s.players[s.current].seat ==> s.players[q].seat <= s.players[i].seat
    {
      SuccessorOf(s.players, ids, c, i);
    }
  }

  lemma SuccessorOf(players: seq<Player>, ids: seq<nat>, c: nat, i: nat)
    requires SeatSorted(players, ids) && c < |ids| && i in ids && i < |players|
    ensures var q := ids[(c + 1) % |ids|];
            && (players[i].seat > players[ids[c]].seat ==> players[ids[c]].seat < players[q].seat <= players[i].seat)
            && (players[q].seat <= players[ids[c]].seat ==> players[q].seat <= players[i].seat)
  {
    CyclicSuccessor(players, ids, c, IndexOf(ids, i));
  }

  lemma {:induction false} FirstAfterSeatIsLeast(players: seq<Player>, ids: seq<nat>, seat: int)
    requires SeatSorted(players, ids)
    ensures var next := FirstAfterSeat(players, ids, seat);
            && (next.Some? ==> next.value in ids && players[next.value].seat > seat)
            && (forall i :: 0 <= i < |ids| && players[ids[i]].seat > seat ==>
                              next.Some? && players[next.value].seat <= players[ids[i]].seat)
  {
    if |ids| > 0 && players[ids[0]].seat <= seat {
      FirstAfterSeatIsLeast(players, ids[1..], seat);
      forall i | 0 <= i < |ids| && players[ids[i]].seat > seat
        ensures FirstAfterSeat(players, ids, seat).Some?
        ensures players[FirstAfterSeat(players, ids, seat).value].seat <= players[ids[i]].seat
      {
        assert ids[1..][i - 1] == ids[i];
      }
    }
  }

  lemma NextAfterBankruptcyIsNextSeat(players: seq<Player>, seat: int)
    requires DistinctSeats(players) && |Active(players)| > 0
    ensures NextSeat(players, seat, NextAfterBankruptcy(players, seat))
  {
    var ids := Active(players);
    ActiveSorted(players, |players|);
    FirstAfterSeatIsLeast(players, ids, seat);
    var q := NextAfterBankruptcy(players, seat);
    assert ids[0] in ids;
    assert q in ids;
    forall i | 0 <= i < |players| && !players[i].bankrupt
      ensures players[i].seat > seat ==> seat < players[q].seat <= players[i].seat
      ensures players[q].seat <= seat ==> players[q].seat <= players[i].seat
    {
      assert i in ids;
      var k := IndexOf(ids, i);
      if k > 0 {
        assert players[ids[0]].seat < players[ids[k]].seat;
      }
    }
  }

  /**
   Bankruptcy of the turn holder passes the turn to the very player that ending the turn would
   have chosen just before: the two searches of the program agree for any players.
   */
  lemma BankruptcyPassesTurnLikeEndTurn(s: State, after: seq<Player>)
    requires DistinctSeats(s.players) && s.HasPlayer(s.current) && !s.players[s.current].bankrupt
    requires |Active(s.players)| >= 2
    requires |after| == |s.players|
    requires forall i :: 0 <= i < |after| ==>
               after[i].seat == s.players[i].seat && after[i].bankrupt == (s.players[i].bankrupt || i == s.current)
    ensures |Active(after)| > 0
    ensures NextActivePlayer(s) == Ok(NextAfterBankruptcy(after, s.players[s.current].seat))
  {
    NextActiveIsNextSeat(s);
    var q := NextActivePlayer(s).value;
    assert q in Active(after);
    NextAfterBankruptcyIsNextSeat(after, s.players[s.current].seat);
    assert DistinctSeats(after);
    var seat := s.players[s.current].seat;
    forall i | 0 <= i < |after| && !after[i].bankrupt
      ensures after[i].seat > seat ==> seat < after[q].seat <= after[i].seat
      ensures after[q].seat <= seat ==> after[q].seat <= after[i].seat
    {
      assert !s.players[i].bankrupt;
    }
    NextSeatUnique(after, seat, q, NextAfterBankruptcy(after, seat));
  }

  // ----- ending a turn

  function EndTurn(s: State, p: nat): (res: Result<State>) {
    var g := AssertPhase(s, {AwaitingTurnEnd}, TurnEndNotAllowed);
    if g.Some? then Err(g.value) else
    var t := AssertCurrentTurn(s, p);
    if t.Some? then Err(t.value) else
    if s.playAgain then
      Ok(s.(phase := AwaitingRoll, lastDice := None, trade := None, playAgain := false))
    else
      var next :- NextActivePlayer(s);
      Ok(s.(phase := AwaitingRoll, turn := s.turn + 1, current := next, doubles := 0,
            playAgain := false, lastDice := None, trade := None))
  }

  // ----- counting the active players

  lemma {:induction false} ActiveCountUpdate(players: seq<Player>, players': seq<Player>, p: nat, n: nat)
    requires |players| == |players'| && p < |players| && n <= |players|
    requires !players[p].bankrupt && players'[p].bankrupt
    requires forall i :: 0 <= i < |players| && i != p ==> players'[i].bankrupt == players[i].bankrupt
    ensures |ActiveBySeat(players', n)| == |ActiveBySeat(players, n)| - if p < n then 1 else 0
  {
    hide InsertBySeat;
    if n > 0 {
      ActiveCountUpdate(players, players', p, n - 1);
    }
  }

  lemma {:induction false} ActiveSame(players: seq<Player>, players': seq<Player>, n: nat)
    requires |players| == |players'| && n <= |players|
    requires forall i :: 0 <= i < |players| ==>
               players'[i].bankrupt == players[i].bankrupt && players'[i].seat == players[i].seat
    ensures ActiveBySeat(players', n) == ActiveBySeat(players, n)
  {
    hide InsertBySeat;
    if n > 0 {
      ActiveSame(players, players', n - 1);
      if !players[n - 1].bankrupt {
        var ids := ActiveBySeat(players, n - 1);
        assert forall i :: 0 <= i < |ids| ==> ids[i] in ids;
        InsertSame(players, players', ids, n - 1);
      }
    }
  }

  lemma {:induction false} InsertSame(players: seq<Player>, players': seq<Player>, ids: seq<nat>, p: nat)
    requires |players| == |players'| && p < |players|
    requires forall i :: 0 <= i < |ids| ==> ids[i] < |players|
    requires forall i :: 0 <= i < |players| ==> players'[i].seat == players[i].seat
    ensures InsertBySeat(players', ids, p) == InsertBySeat(players, ids, p)
  {
    if |ids| > 0 && players[p].seat >= players[ids[0]].seat {
      InsertSame(players, players', ids[1..], p);
    }
  }
}
