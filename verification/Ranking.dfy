/** Final placements (game-results.service.ts) against the engine's standings (game-engine-derived-state.ts). */
module Ranking {
  import opened Rules
  import opened State
  import opened Turns
  import opened Sorting
  import opened NetWorth

  // ----- the two comparators

  function OwnedUpTo(props: seq<PropertyState>, p: nat, n: nat): (count: nat)
    requires n <= |props|
  {
    if n == 0 then 0 else OwnedUpTo(props, p, n - 1) + if props[n - 1].OwnedBy(p) then 1 else 0
  }

  datatype Standing = Standing(seat: int, cash: int, owned: nat, worth: int)

  function StandingOf(r: Rules, s: State, p: nat): (standing: Standing)
    requires |s.props| == |r.tiles| && s.HasPlayer(p)
  {
    Standing(s.players[p].seat, s.players[p].cash, OwnedUpTo(s.props, p, |s.props|), PlayerNetWorth(r, s, p))
  }

  /** The engine's order of two players: net worth, cash, tiles, then the lower seat. */
  predicate EngineBefore(r: Rules, s: State, left: nat, right: nat)
    requires |s.props| == |r.tiles|
  {
    && s.HasPlayer(left) && s.HasPlayer(right)
    && var a, b := StandingOf(r, s, left), StandingOf(r, s, right);
       if a.worth != b.worth then a.worth > b.worth
       else if a.cash != b.cash then a.cash > b.cash
       else if a.owned != b.owned then a.owned > b.owned
       else a.seat < b.seat
  }

  /** The order of the final results: before the seat, a player still in the game comes first. */
  predicate FinalBefore(r: Rules, s: State, left: nat, right: nat)
    requires |s.props| == |r.tiles|
  {
    && s.HasPlayer(left) && s.HasPlayer(right)
    && var a, b := StandingOf(r, s, left), StandingOf(r, s, right);
       if a.worth != b.worth then a.worth > b.worth
       else if a.cash != b.cash then a.cash > b.cash
       else if a.owned != b.owned then a.owned > b.owned
       else if s.players[left].bankrupt != s.players[right].bankrupt then s.players[right].bankrupt
       else a.seat < b.seat
  }

  type Order = (nat, nat) -> bool

  /** A strict total order on the first `n` numbers. */
  ghost predicate Strict(less: Order, n: nat) {
    && (forall i, j :: 0 <= i < n && 0 <= j < n && i != j ==> less(i, j) || less(j, i))
    && (forall i, j :: 0 <= i < n && 0 <= j < n && less(i, j) ==> !less(j, i))
    && (forall i, j, k :: 0 <= i < n && 0 <= j < n && 0 <= k < n && less(i, j) && less(j, k) ==> less(i, k))
  }

  function FinalOrder(r: Rules, s: State): (less: Order)
    requires |s.props| == |r.tiles|
  {
    (i: nat, j: nat) => FinalBefore(r, s, i, j)
  }

  function EngineOrder(r: Rules, s: State): (less: Order)
    requires |s.props| == |r.tiles|
  {
    (i: nat, j: nat) => EngineBefore(r, s, i, j)
  }

  lemma OrdersAreStrict(r: Rules, s: State)
    requires |s.props| == |r.tiles| && DistinctSeats(s.players)
    ensures Strict(FinalOrder(r, s), |s.players|) && Strict(EngineOrder(r, s), |s.players|)
  {
    hide StandingOf;
    forall i, j | 0 <= i < |s.players| && 0 <= j < |s.players| && i != j
      ensures StandingOf(r, s, i).seat != StandingOf(r, s, j).seat
    {
      SeatOf(r, s, i);
      SeatOf(r, s, j);
      SeatsDiffer(s.players, i, j);
    }
  }

  lemma SeatOf(r: Rules, s: State, p: nat)
    requires |s.props| == |r.tiles| && s.HasPlayer(p)
    ensures StandingOf(r, s, p).seat == s.players[p].seat
  {}

  // ----- sorting

  function InsertBy(less: Order, ids: seq<nat>, p: nat): (sorted: seq<nat>)
    ensures |sorted| == |ids| + 1
    ensures forall x: nat :: x in sorted <==> x == p || x in ids
  {
    Inserted(less, ids, p);
    Insert(less, ids, p)
  }

  /** The players below `n` that `keep` admits, sorted: any sorting algorithm gives this list. */
  function SortBy(less: Order, keep: nat -> bool, n: nat): (sorted: seq<nat>)
    ensures forall x: nat :: x in sorted <==> x < n && keep(x)
  {
    if n == 0 then []
    else if keep(n - 1) then InsertBy(less, SortBy(less, keep, n - 1), n - 1)
    else SortBy(less, keep, n - 1)
  }

  predicate Sorted(less: Order, ids: seq<nat>) {
    forall i, j :: 0 <= i < j < |ids| ==> less(ids[i], ids[j])
  }

  predicate Below(ids: seq<nat>, n: nat) {
    forall i :: 0 <= i < |ids| ==> ids[i] < n
  }

  lemma SortedCons(less: Order, x: nat, rest: seq<nat>)
    requires Sorted(less, rest) && forall y: nat :: y in rest ==> less(x, y)
    ensures Sorted(less, [x] + rest)
  {
    var all := [x] + rest;
    forall i, j | 0 <= i < j < |all|
      ensures less(all[i], all[j])
    {
      assert all[j] == rest[j - 1] && all[j] in rest;
    }
  }

  lemma SortedHead(less: Order, ids: seq<nat>, y: nat)
    requires Sorted(less, ids) && |ids| > 0 && y in ids
    ensures y == ids[0] || (less(ids[0], y) && y in ids[1..])
  {
    if y != ids[0] {
      var i := IndexOf(ids, y);
      assert ids[1..][i - 1] == y;
    }
  }

  lemma {:induction false} InsertSortedBy(less: Order, ids: seq<nat>, p: nat, n: nat)
    requires Strict(less, n) && Sorted(less, ids) && Below(ids, n) && p < n && p !in ids
    ensures Sorted(less, InsertBy(less, ids, p))
  {
    if |ids| > 0 {
      if less(p, ids[0]) {
        forall y: nat | y in ids
          ensures less(p, y)
        {
          var i := IndexOf(ids, y);
          if i > 0 {
            assert less(ids[0], ids[i]);
          }
        }
        SortedCons(less, p, ids);
      } else {
        InsertSortedBy(less, ids[1..], p, n);
        forall y: nat | y in InsertBy(less, ids[1..], p)
          ensures less(ids[0], y)
        {
          if y != p {
            var i := IndexOf(ids[1..], y);
            assert ids[i + 1] == y;
          }
        }
        SortedCons(less, ids[0], InsertBy(less, ids[1..], p));
      }
    }
  }

  lemma {:induction false} SortSorts(less: Order, keep: nat -> bool, n: nat, bound: nat)
    requires Strict(less, bound) && n <= bound
    ensures Sorted(less, SortBy(less, keep, n))
  {
    hide Strict, InsertBy;
    if n > 0 {
      SortSorts(less, keep, n - 1, bound);
      if keep(n - 1) {
        var ids := SortBy(less, keep, n - 1);
        assert forall i :: 0 <= i < |ids| ==> ids[i] in ids;
        InsertSortedBy(less, ids, n - 1, bound);
      }
    }
  }

  lemma HasMember(ids: seq<nat>)
    requires |ids| > 0
    ensures exists x: nat :: x in ids
  {
    assert ids[0] in ids;
  }

  /** A strictly sorted list is determined by its members. */
  lemma {:induction false} SortedIsUnique(less: Order, a: seq<nat>, b: seq<nat>, n: nat)
    requires Strict(less, n) && Sorted(less, a) && Sorted(less, b) && Below(a, n) && Below(b, n)
    requires forall x: nat :: x in a <==> x in b
    ensures a == b
  {
    if |a| == 0 {
      if |b| > 0 {
        HasMember(b);
      }
    } else {
      assert a[0] in b;
      assert b[0] in a;
      SortedHead(less, a, b[0]);
      SortedHead(less, b, a[0]);
      forall x: nat
        ensures x in a[1..] <==> x in b[1..]
      {
        TailMembers(less, a, x, n);
        TailMembers(less, b, x, n);
      }
      SortedIsUnique(less, a[1..], b[1..], n);
    }
  }

  lemma TailMembers(less: Order, ids: seq<nat>, x: nat, n: nat)
    requires Strict(less, n) && Sorted(less, ids) && Below(ids, n) && |ids| > 0
    ensures x in ids[1..] <==> x in ids && x != ids[0]
  {
    if x in ids[1..] {
      var i := IndexOf(ids[1..], x);
      assert ids[i + 1] == x && less(ids[0], ids[i + 1]);
    } else if x in ids && x != ids[0] {
      SortedHead(less, ids, x);
    }
  }

  // ----- the seat order

  lemma SeatOrderIsStrict(players: seq<Player>)
    requires DistinctSeats(players)
    ensures Strict(SeatOrder(players), |players|)
  {
    forall i, j | 0 <= i < |players| && 0 <= j < |players| && i != j
      ensures players[i].seat != players[j].seat
    {
      SeatsDiffer(players, i, j);
    }
  }

  /** The active players are listed by ascending seat, and theirs is the only such list. */
  lemma ActiveIsSeatOrder(players: seq<Player>, ids: seq<nat>)
    requires DistinctSeats(players)
    ensures SeatSorted(players, Active(players))
    ensures SeatSorted(players, ids) && (forall x: nat :: x in ids <==> x < |players| && !players[x].bankrupt) ==>
              ids == Active(players)
  {
    hide ActiveBySeat, Strict;
    ActiveSorted(players, |players|);
    SeatOrderIsStrict(players);
    if SeatSorted(players, ids) && (forall x: nat :: x in ids <==> x < |players| && !players[x].bankrupt) {
      SortedIsUnique(SeatOrder(players), ids, Active(players), |players|);
    }
  }

  // ----- placements

  function FinalStandings(r: Rules, s: State): (ids: seq<nat>)
    requires |s.props| == |r.tiles|
    ensures forall x: nat :: x in ids <==> x < |s.players|
  {
    SortBy(FinalOrder(r, s), (_: nat) => true, |s.players|)
  }

  function EngineStandings(r: Rules, s: State): (ids: seq<nat>)
    requires |s.props| == |r.tiles|
    ensures forall x: nat :: x in ids <==> x < |s.players| && !s.players[x].bankrupt
  {
    SortBy(EngineOrder(r, s), (i: nat) => i < |s.players| && !s.players[i].bankrupt, |s.players|)
  }

  function Placement(r: Rules, s: State, p: nat): (place: nat)
    requires |s.props| == |r.tiles| && s.HasPlayer(p)
  {
    IndexOf(FinalStandings(r, s), p) + 1
  }

  lemma {:induction false} SortedLength(less: Order, keep: nat -> bool, n: nat)
    requires forall i :: 0 <= i < n ==> keep(i)
    ensures |SortBy(less, keep, n)| == n
  {
    if n > 0 {
      SortedLength(less, keep, n - 1);
    }
  }

  lemma IndexInSorted(less: Order, ids: seq<nat>, n: nat, i: nat)
    requires Strict(less, n) && Sorted(less, ids) && Below(ids, n) && i < |ids|
    ensures ids[i] in ids && IndexOf(ids, ids[i]) == i
  {
    var j := IndexOf(ids, ids[i]);
    assert ids[j] == ids[i] && !less(ids[i], ids[j]);
  }

  lemma SortedIndex(less: Order, ids: seq<nat>, n: nat, x: nat, y: nat)
    requires Strict(less, n) && Sorted(less, ids) && Below(ids, n) && x in ids && y in ids
    ensures IndexOf(ids, x) < IndexOf(ids, y) <==> less(x, y)
  {
    var i, j := IndexOf(ids, x), IndexOf(ids, y);
    assert i < j ==> less(ids[i], ids[j]);
    assert j < i ==> less(ids[j], ids[i]);
  }

  lemma FinalStandingsSorted(r: Rules, s: State)
    requires |s.props| == |r.tiles| && DistinctSeats(s.players)
    ensures Strict(FinalOrder(r, s), |s.players|) && Sorted(FinalOrder(r, s), FinalStandings(r, s))
    ensures Below(FinalStandings(r, s), |s.players|) && |FinalStandings(r, s)| == |s.players|
  {
    hide FinalBefore, EngineBefore;
    var ids := FinalStandings(r, s);
    OrdersAreStrict(r, s);
    SortSorts(FinalOrder(r, s), (_: nat) => true, |s.players|, |s.players|);
    SortedLength(FinalOrder(r, s), (_: nat) => true, |s.players|);
    assert forall i :: 0 <= i < |ids| ==> ids[i] in ids;
  }

  /**
   Placements are exactly 1..n, each given to one player, and the better place goes to the player
   the comparator puts first.
   */
  lemma PlacementsAreExact(r: Rules, s: State)
    requires |s.props| == |r.tiles| && DistinctSeats(s.players)
    ensures forall p :: 0 <= p < |s.players| ==> 1 <= Placement(r, s, p) <= |s.players|
    ensures forall p, q :: 0 <= p < |s.players| && 0 <= q < |s.players| ==>
              (Placement(r, s, p) < Placement(r, s, q) <==> FinalBefore(r, s, p, q))
    ensures forall p, q :: 0 <= p < |s.players| && 0 <= q < |s.players| && p != q ==>
              Placement(r, s, p) != Placement(r, s, q)
    ensures |FinalStandings(r, s)| == |s.players|
    ensures forall i :: 0 <= i < |s.players| ==>
              var p := FinalStandings(r, s)[i]; s.HasPlayer(p) && Placement(r, s, p) == i + 1
  {
    hide FinalBefore, EngineBefore, SortBy, Strict;
    var less, ids := FinalOrder(r, s), FinalStandings(r, s);
    FinalStandingsSorted(r, s);
    forall p, q | 0 <= p < |s.players| && 0 <= q < |s.players|
      ensures Placement(r, s, p) < Placement(r, s, q) <==> less(p, q)
    {
      SortedIndex(less, ids, |s.players|, p, q);
    }
    forall i | 0 <= i < |s.players|
      ensures s.HasPlayer(ids[i]) && Placement(r, s, ids[i]) == i + 1
    {
      IndexInSorted(less, ids, |s.players|, i);
    }
  }

  /** Whoever is worth more is placed before, bankrupt or not; between equals the one with more cash. */
  lemma RicherIsPlacedFirst(r: Rules, s: State, p: nat, q: nat)
    requires |s.props| == |r.tiles| && DistinctSeats(s.players) && s.HasPlayer(p) && s.HasPlayer(q)
    requires || PlayerNetWorth(r, s, p) > PlayerNetWorth(r, s, q)
             || (PlayerNetWorth(r, s, p) == PlayerNetWorth(r, s, q) && s.players[p].cash > s.players[q].cash)
    ensures Placement(r, s, p) < Placement(r, s, q)
  {
    hide PlayerNetWorth, Placement, OwnedUpTo;
    PlacementsAreExact(r, s);
  }

  // ----- the two orders agree on the players still in the game

  function Survivors(s: State, ids: seq<nat>): (kept: seq<nat>)
    ensures forall x: nat :: x in kept <==> x in ids && s.HasPlayer(x) && !s.players[x].bankrupt
  {
    if |ids| == 0 then []
    else if s.HasPlayer(ids[0]) && !s.players[ids[0]].bankrupt then [ids[0]] + Survivors(s, ids[1..])
    else Survivors(s, ids[1..])
  }

  lemma {:induction false} SurvivorsSorted(r: Rules, s: State, ids: seq<nat>)
    requires |s.props| == |r.tiles| && Sorted(FinalOrder(r, s), ids)
    ensures Sorted(EngineOrder(r, s), Survivors(s, ids))
  {
    hide StandingOf;
    if |ids| > 0 {
      SurvivorsSorted(r, s, ids[1..]);
      if s.HasPlayer(ids[0]) && !s.players[ids[0]].bankrupt {
        forall y: nat | y in Survivors(s, ids[1..])
          ensures EngineBefore(r, s, ids[0], y)
        {
          var i := IndexOf(ids[1..], y);
          assert FinalOrder(r, s)(ids[0], ids[i + 1]);
        }
        SortedCons(EngineOrder(r, s), ids[0], Survivors(s, ids[1..]));
      }
    }
  }

  /** Without the bankrupt players, the final order is the engine's standings. */
  lemma FinalOrderExtendsEngine(r: Rules, s: State)
    requires |s.props| == |r.tiles| && DistinctSeats(s.players)
    ensures Survivors(s, FinalStandings(r, s)) == EngineStandings(r, s)
  {
    hide FinalBefore, EngineBefore;
    var kept, engine := Survivors(s, FinalStandings(r, s)), EngineStandings(r, s);
    OrdersAreStrict(r, s);
    SortSorts(FinalOrder(r, s), (_: nat) => true, |s.players|, |s.players|);
    SortSorts(EngineOrder(r, s), (i: nat) => i < |s.players| && !s.players[i].bankrupt, |s.players|, |s.players|);
    SurvivorsSorted(r, s, FinalStandings(r, s));
    assert forall i :: 0 <= i < |kept| ==> kept[i] in kept;
    assert forall i :: 0 <= i < |engine| ==> engine[i] in engine;
    SortedIsUnique(EngineOrder(r, s), kept, engine, |s.players|);
  }
}
