/** How a game begins (rooms-game.service.ts), and what then holds in every state of every game. */
module Start {
  import opened Rules
  import opened State
  import opened CardDecks
  import opened Turns
  import opened Properties
  import opened Invariant
  import opened Runs
  import opened Sets
  import opened Shuffle
  import opened Sorting

  const ROOM_MAX_PLAYERS: int := 4
  const MIN_RANKED_HUMANS: nat := 3
  const STARTING_CASH: int := 1500

  datatype Entrant = Entrant(playerType: PlayerType, difficulty: Difficulty, seat: int)

  // ----- filling the free seats

  function SeatsOf(entrants: seq<Entrant>): (seats: set<int>) {
    set i | 0 <= i < |entrants| :: entrants[i].seat
  }

  /** A bot on every free seat below `seat`, in seat order. */
  function BotsBelow(occupied: set<int>, difficulty: Difficulty, seat: int): (bots: seq<Entrant>)
    decreases seat
  {
    if seat <= 1 then []
    else
      var bots := BotsBelow(occupied, difficulty, seat - 1);
      if seat - 1 in occupied then bots else bots + [Entrant(Bot, difficulty, seat - 1)]
  }

  method BuildBotPlayers(joined: seq<Entrant>, difficulty: Difficulty) returns (bots: seq<Entrant>)
    ensures bots == BotsBelow(SeatsOf(joined), difficulty, ROOM_MAX_PLAYERS + 1)
    ensures forall seat :: 1 <= seat <= ROOM_MAX_PLAYERS ==> seat in SeatsOf(joined + bots)
  {
    var occupied := SeatsOf(joined);
    bots := [];
    for seat := 1 to ROOM_MAX_PLAYERS + 1
      invariant bots == BotsBelow(occupied, difficulty, seat)
    {
      if seat !in occupied {
        bots := bots + [Entrant(Bot, difficulty, seat)];
      }
    }
    forall seat | 1 <= seat <= ROOM_MAX_PLAYERS
      ensures seat in SeatsOf(joined + bots)
    {
      SeatTaken(joined, bots, difficulty, seat);
    }
  }

  /** The bots take exactly the free seats. */
  lemma {:induction false} BotSeats(occupied: set<int>, difficulty: Difficulty, seat: int, x: int)
    ensures x in SeatsOf(BotsBelow(occupied, difficulty, seat)) <==> 1 <= x < seat && x !in occupied
    decreases seat
  {
    if seat > 1 {
      BotSeats(occupied, difficulty, seat - 1, x);
      var bots := BotsBelow(occupied, difficulty, seat - 1);
      if seat - 1 !in occupied {
        var all := bots + [Entrant(Bot, difficulty, seat - 1)];
        assert all[|bots|].seat == seat - 1;
        if x in SeatsOf(bots) {
          var i :| 0 <= i < |bots| && bots[i].seat == x;
          assert all[i].seat == x;
        }
      }
    }
  }

  lemma SeatTaken(joined: seq<Entrant>, bots: seq<Entrant>, difficulty: Difficulty, seat: int)
    requires bots == BotsBelow(SeatsOf(joined), difficulty, ROOM_MAX_PLAYERS + 1) && 1 <= seat <= ROOM_MAX_PLAYERS
    ensures seat in SeatsOf(joined + bots)
  {
    BotSeats(SeatsOf(joined), difficulty, ROOM_MAX_PLAYERS + 1, seat);
    var all := joined + bots;
    if seat in SeatsOf(joined) {
      var i :| 0 <= i < |joined| && joined[i].seat == seat;
      assert all[i].seat == seat;
    } else {
      var i :| 0 <= i < |bots| && bots[i].seat == seat;
      assert all[|joined| + i].seat == seat;
    }
  }

  predicate SeatsDistinct(entrants: seq<Entrant>) {
    forall i, j :: 0 <= i < j < |entrants| ==> entrants[i].seat != entrants[j].seat
  }

  lemma {:induction false} BotsDistinct(occupied: set<int>, difficulty: Difficulty, seat: int)
    ensures SeatsDistinct(BotsBelow(occupied, difficulty, seat))
    decreases seat
  {
    if seat > 1 {
      BotsDistinct(occupied, difficulty, seat - 1);
      var bots := BotsBelow(occupied, difficulty, seat - 1);
      forall i | 0 <= i < |bots|
        ensures bots[i].seat != seat - 1
      {
        BotSeats(occupied, difficulty, seat - 1, bots[i].seat);
      }
    }
  }

  // ----- the line-up, in seat order

  predicate AllHuman(entrants: seq<Entrant>) {
    forall i :: 0 <= i < |entrants| ==> entrants[i].playerType == Human
  }

  /** A table of at least three humans plays ranked and without bots. */
  predicate Ranked(joined: seq<Entrant>) {
    AllHuman(joined) && |joined| >= MIN_RANKED_HUMANS
  }

  function Seated(entrants: seq<Entrant>, e: Entrant): (sorted: seq<Entrant>)
    ensures multiset(sorted) == multiset(entrants) + multiset{e}
  {
    var less := (a: Entrant, b: Entrant) => a.seat < b.seat;
    InsertAdds(less, entrants, e);
    Insert(less, entrants, e)
  }

  function SortBySeat(entrants: seq<Entrant>): (sorted: seq<Entrant>)
    ensures multiset(sorted) == multiset(entrants)
  {
    if |entrants| == 0 then []
    else
      assert entrants == entrants[..|entrants| - 1] + [entrants[|entrants| - 1]];
      Seated(SortBySeat(entrants[..|entrants| - 1]), entrants[|entrants| - 1])
  }

  function LineUp(joined: seq<Entrant>, difficulty: Difficulty): (entrants: seq<Entrant>) {
    SortBySeat(joined + if Ranked(joined) then [] else BotsBelow(SeatsOf(joined), difficulty, ROOM_MAX_PLAYERS + 1))
  }

  /** What the lobby guarantees: a human host, and one player per seat. */
  predicate LobbyOk(joined: seq<Entrant>) {
    SeatsDistinct(joined) && exists i :: 0 <= i < |joined| && joined[i].playerType == Human
  }

  lemma AppendDistinct(joined: seq<Entrant>, bots: seq<Entrant>)
    requires SeatsDistinct(joined) && SeatsDistinct(bots) && SeatsOf(joined) !! SeatsOf(bots)
    ensures SeatsDistinct(joined + bots)
  {
    var all := joined + bots;
    forall i, j | 0 <= i < j < |all|
      ensures all[i].seat != all[j].seat
    {
      if i < |joined| <= j {
        assert all[i].seat in SeatsOf(joined) && bots[j - |joined|].seat in SeatsOf(bots);
      }
    }
  }

  /** Distinct seats are a matter of which entrants there are, not of their order. */
  lemma {:induction false} InsertDistinct(sorted: seq<Entrant>, e: Entrant)
    requires SeatsDistinct(sorted) && e.seat !in SeatsOf(sorted)
    ensures SeatsDistinct(Seated(sorted, e)) && SeatsOf(Seated(sorted, e)) == SeatsOf(sorted) + {e.seat}
  {
    if |sorted| == 0 {
    } else if e.seat < sorted[0].seat {
      AppendDistinct([e], sorted);
      SeatsOfCons(e, sorted);
    } else {
      var rest := sorted[1..];
      assert sorted == [sorted[0]] + rest;
      SeatsOfCons(sorted[0], rest);
      InsertDistinct(rest, e);
      AppendDistinct([sorted[0]], Seated(rest, e));
      SeatsOfCons(sorted[0], Seated(rest, e));
    }
  }

  lemma SeatsOfCons(e: Entrant, rest: seq<Entrant>)
    ensures SeatsOf([e] + rest) == {e.seat} + SeatsOf(rest)
    ensures SeatsDistinct([e] + rest) ==> SeatsDistinct(rest) && e.seat !in SeatsOf(rest)
  {
    var all := [e] + rest;
    forall x
      ensures x in SeatsOf(all) <==> x == e.seat || x in SeatsOf(rest)
    {
      if x in SeatsOf(rest) {
        var i :| 0 <= i < |rest| && rest[i].seat == x;
        assert all[i + 1].seat == x;
      }
      assert all[0].seat == e.seat;
    }
    if SeatsDistinct(all) {
      forall i, j | 0 <= i < j < |rest|
        ensures rest[i].seat != rest[j].seat
      {
        assert all[i + 1] == rest[i] && all[j + 1] == rest[j];
      }
      forall i | 0 <= i < |rest|
        ensures rest[i].seat != e.seat
      {
        assert all[i + 1] == rest[i] && all[0] == e;
      }
    }
  }

  lemma {:induction false} SortDistinct(entrants: seq<Entrant>)
    requires SeatsDistinct(entrants)
    ensures SeatsDistinct(SortBySeat(entrants)) && SeatsOf(SortBySeat(entrants)) == SeatsOf(entrants)
  {
    hide SeatsDistinct, SeatsOf, Seated;
    if |entrants| > 0 {
      var init, last := entrants[..|entrants| - 1], entrants[|entrants| - 1];
      InitDistinct(entrants);
      SortDistinct(init);
      InsertDistinct(SortBySeat(init), last);
      assert entrants == init + [last];
      SeatsOfSnoc(init, last);
    }
  }

  lemma InitDistinct(entrants: seq<Entrant>)
    requires SeatsDistinct(entrants) && |entrants| > 0
    ensures var init, last := entrants[..|entrants| - 1], entrants[|entrants| - 1];
            SeatsDistinct(init) && last.seat !in SeatsOf(init)
  {}

  predicate Ascending(entrants: seq<Entrant>) {
    forall i, j :: 0 <= i < j < |entrants| ==> entrants[i].seat < entrants[j].seat
  }

  lemma {:induction false} InsertLast(entrants: seq<Entrant>, e: Entrant)
    requires forall i :: 0 <= i < |entrants| ==> entrants[i].seat < e.seat
    ensures Seated(entrants, e) == entrants + [e]
  {
    if |entrants| > 0 {
      InsertLast(entrants[1..], e);
      assert entrants == [entrants[0]] + entrants[1..];
    }
  }

  lemma {:induction false} SeatedAscends(entrants: seq<Entrant>, e: Entrant)
    requires Ascending(entrants) && e.seat !in SeatsOf(entrants)
    ensures Ascending(Seated(entrants, e))
  {
    if |entrants| > 0 {
      assert entrants == [entrants[0]] + entrants[1..];
      SeatsOfCons(entrants[0], entrants[1..]);
      if e.seat < entrants[0].seat {
        LowestFirst(e, entrants);
      } else {
        SeatedAscends(entrants[1..], e);
        var rest := Seated(entrants[1..], e);
        forall i | 0 <= i < |rest|
          ensures entrants[0].seat < rest[i].seat
        {
          assert rest[i] in multiset(rest);
          assert multiset(rest) == multiset(entrants[1..]) + multiset{e};
          if rest[i] != e {
            assert rest[i] in entrants[1..];
          }
        }
        LowestFirst(entrants[0], rest);
        assert Seated(entrants, e) == [entrants[0]] + rest;
      }
    }
  }

  lemma LowestFirst(e: Entrant, rest: seq<Entrant>)
    requires Ascending(rest) && (|rest| > 0 ==> forall i :: 0 <= i < |rest| ==> e.seat < rest[i].seat)
    ensures Ascending([e] + rest)
  {
    var all := [e] + rest;
    forall i, j | 0 <= i < j < |all|
      ensures all[i].seat < all[j].seat
    {
      assert all[j] == rest[j - 1] && (i > 0 ==> all[i] == rest[i - 1]);
    }
  }

  lemma {:induction false} SortAscends(entrants: seq<Entrant>)
    requires SeatsDistinct(entrants)
    ensures Ascending(SortBySeat(entrants))
  {
    hide SeatsDistinct, SeatsOf, Seated, Ascending;
    if |entrants| == 0 {
      NobodyAscends();
    } else {
      var init, last := entrants[..|entrants| - 1], entrants[|entrants| - 1];
      InitDistinct(entrants);
      SortAscends(init);
      SortDistinct(init);
      SeatedAscends(SortBySeat(init), last);
    }
  }

  lemma NobodyAscends()
    ensures Ascending([])
  {}

  /** Players already in seat order stay as they are. */
  lemma {:induction false} SortKeepsOrder(entrants: seq<Entrant>)
    requires Ascending(entrants)
    ensures SortBySeat(entrants) == entrants
  {
    if |entrants| > 0 {
      var init, last := entrants[..|entrants| - 1], entrants[|entrants| - 1];
      SortKeepsOrder(init);
      InsertLast(init, last);
    }
  }

  lemma SeatsOfSnoc(init: seq<Entrant>, last: Entrant)
    ensures SeatsOf(init + [last]) == SeatsOf(init) + {last.seat}
  {
    var all := init + [last];
    forall x
      ensures x in SeatsOf(all) <==> x == last.seat || x in SeatsOf(init)
    {
      if x in SeatsOf(init) {
        var i :| 0 <= i < |init| && init[i].seat == x;
        assert all[i].seat == x;
      }
      assert all[|init|].seat == last.seat;
    }
  }

  /** Every line-up has at least two players on distinct seats, one of them human. */
  lemma LineUpOk(joined: seq<Entrant>, difficulty: Difficulty)
    requires LobbyOk(joined)
    ensures var entrants := LineUp(joined, difficulty);
            && LobbyOk(entrants) && |entrants| >= 2
            && (!Ranked(joined) ==> forall seat :: 1 <= seat <= ROOM_MAX_PLAYERS ==> seat in SeatsOf(entrants))
  {
    var bots := if Ranked(joined) then [] else BotsBelow(SeatsOf(joined), difficulty, ROOM_MAX_PLAYERS + 1);
    var all := joined + bots;
    BotsDistinct(SeatsOf(joined), difficulty, ROOM_MAX_PLAYERS + 1);
    forall x | x in SeatsOf(bots)
      ensures x !in SeatsOf(joined)
    {
      BotSeats(SeatsOf(joined), difficulty, ROOM_MAX_PLAYERS + 1, x);
    }
    AppendDistinct(joined, bots);
    SortDistinct(all);
    var entrants := LineUp(joined, difficulty);
    var i :| 0 <= i < |joined| && joined[i].playerType == Human;
    assert all[i] == joined[i] && joined[i] in multiset(all);
    assert joined[i] in multiset(entrants);
    assert |multiset(entrants)| == |multiset(all)|;
    if !Ranked(joined) {
      forall seat | 1 <= seat <= ROOM_MAX_PLAYERS
        ensures seat in SeatsOf(entrants)
      {
        SeatTaken(joined, bots, difficulty, seat);
      }
      TwoSeats(entrants);
    }
  }

  lemma TwoSeats(entrants: seq<Entrant>)
    requires 1 in SeatsOf(entrants) && 2 in SeatsOf(entrants)
    ensures |entrants| >= 2
  {}

  // ----- the first state

  function NewPlayer(e: Entrant): (player: Player) {
    Player(e.playerType, e.difficulty, e.seat, STARTING_CASH, 0, false, 0, 0, [], 0, None, None, false)
  }

  function InitialState(r: Rules, entrants: seq<Entrant>, seed: Seed, startedAt: int, minutes: int): (s: State) {
    State(AwaitingFirstTurn, 1, 0, 0, false, None, None, None, None, None, InitialDecks(r, seed),
          seq(|entrants|, i requires 0 <= i < |entrants| => NewPlayer(entrants[i])),
          seq(|r.tiles|, _ => BLANK),
          Some(startedAt + minutes * 60 * 1000))
  }

  lemma {:induction false} AllActive(players: seq<Player>, n: nat)
    requires n <= |players| && forall i :: 0 <= i < |players| ==> !players[i].bankrupt
    ensures |ActiveBySeat(players, n)| == n
  {
    if n > 0 {
      AllActive(players, n - 1);
    }
  }

  /** A new game satisfies the invariant, with every built set in order since there is none. */
  lemma StartHolds(r: Rules, joined: seq<Entrant>, difficulty: Difficulty, seed: Seed, startedAt: int, minutes: int)
    requires ValidRules(r) && LobbyOk(joined)
    ensures var s := InitialState(r, LineUp(joined, difficulty), seed, startedAt, minutes);
            Inv(r, s) && |s.props| == |r.tiles| && SetsOk(r, s.props)
  {
    hide Core, LineUp, ValidRules, ActiveBySeat;
    LineUpOk(joined, difficulty);
    var entrants := LineUp(joined, difficulty);
    var s := InitialState(r, entrants, seed, startedAt, minutes);
    StartCore(r, entrants, seed, startedAt, minutes);
    AllActive(s.players, |s.players|);
    var i :| 0 <= i < |entrants| && entrants[i].playerType == Human;
    assert !s.players[i].bankrupt && s.players[i].playerType == Human;
  }

  /** Everybody starts alike, the lowest seat moves first, and the bank owns every tile. */
  lemma StartOutcome(r: Rules, joined: seq<Entrant>, difficulty: Difficulty, seed: Seed, startedAt: int, minutes: int)
    requires LobbyOk(joined)
    ensures var s := InitialState(r, LineUp(joined, difficulty), seed, startedAt, minutes);
            && |s.players| == |LineUp(joined, difficulty)| && s.HasPlayer(s.current) && s.turn == 1 && s.phase == AwaitingFirstTurn
            && (forall i :: 0 <= i < |s.players| && i != s.current ==> s.players[s.current].seat < s.players[i].seat)
            && (forall i :: 0 <= i < |s.players| ==>
                  && s.players[i].cash == 1500 && s.players[i].position == 0 && !s.players[i].inJail && !s.players[i].bankrupt
                  && s.players[i].jailCardKeys == [] && s.players[i].missedTurns == 0)
            && (forall k :: 0 <= k < |s.props| ==> s.props[k] == BLANK)
            && s.expiresAt == Some(startedAt + 60000 * minutes)
  {
    hide InitialDecks, SortBySeat, BotsBelow, LobbyOk;
    LineUpOk(joined, difficulty);
    LineUpAscends(joined, difficulty);
  }

  lemma LineUpAscends(joined: seq<Entrant>, difficulty: Difficulty)
    requires LobbyOk(joined)
    ensures Ascending(LineUp(joined, difficulty))
  {
    hide SortBySeat, BotsBelow, Ascending;
    var bots := if Ranked(joined) then [] else BotsBelow(SeatsOf(joined), difficulty, ROOM_MAX_PLAYERS + 1);
    BotsDistinct(SeatsOf(joined), difficulty, ROOM_MAX_PLAYERS + 1);
    forall x | x in SeatsOf(bots)
      ensures x !in SeatsOf(joined)
    {
      BotSeats(SeatsOf(joined), difficulty, ROOM_MAX_PLAYERS + 1, x);
    }
    AppendDistinct(joined, bots);
    SortAscends(joined + bots);
  }

  lemma StartCore(r: Rules, entrants: seq<Entrant>, seed: Seed, startedAt: int, minutes: int)
    requires ValidRules(r) && SeatsDistinct(entrants)
    ensures Core(r, InitialState(r, entrants, seed, startedAt, minutes))
  {
    hide CardsOk, InitialDecks;
    var s := InitialState(r, entrants, seed, startedAt, minutes);
    InitialCards(r, s.players, seed);
    forall i, j | 0 <= i < j < |s.players|
      ensures s.players[i].seat != s.players[j].seat
    {
      assert entrants[i].seat != entrants[j].seat;
    }
  }

  /** The state of a game, started from any lobby, after the first `n` of any intents at any times. */
  ghost function Game(r: Rules, joined: seq<Entrant>, difficulty: Difficulty, seed: Seed, startedAt: int, minutes: int,
                      steps: seq<Step>, n: nat): (s: State)
    requires ValidRules(r) && LobbyOk(joined) && n <= |steps|
    ensures Inv(r, s)
  {
    StartHolds(r, joined, difficulty, seed, startedAt, minutes);
    After(r, InitialState(r, LineUp(joined, difficulty), seed, startedAt, minutes), steps, n)
  }

  /**
   Safety of every game: nobody's cash is negative; every owner is an active player and an unowned
   tile is bare; the phase and what is open agree; every card is in one place; an unfinished game
   has an active turn holder, two active players and an active human.
   */
  lemma EveryGameIsSafe(r: Rules, joined: seq<Entrant>, difficulty: Difficulty, seed: Seed, startedAt: int, minutes: int,
                        steps: seq<Step>, n: nat)
    requires ValidRules(r) && LobbyOk(joined) && n <= |steps|
    ensures var s := Game(r, joined, difficulty, seed, startedAt, minutes, steps, n);
            && (forall i :: 0 <= i < |s.players| ==>
                  s.players[i].cash >= 0 && s.players[i].jailCards == |s.players[i].jailCardKeys|)
            && |s.props| == |r.tiles|
            && (forall k :: 0 <= k < |s.props| ==>
                  if s.props[k].owner.Some?
                  then s.HasPlayer(s.props[k].owner.value) && !s.players[s.props[k].owner.value].bankrupt
                  else s.props[k] == BLANK)
            && (forall j, k :: 0 <= j < |s.props| && 0 <= k < |s.props| && r.SameSet(j, k) && s.props[j].mortgaged ==>
                  !s.props[k].Built())
            && (forall c: CardKey :: Places(s.players, s.decks, c) == if r.HasCard(c) then 1 else 0)
            && (s.phase == AwaitingAuction <==> s.auction.Some?)
            && (s.phase == AwaitingDebt <==> s.debt.Some?) && (s.debt.Some? ==> s.debt.value.player == s.current)
            && (s.phase == AwaitingDecision <==> s.pending.Some?)
            && (s.pending.Some? ==> r.Ownable(s.pending.value) && s.props[s.pending.value].owner.None?)
            && (s.auction.Some? ==> r.Ownable(s.auction.value.tile) && s.props[s.auction.value.tile].owner.None?)
            && (s.phase != Finished ==>
                  && s.HasPlayer(s.current) && !s.players[s.current].bankrupt
                  && |Active(s.players)| >= 2 && HumanActive(s.players))
  {
    hide Game, ValidRules;
    var s := Game(r, joined, difficulty, seed, startedAt, minutes, steps, n);
    SafetyOf(r, s);
  }

  lemma SafetyOf(r: Rules, s: State)
    requires Inv(r, s)
    ensures forall i :: 0 <= i < |s.players| ==>
              s.players[i].cash >= 0 && s.players[i].jailCards == |s.players[i].jailCardKeys|
    ensures |s.props| == |r.tiles|
    ensures forall k :: 0 <= k < |s.props| ==>
              if s.props[k].owner.Some?
              then s.HasPlayer(s.props[k].owner.value) && !s.players[s.props[k].owner.value].bankrupt
              else s.props[k] == BLANK
  {
    assert forall i :: 0 <= i < |s.players| ==> PlayerOk(r, s.players[i]);
    assert forall k :: 0 <= k < |s.props| ==> PropertyOk(r, s.players, k, s.props[k]);
  }

  /** The built sets of every game stay in order exactly as long as no carried-out trade leaves a building behind. */
  lemma EveryGameKeepsSetsIff(r: Rules, joined: seq<Entrant>, difficulty: Difficulty, seed: Seed, startedAt: int, minutes: int,
                              steps: seq<Step>, n: nat)
    requires ValidRules(r) && LobbyOk(joined) && n <= |steps|
    ensures Inv(r, InitialState(r, LineUp(joined, difficulty), seed, startedAt, minutes))
    ensures CleanRun(r, InitialState(r, LineUp(joined, difficulty), seed, startedAt, minutes), steps, n)
       <==> forall i :: 0 <= i <= n ==> InOrder(r, Game(r, joined, difficulty, seed, startedAt, minutes, steps, i))
  {
    hide Inv, InOrder, CleanRun, LineUp, After, ValidRules, InitialState;
    StartHolds(r, joined, difficulty, seed, startedAt, minutes);
    var start := InitialState(r, LineUp(joined, difficulty), seed, startedAt, minutes);
    StartInOrder(r, start);
    RunKeepsSetsIff(r, start, steps, n);
    forall i | 0 <= i <= n
      ensures InOrderAfter(r, start, steps, i) <==> InOrder(r, Game(r, joined, difficulty, seed, startedAt, minutes, steps, i))
    {}
  }

  lemma StartInOrder(r: Rules, s: State)
    requires |s.props| == |r.tiles| && SetsOk(r, s.props)
    ensures InOrder(r, s)
  {}
}
