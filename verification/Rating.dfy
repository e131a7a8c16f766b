/** Rating changes after a ranked game (game-rating.service.ts), in exact reals. */
module Rating {
  import opened Rules
  import opened State
  import opened Turns
  import opened Ranking

  const DEFAULT_K_FACTOR: nat := 32
  const MIN_RATING: int := 300

  datatype Participant = Participant(user: nat, rating: int, placement: int)

  datatype Change = Change(user: nat, placement: int, before: int, after: int, delta: int)

  /** The score the first rating is expected to take from the second: an exponential of their difference. */
  type Expectation = (int, int) -> real

  ghost predicate Fair(expected: Expectation) {
    forall a, b :: expected(a, b) >= 0.0 && expected(a, b) + expected(b, a) == 1.0
  }

  // ----- unique placements

  predicate UniquePlacements(ps: seq<Participant>, n: nat)
    requires n <= |ps|
  {
    forall i, j :: 0 <= i < j < n ==> ps[i].placement != ps[j].placement
  }

  method AssertUniquePlacements(ps: seq<Participant>) returns (ok: bool)
    ensures ok == UniquePlacements(ps, |ps|)
  {
    var placements: set<int> := {};
    for n := 0 to |ps|
      invariant UniquePlacements(ps, n)
      invariant forall x :: x in placements <==> exists i :: 0 <= i < n && ps[i].placement == x
    {
      if ps[n].placement in placements {
        return false;
      }
      placements := placements + {ps[n].placement};
    }
    return true;
  }

  predicate DistinctUsers(ps: seq<Participant>) {
    forall i, j :: 0 <= i < |ps| && 0 <= j < |ps| && i != j ==> ps[i].user != ps[j].user
  }

  // ----- the changes

  /** What participant `i` takes from `j` beyond expectation; nothing from oneself. */
  function Surplus(ps: seq<Participant>, expected: Expectation, i: nat, j: nat): (x: real)
    requires i < |ps| && j < |ps|
  {
    if ps[j].user == ps[i].user then 0.0
    else (if ps[i].placement < ps[j].placement then 1.0 else 0.0) - expected(ps[i].rating, ps[j].rating)
  }

  function Performance(ps: seq<Participant>, expected: Expectation, i: nat, n: nat): (x: real)
    requires i < |ps| && n <= |ps|
  {
    if n == 0 then 0.0 else Performance(ps, expected, i, n - 1) + Surplus(ps, expected, i, n - 1)
  }

  function Opponents(ps: seq<Participant>, i: nat, n: nat): (count: nat)
    requires i < |ps| && n <= |ps|
  {
    if n == 0 then 0 else Opponents(ps, i, n - 1) + if ps[n - 1].user == ps[i].user then 0 else 1
  }

  /** Half rounds up. */
  function Round(x: real): (n: int)
    ensures x - 0.5 < n as real <= x + 0.5
  {
    (x + 0.5).Floor
  }

  /** The unrounded change; dividing by no opponents is undefined in the program, and 0 here. */
  function RawDelta(ps: seq<Participant>, expected: Expectation, k: nat, i: nat): (x: real)
    requires i < |ps|
  {
    var opponents := Opponents(ps, i, |ps|);
    if opponents == 0 then 0.0 else k as real / opponents as real * Performance(ps, expected, i, |ps|)
  }

  function RoundedDelta(ps: seq<Participant>, expected: Expectation, k: nat, i: nat): (d: int)
    requires i < |ps|
  {
    Round(RawDelta(ps, expected, k, i))
  }

  function ChangeOf(ps: seq<Participant>, expected: Expectation, k: nat, i: nat): (c: Change)
    requires i < |ps|
  {
    var rated := ps[i].rating + RoundedDelta(ps, expected, k, i);
    var after := if rated < MIN_RATING then MIN_RATING else rated;
    Change(ps[i].user, ps[i].placement, ps[i].rating, after, after - ps[i].rating)
  }

  /** `None` where the program throws. */
  function RatingChanges(ps: seq<Participant>, expected: Expectation, k: nat): (res: Option<seq<Change>>) {
    if |ps| < 2 then Some([])
    else if !UniquePlacements(ps, |ps|) then None
    else Some(seq(|ps|, i requires 0 <= i < |ps| => ChangeOf(ps, expected, k, i)))
  }

  // ----- the raw changes sum to zero

  function Column(ps: seq<Participant>, expected: Expectation, j: nat, n: nat): (x: real)
    requires j < |ps| && n <= |ps|
  {
    if n == 0 then 0.0 else Column(ps, expected, j, n - 1) + Surplus(ps, expected, n - 1, j)
  }

  /** The first `m` performances, each over the first `n` opponents. */
  function Table(ps: seq<Participant>, expected: Expectation, m: nat, n: nat): (x: real)
    requires m <= |ps| && n <= |ps|
  {
    if m == 0 then 0.0 else Table(ps, expected, m - 1, n) + Performance(ps, expected, m - 1, n)
  }

  lemma SurplusIsOpposite(ps: seq<Participant>, expected: Expectation, i: nat, j: nat)
    requires i < |ps| && j < |ps| && Fair(expected) && UniquePlacements(ps, |ps|)
    ensures Surplus(ps, expected, i, j) == -Surplus(ps, expected, j, i)
    ensures -1.0 <= Surplus(ps, expected, i, j) <= 1.0
  {
    if i != j {
      assert ps[i].placement != ps[j].placement;
    }
    var a, b := expected(ps[i].rating, ps[j].rating), expected(ps[j].rating, ps[i].rating);
    assert a + b == 1.0 && a >= 0.0 && b >= 0.0;
  }

  lemma {:induction false} ColumnIsOppositeRow(ps: seq<Participant>, expected: Expectation, j: nat, n: nat)
    requires j < |ps| && n <= |ps| && Fair(expected) && UniquePlacements(ps, |ps|)
    ensures Column(ps, expected, j, n) == -Performance(ps, expected, j, n)
  {
    if n > 0 {
      ColumnIsOppositeRow(ps, expected, j, n - 1);
      SurplusIsOpposite(ps, expected, n - 1, j);
    }
  }

  lemma {:induction false} TableGrows(ps: seq<Participant>, expected: Expectation, m: nat, n: nat)
    requires m <= |ps| && n < |ps|
    ensures Table(ps, expected, m, n + 1) == Table(ps, expected, m, n) + Column(ps, expected, n, m)
  {
    if m > 0 {
      TableGrows(ps, expected, m - 1, n);
    }
  }

  lemma {:induction false} TableIsZero(ps: seq<Participant>, expected: Expectation, n: nat)
    requires n <= |ps| && Fair(expected) && UniquePlacements(ps, |ps|)
    ensures Table(ps, expected, n, n) == 0.0
  {
    if n > 0 {
      TableIsZero(ps, expected, n - 1);
      TableGrows(ps, expected, n, n - 1);
      ColumnIsOppositeRow(ps, expected, n - 1, n);
      SurplusIsOpposite(ps, expected, n - 1, n - 1);
    }
  }

  lemma {:induction false} OpponentsAreOthers(ps: seq<Participant>, i: nat, n: nat)
    requires i < |ps| && n <= |ps| && DistinctUsers(ps)
    ensures Opponents(ps, i, n) == if i < n then n - 1 else n
  {
    if n > 0 {
      OpponentsAreOthers(ps, i, n - 1);
    }
  }

  function RawSum(ps: seq<Participant>, expected: Expectation, k: nat, n: nat): (x: real)
    requires n <= |ps|
  {
    if n == 0 then 0.0 else RawSum(ps, expected, k, n - 1) + RawDelta(ps, expected, k, n - 1)
  }

  function RoundedSum(ps: seq<Participant>, expected: Expectation, k: nat, n: nat): (x: int)
    requires n <= |ps|
  {
    if n == 0 then 0 else RoundedSum(ps, expected, k, n - 1) + RoundedDelta(ps, expected, k, n - 1)
  }

  lemma Distribute(c: real, x: real, y: real)
    ensures c * (x + y) == c * x + c * y
  {}

  lemma {:induction false} RawSumIsTable(ps: seq<Participant>, expected: Expectation, k: nat, n: nat)
    requires n <= |ps| && |ps| >= 2 && DistinctUsers(ps)
    ensures RawSum(ps, expected, k, n) == k as real / (|ps| - 1) as real * Table(ps, expected, n, |ps|)
  {
    if n > 0 {
      RawSumIsTable(ps, expected, k, n - 1);
      OpponentsAreOthers(ps, n - 1, |ps|);
      var c := k as real / (|ps| - 1) as real;
      Distribute(c, Table(ps, expected, n - 1, |ps|), Performance(ps, expected, n - 1, |ps|));
    }
  }

  /** What one player gains the others lose: the unrounded changes sum to zero. */
  lemma RawChangesSumToZero(ps: seq<Participant>, expected: Expectation, k: nat)
    requires |ps| >= 2 && DistinctUsers(ps) && Fair(expected) && UniquePlacements(ps, |ps|)
    ensures RawSum(ps, expected, k, |ps|) == 0.0
  {
    RawSumIsTable(ps, expected, k, |ps|);
    TableIsZero(ps, expected, |ps|);
  }

  lemma {:induction false} RoundingError(ps: seq<Participant>, expected: Expectation, k: nat, n: nat)
    requires n <= |ps|
    ensures RawSum(ps, expected, k, n) - n as real / 2.0
         <= RoundedSum(ps, expected, k, n) as real
         <= RawSum(ps, expected, k, n) + n as real / 2.0
  {
    if n > 0 {
      RoundingError(ps, expected, k, n - 1);
    }
  }

  /** Rounding creates or destroys at most half a point per player. */
  lemma RoundedChangesNearlyCancel(ps: seq<Participant>, expected: Expectation, k: nat)
    requires |ps| >= 2 && DistinctUsers(ps) && Fair(expected) && UniquePlacements(ps, |ps|)
    ensures -(|ps| as int) <= 2 * RoundedSum(ps, expected, k, |ps|) <= |ps|
  {
    RawChangesSumToZero(ps, expected, k);
    RoundingError(ps, expected, k, |ps|);
  }

  // ----- no change exceeds the factor

  lemma {:induction false} PerformanceBound(ps: seq<Participant>, expected: Expectation, i: nat, n: nat)
    requires i < |ps| && n <= |ps| && Fair(expected) && UniquePlacements(ps, |ps|)
    ensures -(Opponents(ps, i, n) as real) <= Performance(ps, expected, i, n) <= Opponents(ps, i, n) as real
  {
    if n > 0 {
      PerformanceBound(ps, expected, i, n - 1);
      SurplusIsOpposite(ps, expected, i, n - 1);
    }
  }

  lemma Scaled(k: real, m: real, x: real)
    requires k >= 0.0 && m > 0.0 && -m <= x <= m
    ensures -k <= k / m * x <= k
  {
    var c := k / m;
    assert c >= 0.0 && c * m == k;
    assert c * (m - x) >= 0.0 && c * (m + x) >= 0.0;
  }

  /** A rounded change stays within the factor, and the rating after it never falls below the floor. */
  lemma ChangeWithinFactor(ps: seq<Participant>, expected: Expectation, k: nat, i: nat)
    requires i < |ps| && Fair(expected) && UniquePlacements(ps, |ps|)
    ensures -(k as int) <= RoundedDelta(ps, expected, k, i) <= k
    ensures ChangeOf(ps, expected, k, i).after >= MIN_RATING
    ensures ps[i].rating >= MIN_RATING ==> -(k as int) <= ChangeOf(ps, expected, k, i).delta <= k
  {
    var opponents := Opponents(ps, i, |ps|);
    PerformanceBound(ps, expected, i, |ps|);
    if opponents > 0 {
      Scaled(k as real, opponents as real, Performance(ps, expected, i, |ps|));
    }
    var raw := RawDelta(ps, expected, k, i);
    assert -(k as real) <= raw <= k as real;
    assert -(k as real) + 0.5 <= raw + 0.5 <= k as real + 0.5;
  }

  // ----- who gains and who loses

  /** Those among the first `n` who came in behind participant `i`. */
  function Beaten(ps: seq<Participant>, i: nat, n: nat): (beaten: set<nat>)
    requires i < |ps| && n <= |ps|
  {
    set j: nat | j < n && ps[j].placement > ps[i].placement
  }

  /** What `i` is expected to take from the others among the first `n`. */
  function Expected(ps: seq<Participant>, expected: Expectation, i: nat, n: nat): (x: real)
    requires i < |ps| && n <= |ps|
  {
    if n == 0 then 0.0
    else Expected(ps, expected, i, n - 1) + if n - 1 == i then 0.0 else expected(ps[i].rating, ps[n - 1].rating)
  }

  lemma BeatenGrows(ps: seq<Participant>, i: nat, n: nat)
    requires i < |ps| && 0 < n <= |ps|
    ensures |Beaten(ps, i, n)| == |Beaten(ps, i, n - 1)| + if ps[n - 1].placement > ps[i].placement then 1 else 0
  {
    if ps[n - 1].placement > ps[i].placement {
      assert Beaten(ps, i, n) == Beaten(ps, i, n - 1) + {n - 1};
    } else {
      assert Beaten(ps, i, n) == Beaten(ps, i, n - 1);
    }
  }

  lemma {:induction false} PerformanceIs(ps: seq<Participant>, expected: Expectation, i: nat, n: nat)
    requires i < |ps| && n <= |ps| && DistinctUsers(ps)
    ensures Performance(ps, expected, i, n) == |Beaten(ps, i, n)| as real - Expected(ps, expected, i, n)
  {
    hide Beaten;
    if n == 0 {
      NobodyBeaten(ps, i);
    } else {
      PerformanceIs(ps, expected, i, n - 1);
      BeatenGrows(ps, i, n);
    }
  }

  lemma NobodyBeaten(ps: seq<Participant>, i: nat)
    requires i < |ps|
    ensures |Beaten(ps, i, 0)| == 0
  {
    assert Beaten(ps, i, 0) == {};
  }

  /** What `i` scores beyond expectation: one point for everybody left behind, less what was expected. */
  function Score(ps: seq<Participant>, expected: Expectation, i: nat): (x: real)
    requires i < |ps|
  {
    |Beaten(ps, i, |ps|)| as real - Expected(ps, expected, i, |ps|)
  }

  lemma Quotient(k: real, m: real, x: real)
    requires m > 0.0
    ensures k / m * x * m == k * x
  {
    var c := k / m;
    assert c * m == k;
    assert c * x * m == c * m * x;
  }

  /** The unrounded change times the number of opponents is the factor times the score. */
  lemma RawDeltaIs(ps: seq<Participant>, expected: Expectation, k: nat, i: nat)
    requires i < |ps| && |ps| >= 2 && DistinctUsers(ps)
    ensures RawDelta(ps, expected, k, i) * (|ps| - 1) as real == k as real * Score(ps, expected, i)
  {
    hide Beaten, Expected;
    OpponentsAreOthers(ps, i, |ps|);
    PerformanceIs(ps, expected, i, |ps|);
    Quotient(k as real, (|ps| - 1) as real, Performance(ps, expected, i, |ps|));
  }

  /** The nearest integer, the upper one of two. */
  predicate IsRounding(raw: real, rounded: int) {
    raw - 0.5 < rounded as real <= raw + 0.5
  }

  /** `change` is the change of participant `i`: the score's share of the factor, rounded with halves up, down to the floor. */
  ghost predicate IsChange(ps: seq<Participant>, expected: Expectation, k: nat, i: nat, change: Change)
    requires i < |ps| && |ps| >= 2
  {
    && change.user == ps[i].user && change.placement == ps[i].placement && change.before == ps[i].rating
    && change.delta == change.after - change.before
    && exists raw: real, rounded: int ::
         && IsRounding(raw, rounded)
         && raw * (|ps| - 1) as real == k as real * Score(ps, expected, i)
         && change.after == if ps[i].rating + rounded < MIN_RATING then MIN_RATING else ps[i].rating + rounded
  }

  /** Fewer than two participants give no changes, equal placements are refused, and else each gets the change due. */
  lemma RatingOutcome(ps: seq<Participant>, expected: Expectation, k: nat)
    requires DistinctUsers(ps)
    ensures var res := RatingChanges(ps, expected, k);
            if |ps| < 2 then res == Some([])
            else if !UniquePlacements(ps, |ps|) then res.None?
            else res.Some? && |res.value| == |ps| && forall i :: 0 <= i < |ps| ==> IsChange(ps, expected, k, i, res.value[i])
  {
    hide Score, RawDelta;
    if |ps| >= 2 && UniquePlacements(ps, |ps|) {
      forall i | 0 <= i < |ps|
        ensures IsChange(ps, expected, k, i, ChangeOf(ps, expected, k, i))
      {
        RawDeltaIs(ps, expected, k, i);
        var raw, rounded := RawDelta(ps, expected, k, i), RoundedDelta(ps, expected, k, i);
        assert IsRounding(raw, rounded);
      }
    }
  }

  lemma {:induction false} ExpectedRange(ps: seq<Participant>, expected: Expectation, i: nat, n: nat)
    requires i < |ps| && n <= |ps| && Fair(expected)
    ensures 0.0 <= Expected(ps, expected, i, n) <= (if i < n then n - 1 else n) as real
  {
    if n > 0 {
      ExpectedRange(ps, expected, i, n - 1);
      var a, b := expected(ps[i].rating, ps[n - 1].rating), expected(ps[n - 1].rating, ps[i].rating);
      assert a + b == 1.0 && a >= 0.0 && b >= 0.0;
    }
  }

  predicate ComesFirst(ps: seq<Participant>, i: nat)
    requires i < |ps|
  {
    forall j :: 0 <= j < |ps| && j != i ==> ps[i].placement < ps[j].placement
  }

  predicate ComesLast(ps: seq<Participant>, i: nat)
    requires i < |ps|
  {
    forall j :: 0 <= j < |ps| && j != i ==> ps[j].placement < ps[i].placement
  }

  lemma {:induction false} AllBeaten(ps: seq<Participant>, i: nat, n: nat)
    requires i < |ps| && n <= |ps| && ComesFirst(ps, i)
    ensures |Beaten(ps, i, n)| == if i < n then n - 1 else n
  {
    hide Beaten;
    if n == 0 {
      NobodyBeaten(ps, i);
    } else {
      AllBeaten(ps, i, n - 1);
      BeatenGrows(ps, i, n);
    }
  }

  lemma {:induction false} NoneBeaten(ps: seq<Participant>, i: nat, n: nat)
    requires i < |ps| && n <= |ps| && ComesLast(ps, i)
    ensures |Beaten(ps, i, n)| == 0
  {
    hide Beaten;
    if n == 0 {
      NobodyBeaten(ps, i);
    } else {
      NoneBeaten(ps, i, n - 1);
      BeatenGrows(ps, i, n);
    }
  }

  lemma ProductSign(a: real, m: real)
    requires m > 0.0
    ensures a > 0.0 ==> a * m > 0.0
    ensures a < 0.0 ==> a * m < 0.0
  {}

  lemma ScaledSign(k: real, x: real)
    requires k >= 0.0
    ensures x >= 0.0 ==> k * x >= 0.0
    ensures x <= 0.0 ==> k * x <= 0.0
  {}

  lemma SameSign(raw: real, m: real, k: real, score: real)
    requires m > 0.0 && k >= 0.0 && raw * m == k * score
    ensures score >= 0.0 ==> raw >= 0.0
    ensures score <= 0.0 ==> raw <= 0.0
  {
    ProductSign(raw, m);
    ScaledSign(k, score);
  }

  /** Whoever comes first never loses rating, and whoever comes last never gains any. */
  lemma FirstAndLast(ps: seq<Participant>, expected: Expectation, k: nat, i: nat)
    requires i < |ps| && |ps| >= 2 && DistinctUsers(ps) && Fair(expected) && UniquePlacements(ps, |ps|)
    ensures RatingChanges(ps, expected, k).Some? && |RatingChanges(ps, expected, k).value| == |ps|
    ensures var change := RatingChanges(ps, expected, k).value[i];
            && (ComesFirst(ps, i) ==> change.delta >= 0)
            && (ComesLast(ps, i) && ps[i].rating >= MIN_RATING ==> change.delta <= 0)
  {
    hide RawDelta, Beaten, Expected;
    RawDeltaIs(ps, expected, k, i);
    ExpectedRange(ps, expected, i, |ps|);
    SameSign(RawDelta(ps, expected, k, i), (|ps| - 1) as real, k as real, Score(ps, expected, i));
    if ComesFirst(ps, i) {
      AllBeaten(ps, i, |ps|);
    }
    if ComesLast(ps, i) {
      NoneBeaten(ps, i, |ps|);
    }
  }

  lemma {:induction false} SameExpectation(ps: seq<Participant>, expected: Expectation, i: nat, j: nat, n: nat)
    requires i < |ps| && j < |ps| && n <= |ps| && ps[i].rating == ps[j].rating && Fair(expected)
    ensures var own := expected(ps[i].rating, ps[i].rating);
            Expected(ps, expected, i, n) + (if i < n then own else 0.0) == Expected(ps, expected, j, n) + (if j < n then own else 0.0)
  {
    if n > 0 {
      SameExpectation(ps, expected, i, j, n - 1);
    }
  }

  lemma MoreBeaten(ps: seq<Participant>, i: nat, j: nat)
    requires i < |ps| && j < |ps| && ps[i].placement < ps[j].placement
    ensures |Beaten(ps, i, |ps|)| > |Beaten(ps, j, |ps|)|
  {
    var a, b := Beaten(ps, i, |ps|), Beaten(ps, j, |ps|);
    assert j in a && j !in b && b <= a;
    Subset(b + {j}, a);
  }

  lemma {:induction false} Subset(b: set<nat>, a: set<nat>)
    requires b <= a
    ensures |b| <= |a|
  {
    assert a == b + (a - b);
  }

  lemma Greater(a: real, b: real, m: real, k: real, x: real, y: real)
    requires m > 0.0 && k > 0.0 && a * m == k * x && b * m == k * y && x > y
    ensures a > b
  {
    ProductSign(x - y, k);
    assert (a - b) * m == (x - y) * k;
    ProductSign(a - b, m);
  }

  /** Among equally rated participants the better placed one gains more before rounding, and never ends up lower. */
  lemma BetterPlacedGainsMore(ps: seq<Participant>, expected: Expectation, k: nat, i: nat, j: nat)
    requires i < |ps| && j < |ps| && |ps| >= 2 && k > 0 && DistinctUsers(ps) && Fair(expected) && UniquePlacements(ps, |ps|)
    requires ps[i].rating == ps[j].rating && ps[i].placement < ps[j].placement
    ensures RawDelta(ps, expected, k, i) > RawDelta(ps, expected, k, j)
    ensures RatingChanges(ps, expected, k).Some? && |RatingChanges(ps, expected, k).value| == |ps|
    ensures RatingChanges(ps, expected, k).value[i].after >= RatingChanges(ps, expected, k).value[j].after
  {
    hide RawDelta, Beaten, Expected;
    RawDeltaIs(ps, expected, k, i);
    RawDeltaIs(ps, expected, k, j);
    SameExpectation(ps, expected, i, j, |ps|);
    MoreBeaten(ps, i, j);
    Greater(RawDelta(ps, expected, k, i), RawDelta(ps, expected, k, j), (|ps| - 1) as real, k as real,
            Score(ps, expected, i), Score(ps, expected, j));
  }

  // ----- ranked games are always rated

  /** The participants of a finished game, with the placements of its results. */
  function ParticipantsOf(r: Rules, s: State, ratings: seq<int>): (ps: seq<Participant>)
    requires |s.props| == |r.tiles| && |ratings| == |s.players|
  {
    seq(|s.players|, i requires 0 <= i < |s.players| => Participant(i, ratings[i], Placement(r, s, i)))
  }

  /** The placements of the results never trip the uniqueness check. */
  lemma ResultsAreRated(r: Rules, s: State, ratings: seq<int>, expected: Expectation, k: nat)
    requires |s.props| == |r.tiles| && |ratings| == |s.players| && DistinctSeats(s.players)
    ensures RatingChanges(ParticipantsOf(r, s, ratings), expected, k).Some?
  {
    hide FinalBefore, Placement;
    PlacementsAreExact(r, s);
  }
}
