/**
 The rate limiter (rate-limit.service.ts): a sliding window and a token bucket over keys that expire.
 Token counts are exact reals, and one clock serves both the requests and the expiry of keys.
 */
module RateLimit {
  import opened Rules

  datatype Limits = Limits(window: nat, limit: nat, capacity: nat)
  {
    /** What `consume` demands of its configuration. */
    predicate Valid() { window > 0 && limit > 0 && capacity > 0 }

    function Refill(): (x: real)
      requires Valid()
      ensures x > 0.0
    {
      limit as real / window as real
    }

    function BucketTtl(): (ms: int)
      requires Valid()
      ensures ms >= window && ms as real >= capacity as real / Refill() * 2.0
    {
      var full := Ceil(capacity as real / Refill() * 2.0);
      if full < window then window else full
    }
  }

  function Ceil(x: real): (n: int)
    ensures x <= n as real < x + 1.0
  {
    if x.Floor as real == x then x.Floor else x.Floor + 1
  }

  datatype Reply = Reply(allowed: bool, count: nat, retryAfterSeconds: int)

  function Seconds(ms: real): (n: int) {
    Ceil(ms / 1000.0)
  }

  function Max(a: int, b: int): (m: int) {
    if a < b then b else a
  }

  function Cap(x: real, most: real): (m: real)
    ensures m <= x && m <= most && (m == x || m == most)
  {
    if x < most then x else most
  }

  /** ZREMRANGEBYSCORE on a set kept in order of score: the entries up to `cutoff` go. */
  function DropOld(scores: seq<int>, cutoff: int): (kept: seq<int>) {
    if |scores| > 0 && scores[0] <= cutoff then DropOld(scores[1..], cutoff) else scores
  }

  /** What goes is a prefix of old entries. */
  lemma {:induction false} DropsPrefix(scores: seq<int>, cutoff: int)
    ensures var kept := DropOld(scores, cutoff);
            && |kept| <= |scores| && kept == scores[|scores| - |kept|..]
            && (forall i :: 0 <= i < |scores| - |kept| ==> scores[i] <= cutoff)
            && (|kept| > 0 ==> kept[0] > cutoff)
  {
    if |scores| > 0 && scores[0] <= cutoff {
      DropsPrefix(scores[1..], cutoff);
      var kept := DropOld(scores[1..], cutoff);
      assert forall i :: 1 <= i < |scores| - |kept| ==> scores[i] == scores[1..][i - 1];
    }
  }

  // ----- decisions, given what is in the window and in the bucket

  function WindowReply(p: Limits, now: int, recent: seq<int>): (reply: Reply) {
    Reply(false, |recent|, Seconds((if |recent| > 0 then Max(0, recent[0] + p.window - now) else p.window) as real))
  }

  function BucketReply(p: Limits, tokens: real, recent: seq<int>): (reply: Reply)
    requires p.Valid()
  {
    Reply(false, |recent|, Seconds(Ceil((1.0 - tokens) / p.Refill()) as real))
  }

  // ----- the reference: the whole history is kept for ever

  /** Every admission time so far, and the bucket's level at its last update. */
  datatype History = History(admitted: seq<int>, bucket: Option<(real, int)>)

  function Recent(p: Limits, h: History, now: int): (scores: seq<int>) {
    DropOld(h.admitted, now - p.window)
  }

  function Level(p: Limits, h: History, now: int): (tokens: real)
    requires p.Valid()
  {
    if h.bucket.None? then p.capacity as real
    else Cap(h.bucket.value.0 + Max(0, now - h.bucket.value.1) as real * p.Refill(), p.capacity as real)
  }

  function Decide(p: Limits, h: History, now: int): (d: (History, Reply))
    requires p.Valid()
  {
    var recent := Recent(p, h, now);
    var tokens := Level(p, h, now);
    if |recent| >= p.limit then (h, WindowReply(p, now, recent))
    else if tokens < 1.0 then (h.(bucket := Some((tokens, now))), BucketReply(p, tokens, recent))
    else (History(h.admitted + [now], Some((tokens - 1.0, now))), Reply(true, |recent| + 1, 0))
  }

  // ----- the script: keys with an expiry time

  datatype Keyed<T> = Gone | Key(value: T, expiry: int)
  {
    predicate Live(now: int) { Key? && now < expiry }
  }

  datatype Keys = Keys(sliding: Keyed<seq<int>>, tokens: Keyed<real>, stamp: Keyed<int>)

  function LiveScores(sliding: Keyed<seq<int>>, now: int): (scores: seq<int>) {
    if sliding.Live(now) then sliding.value else []
  }

  /** A sorted set without members is no key at all. */
  function ScoresKey(scores: seq<int>, expiry: int): (key: Keyed<seq<int>>) {
    if |scores| == 0 then Gone else Key(scores, expiry)
  }

  function LiveLevel(p: Limits, tokens: Keyed<real>, stamp: Keyed<int>, now: int): (level: real)
    requires p.Valid()
  {
    var held := if tokens.Live(now) then tokens.value else p.capacity as real;
    var last := if stamp.Live(now) then stamp.value else now;
    Cap(held + Max(0, now - last) as real * p.Refill(), p.capacity as real)
  }

  function Script(p: Limits, k: Keys, now: int): (d: (Keys, Reply))
    requires p.Valid()
  {
    var recent := DropOld(LiveScores(k.sliding, now), now - p.window);
    var tokens := LiveLevel(p, k.tokens, k.stamp, now);
    var expiry := now + p.BucketTtl();
    if |recent| >= p.limit then
      (k.(sliding := ScoresKey(recent, now + p.window)), WindowReply(p, now, recent))
    else if tokens < 1.0 then
      (Keys(ScoresKey(recent, now + p.window), Key(tokens, expiry), Key(now, expiry)), BucketReply(p, tokens, recent))
    else
      (Keys(ScoresKey(recent + [now], now + p.window), Key(tokens - 1.0, expiry), Key(now, expiry)),
       Reply(true, |recent| + 1, 0))
  }

  /** The three keys of one identifier, changed in place by the script. */
  class LimiterKeys {
    var sliding: Keyed<seq<int>>
    var tokens: Keyed<real>
    var stamp: Keyed<int>

    function Snapshot(): (k: Keys)
      reads this
    {
      Keys(sliding, tokens, stamp)
    }

    constructor ()
      ensures Snapshot() == Keys(Gone, Gone, Gone)
    {
      sliding, tokens, stamp := Gone, Gone, Gone;
    }

    method Consume(p: Limits, now: int) returns (reply: Reply)
      requires p.Valid()
      modifies this
      ensures (Snapshot(), reply) == Script(p, old(Snapshot()), now)
    {
      hide LiveLevel, LiveScores, DropOld, WindowReply, BucketReply, ScoresKey;
      var scores := DropOld(LiveScores(sliding, now), now - p.window);
      var count := |scores|;
      sliding := ScoresKey(scores, now + p.window);
      if count >= p.limit {
        reply := WindowReply(p, now, scores);
        return;
      }
      var level := LiveLevel(p, tokens, stamp, now);
      var expiry := now + p.BucketTtl();
      if level < 1.0 {
        tokens := Key(level, expiry);
        stamp := Key(now, expiry);
        reply := BucketReply(p, level, scores);
        return;
      }
      level := level - 1.0;
      sliding := ScoresKey(scores + [now], now + p.window);
      tokens := Key(level, expiry);
      stamp := Key(now, expiry);
      reply := Reply(true, count + 1, 0);
    }
  }

  // ----- expiry is unobservable

  predicate NonDecreasing(times: seq<int>) {
    forall i, j :: 0 <= i < j < |times| ==> times[i] <= times[j]
  }

  lemma {:induction false} DropOldSuffix(scores: seq<int>, k: nat, cutoff: int)
    requires k <= |scores| && forall i :: 0 <= i < k ==> scores[i] <= cutoff
    ensures DropOld(scores[k..], cutoff) == DropOld(scores, cutoff)
  {
    if k > 0 {
      DropOldSuffix(scores[1..], k - 1, cutoff);
      assert scores[1..][k - 1..] == scores[k..];
    } else {
      assert scores[0..] == scores;
    }
  }

  /** The keys hold what the history still needs at or after time `at`. */
  predicate Holds(p: Limits, k: Keys, h: History, at: int)
    requires p.Valid()
  {
    SlidingHolds(p, k.sliding, h.admitted, at) && BucketHolds(p, k, h.bucket, at)
  }

  predicate UpTo(times: seq<int>, at: int) {
    forall i :: 0 <= i < |times| ==> times[i] <= at
  }

  predicate SlidingHolds(p: Limits, sliding: Keyed<seq<int>>, admitted: seq<int>, at: int) {
    var scores := if sliding.Key? then sliding.value else [];
    && UpTo(admitted, at)
    && |scores| <= |admitted| && scores == admitted[|admitted| - |scores|..]
    && UpTo(admitted[..|admitted| - |scores|], at - p.window)
    && (sliding.Key? ==> UpTo(admitted, sliding.expiry - p.window))
  }

  predicate BucketHolds(p: Limits, k: Keys, bucket: Option<(real, int)>, at: int)
    requires p.Valid()
  {
    match bucket
    case None => k.tokens.Gone? && k.stamp.Gone?
    case Some(b) =>
      && 0.0 <= b.0 <= p.capacity as real && b.1 <= at
      && k.tokens == Key(b.0, b.1 + p.BucketTtl()) && k.stamp == Key(b.1, b.1 + p.BucketTtl())
  }

  /** What the window still needs is a suffix of the history, live or not. */
  lemma KeptSuffix(p: Limits, sliding: Keyed<seq<int>>, admitted: seq<int>, at: int, now: int)
    requires SlidingHolds(p, sliding, admitted, at) && at <= now
    ensures DropOld(LiveScores(sliding, now), now - p.window) == DropOld(admitted, now - p.window)
  {
    hide DropOld, UpTo;
    var n := |admitted|;
    if sliding.Live(now) {
      PrefixIsOld(admitted, n - |sliding.value|, at - p.window, now - p.window);
    } else if sliding.Key? {
      AllOld(admitted, sliding.expiry - p.window, now - p.window);
    } else {
      assert admitted[..n] == admitted;
      AllOld(admitted, at - p.window, now - p.window);
    }
  }

  lemma AllOld(scores: seq<int>, at: int, cutoff: int)
    requires UpTo(scores, at) && at <= cutoff
    ensures DropOld([], cutoff) == DropOld(scores, cutoff)
  {
    hide DropOld;
    assert scores[|scores|..] == [];
    DropOldSuffix(scores, |scores|, cutoff);
  }

  lemma SameRecent(p: Limits, k: Keys, h: History, at: int, now: int)
    requires SlidingHolds(p, k.sliding, h.admitted, at) && at <= now
    ensures DropOld(LiveScores(k.sliding, now), now - p.window) == Recent(p, h, now)
  {
    hide SlidingHolds, DropOld;
    KeptSuffix(p, k.sliding, h.admitted, at, now);
  }

  lemma PrefixIsOld(scores: seq<int>, k: nat, at: int, cutoff: int)
    requires k <= |scores| && UpTo(scores[..k], at) && at <= cutoff
    ensures DropOld(scores[k..], cutoff) == DropOld(scores, cutoff)
  {
    hide DropOld;
    assert forall i :: 0 <= i < k ==> scores[i] == scores[..k][i];
    DropOldSuffix(scores, k, cutoff);
  }

  lemma Refills(p: Limits, elapsed: int)
    requires p.Valid() && elapsed >= p.BucketTtl()
    ensures elapsed as real * p.Refill() >= p.capacity as real
  {
    hide Limits.Refill;
    FillTime(p.capacity as real, p.Refill());
    Scale(elapsed as real, p.capacity as real / p.Refill(), p.Refill());
  }

  lemma FillTime(c: real, f: real)
    requires c >= 0.0 && f > 0.0
    ensures c / f >= 0.0 && c / f * f == c
  {}

  lemma Scale(a: real, b: real, f: real)
    requires a >= b && f >= 0.0
    ensures a * f >= b * f
  {}

  lemma SameLevel(p: Limits, k: Keys, bucket: Option<(real, int)>, h: History, at: int, now: int)
    requires p.Valid() && BucketHolds(p, k, bucket, at) && h.bucket == bucket && at <= now
    ensures LiveLevel(p, k.tokens, k.stamp, now) == Level(p, h, now)
    ensures 0.0 <= Level(p, h, now) <= p.capacity as real
  {
    hide Limits.Refill, Limits.BucketTtl;
    if bucket.None? {
      NoRefill(p);
    } else {
      var elapsed := now - bucket.value.1;
      Scale(elapsed as real, 0.0, p.Refill());
      if elapsed >= p.BucketTtl() {
        NoRefill(p);
        Refills(p, elapsed);
      }
    }
  }

  lemma NoRefill(p: Limits)
    requires p.Valid()
    ensures 0 as real * p.Refill() == 0.0
  {
    hide Limits.Refill;
  }

  lemma SuffixHolds(p: Limits, admitted: seq<int>, k: nat, now: int)
    requires k <= |admitted| && UpTo(admitted, now) && UpTo(admitted[..k], now - p.window)
    ensures SlidingHolds(p, ScoresKey(admitted[k..], now + p.window), admitted, now)
  {
    hide UpTo;
    assert |admitted[k..]| == |admitted| - k;
  }

  lemma SlidingKept(p: Limits, h: History, now: int)
    requires UpTo(h.admitted, now)
    ensures var recent := Recent(p, h, now);
            && SlidingHolds(p, ScoresKey(recent, now + p.window), h.admitted, now)
            && SlidingHolds(p, ScoresKey(recent + [now], now + p.window), h.admitted + [now], now)
  {
    hide DropOld, SlidingHolds;
    var recent, n := Recent(p, h, now), |h.admitted|;
    DropsPrefix(h.admitted, now - p.window);
    var k := n - |recent|;
    SuffixHolds(p, h.admitted, k, now);
    assert recent + [now] == (h.admitted + [now])[k..];
    assert (h.admitted + [now])[..k] == h.admitted[..k];
    SuffixHolds(p, h.admitted + [now], k, now);
  }

  /** One request: the same reply, and the keys again hold what the history needs. */
  lemma ScriptRefines(p: Limits, k: Keys, h: History, at: int, now: int)
    requires p.Valid() && Holds(p, k, h, at) && at <= now
    ensures var (k', reply), (h', expected) := Script(p, k, now), Decide(p, h, now);
            reply == expected && Holds(p, k', h', now)
  {
    hide Limits.Refill, Limits.BucketTtl, Level, LiveLevel, LiveScores, Recent, DropOld, SlidingHolds, ScoresKey, WindowReply, BucketReply;
    SameRecent(p, k, h, at, now);
    SameLevel(p, k, h.bucket, h, at, now);
    AllUpTo(p, k, h, at, now);
    SlidingKept(p, h, now);
  }

  lemma AllUpTo(p: Limits, k: Keys, h: History, at: int, now: int)
    requires SlidingHolds(p, k.sliding, h.admitted, at) && at <= now
    ensures UpTo(h.admitted, now)
  {}

  function ScriptRun(p: Limits, times: seq<int>, n: nat): (k: Keys)
    requires p.Valid() && n <= |times|
  {
    if n == 0 then Keys(Gone, Gone, Gone) else Script(p, ScriptRun(p, times, n - 1), times[n - 1]).0
  }

  function HistoryRun(p: Limits, times: seq<int>, n: nat): (h: History)
    requires p.Valid() && n <= |times|
  {
    if n == 0 then History([], None) else Decide(p, HistoryRun(p, times, n - 1), times[n - 1]).0
  }

  lemma {:induction false} RunsHold(p: Limits, times: seq<int>, n: nat, at: int)
    requires p.Valid() && n <= |times| && NonDecreasing(times) && forall i :: 0 <= i < n ==> times[i] <= at
    ensures Holds(p, ScriptRun(p, times, n), HistoryRun(p, times, n), at)
  {
    hide Script, Decide;
    if n > 0 {
      RunsHold(p, times, n - 1, times[n - 1]);
      ScriptRefines(p, ScriptRun(p, times, n - 1), HistoryRun(p, times, n - 1), times[n - 1], times[n - 1]);
      HoldsLater(p, ScriptRun(p, times, n), HistoryRun(p, times, n), times[n - 1], at);
    }
  }

  lemma HoldsLater(p: Limits, k: Keys, h: History, at: int, later: int)
    requires p.Valid() && Holds(p, k, h, at) && at <= later
    ensures Holds(p, k, h, later)
  {}

  /** Request by request, the script answers as if nothing ever expired or was removed. */
  lemma ExpiryIsUnobservable(p: Limits, times: seq<int>, n: nat)
    requires p.Valid() && n < |times| && NonDecreasing(times)
    ensures Script(p, ScriptRun(p, times, n), times[n]).1 == Decide(p, HistoryRun(p, times, n), times[n]).1
  {
    hide Script, Decide;
    RunsHold(p, times, n, times[n]);
    ScriptRefines(p, ScriptRun(p, times, n), HistoryRun(p, times, n), times[n], times[n]);
  }

  // ----- how much is admitted

  /** Admissions `i` to `j` within less than a window are at most `limit`. */
  predicate WindowPairs(p: Limits, admitted: seq<int>) {
    forall i, j :: 0 <= i <= j < |admitted| && admitted[j] - admitted[i] < p.window ==> j - i + 1 <= p.limit
  }

  predicate BurstPair(p: Limits, admitted: seq<int>, i: nat, j: nat)
    requires p.Valid() && i <= j < |admitted|
  {
    (j - i + 1) as real <= p.capacity as real + (admitted[j] - admitted[i]) as real * p.Refill()
  }

  /** Admissions `i` to `j` are at most the burst plus what was refilled between them. */
  predicate BurstPairs(p: Limits, admitted: seq<int>)
    requires p.Valid()
  {
    forall i, j :: 0 <= i <= j < |admitted| ==> BurstPair(p, admitted, i, j)
  }

  /** The bucket at `at` holds no more than the burst plus the refill since admission `i`, less what was taken. */
  predicate Spent(p: Limits, h: History, i: nat)
    requires p.Valid() && i < |h.admitted|
  {
    && h.bucket.Some?
    && h.bucket.value.0 + (|h.admitted| - i) as real
       <= p.capacity as real + (h.bucket.value.1 - h.admitted[i]) as real * p.Refill()
  }

  predicate Within(p: Limits, h: History, at: int)
    requires p.Valid()
  {
    && NonDecreasing(h.admitted) && UpTo(h.admitted, at)
    && (h.bucket.Some? ==> 0.0 <= h.bucket.value.0 <= p.capacity as real && h.bucket.value.1 <= at)
    && WindowPairs(p, h.admitted) && BurstPairs(p, h.admitted)
    && (forall i :: 0 <= i < |h.admitted| ==> Spent(p, h, i))
  }

  lemma WindowExtends(p: Limits, h: History, now: int)
    requires WindowPairs(p, h.admitted) && NonDecreasing(h.admitted) && UpTo(h.admitted, now) && |Recent(p, h, now)| < p.limit
    ensures WindowPairs(p, h.admitted + [now]) && NonDecreasing(h.admitted + [now]) && UpTo(h.admitted + [now], now)
  {
    hide DropOld;
    DropsPrefix(h.admitted, now - p.window);
  }

  lemma Product(a: int, b: int, f: real)
    ensures a as real * f + b as real * f == (a + b) as real * f
  {}

  /** Refilling up to `now` adds at most the elapsed time's worth. */
  lemma LevelGrowth(p: Limits, h: History, now: int)
    requires p.Valid() && h.bucket.Some? && h.bucket.value.1 <= now && 0.0 <= h.bucket.value.0
    ensures 0.0 <= Level(p, h, now) <= p.capacity as real
    ensures Level(p, h, now) <= h.bucket.value.0 + (now - h.bucket.value.1) as real * p.Refill()
  {
    hide Limits.Refill;
    Scale((now - h.bucket.value.1) as real, 0.0, p.Refill());
  }

  lemma SpentLater(p: Limits, h: History, now: int, i: nat)
    requires p.Valid() && i < |h.admitted| && Spent(p, h, i) && h.bucket.value.1 <= now && 0.0 <= h.bucket.value.0
    ensures Level(p, h, now) + (|h.admitted| - i) as real <= p.capacity as real + (now - h.admitted[i]) as real * p.Refill()
  {
    hide Limits.Refill, Level;
    LevelGrowth(p, h, now);
    Product(now - h.bucket.value.1, h.bucket.value.1 - h.admitted[i], p.Refill());
  }

  lemma DecideKeeps(p: Limits, h: History, at: int, now: int)
    requires p.Valid() && Within(p, h, at) && at <= now
    ensures Within(p, Decide(p, h, now).0, now)
  {
    hide Limits.Refill, Level, Recent, WindowReply, BucketReply, WindowPairs, NonDecreasing;
    var h' := Decide(p, h, now).0;
    assert UpTo(h.admitted, now);
    LevelRange(p, h, now);
    forall i | 0 <= i < |h.admitted|
      ensures Level(p, h, now) + (|h.admitted| - i) as real <= p.capacity as real + (now - h.admitted[i]) as real * p.Refill()
    {
      assert Spent(p, h, i);
      SpentLater(p, h, now, i);
    }
    if h'.admitted != h.admitted {
      WindowExtends(p, h, now);
      AdmissionSpent(p, h, now);
    }
  }

  lemma LevelRange(p: Limits, h: History, now: int)
    requires p.Valid() && (h.bucket.Some? ==> 0.0 <= h.bucket.value.0 && h.bucket.value.1 <= now)
    ensures 0.0 <= Level(p, h, now) <= p.capacity as real
  {
    hide Limits.Refill;
    if h.bucket.Some? {
      LevelGrowth(p, h, now);
    }
  }

  lemma AdmissionSpent(p: Limits, h: History, now: int)
    requires p.Valid() && BurstPairs(p, h.admitted) && 1.0 <= Level(p, h, now) <= p.capacity as real
    requires forall i :: 0 <= i < |h.admitted| ==>
               Level(p, h, now) + (|h.admitted| - i) as real <= p.capacity as real + (now - h.admitted[i]) as real * p.Refill()
    ensures var h' := History(h.admitted + [now], Some((Level(p, h, now) - 1.0, now)));
            BurstPairs(p, h'.admitted) && forall i :: 0 <= i < |h'.admitted| ==> Spent(p, h', i)
  {
    hide Limits.Refill, Level;
    var h' := History(h.admitted + [now], Some((Level(p, h, now) - 1.0, now)));
    forall i | 0 <= i < |h'.admitted|
      ensures Spent(p, h', i) && BurstPair(p, h'.admitted, i, |h.admitted|)
    {
      if i < |h.admitted| {
        assert h'.admitted[i] == h.admitted[i];
      } else {
        Zero(p.Refill());
      }
    }
    forall i, j | 0 <= i <= j < |h.admitted|
      ensures BurstPair(p, h'.admitted, i, j)
    {
      assert BurstPair(p, h.admitted, i, j);
    }
  }

  lemma Zero(f: real)
    ensures 0 as real * f == 0.0
  {}

  lemma {:induction false} RunWithin(p: Limits, times: seq<int>, n: nat, at: int)
    requires p.Valid() && n <= |times| && NonDecreasing(times) && forall i :: 0 <= i < n ==> times[i] <= at
    ensures Within(p, HistoryRun(p, times, n), at)
  {
    hide Decide, Spent;
    if n > 0 {
      RunWithin(p, times, n - 1, times[n - 1]);
      DecideKeeps(p, HistoryRun(p, times, n - 1), times[n - 1], times[n - 1]);
    }
  }

  /** Admissions after `lo` and not after `hi`. */
  function Count(admitted: seq<int>, lo: int, hi: int, n: nat): (count: nat)
    requires n <= |admitted|
  {
    if n == 0 then 0 else Count(admitted, lo, hi, n - 1) + if lo < admitted[n - 1] <= hi then 1 else 0
  }

  lemma {:induction false} CountSpan(admitted: seq<int>, lo: int, hi: int, n: nat) returns (i: nat, j: nat)
    requires n <= |admitted| && Count(admitted, lo, hi, n) > 0
    ensures i <= j < n && lo < admitted[i] && admitted[j] <= hi && Count(admitted, lo, hi, n) <= j - i + 1
  {
    if lo < admitted[n - 1] <= hi {
      i, j := n - 1, n - 1;
      if Count(admitted, lo, hi, n - 1) > 0 {
        i, j := CountSpan(admitted, lo, hi, n - 1);
        j := n - 1;
      }
    } else {
      i, j := CountSpan(admitted, lo, hi, n - 1);
    }
  }

  /** The times at which the script let a request through. */
  function Allowed(p: Limits, times: seq<int>, n: nat): (admitted: seq<int>)
    requires p.Valid() && n <= |times|
  {
    if n == 0 then []
    else Allowed(p, times, n - 1) + if Script(p, ScriptRun(p, times, n - 1), times[n - 1]).1.allowed then [times[n - 1]] else []
  }

  lemma {:induction false} AllowedIsHistory(p: Limits, times: seq<int>, n: nat)
    requires p.Valid() && n <= |times| && NonDecreasing(times)
    ensures Allowed(p, times, n) == HistoryRun(p, times, n).admitted
  {
    hide Script, Decide;
    if n > 0 {
      AllowedIsHistory(p, times, n - 1);
      ExpiryIsUnobservable(p, times, n - 1);
      DecideAdmits(p, HistoryRun(p, times, n - 1), times[n - 1]);
    }
  }

  lemma DecideAdmits(p: Limits, h: History, now: int)
    requires p.Valid()
    ensures var (h', reply) := Decide(p, h, now); h'.admitted == h.admitted + if reply.allowed then [now] else []
  {
    hide Limits.Refill, Level, Recent;
  }

  /**
   Under non-decreasing time, every window admits at most `limit` requests, and every interval admits
   at most the burst plus its length times the refill rate.
   */
  lemma AdmissionsBounded(p: Limits, times: seq<int>, lo: int, hi: int)
    requires p.Valid() && NonDecreasing(times) && lo <= hi
    ensures var admitted := Allowed(p, times, |times|);
            && Count(admitted, hi - p.window, hi, |admitted|) <= p.limit
            && Count(admitted, lo - 1, hi, |admitted|) as real <= p.capacity as real + (hi - lo) as real * p.Refill()
  {
    hide Limits.Refill, HistoryRun, Allowed, Spent, WindowPairs, BurstPairs, Count;
    AllowedIsHistory(p, times, |times|);
    RunWithin(p, times, |times|, if |times| > 0 then times[|times| - 1] else 0);
    WindowCount(p, HistoryRun(p, times, |times|).admitted, hi);
    BurstCount(p, HistoryRun(p, times, |times|).admitted, lo, hi);
  }

  lemma WindowCount(p: Limits, admitted: seq<int>, hi: int)
    requires WindowPairs(p, admitted)
    ensures Count(admitted, hi - p.window, hi, |admitted|) <= p.limit
  {
    hide Count;
    if Count(admitted, hi - p.window, hi, |admitted|) > 0 {
      var i, j := CountSpan(admitted, hi - p.window, hi, |admitted|);
    }
  }

  lemma BurstCount(p: Limits, admitted: seq<int>, lo: int, hi: int)
    requires p.Valid() && lo <= hi && BurstPairs(p, admitted)
    ensures Count(admitted, lo - 1, hi, |admitted|) as real <= p.capacity as real + (hi - lo) as real * p.Refill()
  {
    hide Limits.Refill, Count;
    Scale((hi - lo) as real, 0.0, p.Refill());
    if Count(admitted, lo - 1, hi, |admitted|) > 0 {
      var i, j := CountSpan(admitted, lo - 1, hi, |admitted|);
      assert BurstPair(p, admitted, i, j);
      Scale((hi - lo) as real, (admitted[j] - admitted[i]) as real, p.Refill());
    }
  }

  // ----- nothing lawful is refused

  /** The bucket, read at its last update, is full or holds exactly what some admission since then leaves of the burst. */
  predicate Tight(p: Limits, h: History)
    requires p.Valid()
  {
    h.bucket.Some? ==> LevelIsTight(p, h.admitted, h.bucket.value.0, h.bucket.value.1)
  }

  predicate LevelIsTight(p: Limits, admitted: seq<int>, level: real, at: int)
    requires p.Valid()
  {
    level == p.capacity as real || exists i :: 0 <= i < |admitted| && LeftSince(p, admitted, level, at, i)
  }

  predicate LeftSince(p: Limits, admitted: seq<int>, level: real, at: int, i: nat)
    requires p.Valid() && i < |admitted|
  {
    level + (|admitted| - i) as real == p.capacity as real + (at - admitted[i]) as real * p.Refill()
  }

  lemma TightLevel(p: Limits, h: History, at: int, now: int)
    requires p.Valid() && Within(p, h, at) && Tight(p, h) && at <= now
    ensures LevelIsTight(p, h.admitted, Level(p, h, now), now)
  {
    hide Limits.Refill, BurstPairs, WindowPairs, NonDecreasing, Spent;
    if h.bucket.Some? && Level(p, h, now) != p.capacity as real {
      var level, last := h.bucket.value.0, h.bucket.value.1;
      Scale((now - last) as real, 0.0, p.Refill());
      var i :| 0 <= i < |h.admitted| && LeftSince(p, h.admitted, level, last, i);
      Product(now - last, last - h.admitted[i], p.Refill());
      assert LeftSince(p, h.admitted, Level(p, h, now), now, i);
    }
  }

  lemma AdmissionTight(p: Limits, admitted: seq<int>, level: real, now: int)
    requires p.Valid() && LevelIsTight(p, admitted, level, now)
    ensures LevelIsTight(p, admitted + [now], level - 1.0, now)
  {
    hide Limits.Refill;
    var admitted' := admitted + [now];
    if level == p.capacity as real {
      Zero(p.Refill());
      assert LeftSince(p, admitted', level - 1.0, now, |admitted|);
    } else {
      var i :| 0 <= i < |admitted| && LeftSince(p, admitted, level, now, i);
      assert admitted'[i] == admitted[i];
      assert LeftSince(p, admitted', level - 1.0, now, i);
    }
  }

  lemma DecideTight(p: Limits, h: History, at: int, now: int)
    requires p.Valid() && Within(p, h, at) && Tight(p, h) && at <= now
    ensures Tight(p, Decide(p, h, now).0)
  {
    hide Limits.Refill, Level, Recent, LevelIsTight, Within, WindowReply, BucketReply;
    TightLevel(p, h, at, now);
    AdmissionTight(p, h.admitted, Level(p, h, now), now);
  }

  lemma {:induction false} RunTight(p: Limits, times: seq<int>, n: nat)
    requires p.Valid() && n <= |times| && NonDecreasing(times)
    ensures Tight(p, HistoryRun(p, times, n))
  {
    hide Decide, Within;
    if n > 0 {
      RunTight(p, times, n - 1);
      RunWithin(p, times, n - 1, times[n - 1]);
      DecideTight(p, HistoryRun(p, times, n - 1), times[n - 1], times[n - 1]);
    }
  }

  /** One more admission at `now` would keep both laws. */
  predicate Lawful(p: Limits, admitted: seq<int>, now: int)
    requires p.Valid()
  {
    WindowPairs(p, admitted + [now]) && BurstPairs(p, admitted + [now])
  }

  lemma FullWindowForbids(p: Limits, h: History, now: int)
    requires p.Valid() && NonDecreasing(h.admitted) && UpTo(h.admitted, now) && |Recent(p, h, now)| >= p.limit
    ensures !WindowPairs(p, h.admitted + [now])
  {
    hide DropOld, Limits.Refill;
    DropsPrefix(h.admitted, now - p.window);
    var admitted, i, n := h.admitted + [now], |h.admitted| - |Recent(p, h, now)|, |h.admitted|;
    assert admitted[i] == Recent(p, h, now)[0] && admitted[n] == now;
    assert admitted[n] - admitted[i] < p.window && n - i + 1 > p.limit;
  }

  lemma EmptyBucketForbids(p: Limits, admitted: seq<int>, level: real, now: int)
    requires p.Valid() && LevelIsTight(p, admitted, level, now) && level < 1.0
    ensures !BurstPairs(p, admitted + [now])
  {
    hide Limits.Refill;
    var i :| 0 <= i < |admitted| && LeftSince(p, admitted, level, now, i);
    assert (admitted + [now])[i] == admitted[i] && (admitted + [now])[|admitted|] == now;
    assert !BurstPair(p, admitted + [now], i, |admitted|);
  }

  /** A request is let through exactly when admitting it keeps both the window law and the burst law. */
  lemma AdmitsExactlyTheLawful(p: Limits, times: seq<int>, n: nat)
    requires p.Valid() && n < |times| && NonDecreasing(times)
    ensures Script(p, ScriptRun(p, times, n), times[n]).1.allowed <==> Lawful(p, Allowed(p, times, n), times[n])
  {
    hide Limits.Refill, Script, HistoryRun, ScriptRun, Allowed, WindowPairs, BurstPairs, Recent, Level, LevelIsTight, Spent, WindowReply,
      BucketReply;
    ExpiryIsUnobservable(p, times, n);
    AllowedIsHistory(p, times, n);
    RunWithin(p, times, n, times[n]);
    RunTight(p, times, n);
    var h, now := HistoryRun(p, times, n), times[n];
    DecideKeeps(p, h, now, now);
    TightLevel(p, h, now, now);
    RefusedWithoutRoom(p, h, now);
    if |Recent(p, h, now)| >= p.limit {
      FullWindowForbids(p, h, now);
    } else if Level(p, h, now) < 1.0 {
      EmptyBucketForbids(p, h.admitted, Level(p, h, now), now);
    }
  }

  lemma RefusedWithoutRoom(p: Limits, h: History, now: int)
    requires p.Valid()
    ensures Decide(p, h, now).1.allowed <==> |Recent(p, h, now)| < p.limit && Level(p, h, now) >= 1.0
    ensures Decide(p, h, now).1.allowed ==> Decide(p, h, now).0.admitted == h.admitted + [now]
  {
    hide Limits.Refill, Recent, Level;
  }

  // ----- the retry time is enough

  lemma WindowIsFull(p: Limits, h: History, at: int, now: int)
    requires p.Valid() && Within(p, h, at) && at <= now
    ensures |Recent(p, h, now)| <= p.limit
  {
    hide DropOld, Limits.Refill, BurstPairs, Spent;
    DropsPrefix(h.admitted, now - p.window);
    var n, m := |h.admitted|, |Recent(p, h, now)|;
    if m > 0 {
      assert h.admitted[n - m] == Recent(p, h, now)[0];
      assert h.admitted[n - 1] <= now;
    }
  }

  lemma LaterDropsMore(p: Limits, admitted: seq<int>, cutoff: int, later: int)
    requires NonDecreasing(admitted) && cutoff <= later && |DropOld(admitted, cutoff)| > 0 && DropOld(admitted, cutoff)[0] <= later
    ensures |DropOld(admitted, later)| < |DropOld(admitted, cutoff)|
  {
    hide DropOld;
    DropsPrefix(admitted, cutoff);
    DropsPrefix(admitted, later);
    var n, kept, kept' := |admitted|, DropOld(admitted, cutoff), DropOld(admitted, later);
    if |kept'| > 0 {
      assert kept'[0] == admitted[n - |kept'|] && kept[0] == admitted[n - |kept|];
      GreaterIsLater(admitted, n - |kept'|, n - |kept|);
    }
  }

  lemma GreaterIsLater(times: seq<int>, i: nat, j: nat)
    requires NonDecreasing(times) && i < |times| && j < |times| && times[i] > times[j]
    ensures i > j
  {}

  /** A request refused by the window, repeated after the time it was told, finds the window open. */
  lemma RetryFindsWindowOpen(p: Limits, h: History, at: int, now: int, later: int)
    requires p.Valid() && Within(p, h, at) && at <= now && |Recent(p, h, now)| >= p.limit
    requires later >= now + 1000 * Decide(p, h, now).1.retryAfterSeconds
    ensures !Decide(p, h, now).1.allowed
    ensures |Recent(p, Decide(p, h, now).0, later)| < p.limit
  {
    hide DropOld, Limits.Refill, BurstPairs, Spent, WindowPairs, Level;
    WindowIsFull(p, h, at, now);
    var recent := Recent(p, h, now);
    var wait := Max(0, recent[0] + p.window - now);
    assert Decide(p, h, now).1.retryAfterSeconds == Seconds(wait as real);
    SecondsCover(wait);
    LaterDropsMore(p, h.admitted, now - p.window, later - p.window);
  }

  lemma SecondsCover(ms: int)
    ensures 1000 * Seconds(ms as real) >= ms
  {
    var x := ms as real / 1000.0;
    assert Ceil(x) as real >= x;
    assert 1000.0 * Ceil(x) as real >= ms as real;
  }

  lemma RefillCovers(missing: real, refill: real, ms: int)
    requires refill > 0.0 && ms as real >= missing / refill
    ensures ms as real * refill >= missing
  {
    Scale(ms as real, missing / refill, refill);
    assert missing / refill * refill == missing;
  }

  /** A request refused for want of a token, repeated after the time it was told, finds a token. */
  lemma RetryFindsToken(p: Limits, h: History, at: int, now: int, later: int)
    requires p.Valid() && Within(p, h, at) && at <= now && |Recent(p, h, now)| < p.limit && Level(p, h, now) < 1.0
    requires later >= now + 1000 * Decide(p, h, now).1.retryAfterSeconds
    ensures !Decide(p, h, now).1.allowed
    ensures Level(p, Decide(p, h, now).0, later) >= 1.0
  {
    hide Recent, Limits.Refill, BurstPairs, Spent, WindowPairs;
    var tokens := Level(p, h, now);
    var ms := Ceil((1.0 - tokens) / p.Refill());
    assert Decide(p, h, now).1.retryAfterSeconds == Seconds(ms as real);
    SecondsCover(ms);
    MissingPositive(1.0 - tokens, p.Refill());
    assert later - now >= ms >= 0;
    RefillCovers(1.0 - tokens, p.Refill(), later - now);
  }

  lemma MissingPositive(missing: real, refill: real)
    requires missing > 0.0 && refill > 0.0
    ensures missing / refill > 0.0
  {}
}
