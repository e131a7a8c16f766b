/** The token lock with expiry (cache.service.ts): `SET NX EX` to acquire, a comparing script to release. */
module Lock {
  import opened Rules

  datatype Held = Held(token: nat, expiresAt: int)

  /** The token a reader of the key sees. */
  function LiveToken(key: Option<Held>, now: int): (token: Option<nat>) {
    if key.Some? && now < key.value.expiresAt then Some(key.value.token) else None
  }

  function AfterSet(key: Option<Held>, token: nat, ttl: nat, now: int): (key': Option<Held>) {
    if LiveToken(key, now).None? then Some(Held(token, now + ttl)) else key
  }

  function AfterRelease(key: Option<Held>, token: nat, now: int): (key': Option<Held>) {
    if LiveToken(key, now) == Some(token) then None else key
  }

  /** The lock key in shared storage. */
  class LockKey {
    var key: Option<Held>

    constructor ()
      ensures key.None?
    {
      key := None;
    }

    method SetIfAbsent(token: nat, ttl: nat, now: int) returns (acquired: bool)
      modifies this
      ensures key == AfterSet(old(key), token, ttl, now)
      ensures acquired <==> LiveToken(old(key), now).None?
      ensures acquired && ttl > 0 ==> LiveToken(key, now) == Some(token)
      ensures !acquired ==> key == old(key)
    {
      acquired := LiveToken(key, now).None?;
      if acquired {
        key := Some(Held(token, now + ttl));
      }
    }

    method Release(token: nat, now: int) returns (deleted: bool)
      modifies this
      ensures key == AfterRelease(old(key), token, now)
      ensures deleted <==> LiveToken(old(key), now) == Some(token)
      ensures LiveToken(key, now) == if deleted then None else LiveToken(old(key), now)
    {
      deleted := LiveToken(key, now) == Some(token);
      if deleted {
        key := None;
      }
    }
  }

  // ----- any number of callers on one key

  /** A caller waits, runs its callback, is done with it but not yet released, or has left. */
  datatype Stage = Waiting | Running(since: int) | Releasing | Gone

  /** Every call draws its own token, here the caller's number. */
  datatype Lock = Lock(now: int, key: Option<Held>, stages: seq<Stage>)

  datatype Event = Acquire(caller: nat) | GiveUp(caller: nat) | Finish(caller: nat) | Release(caller: nat) | Wait(ms: nat)

  function Step(ttl: nat -> nat, s: Lock, e: Event): (s': Lock) {
    match e
    case Acquire(c) =>
      if c < |s.stages| && s.stages[c].Waiting? && LiveToken(s.key, s.now).None?
      then s.(key := AfterSet(s.key, c, ttl(c), s.now), stages := s.stages[c := Running(s.now)])
      else s
    case GiveUp(c) =>
      if c < |s.stages| && s.stages[c].Waiting? then s.(stages := s.stages[c := Gone]) else s
    case Finish(c) =>
      if c < |s.stages| && s.stages[c].Running? then s.(stages := s.stages[c := Releasing]) else s
    case Release(c) =>
      if c < |s.stages| && s.stages[c].Releasing?
      then s.(key := AfterRelease(s.key, c, s.now), stages := s.stages[c := Gone])
      else s
    case Wait(ms) => s.(now := s.now + ms)
  }

  function Run(ttl: nat -> nat, s: Lock, events: seq<Event>): (s': Lock) {
    if |events| == 0 then s else Step(ttl, Run(ttl, s, events[..|events| - 1]), events[|events| - 1])
  }

  function Open(now: int, callers: nat): (s: Lock) {
    Lock(now, None, seq(callers, _ => Waiting))
  }

  /** Caller `c` runs its callback and its time to live has not lapsed. */
  predicate InTime(ttl: nat -> nat, s: Lock, c: nat) {
    c < |s.stages| && s.stages[c].Running? && s.now < s.stages[c].since + ttl(c)
  }

  /** A callback running in time still has its own token in the key. */
  ghost predicate Guarded(ttl: nat -> nat, s: Lock) {
    forall c: nat :: InTime(ttl, s, c) ==> s.key == Some(Held(c, s.stages[c].since + ttl(c)))
  }

  lemma StepKeeps(ttl: nat -> nat, s: Lock, e: Event)
    requires Guarded(ttl, s)
    ensures Guarded(ttl, Step(ttl, s, e))
  {
    var s' := Step(ttl, s, e);
    forall c: nat | InTime(ttl, s', c)
      ensures s'.key == Some(Held(c, s'.stages[c].since + ttl(c)))
    {
      if s'.stages[c] == s.stages[c] {
        assert InTime(ttl, s, c);
      }
    }
  }

  lemma {:induction false} EveryRunIsGuarded(ttl: nat -> nat, now: int, callers: nat, events: seq<Event>)
    ensures Guarded(ttl, Run(ttl, Open(now, callers), events))
    decreases |events|
  {
    if |events| > 0 {
      EveryRunIsGuarded(ttl, now, callers, events[..|events| - 1]);
      StepKeeps(ttl, Run(ttl, Open(now, callers), events[..|events| - 1]), events[|events| - 1]);
    }
  }

  /** In every interleaving, two callbacks that are both within their time to live are the same one. */
  lemma CallbacksNeverOverlap(ttl: nat -> nat, now: int, callers: nat, events: seq<Event>, c: nat, d: nat)
    requires var s := Run(ttl, Open(now, callers), events); InTime(ttl, s, c) && InTime(ttl, s, d)
    ensures c == d
  {
    EveryRunIsGuarded(ttl, now, callers, events);
  }

  /** A release, however late, leaves whatever another caller holds. */
  lemma ReleaseRemovesOnlyItsOwn(ttl: nat -> nat, now: int, callers: nat, events: seq<Event>, c: nat, d: nat)
    requires c != d
    ensures var s := Run(ttl, Open(now, callers), events);
            var s' := Run(ttl, Open(now, callers), events + [Release(c)]);
            && (LiveToken(s.key, s.now) == Some(d) ==> s'.key == s.key)
            && (InTime(ttl, s, d) ==> InTime(ttl, s', d) && s'.key == s.key)
  {
    var s := Run(ttl, Open(now, callers), events);
    assert (events + [Release(c)])[..|events|] == events;
    assert Run(ttl, Open(now, callers), events + [Release(c)]) == Step(ttl, s, Release(c));
    EveryRunIsGuarded(ttl, now, callers, events);
    if InTime(ttl, s, d) {
      assert LiveToken(s.key, s.now) == Some(d);
    }
  }

  /** The time limit is needed: a callback that outlives it can overlap with the next one. */
  lemma OverrunOverlaps(ttl: nat -> nat)
    ensures var s := Run(ttl, Open(0, 2), [Acquire(0), Wait(ttl(0)), Acquire(1)]);
            s.stages == [Running(0), Running(ttl(0))]
  {
    var start := Open(0, 2);
    var events := [Acquire(0), Wait(ttl(0)), Acquire(1)];
    assert events[..2] == [Acquire(0), Wait(ttl(0))] && events[..2][..1] == [Acquire(0)] && events[..1][..0] == [];
    assert Run(ttl, start, []) == start;
    assert Run(ttl, start, events[..1]) == Step(ttl, start, Acquire(0));
    var waited := Step(ttl, Step(ttl, start, Acquire(0)), Wait(ttl(0)));
    assert Run(ttl, start, events[..2]) == waited;
    assert Run(ttl, start, events) == Step(ttl, waited, Acquire(1));
  }
}
