/**
 The compare-and-set state store shared by concurrent commands (game-state.service.ts): any number
 of `update` calls, interleaved at every access to the shared key.
 */
module Store {
  import opened Rules

  /** What a caller's updater makes of a state on a given attempt; `None` when it throws. */
  type Updater<!V, !E> = (nat, nat, V) -> Option<(V, E)>

  datatype Failure = Missing | UpdaterThrew | Conflict

  /**
   Where a call stands: about to read; about to compare what it read and computed; returned; failed.
   `readAt` and `at` record how many commits the store had seen and which one is the call's own.
   */
  datatype Progress<V> =
    | Reading(attempt: nat)
    | Comparing(attempt: nat, read: V, next: V, readAt: nat)
    | Returned(state: V, at: nat)
    | Failed(failure: Failure)

  /** `captured` is the result variable of the caller, overwritten by every run of the updater. */
  datatype Call<V, E> = Call(progress: Progress<V>, captured: Option<(V, E)>)

  datatype Commit<V, E> = Commit(caller: nat, attempt: nat, before: V, after: V, events: E)

  datatype Store<V, E> = Store(value: Option<V>, calls: seq<Call<V, E>>, log: seq<Commit<V, E>>)

  datatype Event = Read(caller: nat) | Compare(caller: nat) | Expire

  function WithCall<V, E>(s: Store<V, E>, c: nat, call: Call<V, E>): (s': Store<V, E>)
    requires c < |s.calls|
  {
    s.(calls := s.calls[c := call])
  }

  /** Read the key, parse it and run the updater. */
  function DoRead<V, E>(u: Updater<V, E>, s: Store<V, E>, c: nat): (s': Store<V, E>)
    requires c < |s.calls| && s.calls[c].progress.Reading?
  {
    var call := s.calls[c];
    var attempt := call.progress.attempt;
    if s.value.None? then WithCall(s, c, call.(progress := Failed(Missing)))
    else
      var computed := u(c, attempt, s.value.value);
      if computed.None? then WithCall(s, c, call.(progress := Failed(UpdaterThrew)))
      else WithCall(s, c, Call(Comparing(attempt, s.value.value, computed.value.0, |s.log|), computed))
  }

  /** The script: -1 when the key is gone, 0 on another value, else store the new value. */
  function DoCompare<V(==), E>(max: nat, s: Store<V, E>, c: nat): (s': Store<V, E>)
    requires c < |s.calls| && s.calls[c].progress.Comparing? && s.calls[c].captured.Some?
  {
    var call := s.calls[c];
    var Comparing(attempt, read, next, _) := call.progress;
    if s.value.None? then WithCall(s, c, call.(progress := Failed(Missing)))
    else if s.value.value != read then
      WithCall(s, c, call.(progress := if attempt < max then Reading(attempt + 1) else Failed(Conflict)))
    else
      WithCall(s, c, call.(progress := Returned(next, |s.log|)))
      .(value := Some(next), log := s.log + [Commit(c, attempt, read, next, call.captured.value.1)])
  }

  function Step<V(==), E>(u: Updater<V, E>, max: nat, s: Store<V, E>, e: Event): (s': Store<V, E>) {
    match e
    case Read(c) => if c < |s.calls| && s.calls[c].progress.Reading? then DoRead(u, s, c) else s
    case Compare(c) =>
      if c < |s.calls| && s.calls[c].progress.Comparing? && s.calls[c].captured.Some? then DoCompare(max, s, c) else s
    case Expire => s.(value := None)
  }

  function Open<V, E>(max: nat, init: V, callers: nat): (s: Store<V, E>) {
    Store(Some(init), seq(callers, _ => Call(if max >= 1 then Reading(1) else Failed(Conflict), None)), [])
  }

  function Run<V(==), E>(u: Updater<V, E>, max: nat, s: Store<V, E>, events: seq<Event>): (s': Store<V, E>) {
    if |events| == 0 then s else Step(u, max, Run(u, max, s, events[..|events| - 1]), events[|events| - 1])
  }

  // ----- the history is a chain

  /** The stored value after the first `n` commits. */
  function ValueAt<V, E>(init: V, log: seq<Commit<V, E>>, n: nat): (v: V)
    requires n <= |log|
  {
    if n == 0 then init else log[n - 1].after
  }

  predicate LinkOk<V(==), E(==)>(u: Updater<V, E>, init: V, log: seq<Commit<V, E>>, i: nat)
    requires i < |log|
  {
    && log[i].before == ValueAt(init, log, i)
    && u(log[i].caller, log[i].attempt, log[i].before) == Some((log[i].after, log[i].events))
  }

  predicate NotIn<V, E>(log: seq<Commit<V, E>>, c: nat) {
    forall i :: 0 <= i < |log| ==> log[i].caller != c
  }

  predicate CallOk<V(==), E(==)>(u: Updater<V, E>, init: V, log: seq<Commit<V, E>>, c: nat, call: Call<V, E>) {
    match call.progress
    case Reading(attempt) => NotIn(log, c) && 1 <= attempt <= |log| + 1
    case Comparing(attempt, read, next, readAt) =>
      && NotIn(log, c)
      && 1 <= attempt <= readAt + 1 <= |log| + 1
      && read == ValueAt(init, log, readAt)
      && call.captured == u(c, attempt, read) && call.captured.Some? && call.captured.value.0 == next
    case Returned(state, at) =>
      && at < |log| && log[at].caller == c && log[at].after == state
      && call.captured == Some((state, log[at].events))
    case Failed(_) => NotIn(log, c)
  }

  predicate Linear<V(==), E(==)>(u: Updater<V, E>, max: nat, init: V, s: Store<V, E>) {
    && (forall i :: 0 <= i < |s.log| ==> LinkOk(u, init, s.log, i))
    && (forall i, j :: 0 <= i < j < |s.log| ==> s.log[i].caller != s.log[j].caller)
    && (s.value.Some? ==> s.value.value == ValueAt(init, s.log, |s.log|))
    && (forall c :: 0 <= c < |s.calls| ==> CallOk(u, init, s.log, c, s.calls[c]))
    && (forall c :: 0 <= c < |s.calls| && s.calls[c].progress == Failed(Conflict) ==> |s.log| >= max)
  }

  lemma ReadKeeps<V, E>(u: Updater<V, E>, max: nat, init: V, s: Store<V, E>, c: nat)
    requires Linear(u, max, init, s) && c < |s.calls| && s.calls[c].progress.Reading?
    ensures Linear(u, max, init, DoRead(u, s, c))
  {
    assert CallOk(u, init, s.log, c, s.calls[c]);
  }

  /** One more commit: earlier links and the other calls are untouched. */
  lemma CommitFrame<V, E>(u: Updater<V, E>, init: V, log: seq<Commit<V, E>>, commit: Commit<V, E>)
    ensures forall i :: 0 <= i <= |log| ==> ValueAt(init, log + [commit], i) == ValueAt(init, log, i)
    ensures forall i :: 0 <= i < |log| && LinkOk(u, init, log, i) ==> LinkOk(u, init, log + [commit], i)
    ensures forall d: nat, call: Call<V, E> :: CallOk(u, init, log, d, call) && d != commit.caller ==>
              CallOk(u, init, log + [commit], d, call)
  {}

  lemma CompareKeeps<V, E>(u: Updater<V, E>, max: nat, init: V, s: Store<V, E>, c: nat)
    requires Linear(u, max, init, s) && c < |s.calls| && s.calls[c].progress.Comparing? && s.calls[c].captured.Some?
    ensures Linear(u, max, init, DoCompare(max, s, c))
  {
    var s' := DoCompare(max, s, c);
    assert CallOk(u, init, s.log, c, s.calls[c]);
    if s.value.Some? && s.value.value == s.calls[c].progress.read {
      CommitFrame(u, init, s.log, s'.log[|s.log|]);
      assert LinkOk(u, init, s'.log, |s.log|);
    }
  }

  lemma StepKeeps<V, E>(u: Updater<V, E>, max: nat, init: V, s: Store<V, E>, e: Event)
    requires Linear(u, max, init, s)
    ensures Linear(u, max, init, Step(u, max, s, e))
  {
    hide CallOk, LinkOk;
    match e
    case Read(c) =>
      if c < |s.calls| && s.calls[c].progress.Reading? {
        ReadKeeps(u, max, init, s, c);
      }
    case Compare(c) =>
      if c < |s.calls| && s.calls[c].progress.Comparing? && s.calls[c].captured.Some? {
        CompareKeeps(u, max, init, s, c);
      }
    case Expire =>
  }

  /**
   Linearizability: in every interleaving of any number of calls, the stored values form a chain in
   which each is one caller's updater applied to its predecessor, every call commits at most once,
   and what a call returns, state and captured events, belongs to its own commit.
   */
  lemma {:induction false} EveryRunIsLinear<V, E>(u: Updater<V, E>, max: nat, init: V, callers: nat, events: seq<Event>)
    ensures Linear(u, max, init, Run(u, max, Open(max, init, callers), events))
    decreases |events|
  {
    hide CallOk, LinkOk;
    if |events| == 0 {
      OpenIsLinear(u, max, init, callers);
    } else {
      EveryRunIsLinear(u, max, init, callers, events[..|events| - 1]);
      StepKeeps(u, max, init, Run(u, max, Open(max, init, callers), events[..|events| - 1]), events[|events| - 1]);
    }
  }

  lemma OpenIsLinear<V, E>(u: Updater<V, E>, max: nat, init: V, callers: nat)
    ensures Linear(u, max, init, Open(max, init, callers))
  {}

  /** A compare that finds another value does so because another caller committed since the read. */
  lemma MismatchMeansOtherCommit<V, E>(u: Updater<V, E>, max: nat, init: V, s: Store<V, E>, c: nat) returns (i: nat)
    requires Linear(u, max, init, s) && c < |s.calls| && s.calls[c].progress.Comparing?
    requires s.value.Some? && s.value.value != s.calls[c].progress.read
    ensures s.calls[c].progress.readAt <= i < |s.log| && s.log[i].caller != c
  {
    assert CallOk(u, init, s.log, c, s.calls[c]);
    i := s.calls[c].progress.readAt;
  }

  /** A call gives up with a conflict only after as many commits by others as it had attempts. */
  lemma ConflictMeansManyCommits<V, E>(u: Updater<V, E>, max: nat, init: V, callers: nat, events: seq<Event>, c: nat)
    requires c < |Run(u, max, Open(max, init, callers), events).calls|
    requires Run(u, max, Open(max, init, callers), events).calls[c].progress == Failed(Conflict)
    ensures var log := Run(u, max, Open(max, init, callers), events).log; |log| >= max && NotIn(log, c)
  {
    EveryRunIsLinear(u, max, init, callers, events);
    var s := Run(u, max, Open(max, init, callers), events);
    assert CallOk(u, init, s.log, c, s.calls[c]);
  }

  // ----- what updaters preserve, every stored value satisfies

  lemma {:induction false} ChainKeeps<V, E>(u: Updater<V, E>, init: V, log: seq<Commit<V, E>>, good: V -> bool, n: nat)
    requires n <= |log| && good(init) && forall i :: 0 <= i < |log| ==> LinkOk(u, init, log, i)
    requires forall c: nat, attempt: nat, v: V {:trigger u(c, attempt, v)} ::
               good(v) && u(c, attempt, v).Some? ==> good(u(c, attempt, v).value.0)
    ensures good(ValueAt(init, log, n))
  {
    if n > 0 {
      ChainKeeps(u, init, log, good, n - 1);
      assert LinkOk(u, init, log, n - 1);
    }
  }

  // ----- one call, as the program writes it

  /** The state key in shared storage and the script that compares and sets it. */
  class StateKey<V(==)> {
    var value: Option<V>

    constructor (init: Option<V>)
      ensures value == init
    {
      value := init;
    }

    method CompareAndSet(expected: V, next: V) returns (code: int)
      modifies this
      ensures code in {-1, 0, 1}
      ensures code == -1 <==> old(value).None?
      ensures code == 1 <==> old(value) == Some(expected)
      ensures value == if code == 1 then Some(next) else old(value)
    {
      if value.None? {
        return -1;
      }
      if value.value != expected {
        return 0;
      }
      value := Some(next);
      return 1;
    }
  }

  datatype Answer<V> = Saved(state: V, attempt: nat) | Refused(failure: Failure, attempt: nat)

  /** An attempt that read a value, computed the next one and then met another value. */
  predicate Mismatched<V(==), E>(u: Updater<V, E>, c: nat, attempt: nat, read: Option<V>, met: Option<V>) {
    read.Some? && u(c, attempt, read.value).Some? && met.Some? && met != read
  }

  /**
   The retry loop, with what other callers leave in the key given as input: `seen[i]` is what
   attempt `i + 1` reads and what its compare meets. It saves on the first attempt whose compare
   meets what was read, gives up where the key or the updater fails, and otherwise after the last.
   */
  method Update<V(==), E>(u: Updater<V, E>, c: nat, max: nat, key: StateKey<V>, seen: seq<(Option<V>, Option<V>)>)
    returns (answer: Answer<V>)
    requires |seen| == max
    modifies key
    ensures answer.attempt <= max
    ensures forall i :: 0 <= i < answer.attempt - 1 ==> Mismatched(u, c, i + 1, seen[i].0, seen[i].1)
    ensures answer.Saved? ==>
              && answer.attempt > 0
              && var (read, met) := seen[answer.attempt - 1];
              && read.Some? && met == read && key.value == Some(answer.state)
              && u(c, answer.attempt, read.value).Some? && u(c, answer.attempt, read.value).value.0 == answer.state
    ensures answer.Refused? && answer.failure == Conflict ==>
              answer.attempt == max && forall i :: 0 <= i < max ==> Mismatched(u, c, i + 1, seen[i].0, seen[i].1)
    ensures answer.Refused? && answer.failure == UpdaterThrew ==>
              answer.attempt > 0 && var read := seen[answer.attempt - 1].0; read.Some? && u(c, answer.attempt, read.value).None?
    ensures answer.Refused? && answer.failure == Missing ==>
              answer.attempt > 0 && (seen[answer.attempt - 1].0.None? || seen[answer.attempt - 1].1.None?)
  {
    var attempt := 1;
    while attempt <= max
      invariant 1 <= attempt <= max + 1
      invariant forall i :: 0 <= i < attempt - 1 ==> Mismatched(u, c, i + 1, seen[i].0, seen[i].1)
    {
      var (read, met) := seen[attempt - 1];
      key.value := read;
      if key.value.None? {
        return Refused(Missing, attempt);
      }
      var current := key.value.value;
      var next := u(c, attempt, current);
      if next.None? {
        return Refused(UpdaterThrew, attempt);
      }
      key.value := met;
      var code := key.CompareAndSet(current, next.value.0);
      if code == 1 {
        return Saved(next.value.0, attempt);
      }
      if code == -1 {
        return Refused(Missing, attempt);
      }
      attempt := attempt + 1;
    }
    return Refused(Conflict, max);
  }
}
