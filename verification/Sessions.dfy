/** Concurrent commands of one game: the engine behind the compare-and-set store (game-commands.service.ts). */
module Sessions {
  import opened Rules
  import opened State
  import opened Landing
  import opened Trades
  import opened Engine
  import opened Invariant
  import opened Timer
  import Store

  datatype Command = Command(source: Source, intent: Intent)

  /** The clock a caller sees on an attempt. */
  type Clock = (nat, nat) -> int

  function Attempt(r: Rules, s: State, now: int, command: Command): (res: Option<(State, Intent)>) {
    if Shape(r, s) && LevelsOk(r, s.props) then
      var res := Execute(r, s, now, command.source, command.intent);
      if res.Ok? then Some((res.value, EffectiveIntent(s, now, command.intent))) else None
    else None
  }

  /** The updater closure of a command: time, engine step and bookkeeping, run afresh on every attempt. */
  function CommandUpdater(r: Rules, commands: seq<Command>, clock: Clock): (u: Store.Updater<State, Intent>) {
    (c: nat, attempt: nat, s: State) => if c < |commands| then Attempt(r, s, clock(c, attempt), commands[c]) else None
  }

  lemma AttemptKeeps(r: Rules, s: State, now: int, command: Command)
    requires Inv(r, s) && Attempt(r, s, now, command).Some?
    ensures Inv(r, Attempt(r, s, now, command).value.0)
  {
    hide Inv, ValidRules, LevelsOk, Execute;
    CommandIsStep(r, s, now, command.source, command.intent);
  }

  /**
   However the commands of players, bots and timers interleave, every state the store ever holds
   satisfies the game invariant, and so does every state returned to a caller.
   */
  lemma ConcurrentCommandsAreSafe(r: Rules, commands: seq<Command>, clock: Clock, max: nat, init: State, events: seq<Store.Event>)
    requires Inv(r, init)
    ensures var s := Store.Run(CommandUpdater(r, commands, clock), max, Store.Open(max, init, |commands|), events);
            && (s.value.Some? ==> Inv(r, s.value.value))
            && (forall c :: 0 <= c < |s.calls| && s.calls[c].progress.Returned? ==> Inv(r, s.calls[c].progress.state))
  {
    hide Inv, Attempt, Store.LinkOk, Store.CallOk;
    var u := CommandUpdater(r, commands, clock);
    var s := Store.Run(u, max, Store.Open(max, init, |commands|), events);
    Store.EveryRunIsLinear(u, max, init, |commands|, events);
    forall c: nat, attempt: nat, v: State {:trigger u(c, attempt, v)} | Inv(r, v) && u(c, attempt, v).Some?
      ensures Inv(r, u(c, attempt, v).value.0)
    {
      AttemptKeeps(r, v, clock(c, attempt), commands[c]);
    }
    var good := (v: State) => Inv(r, v);
    Store.ChainKeeps(u, init, s.log, good, |s.log|);
    forall c | 0 <= c < |s.calls| && s.calls[c].progress.Returned?
      ensures Inv(r, s.calls[c].progress.state)
    {
      ReturnedIsCommitted(u, init, s, c);
      Store.ChainKeeps(u, init, s.log, good, s.calls[c].progress.at + 1);
    }
  }

  lemma ReturnedIsCommitted(u: Store.Updater<State, Intent>, init: State, s: Store.Store<State, Intent>, c: nat)
    requires c < |s.calls| && s.calls[c].progress.Returned? && Store.CallOk(u, init, s.log, c, s.calls[c])
    ensures s.calls[c].progress.at < |s.log|
    ensures s.calls[c].progress.state == Store.ValueAt(init, s.log, s.calls[c].progress.at + 1)
  {}
}
