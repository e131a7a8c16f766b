/** The step function of the game (game-engine-intents.ts, game-engine.service.ts). */
module Engine {
  import opened Rules
  import opened State
  import opened Turns
  import opened Landing
  import opened Properties
  import opened Auctions
  import opened Trades
  import opened AutoDebt

  datatype Intent =
    | RollDice(player: nat, dice: (int, int))
    | Buy(player: nat)
    | Decline(player: nat)
    | Bid(player: nat, amount: int)
    | Pass(player: nat)
    | Build(player: nat, tile: nat)
    | Sell(player: nat, tile: nat)
    | Mortgage(player: nat, tile: nat)
    | Unmortgage(player: nat, tile: nat)
    | Propose(offer: Trade)
    | Accept(player: nat, id: int)
    | Reject(player: nat, id: int)
    | Cancel(player: nat, id: int)
    | GoBankrupt(player: nat, creditor: Option<nat>)
    | SettleDebt(player: nat)
    | AutoResolve(player: nat)
    | PayFine(player: nat)
    | UseCard(player: nat)
    | PassTurn(player: nat)
    | TimeUp(finishedAt: int)
    | LastHumanLeft(finishedAt: int)

  /** One intent at clock time `now`: the next state, or the error the program throws. */
  function Reduce(r: Rules, s: State, now: int, intent: Intent): (res: Result<State>)
    requires Shape(r, s) && LevelsOk(r, s.props)
  {
    match intent
    case RollDice(p, dice) => RollAndMove(r, s, p, dice)
    case Buy(p) => BuyProperty(r, s, p)
    case Decline(p) => DeclineProperty(r, s, now, p)
    case Bid(p, amount) => PlaceBid(r, s, now, p, amount)
    case Pass(p) => PassBid(r, s, now, p)
    case Build(p, k) => var t := AssertCurrentTurn(s, p); if t.Some? then Err(t.value) else BuildProperty(r, s, p, k)
    case Sell(p, k) => var t := AssertCurrentTurn(s, p); if t.Some? then Err(t.value) else SellBuilding(r, s, p, k)
    case Mortgage(p, k) => var t := AssertCurrentTurn(s, p); if t.Some? then Err(t.value) else MortgageProperty(r, s, p, k)
    case Unmortgage(p, k) => var t := AssertCurrentTurn(s, p); if t.Some? then Err(t.value) else UnmortgageProperty(r, s, p, k)
    case Propose(offer) => ProposeTrade(r, s, offer)
    case Accept(p, id) => AcceptTrade(r, s, p, id)
    case Reject(p, id) => RejectTrade(s, p, id)
    case Cancel(p, id) => CancelTrade(s, p, id)
    case GoBankrupt(p, creditor) => DeclareBankruptcy(r, s, p, creditor)
    case SettleDebt(p) => PayDebt(s, p)
    case AutoResolve(p) => AutoResolveDebt(r, s, p)
    case PayFine(p) => PayJailFine(s, p)
    case UseCard(p) => UseJailCard(r, s, p)
    case PassTurn(p) => EndTurn(s, p)
    case TimeUp(at) => FinishByTime(s, at)
    case LastHumanLeft(at) => FinishAfterLastHumanLeft(s, at)
  }
}
