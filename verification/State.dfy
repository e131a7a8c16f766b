/**
 The game state and the outcome of an engine operation.

 A room player id of the program is the player's position in the players array here, and an
 id that is not in the game is a number past its end. The properties array is indexed by tile;
 the entry of a tile that cannot be owned stays blank and stands for "no property state".
 */
module State {
  import opened Rules

  datatype ErrorCode =
    | GameNotActive | DebtResolutionRequired | RollNotAllowed | BuyNotAllowed | TurnEndNotAllowed
    | PlayerNotFound | NotCurrentTurn | InvalidDice | InsufficientFunds | NegativeAmount
    | NoPropertyDecision | TileNotOwnable | PropertyAlreadyOwned | NoActiveAuction
    | AuctionPlayerNotActive | AuctionPlayerNotCurrent | InvalidAuctionBid
    | BuildingNotAllowed | PropertySetNotOwned | PropertyMortgaged | BuildingLimitReached
    | UnevenBuilding | NoBuildingToSell | MortgageNotAllowed | PropertyNotOwned
    | PropertyAlreadyMortgaged | PropertyHasBuildings | PropertyNotMortgaged | NoActiveDebt
    | PlayerAlreadyBankrupt | InvalidBankruptcyCreditor | NoActivePlayers | PlayerNotInJail
    | JailCardRequired | CardNotFound | CardDeckEmpty | UnknownPosition | InvalidTrade
    | TradeNotAllowed | TradeNotFound | InvalidFinishTime | GameTimeNotExpired

  /** A thrown error is an `Err`: the caller keeps the state it had. */
  datatype Result<+T> = Ok(value: T) | Err(code: ErrorCode)
  {
    predicate IsFailure() { Err? }

    function PropagateFailure<U>(): Result<U>
      requires Err?
    {
      Err(code)
    }

    function Extract(): T
      requires Ok?
    {
      value
    }
  }

  datatype Phase =
    | AwaitingFirstTurn | AwaitingRoll | AwaitingDecision | AwaitingAuction | AwaitingDebt
    | AwaitingTurnEnd | Finished | Cancelled

  datatype PlayerType = Human | Bot
  datatype Difficulty = Easy | Normal | Hard

  datatype Player = Player(
    playerType: PlayerType, difficulty: Difficulty, seat: int, cash: int, position: nat,
    inJail: bool, jailTurns: nat, jailCards: int, jailCardKeys: seq<CardKey>,
    missedTurns: nat, lastMissedTurn: Option<int>, lastTradeTurn: Option<int>, bankrupt: bool)

  datatype PropertyState = PropertyState(owner: Option<nat>, houses: int, hotel: bool, mortgaged: bool)
  {
    predicate Built() { hotel || houses > 0 }

    /** Development level: a hotel counts as five houses. */
    function Level(): int { houses + if hotel then 5 else 0 }

    predicate OwnedBy(p: nat) { owner == Some(p) }
  }

  const BLANK := PropertyState(None, 0, false, false)

  datatype Auction = Auction(
    tile: nat, bid: int, highest: Option<nat>, bidder: Option<nat>, bidExpiresAt: int,
    active: seq<nat>, passed: seq<nat>)

  datatype Trade = Trade(
    id: int, from: nat, to: nat, offeredCash: int, requestedCash: int,
    offered: seq<nat>, requested: seq<nat>)

  datatype DebtReason = Rent | TaxDue | Card | JailFine

  datatype Debt = Debt(player: nat, creditor: Option<nat>, amount: int, reason: DebtReason)

  datatype Pile = Pile(draw: seq<CardKey>, discard: seq<CardKey>)

  datatype Decks = Decks(chance: Pile, worldFund: Pile)
  {
    function Get(deck: DeckKey): Pile {
      match deck
      case ChanceDeck => chance
      case WorldFundDeck => worldFund
    }

    function Set(deck: DeckKey, pile: Pile): Decks {
      match deck
      case ChanceDeck => this.(chance := pile)
      case WorldFundDeck => this.(worldFund := pile)
    }
  }

  datatype State = State(
    phase: Phase, turn: int, current: nat, doubles: nat, playAgain: bool,
    lastDice: Option<(int, int)>, pending: Option<nat>, auction: Option<Auction>,
    trade: Option<Trade>, debt: Option<Debt>, decks: Decks,
    players: seq<Player>, props: seq<PropertyState>, expiresAt: Option<int>)
  {
    predicate HasPlayer(p: nat) { p < |players| }

    predicate Over() { phase == Finished || phase == Cancelled }

    predicate Expires() { expiresAt.Some? && expiresAt.value != 0 }
  }

  function WithPlayer(s: State, p: nat, player: Player): (s': State)
    requires s.HasPlayer(p)
  {
    s.(players := s.players[p := player])
  }

  function WithCash(s: State, p: nat, cash: int): (s': State)
    requires s.HasPlayer(p)
  {
    WithPlayer(s, p, s.players[p].(cash := cash))
  }

  function WithProperty(s: State, k: nat, q: PropertyState): (s': State)
    requires k < |s.props|
  {
    s.(props := s.props[k := q])
  }

  /** `properties.find`: blank entries of tiles that cannot be owned do not count. */
  predicate HasProperty(r: Rules, s: State, k: nat) {
    r.Ownable(k) && k < |s.props|
  }

  // ----- turn and phase guards (game-engine-assertions.ts)

  function AssertNoDebt(s: State): (c: Option<ErrorCode>) {
    if s.phase == AwaitingDebt || s.debt.Some? then Some(DebtResolutionRequired) else None
  }

  function AssertPhase(s: State, allowed: set<Phase>, code: ErrorCode): (c: Option<ErrorCode>) {
    if s.Over() then Some(GameNotActive)
    else if AssertNoDebt(s).Some? then AssertNoDebt(s)
    else if s.phase !in allowed then Some(code)
    else None
  }

  function AssertCurrentTurn(s: State, p: nat): (c: Option<ErrorCode>) {
    if !s.HasPlayer(p) then Some(PlayerNotFound)
    else if s.players[p].bankrupt then Some(PlayerNotFound)
    else if s.current != p then Some(NotCurrentTurn)
    else None
  }

  /** No entry appears twice. */
  predicate NoDuplicates(ids: seq<nat>) {
    forall i, j :: 0 <= i < j < |ids| ==> ids[i] != ids[j]
  }
}
