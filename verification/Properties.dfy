/**
 Buying, building, mortgaging, paying debts and going bankrupt
 (game-engine-properties.ts, -buildings.ts, -mortgage.ts, -debt.ts, -bankruptcy.ts).
 */
module Properties {
  import opened Rules
  import opened State
  import opened Money
  import opened CardDecks
  import opened Turns
  import opened Landing

  function BuyProperty(r: Rules, s: State, p: nat): (res: Result<State>)
    requires Shape(r, s)
  {
    var g := AssertPhase(s, {AwaitingDecision}, BuyNotAllowed);
    if g.Some? then Err(g.value) else
    var t := AssertCurrentTurn(s, p);
    if t.Some? then Err(t.value)
    else if s.pending.None? then Err(NoPropertyDecision)
    else
      var k := s.pending.value;
      if !HasProperty(r, s, k) then Err(TileNotOwnable)
      else if s.props[k].owner.Some? then Err(PropertyAlreadyOwned)
      else
        var paid :- Debit(s, p, r.tiles[k].price);
        Ok(WithProperty(paid, k, s.props[k].(owner := Some(p))).(phase := AwaitingTurnEnd, pending := None))
  }

  // ----- buildings

  /** Shared by buildings and mortgages: the turn-end phase, or the debtor raising cash. */
  function AssertCanManage(s: State, p: nat, allowDebt: bool, code: ErrorCode): (c: Option<ErrorCode>) {
    if s.Over() then Some(GameNotActive)
    else
      var ownDebt := allowDebt && s.phase == AwaitingDebt && s.debt.Some? && s.debt.value.player == p;
      if s.phase != AwaitingTurnEnd && !ownDebt then Some(code) else AssertCurrentTurn(s, p)
  }

  predicate OwnsSetOf(r: Rules, s: State, p: nat, k: nat)
    requires Shape(r, s)
  {
    forall j :: 0 <= j < |r.tiles| && r.SameSet(j, k) ==> s.props[j].OwnedBy(p)
  }

  predicate SetHasMortgage(r: Rules, s: State, k: nat)
    requires Shape(r, s)
  {
    exists j :: 0 <= j < |r.tiles| && r.SameSet(j, k) && s.props[j].mortgaged
  }

  predicate SetHasBuilding(r: Rules, s: State, k: nat)
    requires Shape(r, s)
  {
    exists j :: 0 <= j < |r.tiles| && r.SameSet(j, k) && s.props[j].Built()
  }

  predicate LowestInSet(r: Rules, s: State, k: nat)
    requires Shape(r, s) && r.IsProperty(k)
  {
    forall j :: 0 <= j < |r.tiles| && r.SameSet(j, k) && !s.props[j].hotel ==> s.props[k].houses <= s.props[j].houses
  }

  predicate SetReadyForHotel(r: Rules, s: State, k: nat)
    requires Shape(r, s) && r.IsProperty(k)
  {
    forall j :: 0 <= j < |r.tiles| && r.SameSet(j, k) && j != k ==> s.props[j].hotel || s.props[j].houses == 4
  }

  predicate HighestInSet(r: Rules, s: State, k: nat)
    requires Shape(r, s) && r.IsProperty(k)
  {
    forall j :: 0 <= j < |r.tiles| && r.SameSet(j, k) ==> !s.props[j].hotel && s.props[j].houses <= s.props[k].houses
  }

  function BuildProperty(r: Rules, s: State, p: nat, k: nat): (res: Result<State>)
    requires Shape(r, s)
  {
    var g := AssertCanManage(s, p, false, BuildingNotAllowed);
    if g.Some? then Err(g.value)
    else if s.debt.Some? then Err(DebtResolutionRequired)
    else if !r.IsProperty(k) then Err(BuildingNotAllowed)
    else if !OwnsSetOf(r, s, p, k) then Err(PropertySetNotOwned)
    else if SetHasMortgage(r, s, k) then Err(PropertyMortgaged)
    else if s.props[k].hotel then Err(BuildingLimitReached)
    else if s.props[k].houses < 4 then
      if !LowestInSet(r, s, k) then Err(UnevenBuilding)
      else
        var paid :- Debit(s, p, r.tiles[k].houseCost);
        Ok(WithProperty(paid, k, s.props[k].(houses := s.props[k].houses + 1)))
    else if s.props[k].houses != 4 then Err(BuildingLimitReached)
    else if !SetReadyForHotel(r, s, k) then Err(UnevenBuilding)
    else
      var paid :- Debit(s, p, r.tiles[k].houseCost);
      Ok(WithProperty(paid, k, s.props[k].(houses := 0, hotel := true)))
  }

  function SellBuilding(r: Rules, s: State, p: nat, k: nat): (res: Result<State>)
    requires Shape(r, s)
  {
    var g := AssertCanManage(s, p, true, BuildingNotAllowed);
    if g.Some? then Err(g.value)
    else if !r.IsProperty(k) then Err(BuildingNotAllowed)
    else if !OwnsSetOf(r, s, p, k) then Err(PropertySetNotOwned)
    else if s.props[k].hotel then
      var credited :- Credit(s, p, r.tiles[k].houseCost / 2);
      Ok(WithProperty(credited, k, s.props[k].(houses := 4, hotel := false)))
    else if s.props[k].houses == 0 then Err(NoBuildingToSell)
    else if !HighestInSet(r, s, k) then Err(UnevenBuilding)
    else
      var credited :- Credit(s, p, r.tiles[k].houseCost / 2);
      Ok(WithProperty(credited, k, s.props[k].(houses := s.props[k].houses - 1)))
  }

  // ----- mortgages

  function MortgageProperty(r: Rules, s: State, p: nat, k: nat): (res: Result<State>)
    requires Shape(r, s)
  {
    var g := AssertCanManage(s, p, true, MortgageNotAllowed);
    if g.Some? then Err(g.value)
    else if !r.Ownable(k) then Err(MortgageNotAllowed)
    else if !s.props[k].OwnedBy(p) then Err(PropertyNotOwned)
    else if s.props[k].mortgaged then Err(PropertyAlreadyMortgaged)
    else if r.IsProperty(k) && SetHasBuilding(r, s, k) then Err(PropertyHasBuildings)
    else
      var credited :- Credit(s, p, r.tiles[k].mortgageValue);
      Ok(WithProperty(credited, k, s.props[k].(mortgaged := true)))
  }

  function UnmortgageProperty(r: Rules, s: State, p: nat, k: nat): (res: Result<State>)
    requires Shape(r, s)
  {
    var g := AssertCanManage(s, p, false, MortgageNotAllowed);
    if g.Some? then Err(g.value)
    else if !r.Ownable(k) then Err(MortgageNotAllowed)
    else if !s.props[k].OwnedBy(p) then Err(PropertyNotOwned)
    else if !s.props[k].mortgaged then Err(PropertyNotMortgaged)
    else
      var paid :- Debit(s, p, r.tiles[k].unmortgageCost);
      Ok(WithProperty(paid, k, s.props[k].(mortgaged := false)))
  }

  // ----- debts

  function PayDebt(s: State, p: nat): (res: Result<State>) {
    if s.phase != AwaitingDebt || s.debt.None? then Err(NoActiveDebt)
    else if s.debt.value.player != p then Err(DebtResolutionRequired)
    else
      var debt := s.debt.value;
      var paid :- if debt.creditor.Some? then Transfer(s, p, debt.creditor.value, debt.amount)
                  else Debit(s, p, debt.amount);
      var released := if debt.reason == JailFine && paid.HasPlayer(p) then ReleaseFromJail(paid, p) else paid;
      Ok(released.(phase := AwaitingTurnEnd, debt := None, pending := None, auction := None, playAgain := false))
  }

  // ----- bankruptcy

  function LiquidateProperty(q: PropertyState, p: nat, creditor: Option<nat>): (q': PropertyState) {
    if q.OwnedBy(p) then PropertyState(creditor, 0, false, false) else q
  }

  function LiquidatedPlayer(player: Player): (player': Player) {
    player.(cash := 0, inJail := false, jailTurns := 0, jailCards := 0, jailCardKeys := [], bankrupt := true)
  }

  function Repeat(card: CardKey, n: int): (cards: seq<CardKey>)
    decreases n
  {
    if n <= 0 then [] else [card] + Repeat(card, n - 1)
  }

  function LiquidateAssets(r: Rules, s: State, p: nat, creditor: Option<nat>): (res: Result<State>)
    requires s.HasPlayer(p)
  {
    var player := s.players[p];
    var keys := if |player.jailCardKeys| > 0 then player.jailCardKeys
                else Repeat(r.fallbackJailCard, player.jailCards);
    var returned :- ReturnJailCards(r, s, keys);
    Ok(returned.(players := s.players[p := LiquidatedPlayer(player)],
                 props := seq(|s.props|, k requires 0 <= k < |s.props| => LiquidateProperty(s.props[k], p, creditor)),
                 debt := if s.debt.Some? && s.debt.value.player == p then None else s.debt))
  }

  predicate HumanActive(players: seq<Player>) {
    exists i :: 0 <= i < |players| && !players[i].bankrupt && players[i].playerType == Human
  }

  /** A bankruptcy that leaves fewer than two players, or no human, ends the game. */
  function DeclareBankruptcy(r: Rules, s: State, p: nat, named: Option<nat>): (res: Result<State>) {
    if s.Over() then Err(GameNotActive)
    else if !s.HasPlayer(p) then Err(PlayerNotFound)
    else if s.players[p].bankrupt then Err(PlayerAlreadyBankrupt)
    else
      var creditor := if named.Some? then named
                      else if s.debt.Some? && s.debt.value.player == p then s.debt.value.creditor
                      else None;
      if creditor.Some? && !s.HasPlayer(creditor.value) then Err(PlayerNotFound)
      else if creditor.Some? && (s.players[creditor.value].bankrupt || creditor.value == p)
      then Err(InvalidBankruptcyCreditor)
      else
        var left :- LiquidateAssets(r, s, p, creditor);
        var active := Active(left.players);
        if |active| <= 1 || !HumanActive(left.players) then
          Ok(left.(phase := Finished, current := if |active| > 0 then active[0] else left.current,
                   playAgain := false, doubles := 0, auction := None, trade := None, debt := None, pending := None))
        else if s.current != p then Ok(left)
        else
          Ok(left.(phase := AwaitingRoll, current := NextAfterBankruptcy(left.players, s.players[p].seat),
                   turn := left.turn + 1, playAgain := false, doubles := 0, lastDice := None,
                   auction := None, pending := None))
  }

  // ----- finishing

  function FinishGame(s: State): (s': State) {
    s.(phase := Finished, playAgain := false, doubles := 0, auction := None, pending := None,
       trade := None, debt := None)
  }

  function FinishByTime(s: State, finishedAt: int): (res: Result<State>) {
    if s.Over() then Err(GameNotActive)
    else if finishedAt <= 0 then Err(InvalidFinishTime)
    else if s.Expires() && finishedAt < s.expiresAt.value then Err(GameTimeNotExpired)
    else Ok(FinishGame(s))
  }

  function FinishAfterLastHumanLeft(s: State, finishedAt: int): (res: Result<State>) {
    if s.Over() then Err(GameNotActive)
    else if finishedAt <= 0 then Err(InvalidFinishTime)
    else Ok(FinishGame(s))
  }
}
