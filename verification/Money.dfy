/** Cash movements between players and the bank (game-engine-money.ts). */
module Money {
  import opened Rules
  import opened State

  function Debit(s: State, p: nat, amount: int): (res: Result<State>) {
    if amount < 0 then Err(NegativeAmount)
    else if !s.HasPlayer(p) then Err(PlayerNotFound)
    else if s.players[p].cash < amount then Err(InsufficientFunds)
    else Ok(WithCash(s, p, s.players[p].cash - amount))
  }

  function Credit(s: State, p: nat, amount: int): (res: Result<State>) {
    if amount < 0 then Err(NegativeAmount)
    else if !s.HasPlayer(p) then Err(PlayerNotFound)
    else Ok(WithCash(s, p, s.players[p].cash + amount))
  }

  function Transfer(s: State, from: nat, to: nat, amount: int): (res: Result<State>) {
    var debited :- Debit(s, from, amount);
    Credit(debited, to, amount)
  }

  function CreateDebt(s: State, debt: Debt): (s': State) {
    s.(phase := AwaitingDebt, pending := None, auction := None, debt := Some(debt), playAgain := false)
  }

  datatype Payment = Payment(state: State, paid: bool)

  function DebitOrDebt(s: State, p: nat, amount: int, reason: DebtReason): (res: Result<Payment>) {
    if !s.HasPlayer(p) then Err(PlayerNotFound)
    else if amount < 0 then Err(NegativeAmount)
    else if s.players[p].cash >= amount then
      var paid :- Debit(s, p, amount);
      Ok(Payment(paid, true))
    else
      Ok(Payment(CreateDebt(s, Debt(p, None, amount, reason)), false))
  }

  function TransferOrDebt(s: State, from: nat, to: nat, amount: int, reason: DebtReason): (res: Result<Payment>) {
    if !s.HasPlayer(from) || !s.HasPlayer(to) then Err(PlayerNotFound)
    else if s.players[from].cash >= amount then
      var paid :- Transfer(s, from, to, amount);
      Ok(Payment(paid, true))
    else
      Ok(Payment(CreateDebt(s, Debt(from, Some(to), amount, reason)), false))
  }

  // ----- total cash

  function CashUpTo(players: seq<Player>, n: nat): (sum: int)
    requires n <= |players|
  {
    if n == 0 then 0 else CashUpTo(players, n - 1) + players[n - 1].cash
  }

  function TotalCash(players: seq<Player>): (sum: int) {
    CashUpTo(players, |players|)
  }

  lemma {:induction false} CashUpdate(players: seq<Player>, p: nat, player: Player, n: nat)
    requires p < |players| && n <= |players|
    ensures CashUpTo(players[p := player], n)
         == CashUpTo(players, n) + if p < n then player.cash - players[p].cash else 0
  {
    if n > 0 {
      CashUpdate(players, p, player, n - 1);
    }
  }

  /** A transfer between players is accepted exactly when the payer can pay, and creates no money. */
  lemma TransferConserves(s: State, from: nat, to: nat, amount: int)
    requires s.HasPlayer(from) && s.HasPlayer(to) && amount >= 0
    ensures Transfer(s, from, to, amount).Ok? <==> s.players[from].cash >= amount
    ensures Transfer(s, from, to, amount).Ok? ==>
              TotalCash(Transfer(s, from, to, amount).value.players) == TotalCash(s.players)
  {
    if s.players[from].cash >= amount {
      var paid := Debit(s, from, amount).value;
      CashUpdate(s.players, from, s.players[from].(cash := s.players[from].cash - amount), |s.players|);
      CashUpdate(paid.players, to, paid.players[to].(cash := paid.players[to].cash + amount), |s.players|);
    }
  }
}
