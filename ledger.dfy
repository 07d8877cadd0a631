/**
 * The ledger of the banking simulator: one shared balance (`saldo`), the
 * statement log (`extrato`) and the count of successful withdrawals
 * (`numero_saques`), with the two pure operations that rebuild them,
 * `depositar` and `sacar`.
 *
 * Amounts are exact `real`s. The source keeps the statement as text, one
 * formatted line per movement; here each line is an `Entry` holding the kind
 * of movement and its amount.
 */
module Ledger {

  /** The two kinds of statement line, named by the label the statement prints. */
  datatype Kind = Deposito | Saque

  /** One line of the statement. */
  datatype Entry = Entry(kind: Kind, amount: real)

  /** Ceiling on a single withdrawal (`limite` in `main`). */
  const PerWithdrawalCeiling: real := 500.0

  /** Maximum number of successful withdrawals in a session (`LIMITE_SAQUES`). */
  const WithdrawalLimit: int := 3

  /**
   * `depositar`: a positive amount is added to the balance and logged;
   * any other amount leaves both as they were. Returns (saldo, extrato).
   */
  function Deposit(saldo: real, valor: real, extrato: seq<Entry>): (r: (real, seq<Entry>))
    ensures valor > 0.0 ==> r.0 == saldo + valor && r.1 == extrato + [Entry(Deposito, valor)]
    ensures valor <= 0.0 ==> r.0 == saldo && r.1 == extrato
    ensures r.0 >= saldo
  {
    if valor > 0.0 then
      (saldo + valor, extrato + [Entry(Deposito, valor)])
    else
      (saldo, extrato)
  }

  /**
   * The branch `sacar` takes, i.e. the message it reports: one of the four
   * rejection reasons or acceptance.
   */
  datatype Decision =
    | Accept
    | InsufficientBalance
    | ExceedsCeiling
    | LimitReached
    | InvalidAmount

  /**
   * The withdrawal policy. The checks are made in a fixed order and the
   * first one that applies decides: balance, then the per-operation
   * ceiling, then the withdrawal count, then the sign of the amount.
   */
  function Evaluate(saldo: real, valor: real, limite: real, numeroSaques: int, limiteSaques: int): (d: Decision)
    ensures d == InsufficientBalance <==> valor > saldo
    ensures d == ExceedsCeiling <==> valor <= saldo && valor > limite
    ensures d == LimitReached <==> valor <= saldo && valor <= limite && numeroSaques >= limiteSaques
    ensures d == InvalidAmount <==>
      valor <= saldo && valor <= limite && numeroSaques < limiteSaques && valor <= 0.0
    ensures d == Accept <==>
      0.0 < valor <= saldo && valor <= limite && numeroSaques < limiteSaques
  {
    var excedeuSaldo := valor > saldo;
    var excedeuLimite := valor > limite;
    var excedeuSaques := numeroSaques >= limiteSaques;
    if excedeuSaldo then InsufficientBalance
    else if excedeuLimite then ExceedsCeiling
    else if excedeuSaques then LimitReached
    else if valor > 0.0 then Accept
    else InvalidAmount
  }

  /**
   * `sacar`: on acceptance the balance drops by the amount, one "Saque"
   * line is logged and the counter goes up by one, all together; on any
   * rejection the three values come back unchanged.
   * Returns (saldo, extrato, numero_saques).
   */
  function Withdraw(saldo: real, valor: real, extrato: seq<Entry>, limite: real, numeroSaques: int, limiteSaques: int)
    : (r: (real, seq<Entry>, int))
    ensures 0.0 < valor <= saldo && valor <= limite && numeroSaques < limiteSaques ==>
      r.0 == saldo - valor && r.1 == extrato + [Entry(Saque, valor)] && r.2 == numeroSaques + 1
    ensures !(0.0 < valor <= saldo && valor <= limite && numeroSaques < limiteSaques) ==>
      r.0 == saldo && r.1 == extrato && r.2 == numeroSaques
    ensures r.0 >= 0.0 || r.0 == saldo
    ensures r.2 <= limiteSaques || r.2 == numeroSaques
  {
    match Evaluate(saldo, valor, limite, numeroSaques, limiteSaques)
    case Accept => (saldo - valor, extrato + [Entry(Saque, valor)], numeroSaques + 1)
    case _ => (saldo, extrato, numeroSaques)
  }

  /** Deposits minus withdrawals recorded in a statement. */
  function Net(extrato: seq<Entry>): real
  {
    if extrato == [] then 0.0
    else (if extrato[0].kind == Deposito then extrato[0].amount else -extrato[0].amount) + Net(extrato[1..])
  }

  /** Number of "Saque" lines in a statement. */
  function Withdrawals(extrato: seq<Entry>): nat
  {
    if extrato == [] then 0
    else (if extrato[0].kind == Saque then 1 else 0) + Withdrawals(extrato[1..])
  }

  /** Every line of the statement records a positive amount. */
  predicate PositiveAmounts(extrato: seq<Entry>)
  {
    forall i :: 0 <= i < |extrato| ==> extrato[i].amount > 0.0
  }

  lemma {:induction false} NetAppend(extrato: seq<Entry>, e: Entry)
    ensures Net(extrato + [e]) == Net(extrato) + (if e.kind == Deposito then e.amount else -e.amount)
    ensures Withdrawals(extrato + [e]) == Withdrawals(extrato) + (if e.kind == Saque then 1 else 0)
  {
    if extrato == [] {
      assert extrato + [e] == [e];
    } else {
      assert (extrato + [e])[1..] == extrato[1..] + [e];
      NetAppend(extrato[1..], e);
    }
  }

  /**
   * What a session keeps true of its ledger: the balance is never negative,
   * the counter stays within the limit, and the statement accounts for both
   * (its net sum is the balance, its "Saque" lines are the counter).
   */
  predicate Consistent(saldo: real, extrato: seq<Entry>, numeroSaques: int, limiteSaques: int)
  {
    && saldo >= 0.0
    && 0 <= numeroSaques <= limiteSaques
    && PositiveAmounts(extrato)
    && Net(extrato) == saldo
    && Withdrawals(extrato) == numeroSaques
  }

  /** The state `main` starts from is consistent. */
  lemma InitialConsistent()
    ensures Consistent(0.0, [], 0, WithdrawalLimit)
  {
  }

  lemma DepositKeepsConsistent(saldo: real, valor: real, extrato: seq<Entry>, numeroSaques: int, limiteSaques: int)
    requires Consistent(saldo, extrato, numeroSaques, limiteSaques)
    ensures var r := Deposit(saldo, valor, extrato); Consistent(r.0, r.1, numeroSaques, limiteSaques)
  {
    NetAppend(extrato, Entry(Deposito, valor));
  }

  lemma WithdrawKeepsConsistent(saldo: real, valor: real, extrato: seq<Entry>, limite: real, numeroSaques: int, limiteSaques: int)
    requires Consistent(saldo, extrato, numeroSaques, limiteSaques)
    ensures var r := Withdraw(saldo, valor, extrato, limite, numeroSaques, limiteSaques);
      Consistent(r.0, r.1, r.2, limiteSaques)
  {
    NetAppend(extrato, Entry(Saque, valor));
  }

  /** A movement requested from the menu: option `d` or option `s`. */
  datatype Movement = DepositOf(valor: real) | WithdrawalOf(valor: real)

  /** The ledger state threaded through `main` between menu options. */
  datatype State = State(saldo: real, extrato: seq<Entry>, numeroSaques: int)

  /** One movement, applied as `main` does with `limite` and `LIMITE_SAQUES`. */
  function Step(s: State, m: Movement): State
  {
    match m
    case DepositOf(v) =>
      var r := Deposit(s.saldo, v, s.extrato);
      State(r.0, r.1, s.numeroSaques)
    case WithdrawalOf(v) =>
      var r := Withdraw(s.saldo, v, s.extrato, PerWithdrawalCeiling, s.numeroSaques, WithdrawalLimit);
      State(r.0, r.1, r.2)
  }

  /** A whole sequence of movements, applied in order. */
  function Replay(s: State, ms: seq<Movement>): State
    decreases ms
  {
    if ms == [] then s else Replay(Step(s, ms[0]), ms[1..])
  }

  /**
   * Any sequence of deposits and withdrawals keeps the ledger consistent;
   * in particular the balance never becomes negative and the counter never
   * passes the limit.
   */
  lemma {:induction false} ReplayKeepsConsistent(s: State, ms: seq<Movement>)
    requires Consistent(s.saldo, s.extrato, s.numeroSaques, WithdrawalLimit)
    decreases ms
    ensures var t := Replay(s, ms);
      Consistent(t.saldo, t.extrato, t.numeroSaques, WithdrawalLimit) && t.saldo >= 0.0
      && 0 <= t.numeroSaques <= WithdrawalLimit
  {
    if ms != [] {
      match ms[0] {
        case DepositOf(v) =>
          DepositKeepsConsistent(s.saldo, v, s.extrato, s.numeroSaques, WithdrawalLimit);
        case WithdrawalOf(v) =>
          WithdrawKeepsConsistent(s.saldo, v, s.extrato, PerWithdrawalCeiling, s.numeroSaques, WithdrawalLimit);
      }
      ReplayKeepsConsistent(Step(s, ms[0]), ms[1..]);
    }
  }

  /** From the initial state of `main`, whatever the operator enters. */
  lemma SessionLedgerSafe(ms: seq<Movement>)
    ensures var t := Replay(State(0.0, [], 0), ms);
      t.saldo >= 0.0 && 0 <= t.numeroSaques <= WithdrawalLimit && Net(t.extrato) == t.saldo
  {
    InitialConsistent();
    ReplayKeepsConsistent(State(0.0, [], 0), ms);
  }

  /**
   * Once the counter has reached the limit, no further withdrawal goes
   * through: the counter, the number of "Saque" lines and the money taken
   * out stay as they are, whatever movements follow.
   */
  lemma {:induction false} LimitReachedBlocksWithdrawals(s: State, ms: seq<Movement>)
    requires s.numeroSaques >= WithdrawalLimit
    decreases ms
    ensures var t := Replay(s, ms);
      t.numeroSaques == s.numeroSaques
      && Withdrawals(t.extrato) == Withdrawals(s.extrato)
      && t.saldo >= s.saldo
  {
    if ms != [] {
      var next := Step(s, ms[0]);
      if ms[0].DepositOf? {
        NetAppend(s.extrato, Entry(Deposito, ms[0].valor));
      }
      LimitReachedBlocksWithdrawals(next, ms[1..]);
    }
  }

  /**
   * Worked example: deposit 100, withdraw 50, then ask for 600. The 600 is
   * over the ceiling too, but the balance is checked first, so it is refused
   * as insufficient balance; the balance stays 50. With the counter at the
   * limit, 600 against a balance of 1000 is reported as over the ceiling and
   * -10 as the limit reached: an earlier check hides a later one.
   */
  lemma ExampleSession()
    ensures var s := Replay(State(0.0, [], 0), [DepositOf(100.0), WithdrawalOf(50.0), WithdrawalOf(600.0)]);
      s == State(50.0, [Entry(Deposito, 100.0), Entry(Saque, 50.0)], 1)
    ensures Evaluate(50.0, 600.0, PerWithdrawalCeiling, 1, WithdrawalLimit) == InsufficientBalance
    ensures Evaluate(1000.0, 600.0, PerWithdrawalCeiling, 3, WithdrawalLimit) == ExceedsCeiling
    ensures Evaluate(1000.0, -10.0, PerWithdrawalCeiling, 3, WithdrawalLimit) == LimitReached
    ensures Evaluate(0.0, -10.0, PerWithdrawalCeiling, 0, WithdrawalLimit) == InvalidAmount
  {
    var ms := [DepositOf(100.0), WithdrawalOf(50.0), WithdrawalOf(600.0)];
    assert ms[1..] == [WithdrawalOf(50.0), WithdrawalOf(600.0)];
    assert ms[1..][1..] == [WithdrawalOf(600.0)];
  }
}
