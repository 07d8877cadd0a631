# Banking simulator: ledger and registries

A model of the transaction and registry engine of a single-session, in-memory
banking simulator (`main.py`). One session holds a single shared balance
(`saldo`), a statement (`extrato`), a count of successful withdrawals
(`numero_saques`), a list of users (`usuarios`) and a list of accounts
(`contas`).

- `ledger.dfy`, module `Ledger`: `depositar` and `sacar` as pure functions
  returning the new `(saldo, extrato[, numero_saques])`, plus the withdrawal
  policy (`Evaluate`), the branch `sacar` takes. The statement is a sequence
  of `Entry(kind, amount)` lines, not formatted text. A consistency predicate
  says the balance is non-negative, the counter is within the limit, and the
  statement accounts for both. It is proved to hold across any sequence of
  deposits and withdrawals from `main`'s initial state.
- `registry.dfy`, module `Registry`: users and accounts as records.
  `filtrar_usuario` is its list comprehension plus "first or `None`".
  `criar_conta` is a pure function of the already-read CPF.
- `bank.dfy`, module `Bank`: class `Session` holds `main`'s state. Its
  methods are the `d`, `s`, `nu` (`criar_usuario`, which appends to the user
  list in place) and `nc` options. Its invariant `Valid()` has three parts:
  the ledger is consistent, CPFs are pairwise distinct, and accounts are
  numbered 1..n in creation order, in branch `"0001"`, each held by a
  registered user.

Amounts are exact `real`s. Console input is replaced by parameters: the
amount for `d`/`s`; the CPF, name, birth date and address for `nu`; the CPF
for `nc`.

The withdrawal checks run in the code's order: balance, ceiling, counter,
sign. So a request for 600 against a balance of 50 is refused as
insufficient balance, not as over the ceiling. A request for -10 against a
balance of 0 is refused as an invalid amount, because -10 is not greater
than 0. `Ledger.ExampleSession` states both cases.

## Model

| member | source | states |
|---|---|---|
| Ledger.Deposit | main.py:21-32 | A positive amount raises the balance by exactly that amount and appends exactly one deposit line. Any other amount returns balance and statement unchanged. The balance never decreases. |
| Ledger.Evaluate | main.py:39-55 | Precedence of the outcome, each case as an if-and-only-if. Insufficient balance when amount > balance. Over the ceiling only when the balance check passes. Limit reached only when both earlier checks pass. Invalid amount only when all three pass and amount <= 0. Accepted exactly when 0 < amount <= balance, amount <= ceiling and counter < limit. |
| Ledger.Withdraw | main.py:35-57 | When the acceptance condition holds, the balance drops by exactly the amount, one withdrawal line is appended and the counter rises by exactly 1. Otherwise all three values equal the inputs. The result balance is never negative unless it was passed in that way. |
| Ledger.InitialConsistent | main.py:136-142 | `main`'s initial state (balance 0, empty statement, counter 0, limit 3) is consistent. |
| Ledger.DepositKeepsConsistent | main.py:25-27 | A deposit keeps the balance non-negative, keeps every logged amount positive and keeps the statement's net sum equal to the balance. |
| Ledger.WithdrawKeepsConsistent | main.py:39-52 | A withdrawal keeps the balance non-negative and the counter within the limit. It keeps the net sum equal to the balance, and the number of withdrawal lines equal to the counter. |
| Ledger.ReplayKeepsConsistent | main.py:149-162 | Any sequence of `d`/`s` options keeps the ledger consistent. So the balance is >= 0 and 0 <= counter <= 3 after every step. |
| Ledger.SessionLedgerSafe | main.py:139-162 | From `saldo = 0` and `numero_saques = 0`, any sequence of deposits and withdrawals leaves balance >= 0 and counter <= 3. The statement's net sum equals the balance. |
| Ledger.LimitReachedBlocksWithdrawals | main.py:41-52 | Once the counter is at the limit, any later sequence of movements leaves the counter and the number of withdrawal lines unchanged. The balance never drops below its value at that point. |
| Ledger.ExampleSession | main.py:39-55 | Deposit 100, withdraw 50, withdraw 600 ends at balance 50 with two lines and counter 1. The 600 is refused as insufficient balance. Further cases show each earlier check hiding a later one. |
| Registry.MatchingUsers | main.py:95 | Every user returned has the CPF and is in the list. The result is empty iff no user has the CPF. Its first element is the first user in list order with that CPF. |
| Registry.FindUser | main.py:91-96 | `None` iff no user has the CPF. Otherwise the result is the user at the first position with that CPF. |
| Registry.FindUserUnique | main.py:95-96 | When CPFs are distinct, the lookup returns the one user holding the CPF. |
| Registry.AppendNewCpfKeepsDistinct | main.py:75-87 | Appending a user whose CPF is not found keeps CPFs pairwise distinct. The new user is then what the lookup returns. |
| Registry.CreateAccount | main.py:99-111 | `None` iff no user has the CPF. Otherwise the account carries the given branch code and number, and the user the lookup finds, who is registered and has that CPF. |
| Bank.NumbersAreDistinct | main.py:171-174 | In a validly numbered account list, earlier accounts have strictly smaller numbers. |
| Bank.Session.constructor | main.py:139-144 | The session starts with balance 0, an empty statement, counter 0 and no users or accounts, and satisfies the invariant. |
| Bank.Session.DepositOption | main.py:149-151 | Balance and statement become `depositar`'s result. Nothing else changes, and the invariant is kept. |
| Bank.Session.WithdrawOption | main.py:153-162 | Balance, statement and counter become `sacar`'s result with ceiling 500 and limit 3. Users and accounts are unchanged, and the invariant is kept. |
| Bank.Session.NewUser | main.py:70-88 | A user is appended iff no user had the CPF. A duplicate CPF leaves the list unchanged. Afterwards the CPF is always found. CPFs stay distinct, and nothing else changes. |
| Bank.Session.NewAccount | main.py:170-174 | With number len(contas) + 1, an account is appended iff the CPF belongs to a user. The account is (branch "0001", that number, the found user); otherwise the list is unchanged. The invariant keeps numbers exactly 1..n in creation order. |

## Left out

- The menu, the `while True` dispatch and the `q`/`e`/`lc`/invalid-option branches (main.py:4-18, 146-184): console interaction only.
- `exibir_extrato` and `listar_contas` (main.py:60-67, 114-129): they only print the state.
- Every `input()` prompt and `print()` message. The values read are parameters. The printed messages correspond to `Ledger.Decision` and to the `created`/`conta` results.
- Parsing amounts with `float(...)`, floating-point rounding, and `nan`/`inf` inputs. Amounts are exact reals. The `:.2f` formatting of statement lines is also left out: a line is `(kind, amount)`.
- `textwrap.dedent`: a library formatting call.
- Identity of the account's user. The account holds a copy of the user record rather than a shared reference. Users are never changed after creation, so the two cannot be told apart.
