/**
 * The state `main` keeps across menu options and the four options that
 * change it: `d` (deposit), `s` (withdraw), `nu` (new user, `criar_usuario`)
 * and `nc` (new account). Reading the option and the amounts or strings
 * from the console is left to the caller: each option receives them as
 * parameters.
 */
module Bank {
  import opened Ledger
  import opened Registry

  /** Branch code given to every account (`AGENCIA`). */
  const Agencia: string := "0001"

  /**
   * The accounts are numbered 1, 2, ... in the order they were opened, all
   * in the session's branch, each held by a registered user.
   */
  predicate AccountsNumbered(contas: seq<Account>, usuarios: seq<User>)
  {
    forall i :: 0 <= i < |contas| ==>
      contas[i].numeroConta == i + 1 && contas[i].agencia == Agencia && contas[i].usuario in usuarios
  }

  /** Account numbers are never shared. */
  lemma NumbersAreDistinct(contas: seq<Account>, usuarios: seq<User>, i: int, j: int)
    requires AccountsNumbered(contas, usuarios)
    requires 0 <= i < j < |contas|
    ensures contas[i].numeroConta < contas[j].numeroConta
  {
  }

  class Session {
    var saldo: real
    var extrato: seq<Entry>
    var numeroSaques: int
    var usuarios: seq<User>
    var contas: seq<Account>

    ghost predicate Valid()
      reads this
    {
      && Consistent(saldo, extrato, numeroSaques, WithdrawalLimit)
      && DistinctCpfs(usuarios)
      && AccountsNumbered(contas, usuarios)
    }

    /** The state `main` starts with. */
    constructor ()
      ensures Valid()
      ensures saldo == 0.0 && extrato == [] && numeroSaques == 0
      ensures usuarios == [] && contas == []
    {
      saldo, extrato, numeroSaques := 0.0, [], 0;
      usuarios, contas := [], [];
    }

    /** Option `d`: the balance and statement become what `depositar` returns. */
    method DepositOption(valor: real)
      requires Valid()
      modifies this
      ensures Valid()
      ensures (saldo, extrato) == Deposit(old(saldo), valor, old(extrato))
      ensures numeroSaques == old(numeroSaques) && usuarios == old(usuarios) && contas == old(contas)
    {
      DepositKeepsConsistent(saldo, valor, extrato, numeroSaques, WithdrawalLimit);
      var r := Deposit(saldo, valor, extrato);
      saldo, extrato := r.0, r.1;
    }

    /**
     * Option `s`: balance, statement and counter become what `sacar` returns
     * with the session's ceiling and withdrawal limit.
     */
    method WithdrawOption(valor: real)
      requires Valid()
      modifies this
      ensures Valid()
      ensures (saldo, extrato, numeroSaques)
        == Withdraw(old(saldo), valor, old(extrato), PerWithdrawalCeiling, old(numeroSaques), WithdrawalLimit)
      ensures usuarios == old(usuarios) && contas == old(contas)
    {
      WithdrawKeepsConsistent(saldo, valor, extrato, PerWithdrawalCeiling, numeroSaques, WithdrawalLimit);
      var r := Withdraw(saldo, valor, extrato, PerWithdrawalCeiling, numeroSaques, WithdrawalLimit);
      saldo, extrato, numeroSaques := r.0, r.1, r.2;
    }

    /**
     * Option `nu` (`criar_usuario`): a user is added at the end of the list
     * only when no user has that CPF yet; otherwise nothing changes.
     */
    method NewUser(cpf: string, nome: string, dataNascimento: string, endereco: string) returns (created: bool)
      requires Valid()
      modifies this
      ensures Valid()
      ensures created <==> !HasCpf(old(usuarios), cpf)
      ensures usuarios == if created then old(usuarios) + [User(nome, dataNascimento, cpf, endereco)]
                          else old(usuarios)
      ensures FindUser(cpf, usuarios).Some?
      ensures saldo == old(saldo) && extrato == old(extrato) && numeroSaques == old(numeroSaques)
      ensures contas == old(contas)
    {
      var usuario := FindUser(cpf, usuarios);
      if usuario.Some? {
        created := false;
        return;
      }
      var novo := User(nome, dataNascimento, cpf, endereco);
      AppendNewCpfKeepsDistinct(usuarios, novo);
      usuarios := usuarios + [novo];
      created := true;
    }

    /**
     * Option `nc`: the next number is one more than the number of accounts;
     * the account `criar_conta` builds is appended only when the CPF belongs
     * to a registered user.
     */
    method NewAccount(cpf: string) returns (conta: Option<Account>)
      requires Valid()
      modifies this
      ensures Valid()
      ensures conta.None? <==> !HasCpf(usuarios, cpf)
      ensures conta.Some? ==> conta.value == Account(Agencia, |old(contas)| + 1, FindUser(cpf, usuarios).value)
      ensures contas == if conta.Some? then old(contas) + [conta.value] else old(contas)
      ensures saldo == old(saldo) && extrato == old(extrato) && numeroSaques == old(numeroSaques)
      ensures usuarios == old(usuarios)
    {
      var numeroConta := |contas| + 1;
      conta := CreateAccount(Agencia, numeroConta, cpf, usuarios);
      if conta.Some? {
        contas := contas + [conta.value];
      }
    }
  }

  /**
   * Example session: registering CPF "111" twice leaves one user; opening an
   * account for an unknown CPF adds nothing; two accounts for the same user
   * are numbered 1 and 2.
   */
  method ExampleRegistry()
  {
    var s := new Session();
    var ok := s.NewUser("111", "Ana", "01-01-1990", "Rua A, 1 - Centro - Cidade/UF");
    assert ok && |s.usuarios| == 1;
    ok := s.NewUser("111", "Outra", "02-02-1992", "Rua B, 2 - Centro - Cidade/UF");
    assert !ok && |s.usuarios| == 1;
    var c := s.NewAccount("999");
    assert c.None? && s.contas == [];
    c := s.NewAccount("111");
    assert c.Some? && c.value.numeroConta == 1;
    c := s.NewAccount("111");
    assert c.Some? && c.value.numeroConta == 2 && |s.contas| == 2;
  }
}
