/**
 * Users and accounts of the banking simulator: users are looked up by CPF,
 * and an account can only be opened for a user who is already registered.
 */
module Registry {

  datatype Option<T> = None | Some(value: T)

  /** A registered user; the CPF is the key, the other fields are free text. */
  datatype User = User(nome: string, dataNascimento: string, cpf: string, endereco: string)

  /** An account: branch code, account number and the user who holds it. */
  datatype Account = Account(agencia: string, numeroConta: int, usuario: User)

  /** No two users share a CPF. */
  predicate DistinctCpfs(usuarios: seq<User>)
  {
    forall i, j :: 0 <= i < j < |usuarios| ==> usuarios[i].cpf != usuarios[j].cpf
  }

  /** Some user in the list has this CPF. */
  predicate HasCpf(usuarios: seq<User>, cpf: string)
  {
    exists i :: 0 <= i < |usuarios| && usuarios[i].cpf == cpf
  }

  /**
   * The users whose CPF equals `cpf`, in list order: the list comprehension
   * inside `filtrar_usuario`.
   */
  function MatchingUsers(cpf: string, usuarios: seq<User>): (r: seq<User>)
    ensures forall k :: 0 <= k < |r| ==> r[k].cpf == cpf && r[k] in usuarios
    ensures r == [] <==> !HasCpf(usuarios, cpf)
    ensures r != [] ==> (exists i :: 0 <= i < |usuarios| && usuarios[i] == r[0]
                           && forall j :: 0 <= j < i ==> usuarios[j].cpf != cpf)
    decreases usuarios
  {
    if usuarios == [] then []
    else
      var rest := MatchingUsers(cpf, usuarios[1..]);
      assert forall i :: 1 <= i < |usuarios| ==> usuarios[i] == usuarios[1..][i - 1];
      if usuarios[0].cpf == cpf then [usuarios[0]] + rest else rest
  }

  /**
   * `filtrar_usuario`: the first user with this CPF, or `None` when there is
   * none.
   */
  function FindUser(cpf: string, usuarios: seq<User>): (r: Option<User>)
    ensures r.None? <==> !HasCpf(usuarios, cpf)
    ensures r.Some? ==> (exists i :: 0 <= i < |usuarios| && usuarios[i] == r.value
                           && r.value.cpf == cpf && forall j :: 0 <= j < i ==> usuarios[j].cpf != cpf)
  {
    var filtrados := MatchingUsers(cpf, usuarios);
    if filtrados != [] then Some(filtrados[0]) else None
  }

  /** With distinct CPFs, the user found is the only one with that CPF. */
  lemma FindUserUnique(cpf: string, usuarios: seq<User>, k: int)
    requires DistinctCpfs(usuarios)
    requires 0 <= k < |usuarios| && usuarios[k].cpf == cpf
    ensures FindUser(cpf, usuarios) == Some(usuarios[k])
  {
    var r := FindUser(cpf, usuarios);
    var i :| 0 <= i < |usuarios| && usuarios[i] == r.value
      && r.value.cpf == cpf && forall j :: 0 <= j < i ==> usuarios[j].cpf != cpf;
    if i < k {
      assert usuarios[i].cpf == usuarios[k].cpf;
    }
  }

  /** Appending a user whose CPF is new keeps the CPFs distinct. */
  lemma AppendNewCpfKeepsDistinct(usuarios: seq<User>, u: User)
    requires DistinctCpfs(usuarios)
    requires FindUser(u.cpf, usuarios).None?
    ensures DistinctCpfs(usuarios + [u])
    ensures FindUser(u.cpf, usuarios + [u]) == Some(u)
  {
    var us := usuarios + [u];
    forall i, j | 0 <= i < j < |us| ensures us[i].cpf != us[j].cpf {
      if j == |usuarios| {
        assert us[i] == usuarios[i];
      }
    }
    FindUserUnique(u.cpf, us, |usuarios|);
  }

  /**
   * `criar_conta`: an account with the given branch code and number for the
   * user registered under `cpf`, or `None` when no user has that CPF.
   */
  function CreateAccount(agencia: string, numeroConta: int, cpf: string, usuarios: seq<User>): (r: Option<Account>)
    ensures r.None? <==> !HasCpf(usuarios, cpf)
    ensures r.Some? ==> (r.value.agencia == agencia && r.value.numeroConta == numeroConta
                           && r.value.usuario in usuarios && r.value.usuario.cpf == cpf)
    ensures r.Some? ==> FindUser(cpf, usuarios) == Some(r.value.usuario)
  {
    match FindUser(cpf, usuarios)
    case Some(usuario) => Some(Account(agencia, numeroConta, usuario))
    case None => None
  }
}
