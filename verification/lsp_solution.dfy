/** The account hierarchy that keeps the base contract: every variant
    decides a withdrawal from the pair (balance, amount) alone, and the
    transaction processor only withdraws after asking the account first. */
module LspSolution {
  import opened Outcomes

  /** The three concrete subclasses of the abstract `ContaBancaria`. */
  datatype Tipo = ContaCorrente | ContaPoupanca | ContaInvestimento

  /** An account: its concrete class, its number and its balance. */
  datatype Conta = Conta(tipo: Tipo, numero: string, saldo: real)

  /** The two exceptions the accounts throw. */
  datatype Erro =
    | ValorNaoPositivo   // ArgumentException raised by Depositar
    | SaldoInsuficiente  // InvalidOperationException raised by Sacar

  /** `Depositar`, shared by every variant: rejects a non-positive amount,
      otherwise adds it to the balance. */
  function Depositar(c: Conta, valor: real): (r: Result<Conta, Erro>)
    ensures r.Err? <==> valor <= 0.0
    ensures r.Err? ==> r.error == ValorNaoPositivo
    ensures r.Ok? ==> r.value.saldo == c.saldo + valor && r.value.saldo > c.saldo
    ensures r.Ok? ==> r.value.tipo == c.tipo && r.value.numero == c.numero
  {
    if valor <= 0.0 then Err(ValorNaoPositivo)
    else Ok(c.(saldo := c.saldo + valor))
  }

  /** `PodeSacar`, overridden by each variant. Each override asks only whether
      the amount fits in the balance; none rejects a non-positive amount. */
  function PodeSacar(c: Conta, valor: real): (pode: bool)
    ensures pode <==> valor <= c.saldo
  {
    match c.tipo
    case ContaCorrente => valor <= c.saldo
    case ContaPoupanca => valor <= c.saldo
    case ContaInvestimento => valor <= c.saldo
  }

  /** The withdrawal every variant performs once its guard has passed. */
  function Debitar(c: Conta, valor: real): Conta {
    c.(saldo := c.saldo - valor)
  }

  /** `Sacar`, overridden by each variant: throws when `PodeSacar` fails,
      otherwise subtracts the amount. */
  function Sacar(c: Conta, valor: real): (r: Result<Conta, Erro>)
    ensures r.Err? <==> valor > c.saldo
    ensures r.Err? ==> r.error == SaldoInsuficiente
    ensures r.Ok? ==> r.value.saldo == c.saldo - valor && r.value.saldo >= 0.0
    ensures r.Ok? ==> r.value.tipo == c.tipo && r.value.numero == c.numero
  {
    match c.tipo
    case ContaCorrente =>
      if !PodeSacar(c, valor) then Err(SaldoInsuficiente) else Ok(Debitar(c, valor))
    case ContaPoupanca =>
      if !PodeSacar(c, valor) then Err(SaldoInsuficiente) else Ok(Debitar(c, valor))
    case ContaInvestimento =>
      if !PodeSacar(c, valor) then Err(SaldoInsuficiente) else Ok(Debitar(c, valor))
  }

  /** What `ProcessarSaque` leaves behind: the account, and whether the
      withdrawal was carried out ("Saque realizado") or refused
      ("Saque não permitido"). */
  datatype Saque = Saque(conta: Conta, realizado: bool)

  /** `ProcessadorTransacao.ProcessarSaque`: asks `PodeSacar` and calls
      `Sacar` only when it agrees, so it never raises. */
  function ProcessarSaque(c: Conta, valor: real): (r: Saque)
    ensures r.realizado <==> valor <= c.saldo
    ensures r.realizado ==> Sacar(c, valor) == Ok(r.conta)
    ensures !r.realizado ==> r.conta == c
    ensures r.conta.tipo == c.tipo && r.conta.numero == c.numero
  {
    if PodeSacar(c, valor) then
      match Sacar(c, valor)
      case Ok(c') => Saque(c', true)
      case Err(_) => Saque(c, false)
    else Saque(c, false)
  }

  /** `ProcessadorTransacao.ProcessarDeposito`: hands the amount to
      `Depositar` and lets its rejection propagate. */
  function ProcessarDeposito(c: Conta, valor: real): (r: Result<Conta, Erro>)
    ensures r == Depositar(c, valor)
    ensures r.Err? <==> valor <= 0.0
  {
    Depositar(c, valor)
  }

  /** Substitutability: two accounts of any two variants holding the same
      balance get the same answer from the guard, the same outcome from
      `Sacar` and the same balance from the processor. */
  lemma Substitutability(a: Conta, b: Conta, valor: real)
    requires a.saldo == b.saldo
    ensures PodeSacar(a, valor) == PodeSacar(b, valor)
    ensures Sacar(a, valor).Ok? == Sacar(b, valor).Ok?
    ensures Sacar(a, valor).Ok? ==> Sacar(a, valor).value.saldo == Sacar(b, valor).value.saldo
    ensures ProcessarSaque(a, valor).realizado == ProcessarSaque(b, valor).realizado
    ensures ProcessarSaque(a, valor).conta.saldo == ProcessarSaque(b, valor).conta.saldo
  {
  }

  /** The guard lets a negative amount through, and "withdrawing" it raises
      the balance. */
  lemma NegativeWithdrawalRaisesBalance(c: Conta, valor: real)
    requires valor < 0.0 && c.saldo >= 0.0
    ensures PodeSacar(c, valor)
    ensures Sacar(c, valor).Ok? && Sacar(c, valor).value.saldo > c.saldo
  {
  }

  /** One request to the transaction processor. */
  datatype Transacao = PedidoSaque(valor: real) | PedidoDeposito(valor: real)

  /** Feeds the requests one by one to the processor. A refused withdrawal
      is skipped; a rejected deposit raises and ends the run. */
  function Executar(c: Conta, ts: seq<Transacao>): Result<Conta, Erro>
    decreases |ts|
  {
    if ts == [] then Ok(c)
    else match ts[0]
      case PedidoSaque(v) => Executar(ProcessarSaque(c, v).conta, ts[1..])
      case PedidoDeposito(v) =>
        match ProcessarDeposito(c, v)
        case Ok(c') => Executar(c', ts[1..])
        case Err(e) => Err(e)
  }

  /** An account that starts with a non-negative balance keeps one through
      any run of the processor. */
  lemma {:induction false} ExecutarKeepsBalanceNonNegative(c: Conta, ts: seq<Transacao>)
    requires c.saldo >= 0.0
    ensures Executar(c, ts).Ok? ==> Executar(c, ts).value.saldo >= 0.0
    decreases |ts|
  {
    if ts != [] {
      match ts[0]
      case PedidoSaque(v) =>
        ExecutarKeepsBalanceNonNegative(ProcessarSaque(c, v).conta, ts[1..]);
      case PedidoDeposito(v) =>
        if ProcessarDeposito(c, v).Ok? {
          ExecutarKeepsBalanceNonNegative(ProcessarDeposito(c, v).value, ts[1..]);
        }
    }
  }

  /** A run never changes an account's number or its variant. */
  lemma {:induction false} ExecutarKeepsIdentity(c: Conta, ts: seq<Transacao>)
    ensures Executar(c, ts).Ok? ==>
      Executar(c, ts).value.numero == c.numero && Executar(c, ts).value.tipo == c.tipo
    decreases |ts|
  {
    if ts != [] {
      match ts[0]
      case PedidoSaque(v) =>
        ExecutarKeepsIdentity(ProcessarSaque(c, v).conta, ts[1..]);
      case PedidoDeposito(v) =>
        if ProcessarDeposito(c, v).Ok? {
          ExecutarKeepsIdentity(ProcessarDeposito(c, v).value, ts[1..]);
        }
    }
  }

  /** Substitutability over whole runs: the processor cannot tell the
      variants apart, so accounts that start with the same balance end with
      the same outcome and the same balance. */
  lemma {:induction false} ExecutarSubstitutable(a: Conta, b: Conta, ts: seq<Transacao>)
    requires a.saldo == b.saldo
    ensures Executar(a, ts).Ok? == Executar(b, ts).Ok?
    ensures Executar(a, ts).Ok? ==> Executar(a, ts).value.saldo == Executar(b, ts).value.saldo
    ensures Executar(a, ts).Err? ==> Executar(a, ts).error == Executar(b, ts).error
    decreases |ts|
  {
    if ts != [] {
      match ts[0]
      case PedidoSaque(v) =>
        ExecutarSubstitutable(ProcessarSaque(a, v).conta, ProcessarSaque(b, v).conta, ts[1..]);
      case PedidoDeposito(v) =>
        if ProcessarDeposito(a, v).Ok? {
          ExecutarSubstitutable(ProcessarDeposito(a, v).value, ProcessarDeposito(b, v).value, ts[1..]);
        }
    }
  }

  /** The concrete scenario: 1000 on the account, 500 leaves it at 500; 600
      more is then refused and the balance stays 500; a deposit of -10 is
      rejected. */
  lemma Scenario(c: Conta)
    requires c.saldo == 1000.0
    ensures Sacar(c, 500.0).Ok? && Sacar(c, 500.0).value.saldo == 500.0
    ensures Sacar(Sacar(c, 500.0).value, 600.0) == Err(SaldoInsuficiente)
    ensures ProcessarSaque(Sacar(c, 500.0).value, 600.0).conta.saldo == 500.0
    ensures Depositar(Sacar(c, 500.0).value, -10.0) == Err(ValorNaoPositivo)
  {
  }
}
