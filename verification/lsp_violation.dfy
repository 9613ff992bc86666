/** The account hierarchy that breaks the base contract: the savings
    account adds a calendar condition to `Sacar`. The day of the month,
    read from the clock in C#, is a parameter here. */
module LspViolation {
  import opened Outcomes
  import LspSolution

  /** A day of the month, as `DateTime.Now.Day` can return it. */
  type Dia = d: int | 1 <= d <= 31 witness 1

  /** The two concrete subclasses of the abstract `ContaBancaria`. */
  datatype Tipo = ContaCorrente | ContaPoupanca

  datatype Conta = Conta(tipo: Tipo, numero: string, saldo: real)

  /** The two `InvalidOperationException`s `Sacar` can raise. */
  datatype Erro =
    | SaldoInsuficiente  // "Saldo insuficiente"
    | ForaDoDiaDeSaque   // "Conta poupança só permite saque após dia 30"

  /** The base class's `Sacar`: throws when the amount exceeds the balance,
      otherwise subtracts it. */
  function BaseSacar(c: Conta, valor: real): (r: Result<Conta, Erro>)
    ensures r.Err? <==> valor > c.saldo
    ensures r.Err? ==> r.error == SaldoInsuficiente
    ensures r.Ok? ==> r.value.saldo == c.saldo - valor
    ensures r.Ok? ==> r.value.tipo == c.tipo && r.value.numero == c.numero
  {
    if valor > c.saldo then Err(SaldoInsuficiente)
    else Ok(c.(saldo := c.saldo - valor))
  }

  /** `Depositar`: adds any amount, negative ones included. */
  function Depositar(c: Conta, valor: real): (r: Conta)
    ensures r.saldo - c.saldo == valor
    ensures r.tipo == c.tipo && r.numero == c.numero
  {
    c.(saldo := c.saldo + valor)
  }

  /** The overridden `Sacar` of each class on day `dia`. The current
      account's override repeats the base; the savings account's first
      refuses every day before the 30th. */
  function Sacar(c: Conta, valor: real, dia: Dia): (r: Result<Conta, Erro>)
    ensures c.tipo == ContaCorrente ==> r == BaseSacar(c, valor)
    ensures c.tipo == ContaPoupanca && dia < 30 ==> r == Err(ForaDoDiaDeSaque)
    ensures c.tipo == ContaPoupanca && dia >= 30 ==> r == BaseSacar(c, valor)
    ensures r.Err? ==> valor > c.saldo || (c.tipo == ContaPoupanca && dia < 30)
  {
    match c.tipo
    case ContaCorrente =>
      if valor > c.saldo then Err(SaldoInsuficiente)
      else Ok(c.(saldo := c.saldo - valor))
    case ContaPoupanca =>
      if dia < 30 then Err(ForaDoDiaDeSaque)
      else if valor > c.saldo then Err(SaldoInsuficiente)
      else Ok(c.(saldo := c.saldo - valor))
  }

  /** `ProcessadorTransacao.ProcessarSaque`: calls `Sacar` without asking,
      so every refusal reaches the caller. */
  function ProcessarSaque(c: Conta, valor: real, dia: Dia): (r: Result<Conta, Erro>)
    ensures r.Err? <==> Sacar(c, valor, dia).Err?
    ensures r.Err? ==> r.error == Sacar(c, valor, dia).error
    ensures r.Ok? ==> r.value.saldo == c.saldo - valor
    ensures r.Ok? ==> r.value.tipo == c.tipo && r.value.numero == c.numero
  {
    Sacar(c, valor, dia)
  }

  /** The processor is not substitutable: given a current account and a
      savings account with the same balance, on a day before the 30th it
      carries out a covered withdrawal on the first and hands the savings
      account's calendar refusal to its caller for the second. */
  lemma ProcessarSaqueNotSubstitutable(corrente: Conta, poupanca: Conta, valor: real, dia: Dia)
    requires corrente.tipo == ContaCorrente && poupanca.tipo == ContaPoupanca
    requires corrente.saldo == poupanca.saldo
    requires dia < 30 && valor <= corrente.saldo
    ensures ProcessarSaque(corrente, valor, dia).Ok?
    ensures ProcessarSaque(corrente, valor, dia).value.saldo == corrente.saldo - valor
    ensures ProcessarSaque(poupanca, valor, dia) == Err(ForaDoDiaDeSaque)
  {
  }

  /** Precondition strengthening: whatever the savings account accepts the
      base class accepts too, with the same result, and on every day before
      the 30th it refuses withdrawals the base class would carry out. */
  lemma PoupancaAcceptsStrictlyFewer(c: Conta, valor: real, dia: Dia)
    requires c.tipo == ContaPoupanca
    ensures Sacar(c, valor, dia).Ok? ==> Sacar(c, valor, dia) == BaseSacar(c, valor)
    ensures dia < 30 && valor <= c.saldo ==>
      BaseSacar(c, valor).Ok? && Sacar(c, valor, dia).Err?
  {
  }

  /** The current account never departs from the base class, whatever the
      day. */
  lemma CorrenteIsSubstitutable(c: Conta, valor: real, d1: Dia, d2: Dia)
    requires c.tipo == ContaCorrente
    ensures Sacar(c, valor, d1) == Sacar(c, valor, d2) == BaseSacar(c, valor)
  {
  }

  /** Deposits are not validated here, so a deposit can drive the balance
      below zero, where the contract-keeping hierarchy would refuse it. */
  lemma NegativeDepositAccepted(c: Conta, valor: real)
    requires valor < 0.0
    ensures Depositar(c, valor).saldo < c.saldo
    ensures LspSolution.Depositar(LspSolution.Conta(LspSolution.ContaCorrente, c.numero, c.saldo), valor)
      == Err(LspSolution.ValorNaoPositivo)
  {
  }

  /** The base `Sacar` here and the contract-keeping `Sacar` accept exactly
      the same withdrawals and leave the same balance. */
  lemma BaseAgreesWithSolution(c: Conta, s: LspSolution.Conta, valor: real)
    requires s.saldo == c.saldo
    ensures BaseSacar(c, valor).Ok? <==> LspSolution.Sacar(s, valor).Ok?
    ensures BaseSacar(c, valor).Ok? ==>
      BaseSacar(c, valor).value.saldo == LspSolution.Sacar(s, valor).value.saldo
  {
  }
}
