/** Accounts forced to implement the whole fat interface
    `IOperacoesBancarias`: each class answers every one of the ten
    operations, and the ones that do not apply to it always raise. */
module IspViolation {
  import opened Outcomes
  import B = BankInterfaces
  import IspSolution

  /** The two classes implementing the fat interface. */
  datatype Tipo = ContaCorrente | ContaPoupanca

  datatype Conta = Conta(tipo: Tipo, saldo: real)

  /** The `NotImplementedException` of a forced stub. */
  datatype Erro = NaoImplementado

  /** The interface groups whose operations are stubs in each class. */
  function Stubs(t: Tipo): (s: set<B.Capacidade>)
    ensures B.Basicas !in s && B.Investimento in s && |s| == 2
    ensures t == ContaCorrente ==> s == {B.Investimento, B.Poupanca}
    ensures t == ContaPoupanca ==> s == {B.Investimento, B.Emprestimo}
  {
    match t
    case ContaCorrente => {B.Investimento, B.Poupanca}
    case ContaPoupanca => {B.Investimento, B.Emprestimo}
  }

  /** Calls one operation; every operation can be called on every class.
      A stub raises, and the account keeps its balance because the caller
      still holds it unchanged. The operations that are implemented behave
      as in the segregated design: unchecked deposit and withdrawal, the
      balance query, and a loan limit of 10000 on the current account. */
  function Executar(c: Conta, op: B.Operacao): (r: Result<B.Resposta, Erro>)
    ensures r.Err? <==> B.Interface(op) in Stubs(c.tipo)
    ensures r.Ok? && B.Interface(op) != B.Basicas ==> r.value.saldo == c.saldo
    ensures r.Ok? ==> (r.value.retorno.Some? <==> B.DevolveValor(op))
    ensures op.Depositar? ==> r == Ok(B.Resposta(c.saldo + op.valor, None))
    ensures op.Sacar? ==> r == Ok(B.Resposta(c.saldo - op.valor, None))
    ensures op.ConsultarSaldo? ==> r == Ok(B.Resposta(c.saldo, Some(c.saldo)))
    ensures c.tipo == ContaCorrente && op.ConsultarLimiteEmprestimo? ==>
      r == Ok(B.Resposta(c.saldo, Some(10000.0)))
  {
    match c.tipo
    case ContaCorrente =>
      (match op
       case Depositar(v) => Ok(B.Resposta(c.saldo + v, None))
       case Sacar(v) => Ok(B.Resposta(c.saldo - v, None))
       case ConsultarSaldo => Ok(B.Resposta(c.saldo, Some(c.saldo)))
       case SolicitarEmprestimo(_) => Ok(B.Resposta(c.saldo, None))
       case ConsultarLimiteEmprestimo => Ok(B.Resposta(c.saldo, Some(10000.0)))
       case InvestirEmAcoes(_) => Err(NaoImplementado)
       case InvestirEmFundos(_) => Err(NaoImplementado)
       case ConsultarRendimento => Err(NaoImplementado)
       case CalcularRendimentoPoupanca => Err(NaoImplementado)
       case ConsultarAniversarioPoupanca => Err(NaoImplementado))
    case ContaPoupanca =>
      (match op
       case Depositar(v) => Ok(B.Resposta(c.saldo + v, None))
       case Sacar(v) => Ok(B.Resposta(c.saldo - v, None))
       case ConsultarSaldo => Ok(B.Resposta(c.saldo, Some(c.saldo)))
       case CalcularRendimentoPoupanca => Ok(B.Resposta(c.saldo, None))
       case ConsultarAniversarioPoupanca => Ok(B.Resposta(c.saldo, None))
       case InvestirEmAcoes(_) => Err(NaoImplementado)
       case InvestirEmFundos(_) => Err(NaoImplementado)
       case ConsultarRendimento => Err(NaoImplementado)
       case SolicitarEmprestimo(_) => Err(NaoImplementado)
       case ConsultarLimiteEmprestimo => Err(NaoImplementado))
  }

  /** The segregated class with the same name. */
  function Segregada(t: Tipo): IspSolution.Tipo {
    match t
    case ContaCorrente => IspSolution.ContaCorrente
    case ContaPoupanca => IspSolution.ContaPoupanca
  }

  /** The forced stubs are exactly the operations the segregated class
      leaves out, and every operation that does not raise answers exactly
      as the segregated class does. */
  lemma StubsAreMissingCapabilities(c: Conta, op: B.Operacao)
    ensures Executar(c, op).Err? <==> B.Interface(op) !in IspSolution.Capacidades(Segregada(c.tipo))
    ensures Executar(c, op).Ok? ==>
      Executar(c, op).value == IspSolution.Executar(IspSolution.Conta(Segregada(c.tipo), c.saldo), op)
  {
  }
}
