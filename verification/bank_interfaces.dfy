/** The bank operations shared by both account designs: the ten methods of
    the fat interface `IOperacoesBancarias`, and which of the four small
    interfaces of the segregated design declares each one. */
module BankInterfaces {
  import opened Outcomes

  /** The four segregated interfaces. */
  datatype Capacidade =
    | Basicas       // IOperacoesBasicas
    | Investimento  // IOperacoesInvestimento
    | Emprestimo    // IOperacoesEmprestimo
    | Poupanca      // IOperacoesPoupanca

  /** One call of an account operation, with its amount where it takes one. */
  datatype Operacao =
    | Depositar(valor: real)
    | Sacar(valor: real)
    | ConsultarSaldo
    | InvestirEmAcoes(valor: real)
    | InvestirEmFundos(valor: real)
    | ConsultarRendimento
    | SolicitarEmprestimo(valor: real)
    | ConsultarLimiteEmprestimo
    | CalcularRendimentoPoupanca
    | ConsultarAniversarioPoupanca

  /** The segregated interface that declares an operation. */
  function Interface(op: Operacao): (cap: Capacidade)
    ensures cap == Basicas <==> op.Depositar? || op.Sacar? || op.ConsultarSaldo?
    ensures cap == Investimento <==>
      op.InvestirEmAcoes? || op.InvestirEmFundos? || op.ConsultarRendimento?
    ensures cap == Emprestimo <==> op.SolicitarEmprestimo? || op.ConsultarLimiteEmprestimo?
    ensures cap == Poupanca <==> op.CalcularRendimentoPoupanca? || op.ConsultarAniversarioPoupanca?
  {
    match op
    case Depositar(_) => Basicas
    case Sacar(_) => Basicas
    case ConsultarSaldo => Basicas
    case InvestirEmAcoes(_) => Investimento
    case InvestirEmFundos(_) => Investimento
    case ConsultarRendimento => Investimento
    case SolicitarEmprestimo(_) => Emprestimo
    case ConsultarLimiteEmprestimo => Emprestimo
    case CalcularRendimentoPoupanca => Poupanca
    case ConsultarAniversarioPoupanca => Poupanca
  }

  /** The three queries that return an amount; every other operation is
      `void` in C#, or returns a date that is not modelled. */
  predicate DevolveValor(op: Operacao) {
    op.ConsultarSaldo? || op.ConsultarRendimento? || op.ConsultarLimiteEmprestimo?
  }

  /** What an operation leaves behind: the balance afterwards and the
      amount it returns, if it returns one (`ConsultarSaldo`,
      `ConsultarRendimento`, `ConsultarLimiteEmprestimo`). */
  datatype Resposta = Resposta(saldo: real, retorno: Option<real>)
}
