/** Accounts composed from small capability interfaces: each class
    implements only the interfaces its role needs, so an operation it does
    not offer cannot even be called on it. */
module IspSolution {
  import opened Outcomes
  import B = BankInterfaces

  /** The four account classes. */
  datatype Tipo = ContaCorrente | ContaPoupanca | ContaInvestimento | ContaCompleta

  /** An account: its class and its `Saldo`. */
  datatype Conta = Conta(tipo: Tipo, saldo: real)

  /** The interfaces each class declares it implements. */
  function Capacidades(t: Tipo): (caps: set<B.Capacidade>)
    ensures B.Basicas in caps
    ensures t == ContaCompleta <==> |caps| == 4
    ensures t == ContaCorrente ==> caps == {B.Basicas, B.Emprestimo}
    ensures t == ContaPoupanca ==> caps == {B.Basicas, B.Poupanca}
    ensures t == ContaInvestimento ==> caps == {B.Basicas, B.Investimento}
    ensures t == ContaCompleta ==> caps == {B.Basicas, B.Investimento, B.Emprestimo, B.Poupanca}
  {
    match t
    case ContaCorrente => {B.Basicas, B.Emprestimo}
    case ContaPoupanca => {B.Basicas, B.Poupanca}
    case ContaInvestimento => {B.Basicas, B.Investimento}
    case ContaCompleta => {B.Basicas, B.Investimento, B.Emprestimo, B.Poupanca}
  }

  /** `Depositar` of every class: an unchecked `Saldo += valor`. */
  function Depositar(c: Conta, valor: real): (r: Conta)
    ensures r.tipo == c.tipo
    ensures r.saldo - c.saldo == valor
  {
    c.(saldo := c.saldo + valor)
  }

  /** `Sacar` of every class: an unchecked `Saldo -= valor`, which may
      leave the balance negative. */
  function Sacar(c: Conta, valor: real): (r: Conta)
    ensures r.tipo == c.tipo
    ensures c.saldo - r.saldo == valor
    ensures valor > c.saldo ==> r.saldo < 0.0
  {
    c.(saldo := c.saldo - valor)
  }

  /** `ConsultarRendimento` of the two investing classes: a tenth of the
      balance. */
  function ConsultarRendimento(c: Conta): (r: real)
    requires B.Investimento in Capacidades(c.tipo)
    ensures 10.0 * r == c.saldo
  {
    c.saldo * 0.1
  }

  /** `ConsultarLimiteEmprestimo` of the two lending classes: a constant
      that does not depend on the balance. */
  function ConsultarLimiteEmprestimo(c: Conta): (r: real)
    requires B.Emprestimo in Capacidades(c.tipo)
    ensures c.tipo == ContaCorrente ==> r == 10000.0
    ensures c.tipo == ContaCompleta ==> r == 50000.0
  {
    match c.tipo
    case ContaCorrente => 10000.0
    case ContaCompleta => 50000.0
  }

  /** Calls one operation on an account. The requires clause is the C# type
      check: only an operation of an interface the class implements can be
      called. The investment, loan and savings actions only write to the
      console, so they leave the balance as it was. */
  function Executar(c: Conta, op: B.Operacao): (r: B.Resposta)
    requires B.Interface(op) in Capacidades(c.tipo)
    ensures B.Interface(op) != B.Basicas ==> r.saldo == c.saldo
    ensures r.retorno.Some? <==> B.DevolveValor(op)
    ensures op.ConsultarSaldo? ==> r == B.Resposta(c.saldo, Some(c.saldo))
    ensures op.Depositar? ==> r == B.Resposta(Depositar(c, op.valor).saldo, None)
    ensures op.Sacar? ==> r == B.Resposta(Sacar(c, op.valor).saldo, None)
    ensures op.ConsultarRendimento? ==> r.retorno == Some(ConsultarRendimento(c))
    ensures op.ConsultarLimiteEmprestimo? ==> r.retorno == Some(ConsultarLimiteEmprestimo(c))
  {
    match op
    case Depositar(v) => B.Resposta(Depositar(c, v).saldo, None)
    case Sacar(v) => B.Resposta(Sacar(c, v).saldo, None)
    case ConsultarSaldo => B.Resposta(c.saldo, Some(c.saldo))
    case InvestirEmAcoes(_) => B.Resposta(c.saldo, None)
    case InvestirEmFundos(_) => B.Resposta(c.saldo, None)
    case ConsultarRendimento => B.Resposta(c.saldo, Some(ConsultarRendimento(c)))
    case SolicitarEmprestimo(_) => B.Resposta(c.saldo, None)
    case ConsultarLimiteEmprestimo => B.Resposta(c.saldo, Some(ConsultarLimiteEmprestimo(c)))
    case CalcularRendimentoPoupanca => B.Resposta(c.saldo, None)
    case ConsultarAniversarioPoupanca => B.Resposta(c.saldo, None)
  }

  /** A deposit followed by a withdrawal of the same amount restores the
      balance, and so does the reverse order. */
  lemma DepositThenWithdrawRestores(c: Conta, valor: real)
    ensures Sacar(Depositar(c, valor), valor) == c
    ensures Depositar(Sacar(c, valor), valor) == c
  {
  }

  /** Every class can be asked every basic operation, and the answer does
      not depend on the class. */
  lemma BasicOperationsUniform(a: Conta, b: Conta, op: B.Operacao)
    requires B.Interface(op) == B.Basicas && a.saldo == b.saldo
    ensures B.Interface(op) in Capacidades(a.tipo) && B.Interface(op) in Capacidades(b.tipo)
    ensures Executar(a, op) == Executar(b, op)
  {
  }

  /** A run of calls that only uses the class's interfaces. */
  predicate Permitidas(t: Tipo, ops: seq<B.Operacao>) {
    forall k :: 0 <= k < |ops| ==> B.Interface(ops[k]) in Capacidades(t)
  }

  /** The balance after a run of calls. */
  function SaldoApos(c: Conta, ops: seq<B.Operacao>): real
    requires Permitidas(c.tipo, ops)
    decreases |ops|
  {
    if ops == [] then c.saldo
    else SaldoApos(Conta(c.tipo, Executar(c, ops[0]).saldo), ops[1..])
  }

  /** The net effect of the deposits and withdrawals in a run. */
  function Movimento(ops: seq<B.Operacao>): real
    decreases |ops|
  {
    if ops == [] then 0.0
    else
      (match ops[0]
       case Depositar(v) => v
       case Sacar(v) => -v
       case _ => 0.0)
      + Movimento(ops[1..])
  }

  /** Since only `Depositar` and `Sacar` write the balance, and they do so
      without any check, a run ends at the starting balance plus the net
      movement, whatever investment, loan or savings calls it contains. */
  lemma {:induction false} SaldoAposIsMovimento(c: Conta, ops: seq<B.Operacao>)
    requires Permitidas(c.tipo, ops)
    ensures SaldoApos(c, ops) == c.saldo + Movimento(ops)
    decreases |ops|
  {
    if ops != [] {
      var c' := Conta(c.tipo, Executar(c, ops[0]).saldo);
      assert Permitidas(c'.tipo, ops[1..]) by {
        forall k | 0 <= k < |ops[1..]|
          ensures B.Interface(ops[1..][k]) in Capacidades(c'.tipo)
        {
          assert ops[1..][k] == ops[k + 1];
        }
      }
      SaldoAposIsMovimento(c', ops[1..]);
    }
  }
}
