/** Discounts as one class per customer tier, each overriding
    `CalcularDesconto`; the final price is computed against the abstract
    calculator only. */
module OcpSolution {

  /** The four subclasses of `CalculadoraDesconto`. They hold no state. */
  datatype Calculadora =
    | DescontoClienteRegular
    | DescontoClientePremium
    | DescontoClienteVIP
    | DescontoClienteEmpresarial

  /** The rate each tier advertises: 2%, 5%, 10% and 15%. */
  function Taxa(c: Calculadora): (t: real)
    ensures 0.02 <= t <= 0.15
    ensures c == DescontoClienteRegular ==> t == 0.02
    ensures c == DescontoClientePremium ==> t == 0.05
    ensures c == DescontoClienteVIP ==> t == 0.10
    ensures c == DescontoClienteEmpresarial ==> t == 0.15
  {
    match c
    case DescontoClienteRegular => 2.0 / 100.0
    case DescontoClientePremium => 5.0 / 100.0
    case DescontoClienteVIP => 10.0 / 100.0
    case DescontoClienteEmpresarial => 15.0 / 100.0
  }

  /** Each tier's `CalcularDesconto`. The discount is the tier's fixed rate
      of the amount: never negative for a non-negative amount, and never
      more than 15% of it. */
  function CalcularDesconto(c: Calculadora, valor: real): (d: real)
    ensures d == valor * Taxa(c)
    ensures valor >= 0.0 ==> 0.0 <= d <= 0.15 * valor
  {
    match c
    case DescontoClienteRegular => valor * 0.02
    case DescontoClientePremium => valor * 0.05
    case DescontoClienteVIP => valor * 0.10
    case DescontoClienteEmpresarial => valor * 0.15
  }

  /** `ProcessadorPagamento.CalcularValorFinal`: the amount less the
      calculator's discount; for a non-negative amount it lies between 85%
      of the amount and the amount itself. */
  function CalcularValorFinal(valor: real, c: Calculadora): (r: real)
    ensures r + CalcularDesconto(c, valor) == valor
    ensures valor >= 0.0 ==> 0.85 * valor <= r <= valor
  {
    valor - CalcularDesconto(c, valor)
  }

  /** On a non-negative amount the tiers are ordered
      Regular <= Premium <= VIP <= Empresarial. */
  lemma DiscountsOrdered(valor: real)
    requires valor >= 0.0
    ensures CalcularDesconto(DescontoClienteRegular, valor) <= CalcularDesconto(DescontoClientePremium, valor)
    ensures CalcularDesconto(DescontoClientePremium, valor) <= CalcularDesconto(DescontoClienteVIP, valor)
    ensures CalcularDesconto(DescontoClienteVIP, valor) <= CalcularDesconto(DescontoClienteEmpresarial, valor)
  {
  }

  /** The concrete rates, read at the amount 1000. */
  lemma DiscountsAtThousand()
    ensures CalcularDesconto(DescontoClienteRegular, 1000.0) == 20.0
    ensures CalcularDesconto(DescontoClientePremium, 1000.0) == 50.0
    ensures CalcularDesconto(DescontoClienteVIP, 1000.0) == 100.0
    ensures CalcularDesconto(DescontoClienteEmpresarial, 1000.0) == 150.0
    ensures CalcularValorFinal(1000.0, DescontoClienteEmpresarial) == 850.0
  {
  }

  /** The discount is linear in the amount: the discount on a sum is the
      sum of the discounts, and scaling the amount scales the discount. */
  lemma DiscountLinear(c: Calculadora, a: real, b: real, k: real)
    ensures CalcularDesconto(c, a + b) == CalcularDesconto(c, a) + CalcularDesconto(c, b)
    ensures CalcularDesconto(c, k * a) == k * CalcularDesconto(c, a)
  {
  }
}
