/** The discount calculator that dispatches on the customer-type name with
    a string switch. */
module OcpViolation {
  import S = OcpSolution

  /** The names the switch recognises. */
  const Conhecidos: set<string> := {"Regular", "Premium", "VIP"}

  /** `CalculadoraDescontoViolacao.CalcularDesconto`. The three known names
      give the same discount as the matching class of the class-per-tier
      design; every other name, compared case-sensitively, gives none. */
  function CalcularDesconto(valor: real, tipoCliente: string): (d: real)
    ensures tipoCliente == "Regular" ==> d == S.CalcularDesconto(S.DescontoClienteRegular, valor)
    ensures tipoCliente == "Premium" ==> d == S.CalcularDesconto(S.DescontoClientePremium, valor)
    ensures tipoCliente == "VIP" ==> d == S.CalcularDesconto(S.DescontoClienteVIP, valor)
    ensures tipoCliente !in Conhecidos ==> d == 0.0
  {
    match tipoCliente
    case "Regular" => valor * 0.02
    case "Premium" => valor * 0.05
    case "VIP" => valor * 0.10
    case _ => 0.0
  }

  /** The tier the class-per-tier design added is unknown to the switch, and
      names differing only in case are unknown too. */
  lemma EmpresarialAndLowerCaseGetNothing(valor: real)
    ensures CalcularDesconto(valor, "Empresarial") == 0.0
    ensures CalcularDesconto(valor, "vip") == 0.0
    ensures CalcularDesconto(valor, "regular") == 0.0
    ensures valor > 0.0 ==>
      CalcularDesconto(valor, "Empresarial") < S.CalcularDesconto(S.DescontoClienteEmpresarial, valor)
  {
  }

  /** The name a class-per-tier calculator would carry in the switch. */
  function NomeDoTipo(c: S.Calculadora): string {
    match c
    case DescontoClienteRegular => "Regular"
    case DescontoClientePremium => "Premium"
    case DescontoClienteVIP => "VIP"
    case DescontoClienteEmpresarial => "Empresarial"
  }

  /** The two designs agree exactly on the tiers the switch knows, and the
      switch gives no discount on the only tier it does not know. */
  lemma SwitchAgreesOnSharedTiers(c: S.Calculadora, valor: real)
    ensures NomeDoTipo(c) in Conhecidos <==> c != S.DescontoClienteEmpresarial
    ensures NomeDoTipo(c) in Conhecidos ==>
      CalcularDesconto(valor, NomeDoTipo(c)) == S.CalcularDesconto(c, valor)
    ensures NomeDoTipo(c) !in Conhecidos ==> CalcularDesconto(valor, NomeDoTipo(c)) == 0.0
  {
  }
}
