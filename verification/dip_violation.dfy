/** The payment processor that builds its own concrete payment classes and
    dispatches on a fixed, lower-case switch. */
module DipViolation {
  import opened Outcomes
  import Text
  import DipSolution

  /** The three concrete classes the processor creates in its constructor,
      each reached through its own method (`ProcessarPagamentoPayPal`,
      `EfetuarPagamentoPicPay`, `CobrarCartao`). */
  datatype Backend = PayPal | PicPay | CartaoCredito

  /** The `ArgumentException` of the switch's default branch. */
  datatype Erro = MetodoNaoSuportado

  /** The one backend call a supported name makes, with its amount. */
  datatype Cobranca = Cobranca(backend: Backend, valor: real)

  /** The names the switch accepts once lower-cased. */
  const Suportados: set<string> := {"paypal", "picpay", "cartao"}

  /** `ProcessadorPagamentoViolacao.ProcessarPagamento`: lower-cases the
      name and accepts exactly the three names of the switch, invoking one
      backend with the amount unchanged; any other name raises. */
  function ProcessarPagamento(valor: real, metodo: string): (r: Result<Cobranca, Erro>)
    ensures r.Ok? <==> Text.ToLower(metodo) in Suportados
    ensures r.Err? ==> r.error == MetodoNaoSuportado
    ensures r.Ok? ==> r.value.valor == valor
    ensures r.Ok? ==> (r.value.backend == PayPal <==> Text.ToLower(metodo) == "paypal")
    ensures r.Ok? ==> (r.value.backend == PicPay <==> Text.ToLower(metodo) == "picpay")
    ensures r.Ok? ==> (r.value.backend == CartaoCredito <==> Text.ToLower(metodo) == "cartao")
  {
    match Text.ToLower(metodo)
    case "paypal" => Ok(Cobranca(PayPal, valor))
    case "picpay" => Ok(Cobranca(PicPay, valor))
    case "cartao" => Ok(Cobranca(CartaoCredito, valor))
    case _ => Err(MetodoNaoSuportado)
  }

  /** The supported set is fixed when the processor is built: PIX is
      refused in every spelling. */
  lemma PixAlwaysRejected(valor: real, metodo: string)
    requires Text.SameIgnoringCase(metodo, "pix")
    ensures ProcessarPagamento(valor, metodo) == Err(MetodoNaoSuportado)
  {
    Text.ToLowerOfLower("pix");
  }

  /** The switch on the names the composition root's methods are asked by. */
  lemma SwitchLookups(valor: real)
    ensures ProcessarPagamento(valor, "pix") == Err(MetodoNaoSuportado)
    ensures ProcessarPagamento(valor, "cartao") == Ok(Cobranca(CartaoCredito, valor))
    ensures ProcessarPagamento(valor, "paypal") == Ok(Cobranca(PayPal, valor))
    ensures ProcessarPagamento(valor, "picpay") == Ok(Cobranca(PicPay, valor))
  {
    Text.ToLowerOfLower("pix");
    Text.ToLowerOfLower("cartao");
    Text.ToLowerOfLower("paypal");
    Text.ToLowerOfLower("picpay");
  }

  /** Where the two processors differ, against the composition root's list:
      PIX is served by the injected list but raises here; "cartao" is served
      here but finds nothing in the list (whose entry is "Cartão de
      Crédito"); PayPal and PicPay are served by both with the same amount. */
  lemma DiffersFromInjectedList(valor: real)
    ensures DipSolution.ProcessarPagamento(DipSolution.CriarProcessador(), valor, "pix").Some?
    ensures ProcessarPagamento(valor, "pix").Err?
    ensures DipSolution.ProcessarPagamento(DipSolution.CriarProcessador(), valor, "cartao").None?
    ensures ProcessarPagamento(valor, "cartao").Ok?
    ensures ProcessarPagamento(valor, "paypal").Ok?
    ensures DipSolution.ProcessarPagamento(DipSolution.CriarProcessador(), valor, "paypal").Some?
    ensures ProcessarPagamento(valor, "picpay").Ok?
    ensures DipSolution.ProcessarPagamento(DipSolution.CriarProcessador(), valor, "picpay").Some?
  {
    DipSolution.ComposedLookups(valor);
    SwitchLookups(valor);
  }

  /** An unknown name is an error here and a silent no-op in the injected
      design: whenever the switch refuses a name that the list does not
      know either, the list-based processor simply invokes nothing. */
  lemma UnknownNameErrorVersusNoOp(p: DipSolution.Processador, valor: real, nome: string)
    requires Text.ToLower(nome) !in Suportados
    requires forall j :: 0 <= j < |p.metodosDisponiveis| ==> !DipSolution.Atende(DipSolution.Nomes(p.metodosDisponiveis), j, nome)
    ensures ProcessarPagamento(valor, nome).Err?
    ensures DipSolution.ProcessarPagamento(p, valor, nome).None?
  {
  }
}
