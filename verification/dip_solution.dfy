/** The payment processor that depends only on the payment-method
    abstraction: methods are injected as a list and resolved by name. */
module DipSolution {
  import opened Outcomes
  import Text

  /** The four implementations of `IProcessadorPagamento`. */
  datatype Metodo = PayPal | PicPay | CartaoCredito | Pix

  /** Each method's `ObterNome`. */
  function ObterNome(m: Metodo): (nome: string)
    ensures m == PayPal ==> nome == "PayPal"
    ensures m == PicPay ==> nome == "PicPay"
    ensures m == CartaoCredito ==> nome == "Cartão de Crédito"
    ensures m == Pix ==> nome == "PIX"
  {
    match m
    case PayPal => "PayPal"
    case PicPay => "PicPay"
    case CartaoCredito => "Cartão de Crédito"
    case Pix => "PIX"
  }

  /** `ProcessadorPagamentoSolucao`: the injected list of methods. */
  datatype Processador = Processador(metodosDisponiveis: seq<Metodo>)

  /** The constructor: a `null` list becomes the empty list, any other list
      is kept as given (duplicates included). */
  function Criar(metodos: Option<seq<Metodo>>): (p: Processador)
    ensures metodos.None? ==> p.metodosDisponiveis == []
    ensures metodos.Some? ==> p.metodosDisponiveis == metodos.value
  {
    match metodos
    case None => Processador([])
    case Some(ms) => Processador(ms)
  }

  /** The names of a list of methods, position by position. */
  function Nomes(ms: seq<Metodo>): (nomes: seq<string>)
    ensures |nomes| == |ms|
    ensures forall i :: 0 <= i < |ms| ==> nomes[i] == ObterNome(ms[i])
  {
    seq(|ms|, i requires 0 <= i < |ms| => ObterNome(ms[i]))
  }

  /** True when the name at position `i` equals `nome` up to case. */
  predicate Atende(nomes: seq<string>, i: int, nome: string)
    requires 0 <= i < |nomes|
  {
    Text.SameIgnoringCase(nomes[i], nome)
  }

  /** `List.Find` from position `desde` on: the first position whose name
      answers to `nome`, or nothing. It looks only at the names, so it
      covers any implementation of the payment-method interface. */
  function Encontrar(nomes: seq<string>, nome: string, desde: nat): (r: Option<nat>)
    requires desde <= |nomes|
    ensures r.Some? ==> desde <= r.value < |nomes| && Atende(nomes, r.value, nome)
    ensures r.Some? ==> forall j :: desde <= j < r.value ==> !Atende(nomes, j, nome)
    ensures r.None? <==> forall j :: desde <= j < |nomes| ==> !Atende(nomes, j, nome)
    decreases |nomes| - desde
  {
    if desde == |nomes| then None
    else if Atende(nomes, desde, nome) then Some(desde)
    else Encontrar(nomes, nome, desde + 1)
  }

  /** The one call a successful lookup makes: the chosen method, its
      position in the list, and the amount handed to it. */
  datatype Pagamento = Pagamento(posicao: nat, metodo: Metodo, valor: real)

  /** `ProcessarPagamento`: invokes the first method in list order whose
      name matches `nomeMetodo` up to case, with the amount unchanged; when
      none matches it invokes nothing and raises nothing. */
  function ProcessarPagamento(p: Processador, valor: real, nomeMetodo: string): (r: Option<Pagamento>)
    ensures r.Some? ==>
      && r.value.posicao < |p.metodosDisponiveis|
      && r.value.metodo == p.metodosDisponiveis[r.value.posicao]
      && r.value.valor == valor
      && Atende(Nomes(p.metodosDisponiveis), r.value.posicao, nomeMetodo)
      && forall j :: 0 <= j < r.value.posicao ==> !Atende(Nomes(p.metodosDisponiveis), j, nomeMetodo)
    ensures r.None? <==>
      forall j :: 0 <= j < |p.metodosDisponiveis| ==> !Atende(Nomes(p.metodosDisponiveis), j, nomeMetodo)
  {
    match Encontrar(Nomes(p.metodosDisponiveis), nomeMetodo, 0)
    case None => None
    case Some(i) => Some(Pagamento(i, p.metodosDisponiveis[i], valor))
  }

  /** `ListarMetodosDisponiveis`: the names of the injected methods, in list
      order. The processor itself is a value and is left as it was. */
  method ListarMetodosDisponiveis(p: Processador) returns (nomes: seq<string>)
    ensures |nomes| == |p.metodosDisponiveis|
    ensures forall i :: 0 <= i < |nomes| ==> nomes[i] == ObterNome(p.metodosDisponiveis[i])
    ensures nomes == Nomes(p.metodosDisponiveis)
  {
    nomes := [];
    var k := 0;
    while k < |p.metodosDisponiveis|
      invariant 0 <= k <= |p.metodosDisponiveis|
      invariant |nomes| == k
      invariant forall i :: 0 <= i < k ==> nomes[i] == ObterNome(p.metodosDisponiveis[i])
    {
      nomes := nomes + [ObterNome(p.metodosDisponiveis[k])];
      k := k + 1;
    }
  }

  /** `ConfiguradorPagamentos.CriarProcessador`: the composition root. */
  function CriarProcessador(): (p: Processador)
    ensures |p.metodosDisponiveis| == 4
    ensures forall i, j :: 0 <= i < j < 4 ==> p.metodosDisponiveis[i] != p.metodosDisponiveis[j]
    ensures forall i :: 0 <= i < 4 ==>
      ObterNome(p.metodosDisponiveis[i]) == ["PayPal", "PicPay", "Cartão de Crédito", "PIX"][i]
  {
    Criar(Some([PayPal, PicPay, CartaoCredito, Pix]))
  }

  /** Lookup depends on the requested name only through its lower-case
      form: "PIX", "Pix" and "pix" choose the same method. */
  lemma {:induction false} EncontrarIgnoresCase(nomes: seq<string>, a: string, b: string, desde: nat)
    requires desde <= |nomes|
    requires Text.SameIgnoringCase(a, b)
    ensures Encontrar(nomes, a, desde) == Encontrar(nomes, b, desde)
    decreases |nomes| - desde
  {
    if desde < |nomes| {
      EncontrarIgnoresCase(nomes, a, b, desde + 1);
    }
  }

  lemma ProcessarIgnoresCase(p: Processador, valor: real, a: string, b: string)
    requires Text.SameIgnoringCase(a, b)
    ensures ProcessarPagamento(p, valor, a) == ProcessarPagamento(p, valor, b)
  {
    EncontrarIgnoresCase(Nomes(p.metodosDisponiveis), a, b, 0);
  }

  /** Both sides of the comparison are lower-cased, so asking with a name
      that is already lower case changes nothing. */
  lemma LoweredNameResolvesAlike(p: Processador, valor: real, nome: string)
    ensures ProcessarPagamento(p, valor, Text.ToLower(nome)) == ProcessarPagamento(p, valor, nome)
  {
    Text.ToLowerIdempotent(nome);
    ProcessarIgnoresCase(p, valor, Text.ToLower(nome), nome);
  }

  /** Duplicate names are not rejected: of two entries answering to the
      same name, the later one is never invoked. */
  lemma EarlierDuplicateWins(p: Processador, valor: real, nome: string, i: nat, j: nat)
    requires i < j < |p.metodosDisponiveis|
    requires Atende(Nomes(p.metodosDisponiveis), i, nome) && Atende(Nomes(p.metodosDisponiveis), j, nome)
    ensures ProcessarPagamento(p, valor, nome).Some?
    ensures ProcessarPagamento(p, valor, nome).value.posicao <= i
  {
  }

  /** Adding a name at the end of the list never changes how a name that
      already resolved is resolved. */
  lemma {:induction false} AppendKeepsResolution(nomes: seq<string>, extra: string, nome: string, desde: nat)
    requires desde <= |nomes|
    requires Encontrar(nomes, nome, desde).Some?
    ensures Encontrar(nomes + [extra], nome, desde) == Encontrar(nomes, nome, desde)
    decreases |nomes| - desde
  {
    var ext := nomes + [extra];
    assert ext[desde] == nomes[desde];
    assert Atende(ext, desde, nome) == Atende(nomes, desde, nome);
    if !Atende(nomes, desde, nome) {
      AppendKeepsResolution(nomes, extra, nome, desde + 1);
    }
  }

  /** Registering one more method at the end of the injected list (as PIX
      was added) never changes the invocation for a name that was already
      served. */
  lemma AddingMethodKeepsPayments(p: Processador, m: Metodo, valor: real, nome: string)
    requires ProcessarPagamento(p, valor, nome).Some?
    ensures ProcessarPagamento(Processador(p.metodosDisponiveis + [m]), valor, nome)
      == ProcessarPagamento(p, valor, nome)
  {
    var ms := p.metodosDisponiveis;
    assert Nomes(ms + [m]) == Nomes(ms) + [ObterNome(m)];
    AppendKeepsResolution(Nomes(ms), ObterNome(m), nome, 0);
    var i := Encontrar(Nomes(ms), nome, 0).value;
    assert (ms + [m])[i] == ms[i];
  }

  /** The lower-case forms of the four registered names. */
  lemma RegisteredNamesLowered()
    ensures Text.ToLower(ObterNome(PayPal)) == "paypal"
    ensures Text.ToLower(ObterNome(PicPay)) == "picpay"
    ensures Text.ToLower(ObterNome(Pix)) == "pix"
    ensures Text.ToLower(ObterNome(CartaoCredito)) == "cartão de crédito"
  {
  }

  /** With the composition root's list: "pix" reaches PIX (the last entry),
      "paypal" and "picpay" reach PayPal and PicPay, and "cartao" reaches
      nothing, since the credit card answers only to "Cartão de Crédito". */
  lemma ComposedLookups(valor: real)
    ensures ProcessarPagamento(CriarProcessador(), valor, "pix") == Some(Pagamento(3, Pix, valor))
    ensures ProcessarPagamento(CriarProcessador(), valor, "paypal") == Some(Pagamento(0, PayPal, valor))
    ensures ProcessarPagamento(CriarProcessador(), valor, "picpay") == Some(Pagamento(1, PicPay, valor))
    ensures ProcessarPagamento(CriarProcessador(), valor, "cartao") == None
  {
    var ns := Nomes(CriarProcessador().metodosDisponiveis);
    RegisteredNamesLowered();
    Text.ToLowerOfLower("pix");
    Text.ToLowerOfLower("paypal");
    Text.ToLowerOfLower("picpay");
    Text.ToLowerOfLower("cartao");
    assert !Atende(ns, 0, "picpay");
    assert !Atende(ns, 0, "pix") && !Atende(ns, 1, "pix") && !Atende(ns, 2, "pix");
  }
}
