/** Order schemas of the admin panel (app/painel/pedidos/schemas.ts): the customer header
    (`pedidoSchema`), one ordered product (`pedidoProdutoSchema`) and an order with its
    products (`pedidoComProdutosSchema`). */
module PedidosSchemas {
  import opened Js
  import opened Zod

  const NomeObrigatorio := "Nome do cliente é obrigatório"
  const NomeCurto := "Nome deve ter pelo menos 3 caracteres"
  const NomeLongo := "Nome não pode ter mais de 100 caracteres"
  const NomeLetras := "Nome deve conter apenas letras e espaços"
  const EnderecoCurto := "Endereço deve ter pelo menos 5 caracteres"
  const EnderecoLongo := "Endereço não pode ter mais de 200 caracteres"
  const TelefoneFormato := "Telefone deve estar no formato (XX) XXXXX-XXXX ou (XX) XXXX-XXXX"
  const ProdutoIdInvalido := "ID do produto inválido"
  const QuantidadeInteira := "Quantidade deve ser um número inteiro"
  const QuantidadePositiva := "Quantidade deve ser maior que zero"
  const QuantidadeMinima := "Quantidade deve ser pelo menos 1"
  const QuantidadeMaxima := "Quantidade não pode exceder 9999"
  const SelecioneProduto := "Selecione pelo menos um produto"

  datatype PedidoInput = PedidoInput(nome: string, endereco: string, telefone: string)

  datatype ItemInput = ItemInput(produtoId: string, quantidade: real)

  // ---------------------------------------------------------------- nome

  function NomeMessages(nome: string): seq<string> {
    Check(Length(nome) >= 1, NomeObrigatorio)
    + Check(Length(nome) >= 3, NomeCurto)
    + Check(Length(nome) <= 100, NomeLongo)
    + Check(MatchesNamePattern(nome), NomeLetras)
  }

  /** Reference: 3 to 100 characters, each a letter of the name class or whitespace. */
  predicate NomeAccepted(nome: string) {
    3 <= |nome| <= 100 && forall i :: 0 <= i < |nome| ==> IsNameChar(nome[i])
  }

  lemma NomeMessagesEmptyIff(nome: string)
    ensures NomeMessages(nome) == [] <==> NomeAccepted(nome)
  {
    if NomeAccepted(nome) || MatchesNamePattern(nome) {
      NamePatternLength(nome);
    }
  }

  /** The empty name fails the "required" check first, then the length and pattern checks. */
  lemma NomeEmptyMessages()
    ensures NomeMessages("") == [NomeObrigatorio, NomeCurto, NomeLetras]
  {
  }

  // ---------------------------------------------------------------- endereco

  function EnderecoMessages(endereco: string): seq<string> {
    Check(Length(endereco) >= 5, EnderecoCurto) + Check(Length(endereco) <= 200, EnderecoLongo)
  }

  lemma EnderecoMessagesEmptyIff(endereco: string)
    ensures EnderecoMessages(endereco) == [] <==> 5 <= Length(endereco) <= 200
  {
  }

  // ---------------------------------------------------------------- telefone

  /** The regular expression `^\(\d{2}\)\s\d{4,5}-\d{4}$`, read left to right. */
  predicate MatchesTelefone(t: string) {
    |t| >= 5 && t[0] == '(' && AllDigits(t[1..3]) && t[3] == ')' && IsSpace(t[4])
    && var rest := t[5..];
       (|rest| == 9 || |rest| == 10)
       && AllDigits(rest[..|rest| - 5]) && rest[|rest| - 5] == '-' && AllDigits(rest[|rest| - 4..])
  }

  function TelefoneMessages(telefone: string): seq<string> {
    Check(MatchesTelefone(telefone), TelefoneFormato)
  }

  /** An accepted phone number is 14 or 15 characters long. */
  lemma TelefoneLength(t: string)
    requires TelefoneMessages(t) == []
    ensures |t| == 14 || |t| == 15
  {
  }

  /** Every number written `(DD) PPPP-SSSS` or `(DD) PPPPP-SSSS`, with any whitespace
      character after the area code, is accepted. */
  lemma TelefoneAccepts(area: string, space: char, prefix: string, suffix: string)
    requires |area| == 2 && AllDigits(area) && IsSpace(space)
    requires (|prefix| == 4 || |prefix| == 5) && AllDigits(prefix)
    requires |suffix| == 4 && AllDigits(suffix)
    ensures TelefoneMessages("(" + area + ")" + [space] + prefix + "-" + suffix) == []
  {
    var t := "(" + area + ")" + [space] + prefix + "-" + suffix;
    assert t[1..3] == area;
    var rest := t[5..];
    assert rest == prefix + "-" + suffix;
    assert rest[..|rest| - 5] == prefix;
    assert rest[|rest| - 4..] == suffix;
  }

  /** ... and nothing else: an accepted number splits into exactly those parts. */
  lemma TelefoneDecomposes(t: string)
    requires TelefoneMessages(t) == []
    ensures var n := |t|;
      t == "(" + t[1..3] + ")" + [t[4]] + t[5..n - 5] + "-" + t[n - 4..]
      && AllDigits(t[1..3]) && IsSpace(t[4]) && AllDigits(t[5..n - 5]) && AllDigits(t[n - 4..])
      && (n - 10 == 4 || n - 10 == 5)
  {
    var n := |t|;
    var rest := t[5..];
    assert rest[..|rest| - 5] == t[5..n - 5];
    assert rest[|rest| - 4..] == t[n - 4..];
    assert t == t[..1] + t[1..3] + t[3..5] + t[5..n - 5] + t[n - 5..n - 4] + t[n - 4..];
  }

  // ---------------------------------------------------------------- pedidoSchema

  function PedidoIssues(p: PedidoInput): seq<Issue> {
    At("nome", NomeMessages(p.nome))
    + At("endereco", EnderecoMessages(p.endereco))
    + At("telefone", TelefoneMessages(p.telefone))
  }

  predicate PedidoAccepted(p: PedidoInput) {
    NomeAccepted(p.nome) && 5 <= Length(p.endereco) <= 200 && MatchesTelefone(p.telefone)
  }

  lemma PedidoIssuesEmptyIff(p: PedidoInput)
    ensures PedidoIssues(p) == [] <==> PedidoAccepted(p)
  {
    NomeMessagesEmptyIff(p.nome);
  }

  // ---------------------------------------------------------------- pedidoProdutoSchema

  function QuantidadeMessages(q: real): seq<string> {
    Check(IsInteger(q), QuantidadeInteira)
    + Check(q > 0.0, QuantidadePositiva)
    + Check(q >= 1.0, QuantidadeMinima)
    + Check(q <= 9999.0, QuantidadeMaxima)
  }

  /** A quantity is accepted exactly when it is a whole number from 1 to 9999. */
  lemma QuantidadeMessagesEmptyIff(q: real)
    ensures QuantidadeMessages(q) == [] <==> (q == q.Floor as real && 1 <= q.Floor <= 9999)
  {
  }

  function ItemIssues(f: Formats, item: ItemInput): seq<Issue> {
    At("produtoId", Check(f.isUuid(item.produtoId), ProdutoIdInvalido))
    + At("quantidade", QuantidadeMessages(item.quantidade))
  }

  predicate ItemAccepted(f: Formats, item: ItemInput) {
    f.isUuid(item.produtoId) && IsInteger(item.quantidade) && 1.0 <= item.quantidade <= 9999.0
  }

  /** `z.array(pedidoProdutoSchema)`: the issues of item `i` carry the path prefix `i`. */
  function ItemsIssues(f: Formats, items: seq<ItemInput>): seq<Issue> {
    if items == [] then []
    else ItemsIssues(f, items[..|items| - 1]) + Nest(Index(|items| - 1), ItemIssues(f, items[|items| - 1]))
  }

  lemma {:induction false} ItemsIssuesEmptyIff(f: Formats, items: seq<ItemInput>)
    ensures ItemsIssues(f, items) == [] <==> forall i :: 0 <= i < |items| ==> ItemAccepted(f, items[i])
  {
    if items != [] {
      var init := items[..|items| - 1];
      ItemsIssuesEmptyIff(f, init);
      assert forall i :: 0 <= i < |init| ==> init[i] == items[i];
    }
  }

  /** Every issue of item `k` appears, with the path prefix `k`, among the array's issues. */
  lemma {:induction false} ItemsIssuesContain(f: Formats, items: seq<ItemInput>, k: nat, j: nat)
    requires k < |items| && j < |ItemIssues(f, items[k])|
    ensures var e := ItemIssues(f, items[k])[j];
      Issue([Index(k)] + e.path, e.message) in ItemsIssues(f, items)
  {
    if k < |items| - 1 {
      var init := items[..|items| - 1];
      assert init[k] == items[k];
      ItemsIssuesContain(f, init, k, j);
    } else {
      var nested := Nest(Index(k), ItemIssues(f, items[k]));
      assert nested[j] in nested;
    }
  }

  // ---------------------------------------------------------------- pedidoComProdutosSchema

  function PedidoComProdutosIssues(f: Formats, p: PedidoInput, produtos: seq<ItemInput>): seq<Issue> {
    PedidoIssues(p)
    + (if produtos == [] then [Issue([Key("produtos")], SelecioneProduto)] else [])
    + Nest(Key("produtos"), ItemsIssues(f, produtos))
  }

  /** An order with products is accepted exactly when its header is, it has at least one
      product, and every product is. */
  lemma PedidoComProdutosEmptyIff(f: Formats, p: PedidoInput, produtos: seq<ItemInput>)
    ensures PedidoComProdutosIssues(f, p, produtos) == []
        <==> PedidoAccepted(p) && produtos != [] && forall i :: 0 <= i < |produtos| ==> ItemAccepted(f, produtos[i])
  {
    PedidoIssuesEmptyIff(p);
    ItemsIssuesEmptyIff(f, produtos);
  }
}
