/** `POST /api/pedidos` (app/api/pedidos/route.ts): the public checkout's order endpoint. It
    checks only that the required fields are present and non-empty; it does not apply the
    order schema of the admin panel. */
module PedidosRoute {
  import opened Js
  import opened Server

  const DadosObrigatorios := "Dados obrigatórios não fornecidos"
  const ErroCriar := "Erro ao criar pedido"
  const EnderecoPadrao := "Não informado"

  datatype ItemBody = ItemBody(produtoId: string, quantidade: int)

  /** The fields of the JSON body; `None` marks a field that is absent (or `null`). */
  datatype PedidoBody = PedidoBody(nome: Option<string>, email: Option<string>, telefone: Option<string>,
                                   endereco: Option<string>, itens: Option<seq<ItemBody>>)

  predicate Present(v: Option<string>) {
    v.Some? && v.value != ""
  }

  /** `!nome || !email || !telefone || !itens || itens.length === 0` */
  predicate MissingRequired(b: PedidoBody) {
    !Present(b.nome) || !Present(b.email) || !Present(b.telefone) || b.itens.None? || b.itens.value == []
  }

  /** `itens.map(item => ({ produtoId: item.produtoId, quantidade: item.quantidade }))` */
  function ItemLines(itens: seq<ItemBody>): (r: seq<Line>)
    ensures |r| == |itens|
    ensures forall i :: 0 <= i < |itens| ==> r[i] == Line(itens[i].produtoId, itens[i].quantidade)
  {
    if itens == [] then [] else [Line(itens[0].produtoId, itens[0].quantidade)] + ItemLines(itens[1..])
  }

  /** The order to create from a body that passed the presence check. */
  function NewOrder(b: PedidoBody): Order
    requires !MissingRequired(b)
  {
    Order(b.nome.value, Some(b.email.value), b.telefone.value,
          if Present(b.endereco) then b.endereco.value else EnderecoPadrao,
          ItemLines(b.itens.value))
  }

  /** The handler. `body` is `None` when the request's JSON does not parse; the database's
      answer to the create is an input. */
  method Post(db: Table<Order>, body: Option<PedidoBody>, reply: CreateReply) returns (r: ApiResponse<Order>)
    requires reply.Created? ==> reply.id !in db.rows
    modifies db
    ensures body.None? ==> r == JsonError(500, ErroCriar) && db.rows == old(db.rows)
    ensures body.Some? && MissingRequired(body.value) ==> r == JsonError(400, DadosObrigatorios) && db.rows == old(db.rows)
    ensures body.Some? && !MissingRequired(body.value) && reply.Created? ==>
      r == Json(201, NewOrder(body.value)) && db.rows == old(db.rows)[reply.id := NewOrder(body.value)]
    ensures body.Some? && !MissingRequired(body.value) && reply.CreateFailed? ==>
      r == JsonError(500, ErroCriar) && db.rows == old(db.rows)
  {
    if body.None? {
      return JsonError(500, ErroCriar);
    }
    var b := body.value;
    if MissingRequired(b) {
      return JsonError(400, DadosObrigatorios);
    }
    var order := NewOrder(b);
    var fault := db.Create(order, reply);
    if fault.Some? {
      return JsonError(500, ErroCriar);
    }
    r := Json(201, order);
  }

  /** The created order holds the sent customer data, the default address when none was sent,
      and one line per item, in the sent order. */
  lemma NewOrderFields(b: PedidoBody)
    requires !MissingRequired(b)
    ensures var o := NewOrder(b);
      && o.nome == b.nome.value && o.email == b.email && o.telefone == b.telefone.value
      && (Present(b.endereco) ==> o.endereco == b.endereco.value)
      && (!Present(b.endereco) ==> o.endereco == EnderecoPadrao)
      && o.nome != "" && o.telefone != "" && o.endereco != ""
      && |o.produtos| == |b.itens.value| > 0
  {
  }

  /** No quantity is checked here: a body with a zero or negative quantity and a telephone of
      any shape creates an order with exactly those lines. */
  lemma QuantitiesUnchecked(nome: string, email: string, telefone: string, itens: seq<ItemBody>)
    requires nome != "" && email != "" && telefone != "" && itens != []
    ensures var b := PedidoBody(Some(nome), Some(email), Some(telefone), None, Some(itens));
      !MissingRequired(b) && NewOrder(b).produtos == ItemLines(itens)
      && forall i :: 0 <= i < |itens| ==> NewOrder(b).produtos[i].quantidade == itens[i].quantidade
  {
  }

  /** The lines can be split anywhere: mapping a concatenation maps each part. */
  lemma {:induction false} ItemLinesAppend(a: seq<ItemBody>, c: seq<ItemBody>)
    ensures ItemLines(a + c) == ItemLines(a) + ItemLines(c)
  {
    if a != [] {
      assert (a + c)[1..] == a[1..] + c;
      ItemLinesAppend(a[1..], c);
    }
  }
}
