/** Order actions of the admin panel (app/painel/pedidos/actions.ts): validate the customer
    header, then the product list, then write to the order table. */
module PedidosActions {
  import opened Js
  import opened Zod
  import opened ValidationUtils
  import opened PedidosSchemas
  import opened Server

  const IdInvalido := "ID do pedido inválido"
  const ErroCriar := "Erro ao criar pedido"
  const ErroEditar := "Erro ao editar pedido"
  const ErroExcluir := "Erro ao excluir pedido"

  /** A saved order and its id (`{ success: true, pedido }`). */
  datatype Saved = Saved(id: string, pedido: Order)

  /** The validation steps shared by `criarPedido` and `editarPedido`, in their order: the
      header (all its issues, formatted), then the empty product list, then the products (all
      their issues, formatted). `None` lets the write go ahead. */
  function PedidoGate(f: Formats, p: PedidoInput, produtos: seq<ItemInput>): (r: Option<string>)
    ensures !PedidoAccepted(p) ==> r == Some(FormatarErrosZod(PedidoIssues(p)))
    ensures PedidoAccepted(p) && produtos == [] ==> r == Some(SelecioneProduto)
    ensures PedidoAccepted(p) && produtos != [] && ItemsIssues(f, produtos) != [] ==>
      r == Some(FormatarErrosZod(ItemsIssues(f, produtos)))
    ensures r.None? <==> PedidoComProdutosIssues(f, p, produtos) == []
  {
    PedidoIssuesEmptyIff(p);
    ItemsIssuesEmptyIff(f, produtos);
    PedidoComProdutosEmptyIff(f, p, produtos);
    var header := PedidoIssues(p);
    if header != [] then Some(FormatarErrosZod(header))
    else if produtos == [] then Some(SelecioneProduto)
    else
      var items := ItemsIssues(f, produtos);
      if items != [] then Some(FormatarErrosZod(items)) else None
  }

  /** Product list to stored lines: `produtos.map(p => ({ produtoId, quantidade }))`. */
  function ToLines(produtos: seq<ItemInput>): seq<Line> {
    seq(|produtos|, i requires 0 <= i < |produtos| => Line(produtos[i].produtoId, produtos[i].quantidade.Floor))
  }

  /** Once validated, the stored lines are exactly the given pairs, in order. */
  lemma {:induction false} ToLinesExact(f: Formats, produtos: seq<ItemInput>)
    requires ItemsIssues(f, produtos) == []
    ensures |ToLines(produtos)| == |produtos|
    ensures forall i :: 0 <= i < |produtos| ==>
      ToLines(produtos)[i].produtoId == produtos[i].produtoId
      && ToLines(produtos)[i].quantidade as real == produtos[i].quantidade
      && 1 <= ToLines(produtos)[i].quantidade <= 9999
  {
    ItemsIssuesEmptyIff(f, produtos);
  }

  function NewOrder(p: PedidoInput, produtos: seq<ItemInput>): Order {
    Order(p.nome, None, p.telefone, p.endereco, ToLines(produtos))
  }

  /** `criarPedido`: on any failed check the table is untouched and the first failure is
      returned; otherwise one order with the header and exactly the given lines is created. */
  method CriarPedido(db: Table<Order>, f: Formats, p: PedidoInput, produtos: seq<ItemInput>, reply: CreateReply)
    returns (r: ActionResult<Saved>)
    requires reply.Created? ==> reply.id !in db.rows
    modifies db
    ensures PedidoGate(f, p, produtos).Some? ==> r == Err(PedidoGate(f, p, produtos).value) && db.rows == old(db.rows)
    ensures PedidoGate(f, p, produtos).None? && reply.Created? ==>
      db.rows == old(db.rows)[reply.id := NewOrder(p, produtos)] && r == Ok(Saved(reply.id, NewOrder(p, produtos)))
    ensures PedidoGate(f, p, produtos).None? && reply.CreateFailed? ==>
      db.rows == old(db.rows) && r == Err(FaultMessage(reply.fault, ErroCriar))
  {
    var gate := PedidoGate(f, p, produtos);
    if gate.Some? {
      return Err(gate.value);
    }
    var order := NewOrder(p, produtos);
    var fault := db.Create(order, reply);
    if fault.Some? {
      return Err(FaultMessage(fault.value, ErroCriar));
    }
    r := Ok(Saved(reply.id, order));
  }

  /** The order with its lines dropped (`produtoPedido.deleteMany({ where: { pedidoId } })`). */
  function WithoutLines(o: Order): Order {
    o.(produtos := [])
  }

  /** The update's data: new header, new lines created under the order. */
  function Edited(p: PedidoInput, lines: seq<Line>, o: Order): Order {
    o.(nome := p.nome, endereco := p.endereco, telefone := p.telefone, produtos := o.produtos + lines)
  }

  /** `editarPedido`: an empty id is refused before anything else; then the same checks as
      `criarPedido`; then two separate writes, the deletion of the order's lines and the update
      of the order. If the update fails (a missing order included), the lines are already gone. */
  method EditarPedido(db: Table<Order>, f: Formats, id: string, p: PedidoInput, produtos: seq<ItemInput>,
                      deleteReply: Option<Fault>, updateReply: Option<Fault>)
    returns (r: ActionResult<Saved>)
    modifies db
    ensures id == "" ==> r == Err(IdInvalido) && db.rows == old(db.rows)
    ensures id != "" && PedidoGate(f, p, produtos).Some? ==>
      r == Err(PedidoGate(f, p, produtos).value) && db.rows == old(db.rows)
    ensures id != "" && PedidoGate(f, p, produtos).None? && deleteReply.Some? ==>
      r == Err(FaultMessage(deleteReply.value, ErroEditar)) && db.rows == old(db.rows)
    ensures id != "" && PedidoGate(f, p, produtos).None? && deleteReply.None? && id !in old(db.rows) ==>
      r == Err(FaultMessage(db.missing, ErroEditar)) && db.rows == old(db.rows)
    ensures id != "" && PedidoGate(f, p, produtos).None? && deleteReply.None? && id in old(db.rows) && updateReply.Some? ==>
      r == Err(FaultMessage(updateReply.value, ErroEditar))
      && db.rows == old(db.rows)[id := WithoutLines(old(db.rows)[id])]
    ensures id != "" && PedidoGate(f, p, produtos).None? && deleteReply.None? && id in old(db.rows) && updateReply.None? ==>
      var o := old(db.rows)[id].(nome := p.nome, endereco := p.endereco, telefone := p.telefone, produtos := ToLines(produtos));
      db.rows == old(db.rows)[id := o] && r == Ok(Saved(id, o))
  {
    if id == "" {
      return Err(IdInvalido);
    }
    var gate := PedidoGate(f, p, produtos);
    if gate.Some? {
      return Err(gate.value);
    }
    var lines := ToLines(produtos);
    var fault := db.UpdateMany(id, WithoutLines, deleteReply);
    if fault.Some? {
      return Err(FaultMessage(fault.value, ErroEditar));
    }
    fault := db.Update(id, o => Edited(p, lines, o), updateReply);
    if fault.Some? {
      return Err(FaultMessage(fault.value, ErroEditar));
    }
    assert [] + lines == lines;
    r := Ok(Saved(id, db.rows[id]));
  }

  /** `excluirPedido`: the order is removed, or a fixed message is returned. */
  method ExcluirPedido(db: Table<Order>, id: string, reply: Option<Fault>) returns (r: ActionResult<()>)
    modifies db
    ensures id in old(db.rows) && reply.None? ==> r == Ok(()) && db.rows == old(db.rows) - {id}
    ensures id !in old(db.rows) || reply.Some? ==> r == Err(ErroExcluir) && db.rows == old(db.rows)
  {
    var fault := db.Delete(id, reply);
    if fault.Some? {
      return Err(ErroExcluir);
    }
    r := Ok(());
  }
}
