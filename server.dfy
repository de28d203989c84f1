/** What the server actions and API routes share: the database as tables of records keyed by
    id, the faults the database throws, the shapes of replies, and `FormData.get`. The
    database's own decisions (the id it assigns, a constraint it enforces, a lost connection)
    are not modelled: each write receives the database's answer as an input. */
module Server {
  import opened Js
  import opened Zod

  /** What a failed database call throws: an `Error` with its message, or some other value. */
  datatype Fault = Thrown(message: string) | ThrownValue

  /** The database's answer to a create: the id it assigned, or the fault it threw. */
  datatype CreateReply = Created(id: string) | CreateFailed(fault: Fault)

  /** One ordered product of an order (a `produtoPedido` row). */
  datatype Line = Line(produtoId: string, quantidade: int)

  datatype Order = Order(nome: string, email: Option<string>, telefone: string, endereco: string, produtos: seq<Line>)

  datatype Produto = Produto(nome: string, descricao: Option<string>, preco: real, categoriaId: string)

  /** A category; `None` marks a column the writer left to the database. */
  datatype Categoria = Categoria(nome: string, slug: Option<string>, cor: Option<string>, foto: Option<string>)

  /** A server action's reply: `{ success: true, ... }` or `{ error }`. */
  datatype ActionResult<T> = Ok(data: T) | Err(error: string)

  /** A route handler's JSON reply and its status. */
  datatype ApiResponse<T> = Json(status: int, data: T) | JsonError(status: int, error: string)

  /** One table. A write either takes effect as a whole or throws and changes nothing. */
  class Table<T> {
    var rows: map<string, T>
    /** What the database throws when the record to update or delete does not exist. */
    const missing: Fault

    constructor (rows: map<string, T>, missing: Fault)
      ensures this.rows == rows && this.missing == missing
    {
      this.rows := rows;
      this.missing := missing;
    }

    /** `create({ data })`: the database picks a fresh id, so a create adds exactly one row. */
    method Create(record: T, reply: CreateReply) returns (fault: Option<Fault>)
      requires reply.Created? ==> reply.id !in rows
      modifies this
      ensures reply.Created? ==> fault == None && rows == old(rows)[reply.id := record]
      ensures reply.Created? ==> |rows| == |old(rows)| + 1
      ensures reply.CreateFailed? ==> fault == Some(reply.fault) && rows == old(rows)
    {
      if reply.Created? {
        rows := rows[reply.id := record];
        fault := None;
      } else {
        fault := Some(reply.fault);
      }
    }

    /** `update({ where: { id }, data })`: a missing record throws `missing`. */
    method Update(id: string, change: T -> T, reply: Option<Fault>) returns (fault: Option<Fault>)
      modifies this
      ensures id !in old(rows) ==> fault == Some(missing) && rows == old(rows)
      ensures id in old(rows) && reply.Some? ==> fault == reply && rows == old(rows)
      ensures id in old(rows) && reply.None? ==> fault == None && rows == old(rows)[id := change(old(rows)[id])]
    {
      if id !in rows {
        fault := Some(missing);
      } else if reply.Some? {
        fault := reply;
      } else {
        rows := rows[id := change(rows[id])];
        fault := None;
      }
    }

    /** A write that filters by id and touches zero or one record (`updateMany`, `deleteMany`
        on dependent rows): no record is no error. */
    method UpdateMany(id: string, change: T -> T, reply: Option<Fault>) returns (fault: Option<Fault>)
      modifies this
      ensures fault == reply
      ensures reply.Some? || id !in old(rows) ==> rows == old(rows)
      ensures reply.None? && id in old(rows) ==> rows == old(rows)[id := change(old(rows)[id])]
    {
      fault := reply;
      if reply.None? && id in rows {
        rows := rows[id := change(rows[id])];
      }
    }

    /** `delete({ where: { id } })`: a missing record throws `missing`. */
    method Delete(id: string, reply: Option<Fault>) returns (fault: Option<Fault>)
      modifies this
      ensures id !in old(rows) ==> fault == Some(missing) && rows == old(rows)
      ensures id in old(rows) && reply.Some? ==> fault == reply && rows == old(rows)
      ensures id in old(rows) && reply.None? ==> fault == None && rows == old(rows) - {id}
    {
      if id !in rows {
        fault := Some(missing);
      } else if reply.Some? {
        fault := reply;
      } else {
        rows := rows - {id};
        fault := None;
      }
    }
  }

  /** `error instanceof Error ? error.message : fallback` */
  function FaultMessage(fault: Fault, fallback: string): string {
    if fault.Thrown? then fault.message else fallback
  }

  /** `formData.get(key)`: the entry's text, or `null` when the form has no such entry. */
  function FormGet(form: map<string, string>, key: string): (v: Value)
    ensures key in form ==> v == Str(form[key])
    ensures key !in form ==> v == Null
  {
    if key in form then Str(form[key]) else Null
  }

  const ErroValidacaoDados := "Erro na validação dos dados"

  /** `validacao.error.issues[0]?.message || 'Erro na validação dos dados'` */
  function FirstMessage(issues: seq<Issue>): (m: string)
    ensures m != ""
    ensures issues != [] && issues[0].message != "" ==> m == issues[0].message
    ensures issues == [] || issues[0].message == "" ==> m == ErroValidacaoDados
  {
    if issues != [] && issues[0].message != "" then issues[0].message else ErroValidacaoDados
  }
}
