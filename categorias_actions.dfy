/** Category actions of the admin panel (app/painel/categorias/actions.ts): validate the name,
    trim it, write it; a uniqueness violation reported by the database gets its own message. */
module CategoriasActions {
  import opened Js
  import opened Zod
  import opened CategoriasSchemas
  import opened Server

  const NomeDuplicado := "Categoria com este nome já existe"
  const ErroCriar := "Erro ao criar categoria"
  const ErroEditar := "Erro ao editar categoria"
  const ErroExcluir := "Erro ao excluir categoria"
  const UniqueFailed := "Unique constraint failed"

  /** The name to store: the validated name, trimmed; or the first issue's message. */
  function CategoriaGate(form: map<string, string>): (r: ActionResult<string>)
    ensures r.Ok? <==> "nome" in form && NomeAccepted(form["nome"])
    ensures r.Ok? ==> r.data == Trim(form["nome"])
    ensures r.Err? ==> r.error != ""
    ensures r.Err? ==>
      && CategoriaParse(FormGet(form, "nome")).Failure?
      && r.error == FirstMessage(CategoriaParse(FormGet(form, "nome")).issues)
  {
    CategoriaParseIff(FormGet(form, "nome"));
    match CategoriaParse(FormGet(form, "nome"))
    case Failure(issues) => Err(FirstMessage(issues))
    case Success(nome) => Ok(Trim(nome))
  }

  /** The message for a failed write: a thrown `Error` whose message mentions the uniqueness
      violation gives the duplicate-name message, anything else the action's fixed message. */
  function StoreErrorMessage(fault: Fault, fallback: string): (m: string)
    ensures m == NomeDuplicado <==> (fault.Thrown? && Includes(fault.message, UniqueFailed)) || fallback == NomeDuplicado
    ensures m == NomeDuplicado || m == fallback
  {
    if fault.Thrown? && Includes(fault.message, UniqueFailed) then NomeDuplicado else fallback
  }

  /** `criarCategoria`: only the name is written; slug, colour and photo are left to the database. */
  method CriarCategoria(db: Table<Categoria>, form: map<string, string>, reply: CreateReply)
    returns (r: ActionResult<()>)
    requires reply.Created? ==> reply.id !in db.rows
    modifies db
    ensures CategoriaGate(form).Err? ==> r == Err(CategoriaGate(form).error) && db.rows == old(db.rows)
    ensures CategoriaGate(form).Ok? && reply.Created? ==>
      r == Ok(()) && db.rows == old(db.rows)[reply.id := Categoria(CategoriaGate(form).data, None, None, None)]
    ensures CategoriaGate(form).Ok? && reply.CreateFailed? ==>
      r == Err(StoreErrorMessage(reply.fault, ErroCriar)) && db.rows == old(db.rows)
  {
    var gate := CategoriaGate(form);
    if gate.Err? {
      return Err(gate.error);
    }
    var fault := db.Create(Categoria(gate.data, None, None, None), reply);
    if fault.Some? {
      return Err(StoreErrorMessage(fault.value, ErroCriar));
    }
    r := Ok(());
  }

  /** `editarCategoria`: the name is replaced and the other columns kept. */
  method EditarCategoria(db: Table<Categoria>, id: string, form: map<string, string>, reply: Option<Fault>)
    returns (r: ActionResult<()>)
    modifies db
    ensures CategoriaGate(form).Err? ==> r == Err(CategoriaGate(form).error) && db.rows == old(db.rows)
    ensures CategoriaGate(form).Ok? && id in old(db.rows) && reply.None? ==>
      r == Ok(()) && db.rows == old(db.rows)[id := old(db.rows)[id].(nome := CategoriaGate(form).data)]
    ensures CategoriaGate(form).Ok? && id !in old(db.rows) ==>
      r == Err(StoreErrorMessage(db.missing, ErroEditar)) && db.rows == old(db.rows)
    ensures CategoriaGate(form).Ok? && id in old(db.rows) && reply.Some? ==>
      r == Err(StoreErrorMessage(reply.value, ErroEditar)) && db.rows == old(db.rows)
  {
    var gate := CategoriaGate(form);
    if gate.Err? {
      return Err(gate.error);
    }
    var nome := gate.data;
    var fault := db.Update(id, (c: Categoria) => c.(nome := nome), reply);
    if fault.Some? {
      return Err(StoreErrorMessage(fault.value, ErroEditar));
    }
    r := Ok(());
  }

  /** `excluirCategoria`: no uniqueness case, only the fixed message. */
  method ExcluirCategoria(db: Table<Categoria>, id: string, reply: Option<Fault>) returns (r: ActionResult<()>)
    modifies db
    ensures id in old(db.rows) && reply.None? ==> r == Ok(()) && db.rows == old(db.rows) - {id}
    ensures id !in old(db.rows) || reply.Some? ==> r == Err(ErroExcluir) && db.rows == old(db.rows)
  {
    var fault := db.Delete(id, reply);
    if fault.Some? {
      return Err(ErroExcluir);
    }
    r := Ok(());
  }

  /** A Prisma-style uniqueness error, with the marker anywhere in its message, maps to the
      duplicate-name message. */
  lemma UniqueViolationMapped(before: string, after: string, fallback: string)
    ensures StoreErrorMessage(Thrown(before + UniqueFailed + after), fallback) == NomeDuplicado
  {
    var s := before + UniqueFailed + after;
    assert s[|before|..|before| + |UniqueFailed|] == UniqueFailed;
    IncludesAt(s, UniqueFailed, |before|);
  }

  /** Conversely, the duplicate-name message (when it is not the fallback itself) comes only
      from a thrown error whose message contains the marker at some position. */
  lemma DuplicateNeedsMarker(fault: Fault, fallback: string)
    requires fallback != NomeDuplicado && StoreErrorMessage(fault, fallback) == NomeDuplicado
    ensures fault.Thrown? && exists k: nat :: OccursAt(fault.message, UniqueFailed, k)
  {
    IncludesOccurs(fault.message, UniqueFailed);
  }

  /** A name of whitespace alone passes validation and is stored as the empty string. */
  lemma BlankNameStoredEmpty(form: map<string, string>)
    requires "nome" in form && 3 <= |form["nome"]| <= 50 && AllSpace(form["nome"])
    ensures CategoriaGate(form) == Ok("")
  {
    BlankNomeAccepted(form["nome"]);
    TrimEmptyIff(form["nome"]);
  }

  /** Without a `nome` entry the form gives `null`, rejected by the type check. */
  lemma MissingNomeRejected(form: map<string, string>)
    requires "nome" !in form
    ensures CategoriaGate(form) == Err("Expected string, received null")
  {
  }
}
