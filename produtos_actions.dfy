/** Product actions of the admin panel (app/painel/produtos/actions.ts): read the form,
    validate, trim, then write to the product table. Validation sees the untrimmed text. */
module ProdutosActions {
  import opened Js
  import opened Zod
  import opened ProdutosSchemas
  import opened Server

  const ErroCriar := "Erro ao criar produto"
  const ErroEditar := "Erro ao editar produto"
  const ErroExcluir := "Erro ao excluir produto"

  /** What the action hands to the schema. `parseFloat` is JavaScript's (`None` for NaN); a
      missing `preco` entry is `null`, which `parseFloat` reads as the text "null", so NaN. */
  function ProdutoFromForm(parseFloat: string -> Option<real>, form: map<string, string>): ProdutoInput {
    var preco :=
      if "preco" in form then (match parseFloat(form["preco"]) case Some(n) => Num(n) case None => NaN)
      else NaN;
    ProdutoInput(FormGet(form, "nome"), FormGet(form, "descricao"), preco, FormGet(form, "categoriaId"))
  }

  /** The price handed to the schema is never text: it is the number `parseFloat` reads from
      the `preco` entry, or NaN when there is no entry or it does not parse. */
  lemma FormPreco(parseFloat: string -> Option<real>, form: map<string, string>)
    ensures var p := ProdutoFromForm(parseFloat, form).preco;
      && (p.Num? || p == NaN)
      && (p.Num? <==> "preco" in form && parseFloat(form["preco"]).Some?)
      && (p.Num? ==> parseFloat(form["preco"]) == Some(p.n))
  {
  }

  /** What a successful parse of the form yields, field by field, in terms of the form. */
  lemma FormParsed(f: Formats, parseFloat: string -> Option<real>, form: map<string, string>)
    requires ProdutoParse(f, ProdutoFromForm(parseFloat, form)).Success?
    ensures var d := ProdutoParse(f, ProdutoFromForm(parseFloat, form)).data;
      && "nome" in form && d.nome == form["nome"]
      && d.descricao == (if "descricao" in form then Some(form["descricao"]) else None)
      && d.preco > 0.0 && "preco" in form && parseFloat(form["preco"]) == Some(d.preco)
      && "categoriaId" in form && d.categoriaId == form["categoriaId"]
  {
    var input := ProdutoFromForm(parseFloat, form);
    ProdutoParseIff(f, input);
    FormPreco(parseFloat, form);
  }

  /** The description to store: trimmed, and `null` when absent or blank (`descricao?.trim() || null`). */
  function StoredDescricao(d: Option<string>): (r: Option<string>)
    ensures r.None? <==> d.None? || AllSpace(d.value)
    ensures r.Some? ==> r.value == Trim(d.value) && r.value != ""
  {
    match d
    case None => None
    case Some(s) =>
      TrimEmptyIff(s);
      if Trim(s) == "" then None else Some(Trim(s))
  }

  /** Validation of the form, then the record to write: trimmed name and description, price and
      category as parsed. A failure gives the first issue's message (or the generic one). */
  function ProdutoGate(f: Formats, parseFloat: string -> Option<real>, form: map<string, string>): (r: ActionResult<Produto>)
    ensures r.Ok? <==> ProdutoAccepted(f, ProdutoFromForm(parseFloat, form))
    ensures r.Ok? ==>
      && r.data.nome == Trim(form["nome"])
      && r.data.descricao == StoredDescricao(if "descricao" in form then Some(form["descricao"]) else None)
      && r.data.preco > 0.0
      && "preco" in form && parseFloat(form["preco"]) == Some(r.data.preco)
      && r.data.categoriaId == form["categoriaId"]
    ensures r.Err? ==> r.error != ""
    ensures r.Err? ==>
      && ProdutoParse(f, ProdutoFromForm(parseFloat, form)).Failure?
      && r.error == FirstMessage(ProdutoParse(f, ProdutoFromForm(parseFloat, form)).issues)
  {
    var input := ProdutoFromForm(parseFloat, form);
    ProdutoParseIff(f, input);
    match ProdutoParse(f, input)
    case Failure(issues) => Err(FirstMessage(issues))
    case Success(d) =>
      FormParsed(f, parseFloat, form);
      Ok(Produto(Trim(d.nome), StoredDescricao(d.descricao), d.preco, d.categoriaId))
  }

  /** `criarProduto`: invalid input writes nothing; otherwise the normalised record is created. */
  method CriarProduto(db: Table<Produto>, f: Formats, parseFloat: string -> Option<real>,
                      form: map<string, string>, reply: CreateReply)
    returns (r: ActionResult<()>)
    requires reply.Created? ==> reply.id !in db.rows
    modifies db
    ensures ProdutoGate(f, parseFloat, form).Err? ==>
      r == Err(ProdutoGate(f, parseFloat, form).error) && db.rows == old(db.rows)
    ensures ProdutoGate(f, parseFloat, form).Ok? && reply.Created? ==>
      r == Ok(()) && db.rows == old(db.rows)[reply.id := ProdutoGate(f, parseFloat, form).data]
    ensures ProdutoGate(f, parseFloat, form).Ok? && reply.CreateFailed? ==>
      r == Err(ErroCriar) && db.rows == old(db.rows)
  {
    var gate := ProdutoGate(f, parseFloat, form);
    if gate.Err? {
      return Err(gate.error);
    }
    var fault := db.Create(gate.data, reply);
    if fault.Some? {
      return Err(ErroCriar);
    }
    r := Ok(());
  }

  /** `editarProduto`: invalid input writes nothing; otherwise the record's four fields are
      replaced; a missing record or a failed write gives the fixed message. */
  method EditarProduto(db: Table<Produto>, f: Formats, parseFloat: string -> Option<real>,
                       id: string, form: map<string, string>, reply: Option<Fault>)
    returns (r: ActionResult<()>)
    modifies db
    ensures ProdutoGate(f, parseFloat, form).Err? ==>
      r == Err(ProdutoGate(f, parseFloat, form).error) && db.rows == old(db.rows)
    ensures ProdutoGate(f, parseFloat, form).Ok? && id in old(db.rows) && reply.None? ==>
      r == Ok(()) && db.rows == old(db.rows)[id := ProdutoGate(f, parseFloat, form).data]
    ensures ProdutoGate(f, parseFloat, form).Ok? && (id !in old(db.rows) || reply.Some?) ==>
      r == Err(ErroEditar) && db.rows == old(db.rows)
  {
    var gate := ProdutoGate(f, parseFloat, form);
    if gate.Err? {
      return Err(gate.error);
    }
    var record := gate.data;
    var fault := db.Update(id, _ => record, reply);
    if fault.Some? {
      return Err(ErroEditar);
    }
    r := Ok(());
  }

  /** `excluirProduto` */
  method ExcluirProduto(db: Table<Produto>, id: string, reply: Option<Fault>) returns (r: ActionResult<()>)
    modifies db
    ensures id in old(db.rows) && reply.None? ==> r == Ok(()) && db.rows == old(db.rows) - {id}
    ensures id !in old(db.rows) || reply.Some? ==> r == Err(ErroExcluir) && db.rows == old(db.rows)
  {
    var fault := db.Delete(id, reply);
    if fault.Some? {
      return Err(ErroExcluir);
    }
    r := Ok(());
  }

  /** Validation runs before trimming: a name of two letters after two spaces passes the
      3-character minimum and is stored with two characters. */
  lemma ValidatedBeforeTrim(f: Formats, parseFloat: string -> Option<real>, preco: string, categoriaId: string)
    requires parseFloat(preco).Some? && parseFloat(preco).value > 0.0
    requires f.isUuid(categoriaId) && categoriaId != ""
    ensures var form := map["nome" := "  ab", "descricao" := "", "preco" := preco, "categoriaId" := categoriaId];
      ProdutoGate(f, parseFloat, form) == Ok(Produto("ab", None, parseFloat(preco).value, categoriaId))
  {
    var form := map["nome" := "  ab", "descricao" := "", "preco" := preco, "categoriaId" := categoriaId];
    var nome := "  ab";
    assert nome[1..] == " ab" && nome[1..][1..] == "ab";
    assert LeadingSpaces("ab") == 0;
    assert LeadingSpaces(nome) == 2;
    assert nome[2..] == "ab";
    assert TrailingStart("ab") == 2;
    assert "ab"[..2] == "ab";
    assert Trim(nome) == "ab";
    assert Length(nome) == 4;
    assert Length("") == 0;
    assert StoredDescricao(Some("")) == None;
    assert ProdutoAccepted(f, ProdutoFromForm(parseFloat, form));
  }

  /** A form without a `descricao` entry (the product form leaves it out when the field is
      empty) gives `null`, which the schema refuses: with a valid name, the action answers
      "Invalid input" and writes nothing. */
  lemma MissingDescricaoRejected(f: Formats, parseFloat: string -> Option<real>, form: map<string, string>)
    requires "descricao" !in form
    requires "nome" in form && 3 <= Length(form["nome"]) <= 100
    ensures ProdutoGate(f, parseFloat, form) == Err(InvalidUnion)
  {
    NullDescricaoRejected(f, ProdutoFromForm(parseFloat, form));
  }
}
