/** The product schema of the admin panel (app/painel/produtos/schemas.ts). Its fields arrive
    from a form, so any JavaScript value may reach each of them. */
module ProdutosSchemas {
  import opened Js
  import opened Zod

  const NomeObrigatorio := "Nome do produto é obrigatório"
  const NomeCurto := "Nome deve ter pelo menos 3 caracteres"
  const NomeLongo := "Nome não pode ter mais de 100 caracteres"
  const DescricaoLonga := "Descrição não pode ter mais de 500 caracteres"
  const PrecoPositivo := "Preço deve ser maior que zero"
  const CategoriaInvalida := "Categoria inválida"
  const SelecioneCategoria := "Selecione uma categoria"

  datatype ProdutoInput = ProdutoInput(nome: Value, descricao: Value, preco: Value, categoriaId: Value)

  /** What a successful parse yields; `descricao` is `None` when it was undefined. */
  datatype ProdutoData = ProdutoData(nome: string, descricao: Option<string>, preco: real, categoriaId: string)

  function Messages<T>(field: Field<T>): seq<string> {
    if field.Invalid? then field.messages else []
  }

  function NomeField(v: Value): Field<string> {
    match v
    case Str(s) =>
      var m := Check(Length(s) >= 1, NomeObrigatorio)
               + Check(Length(s) >= 3, NomeCurto)
               + Check(Length(s) <= 100, NomeLongo);
      if m == [] then Valid(s) else Invalid(m)
    case _ => Invalid([TypeMessage("string", v)])
  }

  /** `z.string().max(500).optional().or(z.literal(''))`: the first option that accepts wins;
      otherwise the first option that failed only on a non-fatal check (a length, not a type)
      reports its issues; otherwise the union fails with "Invalid input". */
  function DescricaoField(v: Value): Field<Option<string>> {
    match v
    case Undefined => Valid(None)
    case Str(s) => if Length(s) <= 500 then Valid(Some(s)) else Invalid([DescricaoLonga])
    case _ => Invalid([InvalidUnion])
  }

  /** `z.number().positive().or(z.string().pipe(z.coerce.number().positive()))` */
  function PrecoField(f: Formats, v: Value): Field<real> {
    match v
    case Num(n) => if n > 0.0 then Valid(n) else Invalid([PrecoPositivo])
    case Str(s) =>
      (match f.coerceNumber(s)
       case Some(n) => if n > 0.0 then Valid(n) else Invalid([PrecoPositivo])
       case None => Invalid([InvalidUnion]))
    case _ => Invalid([InvalidUnion])
  }

  function CategoriaIdField(f: Formats, v: Value): Field<string> {
    match v
    case Str(s) =>
      var m := Check(f.isUuid(s), CategoriaInvalida) + Check(Length(s) >= 1, SelecioneCategoria);
      if m == [] then Valid(s) else Invalid(m)
    case _ => Invalid([TypeMessage("string", v)])
  }

  /** `produtoSchema.safeParse(input)` */
  function ProdutoParse(f: Formats, input: ProdutoInput): (r: SafeParse<ProdutoData>)
    ensures r.Failure? ==> r.issues != []
  {
    var nome := NomeField(input.nome);
    var descricao := DescricaoField(input.descricao);
    var preco := PrecoField(f, input.preco);
    var categoriaId := CategoriaIdField(f, input.categoriaId);
    if nome.Valid? && descricao.Valid? && preco.Valid? && categoriaId.Valid? then
      Success(ProdutoData(nome.value, descricao.value, preco.value, categoriaId.value))
    else
      Failure(At("nome", Messages(nome)) + At("descricao", Messages(descricao))
              + At("preco", Messages(preco)) + At("categoriaId", Messages(categoriaId)))
  }

  /** Reference: the name has 3 to 100 characters; the description is absent or at most 500
      characters (the empty string included); the price is a positive number or a string that
      coerces to one; the category id is a non-empty UUID. */
  predicate ProdutoAccepted(f: Formats, input: ProdutoInput) {
    && input.nome.Str? && 3 <= Length(input.nome.s) <= 100
    && (input.descricao.Undefined? || (input.descricao.Str? && Length(input.descricao.s) <= 500))
    && (|| (input.preco.Num? && input.preco.n > 0.0)
        || (input.preco.Str? && f.coerceNumber(input.preco.s).Some? && f.coerceNumber(input.preco.s).value > 0.0))
    && input.categoriaId.Str? && f.isUuid(input.categoriaId.s) && input.categoriaId.s != []
  }

  /** The schema accepts exactly what the reference does, and then hands the fields through
      unchanged (no trimming): the price is the number given, or what the text coerces to. */
  lemma ProdutoParseIff(f: Formats, input: ProdutoInput)
    ensures ProdutoParse(f, input).Success? <==> ProdutoAccepted(f, input)
    ensures ProdutoParse(f, input).Success? ==>
      var d := ProdutoParse(f, input).data;
      && Str(d.nome) == input.nome
      && (if input.descricao.Undefined? then d.descricao == None else Str(d.descricao.value) == input.descricao)
      && d.preco > 0.0
      && (input.preco.Num? ==> d.preco == input.preco.n)
      && (input.preco.Str? ==> f.coerceNumber(input.preco.s) == Some(d.preco))
      && Str(d.categoriaId) == input.categoriaId
  {
  }

  /** A `null` description is neither undefined nor a string: the union fails, and with a valid
      name that failure is the first issue. */
  lemma NullDescricaoRejected(f: Formats, input: ProdutoInput)
    requires input.descricao == Null
    requires input.nome.Str? && 3 <= Length(input.nome.s) <= 100
    ensures ProdutoParse(f, input).Failure?
    ensures ProdutoParse(f, input).issues[0] == Issue([Key("descricao")], InvalidUnion)
  {
  }

  /** A price that is not a number (NaN) fails the union as a whole. */
  lemma NaNPrecoRejected(f: Formats, input: ProdutoInput)
    requires input.preco == NaN
    ensures ProdutoParse(f, input).Failure?
    ensures Issue([Key("preco")], InvalidUnion) in ProdutoParse(f, input).issues
  {
    var p := At("preco", Messages(PrecoField(f, input.preco)));
    assert p[0] in p;
  }
}
