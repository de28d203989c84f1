/** `POST /api/categorias` (app/api/categorias/route.ts): creates a category from a JSON body,
    deriving the slug from the name and defaulting the colour. */
module CategoriasRoute {
  import opened Js
  import opened Server

  const CorPadrao := "#3B82F6"
  const ErroCriar := "Erro ao criar categoria"

  predicate NoUpper(s: string) {
    forall i :: 0 <= i < |s| ==> !IsUpper(s[i])
  }

  /** `s.replace(/\s+/g, '-')`: every maximal run of whitespace becomes one `-`. */
  function CollapseSpaces(s: string): (r: string)
    decreases |s|
    ensures |r| <= |s|
    ensures NoSpace(r)
    ensures NoUpper(s) ==> NoUpper(r)
    ensures NoSpace(s) ==> r == s
    ensures s != [] && AllSpace(s) ==> r == "-"
  {
    if s == [] then []
    else if IsSpace(s[0]) then
      var n := LeadingSpaces(s);
      assert n >= 1;
      "-" + CollapseSpaces(s[n..])
    else [s[0]] + CollapseSpaces(s[1..])
  }

  /** Text without whitespace is copied through unchanged ahead of whatever follows. */
  lemma {:induction false} CollapsePrefix(a: string, t: string)
    requires NoSpace(a)
    ensures CollapseSpaces(a + t) == a + CollapseSpaces(t)
  {
    if a != [] {
      var s := a + t;
      assert s[0] == a[0] && !IsSpace(s[0]);
      assert s[1..] == a[1..] + t;
      var rest := CollapseSpaces(a[1..] + t);
      assert CollapseSpaces(s) == [a[0]] + rest;
      CollapsePrefix(a[1..], t);
      var ct := CollapseSpaces(t);
      assert rest == a[1..] + ct;
      assert [a[0]] + (a[1..] + ct) == ([a[0]] + a[1..]) + ct;
      assert [a[0]] + a[1..] == a;
    } else {
      assert a + t == t;
    }
  }

  /** One maximal run of whitespace, of any length, becomes exactly one `-`: the text before
      it is kept and the text after it is collapsed in turn. */
  lemma CollapseRun(a: string, w: string, b: string)
    requires NoSpace(a) && w != [] && AllSpace(w) && (b == [] || !IsSpace(b[0]))
    ensures CollapseSpaces(a + w + b) == a + "-" + CollapseSpaces(b)
  {
    assert a + w + b == a + (w + b);
    CollapsePrefix(a, w + b);
    LeadingSpacesRun(w, b);
    assert (w + b)[0] == w[0];
    assert (w + b)[|w|..] == b;
  }

  /** `nome.toLowerCase().replace(/\s+/g, '-')` */
  function Slugify(nome: string): string {
    CollapseSpaces(ToLower(nome))
  }

  /** A derived slug has no whitespace and no upper-case letter of the declared class. */
  lemma SlugifyShape(nome: string)
    ensures NoSpace(Slugify(nome)) && NoUpper(Slugify(nome))
    ensures |Slugify(nome)| <= |nome|
  {
    assert NoUpper(ToLower(nome));
  }

  /** Slugifying a slug changes nothing. */
  lemma SlugifyIdempotent(nome: string)
    ensures Slugify(Slugify(nome)) == Slugify(nome)
  {
    var t := Slugify(nome);
    SlugifyShape(nome);
    assert ToLower(t) == t;
  }

  /** Already lower-case text without whitespace is its own slug. */
  lemma SlugifyFixed(nome: string)
    requires NoSpace(nome) && NoUpper(nome)
    ensures Slugify(nome) == nome
  {
    assert ToLower(nome) == nome;
  }

  /** The fields of the JSON body; `None` marks a field that is absent (or `null`). */
  datatype CategoriaBody = CategoriaBody(nome: Option<string>, slug: Option<string>, cor: Option<string>, foto: Option<string>)

  /** `value || fallback` for an optional string. */
  function OrElse(value: Option<string>, fallback: string): (r: string)
    ensures value.Some? && value.value != "" ==> r == value.value
    ensures value.None? || value.value == "" ==> r == fallback
  {
    if value.Some? && value.value != "" then value.value else fallback
  }

  /** The record to create, or `None` when the body has no name: then either the slug
      derivation throws or the database refuses the missing required column. */
  function NewCategoria(body: CategoriaBody): (r: Option<Categoria>)
    ensures r.Some? <==> body.nome.Some?
  {
    match body.nome
    case None => None
    case Some(nome) => Some(Categoria(nome, Some(OrElse(body.slug, Slugify(nome))), Some(OrElse(body.cor, CorPadrao)), body.foto))
  }

  /** The created record keeps the name and photo as sent, uses a non-empty slug verbatim and
      derives one otherwise, and uses a non-empty colour or the default blue. */
  lemma NewCategoriaFields(body: CategoriaBody)
    requires body.nome.Some?
    ensures var c := NewCategoria(body).value;
      && c.nome == body.nome.value
      && c.foto == body.foto
      && c.slug.Some? && c.cor.Some?
      && (body.slug.Some? && body.slug.value != "" ==> c.slug.value == body.slug.value)
      && (body.slug.None? || body.slug.value == "" ==> c.slug.value == Slugify(body.nome.value))
      && (body.cor.Some? && body.cor.value != "" ==> c.cor.value == body.cor.value)
      && (body.cor.None? || body.cor.value == "" ==> c.cor.value == CorPadrao)
  {
  }

  /** A non-empty name has a non-empty slug. */
  lemma NonEmptySlug(nome: string)
    requires nome != []
    ensures Slugify(nome) != []
  {
    var t := ToLower(nome);
    assert t != [];
  }

  /** The handler. `body` is `None` when the request's JSON does not parse; the database's
      answer to the create is an input. */
  method Post(db: Table<Categoria>, body: Option<CategoriaBody>, reply: CreateReply)
    returns (r: ApiResponse<Categoria>)
    requires reply.Created? ==> reply.id !in db.rows
    modifies db
    ensures body.None? || body.value.nome.None? ==> r == JsonError(500, ErroCriar) && db.rows == old(db.rows)
    ensures body.Some? && body.value.nome.Some? && reply.Created? ==>
      r == Json(201, NewCategoria(body.value).value)
      && db.rows == old(db.rows)[reply.id := NewCategoria(body.value).value]
    ensures body.Some? && body.value.nome.Some? && reply.CreateFailed? ==>
      r == JsonError(500, ErroCriar) && db.rows == old(db.rows)
  {
    if body.None? {
      return JsonError(500, ErroCriar);
    }
    var record := NewCategoria(body.value);
    if record.None? {
      return JsonError(500, ErroCriar);
    }
    var fault := db.Create(record.value, reply);
    if fault.Some? {
      return JsonError(500, ErroCriar);
    }
    r := Json(201, record.value);
  }
}
