/** The category schema of the admin panel (app/painel/categorias/schemas.ts). Its `nome`
    arrives from a form, so any JavaScript value may reach it. */
module CategoriasSchemas {
  import opened Js
  import opened Zod

  const NomeObrigatorio := "Nome da categoria é obrigatório"
  const NomeCurto := "Nome deve ter pelo menos 3 caracteres"
  const NomeLongo := "Nome não pode ter mais de 50 caracteres"
  const NomeLetras := "Nome deve conter apenas letras"

  /** The string chain of `nome`; a value that is not a string fails the type check alone. */
  function NomeField(v: Value): Field<string> {
    match v
    case Str(s) =>
      var m := Check(Length(s) >= 1, NomeObrigatorio)
               + Check(Length(s) >= 3, NomeCurto)
               + Check(Length(s) <= 50, NomeLongo)
               + Check(MatchesNamePattern(s), NomeLetras);
      if m == [] then Valid(s) else Invalid(m)
    case _ => Invalid([TypeMessage("string", v)])
  }

  /** `categoriaSchema.safeParse({ nome })` */
  function CategoriaParse(nome: Value): (r: SafeParse<string>)
    ensures r.Failure? ==> r.issues != []
  {
    match NomeField(nome)
    case Valid(s) => Success(s)
    case Invalid(m) => Failure(At("nome", m))
  }

  /** Reference: a string of 3 to 50 characters, each a letter of the name class or whitespace. */
  predicate NomeAccepted(s: string) {
    3 <= |s| <= 50 && forall i :: 0 <= i < |s| ==> IsNameChar(s[i])
  }

  /** Accepted exactly when the value is a string the reference accepts, and then unchanged. */
  lemma CategoriaParseIff(nome: Value)
    ensures CategoriaParse(nome).Success? <==> nome.Str? && NomeAccepted(nome.s)
    ensures CategoriaParse(nome).Success? ==> CategoriaParse(nome).data == nome.s
  {
    if nome.Str? && (NomeAccepted(nome.s) || MatchesNamePattern(nome.s)) {
      NamePatternLength(nome.s);
    }
  }

  /** The empty name is reported first as missing, and fails the later checks too. */
  lemma EmptyNomeIssues()
    ensures CategoriaParse(Str("")) == Failure([
      Issue([Key("nome")], NomeObrigatorio),
      Issue([Key("nome")], NomeCurto),
      Issue([Key("nome")], NomeLetras)])
  {
  }

  /** A name of only whitespace passes, because the pattern admits whitespace. */
  lemma BlankNomeAccepted(s: string)
    requires 3 <= |s| <= 50 && AllSpace(s)
    ensures CategoriaParse(Str(s)) == Success(s)
  {
    CategoriaParseIff(Str(s));
  }
}
