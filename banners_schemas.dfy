/** The banner schema of the admin panel (app/painel/banners/schemas.ts): checks on the title
    and the two URLs, and the defaults Zod fills in for `ativo` and `ordem`. */
module BannersSchemas {
  import opened Js
  import opened Zod

  const TituloCurto := "Título deve ter pelo menos 3 caracteres"
  const ImagemInvalida := "URL da imagem inválida"
  const LinkInvalido := "URL do link inválida"
  /** Zod's default message of `.int()` for a number with a fractional part. */
  const OrdemInteira := "Expected integer, received float"

  /** Form input; `None` is an absent (undefined) field. `ordem` is any JavaScript value: the
      forms send `parseInt` of a text field, which is `NaN` for an empty or non-numeric text. */
  datatype BannerInput = BannerInput(
    titulo: string, descricao: Option<string>, imagem: string, link: Option<string>,
    ativo: Option<bool>, ordem: Value)

  datatype Banner = Banner(
    titulo: string, descricao: Option<string>, imagem: string, link: Option<string>,
    ativo: bool, ordem: int)

  function TituloMessages(titulo: string): seq<string> {
    Check(Length(titulo) >= 3, TituloCurto)
  }

  function LinkMessages(f: Formats, link: Option<string>): seq<string> {
    match link
    case None => []
    case Some(u) => Check(f.isUrl(u), LinkInvalido)
  }

  /** `z.number().int().default(0)`: `undefined` takes the default; anything that is not a
      finite number, `NaN` included, fails the type check; a number must be whole. */
  function OrdemMessages(ordem: Value): seq<string> {
    match ordem
    case Undefined => []
    case Num(q) => Check(IsInteger(q), OrdemInteira)
    case _ => [TypeMessage("number", ordem)]
  }

  /** `bannerSchema.safeParse(input)` */
  function BannerParse(f: Formats, input: BannerInput): (r: SafeParse<Banner>)
    ensures r.Failure? ==> r.issues != []
  {
    var issues := At("titulo", TituloMessages(input.titulo))
                  + At("imagem", Check(f.isUrl(input.imagem), ImagemInvalida))
                  + At("link", LinkMessages(f, input.link))
                  + At("ordem", OrdemMessages(input.ordem));
    if issues == [] then
      Success(Banner(input.titulo, input.descricao, input.imagem, input.link,
                     input.ativo.GetOr(true), if input.ordem.Num? then input.ordem.n.Floor else 0))
    else
      Failure(issues)
  }

  /** Accepted exactly when the title has at least 3 characters (no upper bound), the image is
      a URL, the link is absent or a URL, and the order is absent or a whole number. On success the
      fields are kept, `ativo` defaults to true and `ordem` to 0. */
  lemma BannerParseIff(f: Formats, input: BannerInput)
    ensures BannerParse(f, input).Success? <==>
      && Length(input.titulo) >= 3
      && f.isUrl(input.imagem)
      && (input.link.None? || f.isUrl(input.link.value))
      && (input.ordem.Undefined? || (input.ordem.Num? && IsInteger(input.ordem.n)))
    ensures BannerParse(f, input).Success? ==>
      var b := BannerParse(f, input).data;
      && b.titulo == input.titulo && b.imagem == input.imagem && b.link == input.link
      && b.descricao == input.descricao
      && b.ativo == (input.ativo != Some(false))
      && b.ordem as real == (if input.ordem.Undefined? then 0.0 else input.ordem.n)
  {
  }

  /** A present but empty link is not absent: it must itself be a URL. */
  lemma EmptyLinkChecked(f: Formats, input: BannerInput)
    requires input.link == Some("") && !f.isUrl("")
    ensures BannerParse(f, input).Failure?
    ensures Issue([Key("link")], LinkInvalido) in BannerParse(f, input).issues
  {
    var l := At("link", LinkMessages(f, input.link));
    assert l[0] in l;
  }

  /** An order of `NaN` (an empty or non-numeric order field) is refused by the type check,
      whatever the other fields hold. */
  lemma NaNOrdemRejected(f: Formats, input: BannerInput)
    requires input.ordem == NaN
    ensures BannerParse(f, input).Failure?
    ensures Issue([Key("ordem")], "Expected number, received nan") in BannerParse(f, input).issues
  {
    assert TypeName(NaN) == "nan";
    assert "Expected " + "number" + ", received " + "nan" == "Expected number, received nan";
    assert OrdemMessages(input.ordem) == [TypeMessage("number", NaN)];
    var o := At("ordem", OrdemMessages(input.ordem));
    var issues := BannerParse(f, input).issues;
    assert issues[|issues| - 1] == o[0];
  }
}
