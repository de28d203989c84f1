/** Helpers that turn Zod issues into one message and build uniform action replies
    (lib/validation-utils.ts). */
module ValidationUtils {
  import opened Js
  import opened Zod

  function KeyText(k: PathKey): string {
    match k
    case Key(name) => name
    case Index(i) => NatToString(i)
  }

  /** `issue.path.join('.')` */
  function PathText(path: seq<PathKey>): string {
    Join(seq(|path|, i requires 0 <= i < |path| => KeyText(path[i])), ".")
  }

  /** One issue: `campo: message`, or the bare message when the joined path is empty. */
  function RenderIssue(issue: Issue): string {
    var campo := PathText(issue.path);
    if campo != "" then campo + ": " + issue.message else issue.message
  }

  /** `formatarErrosZod`: every issue rendered, in order, joined by `; `. */
  function FormatarErrosZod(issues: seq<Issue>): string {
    Join(seq(|issues|, i requires 0 <= i < |issues| => RenderIssue(issues[i])), "; ")
  }

  /** The joined path is empty exactly for the empty path and for a single empty key. */
  lemma PathTextEmptyIff(path: seq<PathKey>)
    ensures PathText(path) == "" <==> path == [] || path == [Key("")]
  {
    var parts := seq(|path|, i requires 0 <= i < |path| => KeyText(path[i]));
    if |path| >= 2 {
      JoinLength(parts, ".");
    }
  }

  /** An issue with an empty path renders as its message alone. */
  lemma RenderRootIssue(message: string)
    ensures RenderIssue(Issue([], message)) == message
  {
  }

  /** An issue at a non-empty key renders as `key: message`. */
  lemma RenderKeyIssue(key: string, message: string)
    requires key != ""
    ensures RenderIssue(Issue([Key(key)], message)) == key + ": " + message
  {
  }

  /** An issue inside an array item renders as `index.key: message`. */
  lemma RenderItemIssue(i: nat, key: string, message: string)
    ensures RenderIssue(Issue([Index(i), Key(key)], message)) == NatToString(i) + "." + key + ": " + message
  {
    var path := [Index(i), Key(key)];
    var parts := [NatToString(i), key];
    assert seq(|path|, j requires 0 <= j < |path| => KeyText(path[j])) == parts;
    assert parts[..1] == [NatToString(i)];
    assert Join(parts, ".") == Join(parts[..1], ".") + "." + key;
  }

  /** No issues give the empty string; one issue gives its rendering alone. */
  lemma FormatSmall(issue: Issue)
    ensures FormatarErrosZod([]) == ""
    ensures FormatarErrosZod([issue]) == RenderIssue(issue)
  {
  }

  /** Each further issue adds `; ` and its rendering at the end: the input order is kept. */
  lemma FormatAppend(issues: seq<Issue>, issue: Issue)
    requires issues != []
    ensures FormatarErrosZod(issues + [issue]) == FormatarErrosZod(issues) + "; " + RenderIssue(issue)
  {
    var all := issues + [issue];
    var parts := seq(|all|, i requires 0 <= i < |all| => RenderIssue(all[i]));
    assert parts[..|parts| - 1] == seq(|issues|, i requires 0 <= i < |issues| => RenderIssue(issues[i]));
  }

  /** The reply `{ error, success: false }` or `{ success: true, data? }`. */
  datatype Reply = Reply(success: bool, error: Option<string>, data: Option<Value>)

  /** `erroValidacao(mensagem)` */
  function ErroValidacao(mensagem: string): (r: Reply)
    ensures !r.success && r.error == Some(mensagem) && r.data == None
  {
    Reply(false, Some(mensagem), None)
  }

  /** `sucessoValidacao(data)`: the `data` field is spread in only when `data` is truthy. */
  function SucessoValidacao(data: Value): (r: Reply)
    ensures r.success && r.error == None
    ensures r.data.Some? <==> data.Truthy()
    ensures r.data.Some? ==> r.data.value == data
  {
    Reply(true, None, if data.Truthy() then Some(data) else None)
  }

  /** The reply shape the pages rely on: a reply succeeds exactly when it carries no error,
      and a failed reply carries no data. */
  predicate WellFormed(r: Reply) {
    (r.success <==> r.error.None?) && (!r.success ==> r.data.None?)
  }

  /** Both builders produce well-formed replies, they never coincide, and the page reads back
      the message of a failure and the (truthy) data of a success. */
  lemma RepliesWellFormed(mensagem: string, data: Value)
    ensures WellFormed(ErroValidacao(mensagem)) && WellFormed(SucessoValidacao(data))
    ensures ErroValidacao(mensagem) != SucessoValidacao(data)
    ensures ErroValidacao(mensagem).error.value == mensagem
    ensures data.Truthy() ==> SucessoValidacao(data).data == Some(data)
  {
  }
}
