/** Login and sign-up schemas (lib/auth-schema.ts). */
module AuthSchema {
  import opened Js
  import opened Zod

  const EmailInvalido := "Email inválido"
  const SenhaCurta := "Senha deve ter pelo menos 6 caracteres"
  const SenhaLonga := "Senha não pode ter mais de 100 caracteres"
  const NomeObrigatorio := "Nome é obrigatório"
  const NomeCurto := "Nome deve ter pelo menos 3 caracteres"
  const NomeLongo := "Nome não pode ter mais de 100 caracteres"
  const ConfirmacaoCurta := "Confirmação de senha deve ter pelo menos 6 caracteres"
  const SenhasDiferentes := "As senhas não coincidem"

  datatype SignupInput = SignupInput(name: string, email: string, password: string, confirmPassword: string)

  /** `loginSchema.safeParse({ email, password })` */
  function LoginIssues(f: Formats, email: string, password: string): seq<Issue> {
    At("email", Check(f.isEmail(email), EmailInvalido))
    + At("password", Check(Length(password) >= 6, SenhaCurta))
  }

  lemma LoginIssuesEmptyIff(f: Formats, email: string, password: string)
    ensures LoginIssues(f, email, password) == [] <==> f.isEmail(email) && Length(password) >= 6
  {
  }

  /** The field checks of `signupSchema`, and then its refinement, which reports a mismatch at
      `confirmPassword`. Zod skips a refinement only when a field fails its type check; every
      field here is a string, so the refinement runs even after a length or format failure. */
  function SignupIssues(f: Formats, s: SignupInput): seq<Issue> {
    At("name", Check(Length(s.name) >= 1, NomeObrigatorio)
               + Check(Length(s.name) >= 3, NomeCurto)
               + Check(Length(s.name) <= 100, NomeLongo))
    + At("email", Check(f.isEmail(s.email), EmailInvalido))
    + At("password", Check(Length(s.password) >= 6, SenhaCurta) + Check(Length(s.password) <= 100, SenhaLonga))
    + At("confirmPassword", Check(Length(s.confirmPassword) >= 6, ConfirmacaoCurta))
    + (if s.password == s.confirmPassword then [] else [Issue([Key("confirmPassword")], SenhasDiferentes)])
  }

  /** Sign-up is accepted exactly when the name has 3 to 100 characters, the email is valid,
      the password has 6 to 100 characters and the confirmation repeats it. */
  lemma SignupIssuesEmptyIff(f: Formats, s: SignupInput)
    ensures SignupIssues(f, s) == [] <==>
      3 <= Length(s.name) <= 100 && f.isEmail(s.email) && 6 <= Length(s.password) <= 100
      && s.confirmPassword == s.password
  {
  }

  /** Different passwords always produce the mismatch issue, last, at `confirmPassword`. */
  lemma SignupMismatch(f: Formats, s: SignupInput)
    requires s.password != s.confirmPassword
    ensures var issues := SignupIssues(f, s);
      issues != [] && issues[|issues| - 1] == Issue([Key("confirmPassword")], SenhasDiferentes)
  {
  }
}
