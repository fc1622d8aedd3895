/** The password reset page: the session check when the page opens and the
    checks in front of the password update. The authentication service's
    answers are parameters. */
module ResetPassword {
  import opened Wrappers

  /** What the session lookup answered. */
  datatype SessionCheck = SessionFound | NoSession | LookupError(message: string)

  const LinkInvalid := "Link de redefinição de senha inválido ou expirado."
  const LinkCheckFailed := "Erro ao verificar o link de redefinição. Tente solicitar um novo."

  /** The page's state after the lookup: whether the token is usable and the
      error shown. */
  datatype LinkState = LinkState(tokenValid: bool, errorMessage: string)

  /** The effect that runs on opening the page: a session makes the token
      valid; no session shows the invalid-link message; a failed lookup shows
      its own message, or a fixed one when that message is empty. */
  function CheckSession(answer: SessionCheck): (r: LinkState)
    ensures r.tokenValid <==> answer == SessionFound
    ensures r.tokenValid ==> r.errorMessage == ""
    ensures !r.tokenValid ==> r.errorMessage != ""
    ensures answer.LookupError? && answer.message != "" ==> r.errorMessage == answer.message
    ensures answer == NoSession ==> r.errorMessage == LinkInvalid
    ensures answer == LookupError("") ==> r.errorMessage == LinkCheckFailed
  {
    match answer
    case SessionFound => LinkState(true, "")
    case NoSession => LinkState(false, LinkInvalid)
    case LookupError(m) => LinkState(false, if m != "" then m else LinkCheckFailed)
  }

  const TokenRejected := "Token de redefinição inválido. Por favor, solicite um novo link."
  const TooShort := "A senha deve ter pelo menos 6 caracteres."
  const Mismatch := "As senhas não coincidem."

  /** The submit handler up to the update call: the first failed check's
      message, or the password the update is asked to set. */
  datatype Submit = Refused(message: string) | UpdateRequested(password: string)

  function HandlePasswordReset(tokenValid: bool, password: string, confirmPassword: string): (r: Submit)
    ensures r.UpdateRequested? <==> tokenValid && |password| >= 6 && password == confirmPassword
    ensures r.UpdateRequested? ==> r.password == password
    ensures !tokenValid ==> r == Refused(TokenRejected)
    ensures tokenValid && |password| < 6 ==> r == Refused(TooShort)
    ensures tokenValid && |password| >= 6 && password != confirmPassword ==> r == Refused(Mismatch)
  {
    if !tokenValid then Refused(TokenRejected)
    else if |password| < 6 then Refused(TooShort)
    else if password != confirmPassword then Refused(Mismatch)
    else UpdateRequested(password)
  }

  /** Every refusal names exactly one check, and it is the first one that
      failed: a refusal for length implies a valid token, and a refusal for
      the confirmation implies a valid token and a long enough password. */
  lemma FirstFailingCheck(tokenValid: bool, password: string, confirmPassword: string)
    ensures var r := HandlePasswordReset(tokenValid, password, confirmPassword);
      && (r == Refused(TooShort) ==> tokenValid)
      && (r == Refused(Mismatch) ==> tokenValid && |password| >= 6)
      && (r.Refused? ==> r.message in {TokenRejected, TooShort, Mismatch})
  {
  }

  /** A page whose session lookup found nothing never reaches the update,
      whatever is typed. */
  lemma NoUpdateWithoutSession(answer: SessionCheck, password: string, confirmPassword: string)
    requires answer != SessionFound
    ensures HandlePasswordReset(CheckSession(answer).tokenValid, password, confirmPassword) == Refused(TokenRejected)
  {
  }

  /** Where the page goes after the update: to the login page, or it stays
      and shows an error. */
  datatype Finish = GoToLogin | ShowError(toastText: string, errorMessage: string)

  const UpdateFailedToast := "Ocorreu um erro ao redefinir sua senha."
  const UpdateFailedMessage := "Erro ao redefinir senha."

  /** The update's answer (`None` for success, or the error's message): a
      success leads to the login page; an error shows its message, or fixed
      texts when the message is empty. */
  function FinishUpdate(error: Option<string>): (r: Finish)
    ensures r == GoToLogin <==> error.None?
    ensures error.Some? && error.value != "" ==> r == ShowError(error.value, error.value)
    ensures error == Some("") ==> r == ShowError(UpdateFailedToast, UpdateFailedMessage)
  {
    match error
    case None => GoToLogin
    case Some(m) => if m != "" then ShowError(m, m) else ShowError(UpdateFailedToast, UpdateFailedMessage)
  }
}
