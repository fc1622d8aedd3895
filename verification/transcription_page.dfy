/** The transcription page: the checks in front of the paid transcription,
    the reset button and the save dialog. The transcription service is a
    parameter: the outcome the call would have if it were made. */
module TranscriptionPage {
  import opened Wrappers
  import opened Text
  import opened Ledger
  import opened TranscriptionService
  import Briefing

  const TranscriptionCost := 5
  const TranscriptionFeature := "Transcrição de Vídeo"

  /** How a click on "Transcrever Vídeo" ended. */
  datatype Outcome =
    | AuthPending     // the session is still being read
    | SignedOut       // nobody is signed in
    | InvalidUrl      // no video id in the URL
    | SpendRefused    // the coins could not be spent
    | ServiceFailed   // the coins were spent, the service failed
    | Transcribed     // the coins were spent, the result is shown

  /** The page after the click: how it ended, the session, the result shown,
      and whether the transcription service was called. */
  datatype Attempt = Attempt(outcome: Outcome, user: Session, result: Option<TranscriptionResult>, called: bool)

  /** `handleYoutubeTranscription`. The early returns leave the result on
      screen; from the id check on, the result is cleared, 5 coins are spent,
      and only a successful spend leads to the service call. A failed call
      keeps the spend and shows no result. `shown` is the result on screen
      before the click, `date` the clock reading for the history entry. */
  function HandleTranscription(authLoading: bool, user: Session, url: string, date: string,
                               shown: Option<TranscriptionResult>,
                               service: Result<TranscriptionResult, string>): (r: Attempt)
    requires user.Some? ==> CanLevel(user.value)
    ensures r.outcome in {AuthPending, SignedOut, InvalidUrl} <==>
      (authLoading || user.None? || ExtractVideoId(url).None?)
    ensures r.outcome in {AuthPending, SignedOut, InvalidUrl} ==> r.user == user && r.result == shown
    ensures r.called <==> !authLoading && user.Some? && ExtractVideoId(url).Some? && user.value.tubecoins >= TranscriptionCost
    ensures r.called <==> r.outcome in {ServiceFailed, Transcribed}
    ensures r.outcome == Transcribed <==> r.called && service.Success?
    ensures r.outcome == Transcribed ==> r.result == Some(service.value)
    ensures r.outcome in {SpendRefused, ServiceFailed} ==> r.result.None?
    ensures !r.called ==> r.user == user
    ensures r.called ==> r.user.Some? && SpendKeepsDebit(user.value, r.user.value, TranscriptionCost, TranscriptionFeature, date)
  {
    if authLoading then Attempt(AuthPending, user, shown, false)
    else if user.None? then Attempt(SignedOut, user, shown, false)
    else if ExtractVideoId(url).None? then Attempt(InvalidUrl, user, shown, false)
    else
      var spend := SpendIntended(user, TranscriptionCost, TranscriptionFeature, date);
      if !spend.ok then Attempt(SpendRefused, spend.user, None, false)
      else if service.Failure? then Attempt(ServiceFailed, spend.user, None, true)
      else Attempt(Transcribed, spend.user, Some(service.value), true)
  }

  /** The checks come in order: a pending session wins over everything, a
      missing user over a bad URL, and a bad URL over the balance. */
  lemma GuardOrder(user: Session, url: string, date: string, shown: Option<TranscriptionResult>,
                   service: Result<TranscriptionResult, string>)
    requires user.Some? ==> CanLevel(user.value)
    ensures HandleTranscription(true, user, url, date, shown, service).outcome == AuthPending
    ensures HandleTranscription(false, None, url, date, shown, service).outcome == SignedOut
    ensures user.Some? && ExtractVideoId(url).None? ==>
      HandleTranscription(false, user, url, date, shown, service).outcome == InvalidUrl
    ensures user.Some? && ExtractVideoId(url).Some? && user.value.tubecoins < TranscriptionCost ==>
      HandleTranscription(false, user, url, date, shown, service).outcome == SpendRefused
  {
  }

  /** No refund: when the service fails, the balance is exactly what a
      successful transcription would have left. */
  lemma NoRefundOnFailure(user: Session, url: string, date: string, shown: Option<TranscriptionResult>,
                          failure: string, result: TranscriptionResult)
    requires user.Some? ==> CanLevel(user.value)
    ensures HandleTranscription(false, user, url, date, shown, Failure(failure)).user
         == HandleTranscription(false, user, url, date, shown, Success(result)).user
  {
  }

  /** The service outcome matters only once the spend has gone through. */
  lemma ServiceOnlyAfterSpend(authLoading: bool, user: Session, url: string, date: string,
                              shown: Option<TranscriptionResult>,
                              a: Result<TranscriptionResult, string>, b: Result<TranscriptionResult, string>)
    requires user.Some? ==> CanLevel(user.value)
    ensures !HandleTranscription(authLoading, user, url, date, shown, a).called ==>
      HandleTranscription(authLoading, user, url, date, shown, a)
        == HandleTranscription(authLoading, user, url, date, shown, b)
  {
  }

  /** The credit check approves durations the ledger would refuse: for a
      balance below the coins it logs as needed, it still passes, while a
      spend of those coins is refused and changes nothing. */
  lemma CreditCheckIgnoresBalance(p: Profile, minutes: int, feature: string, date: string)
    requires CanLevel(p) && p.tubecoins < RequiredCoins(minutes)
    ensures VerifyUserCredits(minutes)
    ensures SpendIntended(Some(p), RequiredCoins(minutes), feature, date) == SpendResult(false, Some(p))
  {
  }

  /** `isButtonDisabled`: the trigger and the URL field are disabled while
      the session loads or a transcription runs. */
  function ButtonDisabled(authLoading: bool, processing: bool): (r: bool)
    ensures r <==> authLoading || processing
  {
    authLoading || processing
  }

  /** A click on "Transcrever Vídeo": a disabled button fires nothing, an
      enabled one runs `handleYoutubeTranscription`. */
  function Press(authLoading: bool, processing: bool, user: Session, url: string, date: string,
                 shown: Option<TranscriptionResult>,
                 service: Result<TranscriptionResult, string>): (r: Option<Attempt>)
    requires user.Some? ==> CanLevel(user.value)
    ensures r.None? <==> ButtonDisabled(authLoading, processing)
    ensures r.Some? ==> r.value == HandleTranscription(authLoading, user, url, date, shown, service)
  {
    if ButtonDisabled(authLoading, processing) then None
    else Some(HandleTranscription(authLoading, user, url, date, shown, service))
  }

  /** While a transcription runs or the session loads, a click spends nothing
      and calls nothing, so a second click cannot charge twice; and a click
      that does fire never meets the pending-session branch. */
  lemma DisabledTriggerSpendsNothing(authLoading: bool, processing: bool, user: Session, url: string,
                                     date: string, shown: Option<TranscriptionResult>,
                                     service: Result<TranscriptionResult, string>)
    requires user.Some? ==> CanLevel(user.value)
    ensures processing ==> Press(authLoading, processing, user, url, date, shown, service).None?
    ensures var r := Press(authLoading, processing, user, url, date, shown, service);
      r.Some? ==> r.value.outcome != AuthPending
  {
  }

  /** What the page holds between clicks: the URL field and the result. */
  datatype Screen = Screen(url: string, result: Option<TranscriptionResult>)

  /** `resetTranscription`: back to an empty form with no result. */
  function Reset(s: Screen): (r: Screen)
    ensures r.result.None? && r.url == ""
  {
    Screen("", None)
  }

  /** After a reset the form is empty: a click on the trigger finds no video
      id, so it spends nothing, calls nothing and shows no result. */
  lemma ResetThenTranscribe(s: Screen, user: Session, date: string,
                            service: Result<TranscriptionResult, string>)
    requires user.Some? && CanLevel(user.value)
    ensures var t := Reset(s);
      HandleTranscription(false, user, t.url, date, t.result, service) == Attempt(InvalidUrl, user, None, false)
  {
    assert LineEnd("", 0) == 0;
  }

  /** The save dialog's outcome: a refused title, a silent return, or the row
      the page inserts. */
  datatype SaveOutcome = TitleRejected | NothingToSave | Insert(record: Briefing.ScriptRecord)

  /** `handleSaveScript`: a blank title is refused with a message; without a
      user or a result nothing happens; otherwise the row holds the user, the
      title as typed and the transcript's text. */
  function SaveTranscript(user: Session, result: Option<TranscriptionResult>, title: string): (r: SaveOutcome)
    ensures r == TitleRejected <==> IsBlank(title)
    ensures r == NothingToSave <==> !IsBlank(title) && (user.None? || result.None?)
    ensures r.Insert? ==>
      && user.Some? && result.Some?
      && r.record == Briefing.ScriptRecord(user.value.id, title, result.value.text)
  {
    if Trim(title) == "" then TitleRejected
    else if user.None? || result.None? then NothingToSave
    else Insert(Briefing.ScriptRecord(user.value.id, title, result.value.text))
  }

  /** After a reset there is nothing to save, whatever the title. */
  lemma NothingToSaveAfterReset(user: Session, s: Screen, title: string)
    ensures !SaveTranscript(user, Reset(s).result, title).Insert?
  {
  }
}
