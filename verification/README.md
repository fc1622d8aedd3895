# TubePro core, modelled in Dafny

TubePro is a React/Supabase front end for YouTube creators. Its logic
centres on the **Tubecoin ledger**. Paid tools spend coins. Spending earns
experience, and experience climbs levels that pay coin bonuses. The profile
page derives statistics and achievements from the usage history. Around the
ledger sit the **script copilot**, the **spend-gated tools** and a set of
**pure helpers and validators**:

- The script copilot is a five-question briefing. It hands off to a
  generator function that sizes the script by the chosen duration. The
  streamed script is split into parts at `---PART-BREAK---`, revealed one
  part at a time, and saved with the parts joined again.
- The spend-gated tools are the YouTube transcription page and the tool
  cards. Each checks the session and the input, spends, and only then calls
  its collaborator.
- The helpers and validators cover:
  - video-id extraction and `[MM:SS]` time stamps;
  - the caption-to-segment conversion of the transcription function;
  - the SEO potential calculator;
  - the password-reset checks;
  - the keyword-dispatch assistant;
  - the templated idea generator.

The operations are pure functions over immutable datatypes. The one
exception is the stream read loop (Briefing.ReadStream), which is a method
with a loop over a sequence of chunks. The collaborators are parameters:
- the authentication and database services;
- the caption library;
- the language model stream;
- the clock and the date parser.

A page's state change is the value the function returns.

Modules (one file each):

| file | module | models |
|---|---|---|
| wrappers.dfy | Wrappers | `Option`, `Result` |
| text.dfy | Text | JavaScript `trim`, `includes`, `split`/`join`, `toLowerCase`, `toString`, `padStart` |
| ledger.dfy | Ledger | src/hooks/useAuth.tsx |
| profile_stats.dfy | ProfileStats | src/pages/Profile.tsx |
| briefing.dfy | Briefing | src/pages/Roteiro.tsx |
| duration_plan.dfy | DurationPlan | supabase/functions/roteirista-ia/index.ts |
| transcription_service.dfy | TranscriptionService | src/utils/transcriptionService.ts |
| transcriber.dfy | Transcriber | supabase/functions/transcritor-ia/index.ts |
| transcription_page.dfy | TranscriptionPage | src/pages/Transcricao.tsx |
| tool_card.dfy | ToolCard | src/components/ToolCard.tsx |
| seo.dfy | Seo | src/components/SeoCalculator.tsx |
| reset_password.dfy | ResetPassword | src/pages/ResetPassword.tsx |
| assistant.dfy | Assistant | src/pages/Assistente.tsx |
| ideas.dfy | Ideas | src/pages/Ideias.tsx |

## Model

| member | source | states |
|---|---|---|
| Ledger.ExperienceForLevel | src/hooks/useAuth.tsx:49-51 | from level 1 on, the threshold is floor(100·1.5^(level−1)): times 2^(level−1) it is at most 100·3^(level−1), and one more would exceed it |
| Ledger.ThresholdIncreasing | src/hooks/useAuth.tsx:49-51 | every real level needs at least 100 experience, and a higher level needs strictly more |
| Ledger.ThresholdStep | src/hooks/useAuth.tsx:49-51 | each threshold is at least one and a half times the previous one, rounded down (the 1.5 growth factor) |
| Ledger.ThresholdAtLeast100 | src/hooks/useAuth.tsx:49-51 | no level from 1 on needs fewer than 100 experience |
| Ledger.Normalize | src/hooks/useAuth.tsx:119-127 | the level-up loop stops with experience below the threshold, never lowers the level, and leaves the state unchanged when nothing is due. It pays 10 coins times every level reached and conserves experience: old experience = final experience + the thresholds consumed |
| Ledger.GainExperience | src/hooks/useAuth.tsx:112-131 | adding experience and levelling up ends below the threshold, never lowers the level, pays the level bonuses and conserves experience; the account fields and the history are untouched |
| Ledger.EarnExperience | src/hooks/useAuth.tsx:112-131 | signed out nothing happens; signed in it is the level-up of the current profile |
| Ledger.EarnCoins | src/hooks/useAuth.tsx:68-79 | credits exactly `amount` and changes no other field; signed out it does nothing |
| Ledger.Debit | src/hooks/useAuth.tsx:92-101 | the balance drops by exactly `amount` and one entry `{date, feature, amount}` is appended at the end; earlier entries and every other field stay the same |
| Ledger.SpendIntended | src/hooks/useAuth.tsx:82-109 | refuses and changes nothing when signed out or short of coins. Otherwise it succeeds, and the new profile keeps the debit: one new history entry, the balance lowered by `amount` and raised only by level bonuses, and half the amount (rounded down) gained as experience |
| Ledger.SpendAsWritten | src/hooks/useAuth.tsx:82-109 | the spend as the code composes it: the same refusals, but a success leaves the pre-spend profile with the experience added, because the later write comes from the stale copy |
| Ledger.SpendAsWrittenLosesDebit | src/hooks/useAuth.tsx:106-130 | as written, a successful positive spend leaves the history unchanged and the balance at or above the old balance, so the debit is lost |
| Ledger.DemoSpendDefect | src/hooks/useAuth.tsx:142-157 | on the demo account a 5-coin spend should leave 495 coins and 4 entries; as written it leaves 500 coins and 3 entries |
| Ledger.LevelBonusNonNegative | src/hooks/useAuth.tsx:124-126 | level bonuses from a non-negative level never take coins away |
| Ledger.Register | src/hooks/useAuth.tsx:184-194 | a new account is valid, on the free plan, with 100 coins, level 1, no experience, a threshold of 100 (so the level-1 threshold is 100) and an empty history |
| Ledger.DemoProfile | src/hooks/useAuth.tsx:143-157 | the demo profile is valid: 500 coins, level 3, 75 of 225 experience, three history entries |
| Ledger.Login | src/hooks/useAuth.tsx:142-165 | succeeds exactly for the demo credentials, and then with the demo profile |
| Ledger.LogoutEndsSession | src/hooks/useAuth.tsx:229-233 | after `logout` nobody is signed in: a spend is refused and stays signed out, and earning coins or experience does nothing |
| Ledger.OperationsKeepValid | src/hooks/useAuth.tsx:68-131 | earning coins, earning experience and a successful spend (both the spend as written and the corrected one) keep the profile invariant for non-negative amounts. The invariant is: level at least 1, the stored threshold is that level's, experience is below it, and the balance is non-negative |
| Ledger.GainKeepsValid | src/hooks/useAuth.tsx:112-131 | gaining a non-negative amount of experience keeps the profile invariant |
| Ledger.DemoLevelUps | src/hooks/useAuth.tsx:119-127 | from the demo state, 150 experience gives level 4 with 0/337 and 540 coins; 500 gives level 5 with 13/506 and 590 coins |
| ProfileStats.ProgressPercentage | src/pages/Profile.tsx:36 | the bar's percentage is 100·experience / threshold rounded down, so it lies in 0..99 while experience is below the threshold |
| ProfileStats.CountFeature | src/pages/Profile.tsx:323-329 | a feature count never exceeds the number of uses |
| ProfileStats.TotalSpent | src/pages/Profile.tsx:335 | with no negative entry, the coins spent are non-negative and at least each entry's coins |
| ProfileStats.TotalSpentFront | src/pages/Profile.tsx:335 | the sum folds from the first entry: an entry in front adds its coins |
| ProfileStats.CountFeatureExtremes | src/pages/Profile.tsx:318-329 | a count equals the history length exactly when every entry matches, and is zero exactly when none does |
| ProfileStats.AppendUpdatesStatistics | src/pages/Profile.tsx:318-335 | one more use adds one to "Vídeos Criados", one to a count when its feature matches, and its coins to "Tubecoins Gastos" |
| ProfileStats.SpendUpdatesStatistics | src/pages/Profile.tsx:318-335 | a successful corrected spend adds exactly one use and exactly its amount to the coins spent |
| ProfileStats.SpendAsWrittenKeepsStatistics | src/pages/Profile.tsx:318-335 | a successful spend as written leaves the use count, the coins spent and every feature count unchanged, because the program loses the history entry |
| ProfileStats.CountFeatureMonotone | src/pages/Profile.tsx:323-329 | a history that extends another never has a smaller count |
| ProfileStats.Unlocked | src/pages/Profile.tsx:385-498 | each achievement is unlocked exactly at its threshold: level at least 1, 5 and 10, at least 5 "Roteiro" uses, at least 10 "Ideia" uses, at least 20 uses; so the level achievements nest |
| ProfileStats.RepeatedSpendsCount | src/hooks/useAuth.tsx:82-109 | while the balance covers them, n corrected spends all succeed, add n uses, and add n to the count of every key the feature name contains |
| ProfileStats.SpendsUnlockAchievements | src/pages/Profile.tsx:441-498 | a new account holds only "Iniciante"; with spends of at most 5 coins the 20th unlocks "Super Usuário" and the 19th does not, and on a "Roteiro" feature the 5th unlocks "Roteirista" and the 4th does not |
| ProfileStats.AchievementsNeverRevoked | src/pages/Profile.tsx:385-498 | when the level does not drop and the history only grows at the end, every unlocked achievement stays unlocked |
| ProfileStats.LedgerOperationsProgress | src/pages/Profile.tsx:385-498 | earning coins, earning experience and a successful spend (as written and corrected) never lower the level and only append to the history, so achievements are never revoked |
| ProfileStats.InsertNewestFirst | src/pages/Profile.tsx:521 | inserting into a newest-first list keeps it newest first and adds exactly that entry |
| ProfileStats.HistoryView | src/pages/Profile.tsx:518-521 | the history tab shows a newest-first copy holding exactly the stored entries (a permutation) |
| ProfileStats.SaveProfile | src/pages/Profile.tsx:43-51 | a name made only of whitespace is rejected; the profile is never changed |
| ProfileStats.PurchaseCoins | src/pages/Profile.tsx:53-56 | a purchase credits exactly the selected amount and changes nothing else |
| ProfileStats.PurchaseNeverLowersBalance | src/pages/Profile.tsx:22-29 | the initial selection is an offered package, and buying any package raises the balance |
| Briefing.Init | src/pages/Roteiro.tsx:61-68 | the page opens asking the first question: the chat is the transcript of no answers and ends with that question, nothing is recorded, and there is no script |
| Briefing.Answer | src/pages/Roteiro.tsx:109-125 | records the answer under the current question and appends exactly two messages. Before the last question these are the answer and the next question, and the index advances. The last answer instead starts generation with no parts and none revealed |
| Briefing.AnswerAsksNext | src/pages/Roteiro.tsx:120-124 | before the last question, an answer leaves the chat ending with the question now awaited |
| Briefing.BriefingInProgress | src/pages/Roteiro.tsx:109-125 | after fewer than five answers the page is still asking, the index equals the number of answers, every answer is under its question, and the chat is the interleaved transcript |
| Briefing.BriefingCompletes | src/pages/Roteiro.tsx:76-77 | the fifth answer starts generation with all five answers recorded and the closing message after the last answer |
| Briefing.ReadStream | src/pages/Roteiro.tsx:91-95 | the accumulated response is the in-order concatenation of the decoded chunks, and it contains every chunk |
| Briefing.ConcatHasChunk | src/pages/Roteiro.tsx:94 | every chunk occurs in the concatenation |
| Briefing.NonBlankKeepsAll | src/pages/Roteiro.tsx:96 | the blank filter keeps a list with no blank piece as it is |
| Briefing.NonBlank | src/pages/Roteiro.tsx:96 | the blank filter's output is no longer than its input and holds no blank piece |
| Briefing.NonBlankMembers | src/pages/Roteiro.tsx:96 | every piece the blank filter keeps is one of its input pieces |
| Briefing.NonBlankKeeps | src/pages/Roteiro.tsx:96 | every non-blank piece survives the filter in its place: the output is the filtered pieces before it, the piece, then the filtered pieces after it |
| Briefing.NonBlankAppend | src/pages/Roteiro.tsx:96 | the filter keeps the order: filtering a concatenation concatenates the filtered halves |
| Briefing.ParseParts | src/pages/Roteiro.tsx:96 | every part is a non-blank piece of the split response and free of the part-break marker |
| Briefing.ParsePartsKeepsPiece | src/pages/Roteiro.tsx:96 | no non-blank piece between breaks is lost: it is a part, after the parts from the pieces before it and before those from the pieces after it |
| Briefing.ParsePartsAtBreak | src/pages/Roteiro.tsx:96 | parts come out in response order: the text before the first break is the first part when it is not blank, followed by the parts of the rest |
| Briefing.SinglePartResponse | src/pages/Roteiro.tsx:96 | a non-blank response without the marker yields exactly one part, the whole text |
| Briefing.Complete | src/pages/Roteiro.tsx:96-106 | success shows the first of the parsed parts and enters revealing. Failure returns to asking with the parts untouched. Either way loading ends and the chat, answers and index are kept |
| Briefing.RetryAfterFailure | src/pages/Roteiro.tsx:101-104 | after a failed generation the page waits at the last question with all five answers kept, and a new last answer starts generation again |
| Briefing.RevealNext | src/pages/Roteiro.tsx:128-135 | reveals one more part while some are hidden. The page finishes exactly when the count read before the click was one short of the total |
| Briefing.RevealProgress | src/pages/Roteiro.tsx:128-135 | from the first part shown (line 98 sets the count to 1), k clicks show min(1+k, n) of n ≥ 2 parts and finish exactly after n−1 clicks. With 0 or 1 parts the count stays 1 and the stage stays revealing |
| Briefing.SinglePartNeverFinishes | src/pages/Roteiro.tsx:128-135 | a one-part script never reaches finished, however often the button is clicked |
| Briefing.RevealNextIntended | src/pages/Roteiro.tsx:128-135 | the corrected handler finishes exactly when the click leaves every part shown |
| Briefing.RevealIntendedFinishes | src/pages/Roteiro.tsx:128-135 | with the corrected handler every script finishes after max(1, n−1) clicks, with every part shown |
| Briefing.SaveScript | src/pages/Roteiro.tsx:143-159 | a blank title is refused first, then a signed-out user. Otherwise the row carries the user's id and the title. Its content parses back into the same parts, each up to surrounding whitespace |
| Briefing.SavedScriptReparses | src/pages/Roteiro.tsx:153 | for non-blank parts without the marker, splitting the saved join and dropping blanks (the parser of line 96) gives the same number of parts, each trimming to the original part trimmed |
| Briefing.SplitPaddedJoin | src/pages/Roteiro.tsx:153 | splitting a marker join padded with whitespace gives one piece per part, each trimming like its part |
| Briefing.SamePartsPointwise | src/pages/Roteiro.tsx:153 | two part lists agree up to whitespace exactly when they have the same length and agree piece by piece after trimming |
| Briefing.StripLeadingInvisible | src/pages/Roteiro.tsx:44 | a leading zero-width or direction-mark character is removed, exactly one, and content that starts otherwise is kept as it is |
| Briefing.StripUndoesOneMark | src/pages/Roteiro.tsx:44 | stripping undoes one invisible character put in front of a text; of two, the second stays |
| DurationPlan.Plan | supabase/functions/roteirista-ia/index.ts:24-43 | a missing body, then a missing key, is refused. The duration is answer 4, or the medium option when that is missing or empty. "Curto" wins over "Longo" and gives (8000, 2); "Longo" gives (25000, 5); anything else gives (15000, 3). The part count is in {2, 3, 5} |
| DurationPlan.OptionSize | supabase/functions/roteirista-ia/index.ts:37-43 | the short, medium and long options offered by the page fall in the short, default and long rules respectively |
| DurationPlan.OfferedDurations | supabase/functions/roteirista-ia/index.ts:33-43 | the three offered options give 2, 3 and 5 parts of 8000, 15000 and 25000 characters |
| DurationPlan.MissingDurationIsMedium | supabase/functions/roteirista-ia/index.ts:33-35 | a briefing without a duration answer gets 3 parts of 15000 characters |
| DurationPlan.PlanReadsOnlyDuration | supabase/functions/roteirista-ia/index.ts:33 | the size depends on the answers only through answer 4 |
| DurationPlan.PlanOfChoice | supabase/functions/roteirista-ia/index.ts:33-43 | a non-empty answer 4 is used as the duration and sized by the rule |
| DurationPlan.BriefingSizesScript | supabase/functions/roteirista-ia/index.ts:33-43 | a completed briefing whose last answer is the k-th offered option asks for the k-th size |
| TranscriptionService.FindMatch | src/utils/transcriptionService.ts:18 | the pattern fails exactly when no marker starts on the first line. A match begins at the rightmost marker on that line, at or before its end, and its group is the longest run without `#`, `&` or `?` after it |
| TranscriptionService.ExtractVideoId | src/utils/transcriptionService.ts:17-21 | an id is returned exactly when the match's group has 11 characters, and it is that group. No marker means no id |
| TranscriptionService.IdAfterLastMarker | src/utils/transcriptionService.ts:18-20 | on a one-line URL ending in the rightmost marker followed by 11 characters free of `#&?`, those 11 characters are the id |
| TranscriptionService.WatchUrl | src/utils/transcriptionService.ts:17-21 | any one-line `…watch?v=` URL ending in an 11-character id without markers or `#&?` yields that id |
| TranscriptionService.ExampleShareLink | src/utils/transcriptionService.ts:17-21 | `…/watch?v=yZfwzhXp_VE` yields `yZfwzhXp_VE` |
| TranscriptionService.Pad2 | src/utils/transcriptionService.ts:27 | the two-digit field holds only digits, has at least two of them (exactly two below 100), and denotes the number |
| TranscriptionService.FormatTime | src/utils/transcriptionService.ts:24-28 | the stamp is `[` minutes padded to two `:` seconds padded to two `]`, and it is 7 characters exactly when seconds < 6000 |
| TranscriptionService.FormatTimeRoundTrip | src/utils/transcriptionService.ts:24-28 | reading a formatted stamp back gives the seconds, so the seconds field is 00..59 and the stamp loses nothing |
| TranscriptionPage.CreditCheckIgnoresBalance | src/utils/transcriptionService.ts:149-161 | the credit check passes even for a balance below the 5 coins per minute it logs as needed, where a spend of that amount is refused and changes nothing |
| TranscriptionService.TranscribeYoutubeVideo | src/utils/transcriptionService.ts:31-89 | fails, with the service's single message, exactly when the URL has no id; otherwise it gives the simulated transcript |
| Transcriber.ToSegments | supabase/functions/transcritor-ia/index.ts:44-49 | one segment per caption piece, ids numbered in order, times converted from milliseconds to seconds, text preserved |
| Transcriber.Transcribe | supabase/functions/transcritor-ia/index.ts:20-49 | an absent or empty URL is refused with no fetch. English is fetched only after Portuguese fails. Success happens exactly when the fetch used returned pieces. The reply's text is the texts joined by single spaces, with one segment per piece |
| Transcriber.TranscribeErrors | supabase/functions/transcritor-ia/index.ts:26-39 | both fetches failing gives the no-captions error; an empty caption list gives the empty-captions error |
| Transcriber.PortugueseFirst | supabase/functions/transcritor-ia/index.ts:26-35 | English is requested exactly when Portuguese fails, and a Portuguese result is used whatever English would give |
| Transcriber.TextMatchesSegments | supabase/functions/transcritor-ia/index.ts:43-48 | the reply's text is its segments' texts joined by spaces, and a piece with non-negative duration ends no earlier than it starts |
| Transcriber.SegmentIdsDistinct | supabase/functions/transcritor-ia/index.ts:45 | ids increase strictly, from 1 to the number of pieces |
| TranscriptionPage.HandleTranscription | src/pages/Transcricao.tsx:26-59 | pending auth, a signed-out user or a URL without an id returns early, spending nothing and keeping the screen. The service is called exactly when all checks pass and the 5 coins are spent. A refused spend or a failed call leaves no result, and a failed call keeps the debit |
| TranscriptionPage.GuardOrder | src/pages/Transcricao.tsx:27-48 | pending auth wins over a missing user, a missing user over a bad URL, and a bad URL over the balance |
| TranscriptionPage.NoRefundOnFailure | src/pages/Transcricao.tsx:44-58 | a failed transcription leaves the balance and history exactly as a successful one would |
| TranscriptionPage.ServiceOnlyAfterSpend | src/pages/Transcricao.tsx:44-51 | when the service is not called, its outcome cannot influence anything |
| TranscriptionPage.Press | src/pages/Transcricao.tsx:147 | a click fires nothing exactly while the session loads or a transcription runs (`isButtonDisabled`), and otherwise runs the handler |
| TranscriptionPage.DisabledTriggerSpendsNothing | src/pages/Transcricao.tsx:96 | while a transcription runs a click spends and calls nothing, so it cannot charge twice; a click that fires never meets the pending-session branch |
| TranscriptionPage.ResetThenTranscribe | src/pages/Transcricao.tsx:70-73 | after a reset the URL is empty and no result is shown, so a click finds no video id: nothing is spent, nothing is called, and the session is unchanged |
| TranscriptionPage.SaveTranscript | src/pages/Transcricao.tsx:75-86 | a blank title is refused; without a user or a result nothing happens; otherwise the row holds the user, the title and the transcript's text |
| TranscriptionPage.NothingToSaveAfterReset | src/pages/Transcricao.tsx:70-80 | after a reset nothing can be saved, whatever the title |
| ToolCard.Proceed | src/components/ToolCard.tsx:50-54 | the card's handler wins over its link, and an empty link leads nowhere |
| ToolCard.HandleClick | src/components/ToolCard.tsx:35-55 | signed out redirects to login and changes nothing. A card with a non-zero cost and a non-empty feature spends first, and stops without acting if the spend is refused. Otherwise the card's action follows |
| ToolCard.ActionOnlyAfterSpend | src/components/ToolCard.tsx:36-47 | a card action only runs for a signed-in user whose balance covered the cost; an uncovered cost stops the click with nothing changed |
| ToolCard.ChargeRecordsUse | src/components/ToolCard.tsx:42-43 | a successful charge appends exactly one use of the card's feature for its cost |
| Seo.TitleScore | src/components/SeoCalculator.tsx:19-22 | the score divided by 30 is the number of criteria met (length, digit, power word), and the remainder is 10 when the length criterion holds and 15 otherwise; so it is 100 exactly when all hold and 15 exactly when none does |
| Seo.TitleScoreShowsLength | src/components/SeoCalculator.tsx:19-22 | the title score lies in [15, 100] and shows whether the length criterion held |
| Seo.Capped | src/components/SeoCalculator.tsx:25-28 | a capped percentage lies in [0, 100], is 100 exactly when the count reaches the full mark, and is the exact ratio below it |
| Seo.DescriptionScore | src/components/SeoCalculator.tsx:25 | in [0, 100], and 100 exactly for descriptions of at least 300 characters |
| Seo.TagScore | src/components/SeoCalculator.tsx:28 | in [0, 100], and 100 exactly for at least 15 tags |
| Seo.RetentionScore | src/components/SeoCalculator.tsx:31-33 | in {0, 50, 100}: 100 exactly when hook and call to action both exceed 50 characters, 0 exactly when neither does |
| Seo.CalculateScores | src/components/SeoCalculator.tsx:35-40 | four entries in the fixed order Título, Descrição, Tags, Retenção, each scored in [0, 100] with full mark 100 |
| Seo.SumBounds | src/components/SeoCalculator.tsx:45 | the summed scores lie between 0 and 100 per entry |
| Seo.OverallPotential | src/components/SeoCalculator.tsx:45 | the potential lies in [0, 100] and is within half a point of the mean score |
| Seo.OverallExtremes | src/components/SeoCalculator.tsx:45 | four perfect scores give a potential of 100 |
| Seo.BadgeVariant | src/components/SeoCalculator.tsx:47-51 | default exactly from 75, secondary exactly from 40 below 75, destructive exactly below 40 |
| Seo.BadgeLabel | src/components/SeoCalculator.tsx:78 | "Excelente" exactly from 75, "Bom" exactly from 40 below 75, "Pode Melhorar" exactly below 40 |
| Seo.LabelMatchesVariant | src/components/SeoCalculator.tsx:78 | the label and the badge colour follow the same thresholds |
| ResetPassword.CheckSession | src/pages/ResetPassword.tsx:23-48 | the token is valid exactly when a session is found, with no error. No session shows the invalid-link text; a failed lookup shows its own message, or the fixed verification-error text when that message is empty |
| ResetPassword.HandlePasswordReset | src/pages/ResetPassword.tsx:50-72 | the update is requested, with the typed password, exactly when the token is valid, the password has at least 6 characters and the confirmation matches. The first failing check picks the message |
| ResetPassword.FirstFailingCheck | src/pages/ResetPassword.tsx:53-66 | a length refusal implies a valid token, a mismatch refusal implies a valid token and a long enough password, and every refusal carries one of the three messages |
| ResetPassword.NoUpdateWithoutSession | src/pages/ResetPassword.tsx:23-56 | a page whose lookup found no session never reaches the update |
| ResetPassword.FinishUpdate | src/pages/ResetPassword.tsx:74-86 | success goes to login; an error shows its message, or the fixed texts when the message is empty |
| Assistant.Respond | src/pages/Assistente.tsx:14-40 | a blank prompt is refused with the fixed message. Otherwise "ideia" wins, then "roteiro", then "seo" or "algoritmo", and the general reply covers the rest, with case ignored |
| Assistant.ReplyText | src/pages/Assistente.tsx:31-37 | every reply is a fixed non-empty text |
| Assistant.IdeaWins | src/pages/Assistente.tsx:30-31 | a prompt containing "ideia" in any capitalisation, anywhere, gets the ideas reply even if other keywords occur |
| Assistant.SeoWithoutEarlierKeywords | src/pages/Assistente.tsx:34-35 | a prompt containing "seo", with neither "ideia" nor "roteiro", gets the SEO reply |
| Assistant.RepliesDistinct | src/pages/Assistente.tsx:28-38 | the four replies differ, so the text shows which rule fired |
| Ideas.Fill | src/pages/Ideias.tsx:37-54 | a template places the topic verbatim between its fixed texts |
| Ideas.Title | src/pages/Ideias.tsx:37-53 | every title template contains the topic |
| Ideas.Description | src/pages/Ideias.tsx:38-54 | every description template contains the topic |
| Ideas.GenerateIdeas | src/pages/Ideias.tsx:22-58 | a blank topic is refused with the fixed message. Otherwise there are exactly five ideas, every title and description contains the topic as typed, and the fifth title starts with it |
| Ideas.AudienceIgnored | src/pages/Ideias.tsx:35-56 | the audience selection does not change the output |
| Ideas.GenerateIdeasInjective | src/pages/Ideias.tsx:35-56 | two non-blank topics give the same cards only when they are the same topic |
| Text.TrimUnique | src/pages/Roteiro.tsx:96 | conversely, any piece of the input with only whitespace around it and no whitespace at its own ends is what `trim` returns, so `trim` is fixed by that description |
| Text.TrimIgnoresPadding | src/pages/Roteiro.tsx:153 | whitespace added on either side of a text does not change what `trim` returns |
| Text.TrimKeepsMiddle | src/pages/Roteiro.tsx:96 | `trim` keeps a contiguous piece of the input with only whitespace before and after it, and that piece neither starts nor ends with whitespace |
| Text.Split | src/pages/Roteiro.tsx:96 | splitting gives at least one piece, no piece contains the separator, and joining the pieces with it gives the input back. Each cut is at the leftmost occurrence: no occurrence starts inside a piece and runs into the separator after it, which fixes the result for the self-overlapping `---PART-BREAK---` |
| Text.ToLower | src/pages/Assistente.tsx:30 | lower-casing keeps the length, leaves no capital, puts each capital's small letter in its place, and keeps every other character |
| Text.ToLowerConcat | src/pages/Assistente.tsx:30 | lower-casing distributes over concatenation |
| Text.ToLowerIdempotent | src/pages/Assistente.tsx:30 | lower-casing twice is lower-casing once |
| Text.NatToStringRoundTrip | src/utils/transcriptionService.ts:27 | the decimal text of a number denotes that number |

## Left out

- Browser storage, toasts, `setTimeout` delays, the clipboard, `marked` rendering and React scheduling are not modelled. Each operation returns the state the page would hold afterwards.
- The network and Supabase calls are parameters: the session lookup, the password update, the script insert, the language-model stream and the caption library. Each is the outcome it returned. Database insert errors after a save are not modelled.
- The clock is a parameter: the usage entry's date is passed in. Date parsing for the history tab is a parameter `time`.
- Ledger.ExperienceForLevel: computed exactly as 100·3^(L−1) / 2^(L−1). The source's double arithmetic agrees only up to about level 30.
- Ledger.Normalize: requires a level of at least 1 and a positive threshold. This is a state invariant that every profile the source creates and updates keeps, not a condition for the loop to stop: the source's loop also ends from other states, and the model does not describe what it does there.
- Ledger.SpendIntended: the pages (TranscriptionPage, ToolCard), ProfileStats.SpendUpdatesStatistics, ProfileStats.RepeatedSpendsCount and ProfileStats.SpendsUnlockAchievements use the corrected spend. Composing them with the as-written spend would only repeat the defect below. Its effect on the statistics is stated separately by ProfileStats.SpendAsWrittenKeepsStatistics. Because the as-written spend adds no use, in the program as written no spend brings the "Roteirista", "Idealizador" or "Super Usuário" achievements closer.
- Achievement rewards ("+50 coins" and so on) are display-only in the source and are not credited; the model computes only which achievements show as unlocked.
- ProfileStats.ProgressPercentage: exact reals replace IEEE-754 doubles, which can differ at rounding boundaries. For experience/threshold 29/100, 57/100, 58/100 and 87/150 the program computes (experience / threshold) * 100 in doubles and shows 28, 56, 57 and 57, where the model gives the exact 29, 57, 58 and 58 (0.29 * 100 is 28.999999999999996 in doubles). The same kind of gap holds for the SEO ratios and the millisecond-to-second conversion of caption times.
- Text.ToLower: lower-cases ASCII and Latin-1 letters only. JavaScript also lower-cases letters beyond Latin-1 (Greek, Cyrillic, the Kelvin sign, the dotted capital I), which the model leaves alone. The keywords and power words are all Latin-1, so only the few characters that JavaScript lower-cases into Latin-1 can differ. The SEO calculator's case-insensitive regular expression is modelled as lower-casing the title.
- String lengths count characters. JavaScript counts UTF-16 code units, which differ only for characters outside the Basic Multilingual Plane.
- TranscriptionService.FormatTime: defined for whole non-negative seconds. Negative inputs are not modelled. The page formats segment starts (src/pages/Transcricao.tsx:118) that the transcriber computes as offset / 1000, so they are fractional; but for s >= 0 both Math.floor(s / 60) and Math.floor(s % 60) depend only on the whole part of s, so the stamp of s is the stamp of floor(s) and the whole-number domain covers those calls.
- TranscriptionService.TranscribeYoutubeVideo: `demoText` stands for the simulated transcript's fixed text.
- The video-file transcription path (`transcribeVideoFile`) is not modelled.
- Transcriber.Transcribe: a `videoURL` that is present but some other falsy JSON value (0, false) is not modelled; the URL is an optional string.
- The copy-all buttons of the script and transcription pages are not modelled; they only use the clipboard.
- Briefing.Answer: requires the question index to be below five. The page only offers the input while asking, so the handler never runs otherwise.
- Assistant.Respond: returns which reply applies (a `Topic`), and `ReplyText` gives its text. The 1.5 s wait and the error toast are not modelled. The same goes for the 1.8 s wait of `Ideas.GenerateIdeas`.

## Findings

| source | as written | input that shows it | evidently intended | confidence | as-written member | corrected member |
|---|---|---|---|---|---|---|
| src/hooks/useAuth.tsx:92-106, 115, 129-130 | `spendCoins` stores the debited profile, then calls `earnExperience`. That call copies the `user` captured before the debit and writes its result last, so the debit and the new history entry are overwritten | the demo account spending 5 coins: the final profile has 500 coins and 3 entries | 495 coins and 4 entries: the debit and the history entry survive, with the experience added on top | not executed | Ledger.SpendAsWritten, Ledger.SpendAsWrittenLosesDebit, Ledger.DemoSpendDefect | Ledger.SpendIntended |
| src/pages/Roteiro.tsx:96-98, 128-135 | `handleRevealNext` finishes only when the count read before the click equals parts − 1. Generation starts the count at 1, so a one-part script never finishes, and an empty one shows "Revelar Parte 2" forever | a response without `---PART-BREAK---`, giving one part: every click keeps the stage at revealing, so the script can never be copied or saved | the stage finishes once every part is shown | not executed | Briefing.RevealNext, Briefing.SinglePartNeverFinishes, Briefing.RevealProgress | Briefing.RevealNextIntended, Briefing.RevealIntendedFinishes |
