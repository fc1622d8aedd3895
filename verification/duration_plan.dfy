/** The script generator function's sizing step: from the briefing answers
    it receives, the length and the number of parts it asks the model for.
    The model call and the stream it returns are not modelled. */
module DurationPlan {
  import opened Wrappers
  import opened Text
  import Briefing

  /** What the generator is asked for: the duration it settled on, about how
      many characters, and exactly how many parts. */
  datatype ScriptPlan = ScriptPlan(durationChoice: string, characterTarget: int, partCount: int)

  const DefaultDuration := "Médio (8-12 min)"
  const ResponsesRequired := "As respostas do usuário são obrigatórias."
  const KeyMissing := "A chave GEMINI_API_KEY não foi configurada."

  /** The sizing rule: "Curto" asks for 8000 characters in 2 parts, "Longo"
      (without "Curto") for 25000 in 5, anything else for 15000 in 3. */
  predicate SizedFor(choice: string, target: int, parts: int) {
    if Contains(choice, "Curto") then target == 8000 && parts == 2
    else if Contains(choice, "Longo") then target == 25000 && parts == 5
    else target == 15000 && parts == 3
  }

  /** The request handling up to the model call. A missing body is refused
      first, then a missing or empty API key. The duration is the answer to
      the fifth question, or the medium option when that answer is missing or
      empty. */
  function Plan(body: Option<map<nat, string>>, apiKey: Option<string>): (r: Result<ScriptPlan, string>)
    ensures body.None? ==> r == Failure(ResponsesRequired)
    ensures body.Some? && (apiKey.None? || apiKey.value == "") ==> r == Failure(KeyMissing)
    ensures r.Success? <==> body.Some? && apiKey.Some? && apiKey.value != ""
    ensures r.Success? ==>
      && (4 in body.value && body.value[4] != "" ==> r.value.durationChoice == body.value[4])
      && (4 !in body.value || body.value[4] == "" ==> r.value.durationChoice == DefaultDuration)
      && SizedFor(r.value.durationChoice, r.value.characterTarget, r.value.partCount)
      && r.value.partCount in {2, 3, 5}
  {
    if body.None? then Failure(ResponsesRequired)
    else if apiKey.None? || apiKey.value == "" then Failure(KeyMissing)
    else
      var responses := body.value;
      var choice := if 4 in responses && responses[4] != "" then responses[4] else DefaultDuration;
      if Contains(choice, "Curto") then Success(ScriptPlan(choice, 8000, 2))
      else if Contains(choice, "Longo") then Success(ScriptPlan(choice, 25000, 5))
      else Success(ScriptPlan(choice, 15000, 3))
  }

  lemma ShortKeywords()
    ensures Contains(Briefing.DurationOptions[0], "Curto")
  {
    assert "Curto" <= Briefing.DurationOptions[0];
  }

  /** The medium option mentions neither "Curto" nor "Longo": neither word's
      first letter occurs in it. */
  lemma MediumLacks(word: string)
    requires word == "Curto" || word == "Longo"
    ensures !Contains(Briefing.DurationOptions[1], word)
  {
    MissingFirstChar(Briefing.DurationOptions[1], word);
  }

  lemma LongKeywords()
    ensures !Contains(Briefing.DurationOptions[2], "Curto")
    ensures Contains(Briefing.DurationOptions[2], "Longo")
  {
    MissingFirstChar(Briefing.DurationOptions[2], "Curto");
    assert "Longo" <= Briefing.DurationOptions[2];
  }

  /** The k-th offered option is sized as the k-th of short, medium, long. */
  lemma OptionSize(k: int)
    requires 0 <= k < 3
    ensures SizedFor(Briefing.DurationOptions[k], [8000, 15000, 25000][k], [2, 3, 5][k])
  {
    if k == 0 {
      ShortKeywords();
    } else if k == 1 {
      MediumLacks("Curto");
      MediumLacks("Longo");
    } else {
      LongKeywords();
    }
  }

  lemma DefaultIsMedium()
    ensures DefaultDuration == Briefing.DurationOptions[1]
  {
  }

  /** The size depends on the answers only through the fifth one. */
  lemma PlanReadsOnlyDuration(a: map<nat, string>, b: map<nat, string>, key: string)
    requires key != ""
    requires (4 in a) == (4 in b) && (4 in a ==> a[4] == b[4])
    ensures Plan(Some(a), Some(key)) == Plan(Some(b), Some(key))
  {
  }

  /** With a non-empty fifth answer, the plan is sized by that answer. */
  lemma PlanOfChoice(choice: string, key: string, target: int, parts: int)
    requires choice != "" && key != "" && SizedFor(choice, target, parts)
    ensures Plan(Some(map[4 := choice]), Some(key)) == Success(ScriptPlan(choice, target, parts))
  {
  }

  /** The three options the briefing offers map to 2, 3 and 5 parts of 8000,
      15000 and 25000 characters, in that order. */
  lemma OfferedDurations(k: int, key: string)
    requires 0 <= k < 3 && key != ""
    ensures var r := Plan(Some(map[4 := Briefing.DurationOptions[k]]), Some(key));
      && r.Success?
      && r.value.partCount == [2, 3, 5][k]
      && r.value.characterTarget == [8000, 15000, 25000][k]
  {
    OptionSize(k);
    PlanOfChoice(Briefing.DurationOptions[k], key, [8000, 15000, 25000][k], [2, 3, 5][k]);
  }

  /** A briefing without a duration gets the medium size. */
  lemma MissingDurationIsMedium(key: string)
    requires key != ""
    ensures var none := Plan(Some(map[]), Some(key));
      none.Success? && none.value.partCount == 3 && none.value.characterTarget == 15000
  {
    OptionSize(1);
    DefaultIsMedium();
  }

  /** A completed briefing whose last answer is the k-th offered option asks
      the generator for the k-th size: the longer the option, the more parts. */
  lemma BriefingSizesScript(rs: seq<string>, k: int, key: string)
    requires |rs| == |Briefing.Questions| && 0 <= k < 3 && rs[4] == Briefing.DurationOptions[k]
    requires key != ""
    ensures var r := Plan(Some(Briefing.AnswerAll(Briefing.Init(), rs).responses), Some(key));
      && r.Success?
      && r.value.partCount == [2, 3, 5][k]
      && r.value.characterTarget == [8000, 15000, 25000][k]
  {
    Briefing.BriefingCompletes(rs);
    var responses := Briefing.AnswerAll(Briefing.Init(), rs).responses;
    assert responses == Briefing.Recorded(rs);
    assert 4 in responses && responses[4] == rs[4];
    PlanReadsOnlyDuration(responses, map[4 := Briefing.DurationOptions[k]], key);
    OfferedDurations(k, key);
  }
}
