/** The script writer page: a five-question briefing chat, the streamed
    generation that follows it, the part-by-part reveal of the generated
    script and saving it. The page is a state machine over `State`; each
    handler is a function from one state to the next, and what the network
    delivers is a parameter. */
module Briefing {
  import opened Wrappers
  import opened Text
  import opened Ledger

  datatype Stage = Asking | Generating | Revealing | Finished

  datatype Sender = Ai | User

  datatype ChatMessage = ChatMessage(sender: Sender, text: string)

  datatype State = State(
    stage: Stage,
    questionIndex: nat,
    chat: seq<ChatMessage>,
    responses: map<nat, string>,
    loading: bool,
    parts: seq<string>,
    revealed: nat)

  const Questions: seq<string> := [
    "Qual é a ideia ou tópico central que você quer abordar neste vídeo?",
    "Excelente. Qual é o objetivo principal deste vídeo?",
    "Entendido. Que emoção ou sentimento principal você quer que sua audiência sinta?",
    "Perfeito. Qual é a transformação que você promete ao espectador?",
    "Por último: escolha a profundidade do roteiro. Isso definirá o tamanho e o detalhamento do conteúdo."
  ]

  /** The answers offered for the last question. */
  const DurationOptions: seq<string> := ["Curto (3-5 min)", "Médio (8-12 min)", "Longo (15+ min)"]

  const Greeting := "Olá! Eu sou seu copiloto de roteiros. Para arquitetar uma obra-prima para seu canal, preciso entender sua visão a fundo. Vamos começar:"
  const BriefingDone := "Excelente briefing. Com base nas suas respostas, estou arquitetando um roteiro profundo e detalhado..."

  /** The marker the generator puts between script parts. */
  const PartBreak := "---PART-BREAK---"
  /** What saving puts between parts. */
  const SavedPartSeparator := "\n\n" + PartBreak + "\n\n"

  const TitleMissing := "Por favor, dê um título ao seu roteiro."
  const LoginRequired := "Você precisa estar logado para salvar."

  /** While asking, the chat ends with the question whose answer is awaited. */
  predicate AsksCurrent(s: State) {
    && s.questionIndex < |Questions| && |s.chat| > 0
    && s.chat[|s.chat| - 1] == ChatMessage(Ai, Questions[s.questionIndex])
  }

  /** The page as it first renders: the greeting and the first question, no
      answers yet, no script. It is the briefing with nothing answered, and
      the chat ends with the question awaiting an answer. */
  function Init(): (r: State)
    ensures r.stage == Asking && !r.loading && r.questionIndex == 0
    ensures r.chat == Transcript([]) && r.responses == Recorded([])
    ensures AsksCurrent(r)
    ensures r.parts == [] && r.revealed == 0
  {
    State(Asking, 0, [ChatMessage(Ai, Greeting), ChatMessage(Ai, Questions[0])], map[], false, [], 0)
  }

  // ---------------------------------------------------------------------------
  // The briefing chat
  // ---------------------------------------------------------------------------

  /** `handleResponseSubmit`: records the answer under the current question
      and echoes it into the chat. Before the last question the next question
      follows; the last answer closes the briefing and starts generation
      (`processAndGenerate`), which clears any earlier script. The handler
      has no guard of its own: the page only offers the input while asking. */
  function Answer(s: State, response: string): (r: State)
    requires s.questionIndex < |Questions|
    ensures r.questionIndex < |Questions|
    ensures r.responses == s.responses[s.questionIndex := response]
    ensures s.questionIndex + 1 < |Questions| ==>
      && r.questionIndex == s.questionIndex + 1
      && r.chat == s.chat + [ChatMessage(User, response), ChatMessage(Ai, Questions[r.questionIndex])]
      && r.stage == s.stage && r.loading == s.loading && r.parts == s.parts && r.revealed == s.revealed
    ensures s.questionIndex + 1 == |Questions| ==>
      && r.questionIndex == s.questionIndex
      && r.chat == s.chat + [ChatMessage(User, response), ChatMessage(Ai, BriefingDone)]
      && r.stage == Generating && r.loading && r.parts == [] && r.revealed == 0
  {
    var responses := s.responses[s.questionIndex := response];
    var echoed := s.chat + [ChatMessage(User, response)];
    if s.questionIndex == |Questions| - 1 then
      s.(chat := echoed + [ChatMessage(Ai, BriefingDone)], responses := responses,
         loading := true, parts := [], revealed := 0, stage := Generating)
    else
      var next := s.questionIndex + 1;
      s.(chat := echoed + [ChatMessage(Ai, Questions[next])], responses := responses,
         questionIndex := next)
  }

  /** Before the last question, answering keeps the page showing the question
      it now waits for. */
  lemma AnswerAsksNext(s: State, response: string)
    requires AsksCurrent(s) && s.questionIndex + 1 < |Questions|
    ensures AsksCurrent(Answer(s, response))
    ensures Answer(s, response).questionIndex == s.questionIndex + 1
  {
  }

  /** Several answers in a row, oldest first. */
  function AnswerAll(s: State, rs: seq<string>): (r: State)
    requires s.questionIndex < |Questions|
    ensures r.questionIndex < |Questions|
    decreases |rs|
  {
    if |rs| == 0 then s else Answer(AnswerAll(s, rs[..|rs| - 1]), rs[|rs| - 1])
  }

  /** The conversation after the first |rs| answers: greeting and first
      question, then each answer followed by the next question. */
  function Transcript(rs: seq<string>): seq<ChatMessage>
    requires |rs| < |Questions|
    decreases |rs|
  {
    if |rs| == 0 then [ChatMessage(Ai, Greeting), ChatMessage(Ai, Questions[0])]
    else Transcript(rs[..|rs| - 1]) + [ChatMessage(User, rs[|rs| - 1]), ChatMessage(Ai, Questions[|rs|])]
  }

  /** The answers so far, keyed by question number. */
  function Recorded(rs: seq<string>): map<nat, string> {
    map i: nat | i < |rs| :: rs[i]
  }

  lemma RecordedReplaceLast(rs: seq<string>, x: string)
    requires |rs| > 0
    ensures Recorded(rs)[|rs| - 1 := x] == Recorded(rs[..|rs| - 1] + [x])
  {
    var t := rs[..|rs| - 1] + [x];
    assert forall i :: 0 <= i < |rs| - 1 ==> t[i] == rs[i];
  }

  /** Up to four answers keep the page asking: the next question is the one
      after the answers, every answer sits under its question, and the chat
      is the interleaved transcript. */
  lemma {:induction false} BriefingInProgress(rs: seq<string>)
    requires |rs| < |Questions|
    ensures var s := AnswerAll(Init(), rs);
      && s.stage == Asking && !s.loading
      && s.questionIndex == |rs|
      && s.responses == Recorded(rs)
      && s.chat == Transcript(rs)
    decreases |rs|
  {
    if |rs| > 0 {
      var init := rs[..|rs| - 1];
      BriefingInProgress(init);
      RecordedExtend(rs);
    }
  }

  /** Recording one more answer under the next question number. */
  lemma RecordedExtend(rs: seq<string>)
    requires |rs| > 0
    ensures Recorded(rs[..|rs| - 1])[|rs| - 1 := rs[|rs| - 1]] == Recorded(rs)
  {
    var m := Recorded(rs[..|rs| - 1])[|rs| - 1 := rs[|rs| - 1]];
    assert forall i :: i in m <==> i in Recorded(rs);
  }

  /** The fifth answer ends the briefing: generation starts with all five
      answers recorded and the closing message after the last answer. */
  lemma BriefingCompletes(rs: seq<string>)
    requires |rs| == |Questions|
    ensures var s := AnswerAll(Init(), rs);
      && s.stage == Generating && s.loading
      && s.parts == [] && s.revealed == 0
      && s.questionIndex == |Questions| - 1
      && s.responses == Recorded(rs)
      && s.chat == Transcript(rs[..4]) + [ChatMessage(User, rs[4]), ChatMessage(Ai, BriefingDone)]
  {
    var init := rs[..4];
    BriefingInProgress(init);
    var prev := AnswerAll(Init(), init);
    assert AnswerAll(Init(), rs) == Answer(prev, rs[4]);
    RecordedExtend(rs);
  }

  // ---------------------------------------------------------------------------
  // Generation
  // ---------------------------------------------------------------------------

  /** What the generation request produced: the decoded chunks of the
      streamed body, or the error that ended it (no session, an error
      status, no body). */
  datatype Outcome = Streamed(chunks: seq<string>) | Failed(message: string)

  /** The chunks in arrival order, concatenated. */
  function Concat(chunks: seq<string>): string
    decreases |chunks|
  {
    if |chunks| == 0 then "" else Concat(chunks[..|chunks| - 1]) + chunks[|chunks| - 1]
  }

  /** The read loop: appends every chunk to the accumulated response. */
  method ReadStream(chunks: seq<string>) returns (acc: string)
    ensures acc == Concat(chunks)
    ensures forall i :: 0 <= i < |chunks| ==> Contains(acc, chunks[i])
  {
    acc := "";
    var i := 0;
    while i < |chunks|
      invariant 0 <= i <= |chunks|
      invariant acc == Concat(chunks[..i])
    {
      assert chunks[..i + 1][..i] == chunks[..i];
      acc := acc + chunks[i];
      i := i + 1;
    }
    assert chunks[..|chunks|] == chunks;
    forall i | 0 <= i < |chunks| ensures Contains(acc, chunks[i]) {
      ConcatHasChunk(chunks, i);
    }
  }

  lemma {:induction false} ConcatHasChunk(chunks: seq<string>, i: int)
    requires 0 <= i < |chunks|
    ensures Contains(Concat(chunks), chunks[i])
    decreases |chunks|
  {
    var init := chunks[..|chunks| - 1];
    if i == |chunks| - 1 {
      ContainsMiddle(Concat(init), chunks[i], "");
      assert Concat(init) + chunks[i] + "" == Concat(chunks);
    } else {
      ConcatHasChunk(init, i);
      ContainsIff(Concat(init), chunks[i]);
      var k :| OccursAt(Concat(init), chunks[i], k);
      assert Concat(chunks)[k..k + |chunks[i]|] == Concat(init)[k..k + |chunks[i]|];
      assert OccursAt(Concat(chunks), chunks[i], k);
      ContainsIff(Concat(chunks), chunks[i]);
    }
  }

  /** The pieces that are not blank, in order (`filter(p => p.trim() !== '')`). */
  function NonBlank(xs: seq<string>): (r: seq<string>)
    ensures |r| <= |xs|
    ensures forall i :: 0 <= i < |r| ==> !IsBlank(r[i])
    decreases |xs|
  {
    if |xs| == 0 then []
    else if IsBlank(xs[0]) then NonBlank(xs[1..])
    else [xs[0]] + NonBlank(xs[1..])
  }

  /** The filter keeps only pieces it was given. */
  lemma {:induction false} NonBlankMembers(xs: seq<string>)
    ensures forall i :: 0 <= i < |NonBlank(xs)| ==> NonBlank(xs)[i] in xs
    decreases |xs|
  {
    if |xs| > 0 {
      NonBlankMembers(xs[1..]);
      assert forall x :: x in xs[1..] ==> x in xs;
    }
  }

  /** Every non-blank piece is kept, in its place: the filter's output is
      what it keeps before the piece, the piece, then what it keeps after. */
  lemma NonBlankKeeps(xs: seq<string>, i: int)
    requires 0 <= i < |xs| && !IsBlank(xs[i])
    ensures NonBlank(xs) == NonBlank(xs[..i]) + [xs[i]] + NonBlank(xs[i + 1..])
  {
    var before, after := xs[..i], xs[i + 1..];
    AroundIndex(xs, i);
    NonBlankAppend(before + [xs[i]], after);
    NonBlankAppend(before, [xs[i]]);
    NonBlankSingle(xs[i]);
  }

  lemma AroundIndex<T>(xs: seq<T>, i: int)
    requires 0 <= i < |xs|
    ensures xs == xs[..i] + [xs[i]] + xs[i + 1..]
  {
  }

  /** The filter keeps the order: filtering a concatenation is concatenating
      the filtered halves. */
  lemma {:induction false} NonBlankAppend(xs: seq<string>, ys: seq<string>)
    ensures NonBlank(xs + ys) == NonBlank(xs) + NonBlank(ys)
    decreases |xs|
  {
    if |xs| == 0 {
      assert xs + ys == ys;
    } else {
      var x, t := xs[0], xs[1..];
      var head := if IsBlank(x) then [] else [x];
      ConsAppend(xs, ys);
      NonBlankCons(x, t);
      NonBlankCons(x, t + ys);
      NonBlankAppend(t, ys);
      Associative(head, NonBlank(t), NonBlank(ys));
    }
  }

  /** The filter decides the first piece and then filters the rest. */
  lemma NonBlankCons(x: string, t: seq<string>)
    ensures NonBlank([x] + t) == (if IsBlank(x) then [] else [x]) + NonBlank(t)
  {
    assert ([x] + t)[1..] == t;
  }

  lemma ConsAppend<T>(xs: seq<T>, ys: seq<T>)
    requires |xs| > 0
    ensures xs == [xs[0]] + xs[1..]
    ensures xs + ys == [xs[0]] + (xs[1..] + ys)
  {
  }

  /** A single piece survives the filter exactly when it is not blank. */
  lemma NonBlankSingle(x: string)
    ensures NonBlank([x]) == if IsBlank(x) then [] else [x]
  {
    assert [x][1..] == [];
  }

  lemma HeadTail<T>(q: seq<T>)
    requires |q| > 0
    ensures q == [q[0]] + q[1..]
  {
  }

  /** With no blank piece the filter keeps everything. */
  lemma {:induction false} NonBlankKeepsAll(xs: seq<string>)
    requires forall i :: 0 <= i < |xs| ==> !IsBlank(xs[i])
    ensures NonBlank(xs) == xs
    decreases |xs|
  {
    if |xs| > 0 {
      var rest := xs[1..];
      assert forall i :: 0 <= i < |rest| ==> rest[i] == xs[i + 1];
      NonBlankKeepsAll(rest);
      assert !IsBlank(xs[0]);
      HeadTail(xs);
    }
  }

  /** The script parts of an accumulated response: split at every part
      break, blank pieces dropped. Every part is a non-blank piece without a
      break; ParsePartsKeepsPiece shows every non-blank piece is a part. */
  function ParseParts(acc: string): (r: seq<string>)
    ensures forall i :: 0 <= i < |r| ==> !IsBlank(r[i]) && !Contains(r[i], PartBreak)
    ensures forall i :: 0 <= i < |r| ==> r[i] in Split(acc, PartBreak)
  {
    NonBlankMembers(Split(acc, PartBreak));
    NonBlank(Split(acc, PartBreak))
  }

  /** No non-blank piece between breaks is lost: each is a part, placed after
      the parts from the pieces before it and before those from the pieces
      after it. */
  lemma ParsePartsKeepsPiece(acc: string, i: int)
    requires 0 <= i < |Split(acc, PartBreak)| && !IsBlank(Split(acc, PartBreak)[i])
    ensures var pieces := Split(acc, PartBreak);
      ParseParts(acc) == NonBlank(pieces[..i]) + [pieces[i]] + NonBlank(pieces[i + 1..])
  {
    NonBlankKeeps(Split(acc, PartBreak), i);
  }

  /** Parts come out in the order of the response: text up to the first
      break is the first part, when it is not blank, followed by the parts
      of the rest. */
  lemma ParsePartsAtBreak(x: string, y: string)
    requires !Contains(x, PartBreak)
    requires |x| == 0 || x[|x| - 1] !in PartBreak
    ensures ParseParts(x + PartBreak + y) == (if IsBlank(x) then [] else [x]) + ParseParts(y)
  {
    SplitAtFirst(x, PartBreak, y);
    NonBlankAppend([x], Split(y, PartBreak));
    NonBlankSingle(x);
  }

  /** A response without any part break that is not blank is one part: the
      response itself. */
  lemma SinglePartResponse(acc: string)
    requires !Contains(acc, PartBreak) && !IsBlank(acc)
    ensures ParseParts(acc) == [acc]
  {
    SplitWithoutSeparator(acc, PartBreak);
  }

  /** The end of `processAndGenerate`. A streamed body is split into parts and
      the first one is revealed; a failure returns to the last question with
      every answer kept, so the briefing can be sent again. */
  function Complete(s: State, outcome: Outcome): (r: State)
    ensures !r.loading
    ensures r.chat == s.chat && r.responses == s.responses && r.questionIndex == s.questionIndex
    ensures outcome.Streamed? ==>
      && r.stage == Revealing && r.revealed == 1
      && r.parts == ParseParts(Concat(outcome.chunks))
      && forall i :: 0 <= i < |r.parts| ==> !IsBlank(r.parts[i]) && !Contains(r.parts[i], PartBreak)
    ensures outcome.Failed? ==> r.stage == Asking && r.parts == s.parts && r.revealed == s.revealed
  {
    match outcome
    case Streamed(chunks) =>
      s.(parts := ParseParts(Concat(chunks)), revealed := 1, stage := Revealing, loading := false)
    case Failed(_) =>
      s.(stage := Asking, loading := false)
  }

  /** A failed generation leaves the page ready for the last answer again. */
  lemma RetryAfterFailure(rs: seq<string>, message: string, again: string)
    requires |rs| == |Questions|
    ensures var s := Complete(AnswerAll(Init(), rs), Failed(message));
      && s.stage == Asking && s.questionIndex == |Questions| - 1
      && s.responses == Recorded(rs)
      && Answer(s, again).stage == Generating
      && Answer(s, again).responses == Recorded(rs[..4] + [again])
  {
    BriefingCompletes(rs);
    var generating := AnswerAll(Init(), rs);
    var s := Complete(generating, Failed(message));
    assert s.questionIndex == 4 && s.responses == Recorded(rs);
    var a := Answer(s, again);
    assert a.responses == Recorded(rs)[4 := again];
    RecordedReplaceLast(rs, again);
  }

  // ---------------------------------------------------------------------------
  // Revealing the parts
  // ---------------------------------------------------------------------------

  /** `handleRevealNext` as written: reveal one more part while some is
      hidden, and finish when the count read before the click was one short
      of the total. With a single part the count starts at the total, so the
      stage never becomes finished. */
  function RevealNext(s: State): (r: State)
    ensures r.parts == s.parts && r.revealed >= s.revealed
    ensures r.revealed <= if s.revealed < |s.parts| then |s.parts| else s.revealed
    ensures r.stage == Finished <==> s.stage == Finished || s.revealed + 1 == |s.parts|
  {
    var revealed := if s.revealed < |s.parts| then s.revealed + 1 else s.revealed;
    var stage := if s.revealed == |s.parts| - 1 then Finished else s.stage;
    s.(revealed := revealed, stage := stage)
  }

  function RevealTimes(s: State, k: nat): State
    decreases k
  {
    if k == 0 then s else RevealNext(RevealTimes(s, k - 1))
  }

  function Min(a: int, b: int): int {
    if a <= b then a else b
  }

  /** From the state generation leaves (first part shown), `k` clicks show
      min(1 + k, n) of n >= 2 parts and finish after n - 1 clicks; with fewer
      than two parts nothing changes and the stage stays revealing. */
  lemma {:induction false} RevealProgress(s: State, k: nat)
    requires s.stage == Revealing && s.revealed == 1
    ensures var r := RevealTimes(s, k); var n := |s.parts|;
      && r.parts == s.parts
      && r.revealed == (if n <= 1 then 1 else Min(1 + k, n))
      && (r.stage == Finished <==> n >= 2 && k >= n - 1)
      && (r.stage != Finished ==> r.stage == Revealing)
    decreases k
  {
    if k > 0 {
      RevealProgress(s, k - 1);
    }
  }

  /** A generated script of exactly one part can never be finished, so it can
      never be copied or saved. */
  lemma SinglePartNeverFinishes(s: State, k: nat)
    requires s.stage == Revealing && s.revealed == 1 && |s.parts| == 1
    ensures RevealTimes(s, k).stage == Revealing
  {
    RevealProgress(s, k);
  }

  /** `handleRevealNext` as evidently intended: the stage finishes once the
      click leaves every part shown. */
  function RevealNextIntended(s: State): (r: State)
    ensures r.parts == s.parts && r.revealed >= s.revealed
    ensures r.revealed <= if s.revealed < |s.parts| then |s.parts| else s.revealed
    ensures r.stage == Finished <==> s.stage == Finished || r.revealed >= |s.parts|
  {
    var revealed := if s.revealed < |s.parts| then s.revealed + 1 else s.revealed;
    var stage := if revealed >= |s.parts| then Finished else s.stage;
    s.(revealed := revealed, stage := stage)
  }

  function RevealTimesIntended(s: State, k: nat): State
    decreases k
  {
    if k == 0 then s else RevealNextIntended(RevealTimesIntended(s, k - 1))
  }

  /** With the intended handler every script finishes: after k >= 1 clicks
      it is finished exactly when k >= n - 1, and then every part is shown. */
  lemma {:induction false} RevealIntendedFinishes(s: State, k: nat)
    requires s.stage == Revealing && s.revealed == 1
    ensures var r := RevealTimesIntended(s, k); var n := |s.parts|;
      && r.parts == s.parts
      && r.revealed == (if n <= 1 then 1 else Min(1 + k, n))
      && (k >= 1 ==> (r.stage == Finished <==> k >= n - 1))
      && (r.stage == Finished ==> r.revealed >= n)
    decreases k
  {
    if k > 0 {
      RevealIntendedFinishes(s, k - 1);
    }
  }

  // ---------------------------------------------------------------------------
  // Saving
  // ---------------------------------------------------------------------------

  /** The row saving inserts into the scripts table. */
  datatype ScriptRecord = ScriptRecord(userId: int, title: string, content: string)

  /** Parts that survive a save and reload: not blank, and free of the part
      break marker. */
  predicate Reloadable(parts: seq<string>) {
    forall i :: 0 <= i < |parts| ==> !IsBlank(parts[i]) && !Contains(parts[i], PartBreak)
  }

  /** Two part lists that agree piece by piece up to surrounding whitespace
      (see `SamePartsPointwise`). */
  predicate SameParts(a: seq<string>, b: seq<string>)
    decreases |a|
  {
    |a| == |b| && (|a| == 0 || (Trim(a[0]) == Trim(b[0]) && SameParts(a[1..], b[1..])))
  }

  /** `SameParts` is the piece-by-piece comparison of the trimmed parts. */
  lemma SamePartsPointwise(a: seq<string>, b: seq<string>)
    ensures SameParts(a, b) <==> |a| == |b| && forall i :: 0 <= i < |a| ==> Trim(a[i]) == Trim(b[i])
  {
    if SameParts(a, b) {
      SamePartsAgree(a, b);
    }
    if |a| == |b| && forall i :: 0 <= i < |a| ==> Trim(a[i]) == Trim(b[i]) {
      AgreeSameParts(a, b);
    }
  }

  lemma {:induction false} SamePartsAgree(a: seq<string>, b: seq<string>)
    requires SameParts(a, b)
    ensures |a| == |b| && forall i :: 0 <= i < |a| ==> Trim(a[i]) == Trim(b[i])
    decreases |a|
  {
    if |a| > 0 {
      var ta, tb := a[1..], b[1..];
      SamePartsAgree(ta, tb);
      forall i | 1 <= i < |a| ensures Trim(a[i]) == Trim(b[i]) {
        assert ta[i - 1] == a[i] && tb[i - 1] == b[i];
      }
    }
  }

  lemma {:induction false} AgreeSameParts(a: seq<string>, b: seq<string>)
    requires |a| == |b| && forall i :: 0 <= i < |a| ==> Trim(a[i]) == Trim(b[i])
    ensures SameParts(a, b)
    decreases |a|
  {
    if |a| > 0 {
      var ta, tb := a[1..], b[1..];
      forall i | 0 <= i < |ta| ensures Trim(ta[i]) == Trim(tb[i]) {
        assert ta[i] == a[i + 1] && tb[i] == b[i + 1];
      }
      AgreeSameParts(ta, tb);
    }
  }

  /** `handleSaveScript`: a blank title is refused first, then a signed-out
      user; otherwise the parts are joined with the part break between blank
      lines. Reading the saved content back with the page's own parser gives
      the same parts, up to surrounding whitespace. */
  function SaveScript(user: Session, title: string, parts: seq<string>): (r: Result<ScriptRecord, string>)
    ensures IsBlank(title) ==> r == Failure(TitleMissing)
    ensures !IsBlank(title) && user.None? ==> r == Failure(LoginRequired)
    ensures !IsBlank(title) && user.Some? ==>
      && r.Success? && r.value.userId == user.value.id && r.value.title == title
      && (|parts| > 0 && Reloadable(parts) ==> SameParts(ParseParts(r.value.content), parts))
  {
    if Trim(title) == "" then Failure(TitleMissing)
    else if user.None? then Failure(LoginRequired)
    else
      var record := ScriptRecord(user.value.id, title, Join(parts, SavedPartSeparator));
      if |parts| > 0 && Reloadable(parts) then
        SavedScriptReparses(parts);
        Success(record)
      else
        Success(record)
  }

  /** Splitting `lead` + the parts joined with `pad + marker + pad` at the
      marker gives one piece per part, each the part padded with `pad`, so
      each piece trims to its part. */
  lemma {:induction false} SplitPaddedJoin(lead: string, parts: seq<string>, pad: string, marker: string)
    requires |marker| > 0 && AllWhitespace(pad)
    requires forall i :: 0 <= i < |pad| ==> pad[i] !in marker
    requires |pad| > 0 && (lead == "" || lead == pad)
    requires |parts| > 0 && forall i :: 0 <= i < |parts| ==> !Contains(parts[i], marker)
    ensures SameParts(Split(lead + Join(parts, pad + marker + pad), marker), parts)
    decreases |parts|
  {
    var sep := pad + marker + pad;
    assert AllWhitespace(lead) && AllWhitespace("");
    assert forall i :: 0 <= i < |lead| ==> lead[i] !in marker;
    if |parts| == 1 {
      assert Join(parts, sep) == parts[0];
      SplitPaddedSingle(lead, parts[0], marker);
      SamePartsCons(lead + parts[0], [], parts);
      assert [lead + parts[0]] + [] == [lead + parts[0]];
    } else {
      var x := lead + parts[0] + pad;
      var y := pad + Join(parts[1..], sep);
      var rest := parts[1..];
      PaddedJoinHead(lead, parts, pad, marker);
      assert Trim(x) == Trim(parts[0]) by {
        TrimIgnoresPadding(lead, parts[0], pad);
      }
      assert SameParts(Split(y, marker), rest) by {
        assert forall i :: 0 <= i < |rest| ==> rest[i] == parts[i + 1];
        SplitPaddedJoin(pad, rest, pad, marker);
      }
      SamePartsCons(x, Split(y, marker), parts);
    }
  }

  /** Regrouping a padded join: the padding after a part travels with it. */
  lemma PaddedRegroup(a: string, b: string, pad: string, m: string, r: string)
    ensures a + (b + (pad + m + pad) + r) == (a + b + pad) + m + (pad + r)
  {
    var lhs, rhs := a + (b + (pad + m + pad) + r), (a + b + pad) + m + (pad + r);
    assert |lhs| == |rhs|;
    forall i | 0 <= i < |lhs| ensures lhs[i] == rhs[i] {
    }
  }

  lemma JoinFront(parts: seq<string>, sep: string)
    requires |parts| > 1
    ensures Join(parts, sep) == parts[0] + sep + Join(parts[1..], sep)
  {
  }

  lemma LastOfAppend<T>(a: seq<T>, b: seq<T>)
    requires |b| > 0
    ensures (a + b)[|a + b| - 1] == b[|b| - 1]
  {
  }

  /** Splitting a padded join of two or more parts: the first piece is the
      first part with its padding, the rest is the padded join of the others. */
  lemma PaddedJoinHead(lead: string, parts: seq<string>, pad: string, marker: string)
    requires |marker| > 0 && AllWhitespace(pad) && AllWhitespace(lead)
    requires forall i :: 0 <= i < |pad| ==> pad[i] !in marker
    requires forall i :: 0 <= i < |lead| ==> lead[i] !in marker
    requires |pad| > 0 && |parts| > 1 && !Contains(parts[0], marker)
    ensures var sep := pad + marker + pad;
      Split(lead + Join(parts, sep), marker)
        == [lead + parts[0] + pad] + Split(pad + Join(parts[1..], sep), marker)
  {
    var sep := pad + marker + pad;
    var x := lead + parts[0] + pad;
    var y := pad + Join(parts[1..], sep);
    var rest := Join(parts[1..], sep);
    JoinFront(parts, sep);
    PaddedRegroup(lead, parts[0], pad, marker, rest);
    assert lead + Join(parts, sep) == x + marker + y;
    NoSeparatorAcrossPadding(lead, parts[0], pad, marker);
    LastOfAppend(lead + parts[0], pad);
    SplitAtFirst(x, marker, y);
  }

  lemma SplitPaddedSingle(lead: string, p: string, marker: string)
    requires |marker| > 0 && AllWhitespace(lead) && !Contains(p, marker)
    requires forall i :: 0 <= i < |lead| ==> lead[i] !in marker
    ensures Split(lead + p, marker) == [lead + p]
    ensures Trim(lead + p) == Trim(p)
  {
    assert lead + p == lead + p + "";
    NoSeparatorAcrossPadding(lead, p, "", marker);
    SplitWithoutSeparator(lead + p, marker);
    TrimIgnoresPadding(lead, p, "");
  }

  lemma SamePartsCons(x: string, tail: seq<string>, parts: seq<string>)
    requires |parts| > 0 && Trim(x) == Trim(parts[0]) && SameParts(tail, parts[1..])
    ensures SameParts([x] + tail, parts)
  {
    assert ([x] + tail)[1..] == tail;
  }

  /** The blank lines around the saved separator are whitespace the part
      break never uses. */
  lemma BlankLinesPad()
    ensures AllWhitespace("\n\n")
    ensures forall i :: 0 <= i < |"\n\n"| ==> "\n\n"[i] !in PartBreak
  {
    assert '\n' !in PartBreak;
  }

  /** The save/reload round trip of a script. */
  lemma SavedScriptReparses(parts: seq<string>)
    requires |parts| > 0 && Reloadable(parts)
    ensures SameParts(ParseParts(Join(parts, SavedPartSeparator)), parts)
  {
    var pad := "\n\n";
    var marker := PartBreak;
    BlankLinesPad();
    var content := Join(parts, pad + marker + pad);
    SplitPaddedJoin("", parts, pad, marker);
    assert "" + content == content;
    var q := Split(content, marker);
    SamePartsKeepsNonBlank(q, parts);
  }

  /** Pieces that trim to non-blank parts are not blank, so the filter keeps
      them all. */
  lemma {:induction false} SamePartsKeepsNonBlank(q: seq<string>, parts: seq<string>)
    requires SameParts(q, parts) && forall i :: 0 <= i < |parts| ==> !IsBlank(parts[i])
    ensures NonBlank(q) == q
    decreases |q|
  {
    if |q| > 0 {
      var rest := parts[1..];
      assert forall i :: 0 <= i < |rest| ==> rest[i] == parts[i + 1];
      SamePartsKeepsNonBlank(q[1..], rest);
      assert !IsBlank(parts[0]);
      HeadTail(q);
    }
  }

  // ---------------------------------------------------------------------------
  // Rendering a part
  // ---------------------------------------------------------------------------

  /** The invisible characters a part may start with: zero-width space,
      non-joiner and joiner, the direction marks, and the byte order mark. */
  predicate Invisible(c: char) {
    ('\U{200B}' <= c <= '\U{200F}') || c == '\U{FEFF}'
  }

  /** `ScriptPart` drops one leading invisible character before rendering;
      nothing else changes. */
  function StripLeadingInvisible(content: string): (r: string)
    ensures r == content || (|content| > 0 && Invisible(content[0]) && r == content[1..])
    ensures |r| > 0 && Invisible(r[0]) ==> |content| > 1 && Invisible(content[0]) && Invisible(content[1])
    ensures (|content| == 0 || !Invisible(content[0])) ==> r == content
    ensures |content| > 0 && Invisible(content[0]) ==> r == content[1..]
  {
    if |content| > 0 && Invisible(content[0]) then content[1..] else content
  }

  /** Stripping undoes one invisible character put in front of a text, and
      only one: a text that starts visibly comes back unchanged, while a
      second invisible character stays in front of it. */
  lemma StripUndoesOneMark(mark: char, text: string)
    requires Invisible(mark)
    ensures StripLeadingInvisible([mark] + text) == text
    ensures StripLeadingInvisible([mark, mark] + text) == [mark] + text
  {
    assert ([mark] + text)[1..] == text;
    assert ([mark, mark] + text)[1..] == [mark] + text;
  }
}
