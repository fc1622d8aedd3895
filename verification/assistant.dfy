/** The assistant page: a prompt is answered with one of four fixed replies,
    picked by the first keyword it mentions, case ignored. The wait before
    the reply is left out. */
module Assistant {
  import opened Text

  const EmptyPrompt := "Por favor, digite uma pergunta ou solicitação."

  const IdeasReply :=
    "Aqui estão algumas ideias para vídeos:\n" +
    "\n" +
    "1. \"10 Dicas para Melhorar a Qualidade do Áudio\"\n" +
    "2. \"Como Crescer no YouTube em 2025\"\n" +
    "3. \"Tutorial: Edição Avançada com DaVinci Resolve\"\n" +
    "4. \"Tendências de Conteúdo que Estão Bombando\"\n" +
    "5. \"Guia Completo de Iluminação para Vídeos Profissionais\""
  const ScriptReply :=
    "Para criar um roteiro eficaz, siga esta estrutura:\n" +
    "\n" +
    "1. Introdução cativante (10-15 segundos)\n" +
    "2. Apresentação do problema ou tema\n" +
    "3. Desenvolvimento principal com 3-5 pontos chave\n" +
    "4. Demonstração ou exemplos práticos\n" +
    "5. Conclusão e call-to-action\n" +
    "\n" +
    "Lembre-se de manter uma linguagem clara e direta. Foque no benefício que o espectador terá ao assistir seu vídeo até o final."
  const SeoReply :=
    "Dicas de SEO para YouTube:\n" +
    "\n" +
    "• Use palavras-chave relevantes no título, descrição e tags\n" +
    "• Crie thumbnails com alto CTR (taxa de cliques)\n" +
    "• Aumente o tempo de visualização com conteúdo envolvente\n" +
    "• Incentive interações (likes, comentários, compartilhamentos)\n" +
    "• Publique consistentemente\n" +
    "• Utilize hashtags estratégicas\n" +
    "• Crie playlists temáticas\n" +
    "• Otimize os primeiros 100 caracteres da descrição"
  const DefaultReply :=
    "Como posso ajudar você a criar conteúdo melhor para o YouTube? " +
    "Posso fornecer dicas sobre roteiros, ideias de vídeo, estratégias de SEO, edição, ou qualquer outro aspecto de produção de conteúdo."

  /** The prompt mentions `word`, ignoring case (`word` is in lower case). */
  predicate Mentions(prompt: string, word: string) {
    Contains(ToLower(prompt), word)
  }

  /** Which of the four replies a prompt gets. */
  datatype Topic = IdeasTopic | ScriptTopic | SeoTopic | GeneralTopic

  /** The reply shown for each topic. */
  function ReplyText(t: Topic): (r: string)
    ensures r != ""
  {
    match t
    case IdeasTopic => IdeasReply
    case ScriptTopic => ScriptReply
    case SeoTopic => SeoReply
    case GeneralTopic => DefaultReply
  }

  /** A blank prompt is refused with a message and the previous reply stays;
      any other prompt is answered with the reply for its topic. */
  datatype Reply = Refused(message: string) | Answered(topic: Topic)

  /** `handleGenerateResponse`: "ideia" wins over "roteiro", which wins over
      "seo" and "algoritmo"; a prompt with none of them gets the general
      reply. */
  function Respond(prompt: string): (r: Reply)
    ensures r.Refused? <==> AllWhitespace(prompt)
    ensures r.Refused? ==> r.message == EmptyPrompt
    ensures r.Answered? ==> (r.topic == IdeasTopic <==> Mentions(prompt, "ideia"))
    ensures r.Answered? ==> (r.topic == ScriptTopic <==> !Mentions(prompt, "ideia") && Mentions(prompt, "roteiro"))
    ensures r.Answered? ==> (r.topic == SeoTopic <==>
      !Mentions(prompt, "ideia") && !Mentions(prompt, "roteiro") && (Mentions(prompt, "seo") || Mentions(prompt, "algoritmo")))
  {
    if IsBlank(prompt) then Refused(EmptyPrompt)
    else if Mentions(prompt, "ideia") then Answered(IdeasTopic)
    else if Mentions(prompt, "roteiro") then Answered(ScriptTopic)
    else if Mentions(prompt, "seo") || Mentions(prompt, "algoritmo") then Answered(SeoTopic)
    else Answered(GeneralTopic)
  }

  /** A prompt that mentions "ideia" in any capitalisation, wherever and with
      whatever around it, gets the ideas reply. */
  lemma IdeaWins(a: string, w: string, c: string)
    requires ToLower(w) == "ideia"
    ensures Respond(a + w + c) == Answered(IdeasTopic)
  {
    var p := a + w + c;
    ToLowerConcat(a, w, c);
    ContainsMiddle(ToLower(a), "ideia", ToLower(c));
    assert p[|a|] == w[0];
    assert LowerChar(w[0]) == 'i';
    assert !IsWhitespace(p[|a|]);
  }

  /** A prompt that mentions "seo" but neither "ideia" nor "roteiro" gets the
      SEO reply, wherever the keyword sits. */
  lemma SeoWithoutEarlierKeywords(a: string, w: string, c: string)
    requires ToLower(w) == "seo"
    requires !Mentions(a + w + c, "ideia") && !Mentions(a + w + c, "roteiro")
    ensures Respond(a + w + c) == Answered(SeoTopic)
  {
    var p := a + w + c;
    ToLowerConcat(a, w, c);
    ContainsMiddle(ToLower(a), "seo", ToLower(c));
    assert p[|a|] == w[0];
    assert LowerChar(w[0]) == 's';
    assert !IsWhitespace(p[|a|]);
  }

  /** Different topics show different replies, so the text tells which rule
      fired. */
  lemma RepliesDistinct(a: Topic, b: Topic)
    ensures ReplyText(a) == ReplyText(b) ==> a == b
  {
  }
}
