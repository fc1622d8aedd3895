/** The video ideas page: five fixed title and description templates filled
    with the topic as typed. The wait before the ideas appear is left out. */
module Ideas {
  import opened Text

  const TopicRequired := "Por favor, informe um tópico para gerar ideias."

  datatype Idea = Idea(title: string, description: string)

  /** What follows the topic in the fifth title. */
  const Versus := " vs. Alternativas: Qual a melhor opção?"

  /** `topic` between two fixed texts, as a template literal places it. */
  function Fill(before: string, topic: string, after: string): (r: string)
    ensures |r| == |before| + |topic| + |after|
    ensures r[|before|..|before| + |topic|] == topic
    ensures Contains(r, topic)
  {
    ContainsMiddle(before, topic, after);
    assert (before + topic + after)[|before|..|before| + |topic|] == topic;
    before + topic + after
  }

  /** The title of card `i` of the five for `topic`, in the order the page
      shows them. The topic goes in untrimmed, exactly as typed. */
  function Title(i: nat, topic: string): (r: string)
    requires i < 5
    ensures Contains(r, topic)
  {
    if i == 0 then Fill("10 Mitos sobre ", topic, " que você acreditava serem verdade")
    else if i == 1 then Fill("Como ", topic, " está mudando em 2025: Tendências e Previsões")
    else if i == 2 then Fill("O guia definitivo para iniciantes em ", topic, "")
    else if i == 3 then Fill("Os 5 erros mais comuns ao trabalhar com ", topic, "")
    else Fill("", topic, Versus)
  }

  /** The description of card `i`. */
  function Description(i: nat, topic: string): (r: string)
    requires i < 5
    ensures Contains(r, topic)
  {
    if i == 0 then
      Fill("Um vídeo desmistificando concepções comuns sobre ", topic, " com fatos e dados comprovados cientificamente.")
    else if i == 1 then
      Fill("Análise das tendências emergentes relacionadas a ", topic, " e como elas podem evoluir no próximo ano.")
    else if i == 2 then
      Fill("Um tutorial completo para quem está começando em ", topic, ", explicando os fundamentos e dicas práticas.")
    else if i == 3 then
      Fill("Identificação dos equívocos frequentes relacionados a ", topic, " e como evitá-los para obter melhores resultados.")
    else
      Fill("Uma comparação detalhada entre ", topic, " e outras alternativas disponíveis no mercado, analisando prós e contras.")
  }

  /** Card `i` of the five for `topic`. */
  function Card(i: nat, topic: string): (r: Idea)
    requires i < 5
    ensures Contains(r.title, topic) && Contains(r.description, topic)
  {
    Idea(Title(i, topic), Description(i, topic))
  }

  /** The five cards for `topic`. */
  function Templates(topic: string): (r: seq<Idea>)
    ensures |r| == 5
    ensures forall i :: 0 <= i < 5 ==> r[i] == Card(i, topic)
  {
    seq(5, i requires 0 <= i < 5 => Card(i, topic))
  }

  /** A click either refuses a blank topic with a message, leaving the
      previous cards in place, or replaces them with new ones. */
  datatype Generated = Refused(message: string) | Shown(ideas: seq<Idea>)

  /** `handleGenerateIdeas`. The audience choice is read by nothing. */
  function GenerateIdeas(topic: string, audience: string): (r: Generated)
    ensures r.Refused? <==> AllWhitespace(topic)
    ensures r.Refused? ==> r.message == TopicRequired
    ensures r.Shown? ==> |r.ideas| == 5
    ensures r.Shown? ==> forall i :: 0 <= i < 5 ==>
      Contains(r.ideas[i].title, topic) && Contains(r.ideas[i].description, topic)
    ensures r.Shown? ==> |r.ideas[4].title| == |topic| + |Versus| && r.ideas[4].title[..|topic|] == topic
  {
    if IsBlank(topic) then Refused(TopicRequired)
    else
      TopicRecoverable(topic);
      Shown(Templates(topic))
  }

  /** The audience choice changes nothing. */
  lemma AudienceIgnored(topic: string, a: string, b: string)
    ensures GenerateIdeas(topic, a) == GenerateIdeas(topic, b)
  {
  }

  /** Different topics give different cards: the topic can be read back from
      the fifth title, which starts with it. */
  lemma TopicRecoverable(topic: string)
    ensures |Title(4, topic)| == |topic| + |Versus|
    ensures Title(4, topic)[..|topic|] == topic
  {
  }

  /** Two non-blank topics yield the same cards only when they are the same
      topic. */
  lemma GenerateIdeasInjective(x: string, y: string, a: string)
    requires GenerateIdeas(x, a).Shown? && GenerateIdeas(x, a) == GenerateIdeas(y, a)
    ensures x == y
  {
    var tx, ty := GenerateIdeas(x, a).ideas[4].title, GenerateIdeas(y, a).ideas[4].title;
    assert tx == ty;
  }
}
