/** The video potential calculator: four scores from the title, the
    description, the tags and the script's hook and call to action, their
    rounded mean, and the badge shown for it. Ratios are exact reals. */
module Seo {
  import opened Text

  /** The words that earn a title its last 30 points, in lower case. */
  const PowerWords: seq<string> := ["guia", "definitivo", "segredo", "método", "verdade", "passo a passo"]

  predicate HasDigit(s: string) {
    exists i :: 0 <= i < |s| && '0' <= s[i] <= '9'
  }

  /** The title contains a power word, ignoring case. */
  predicate HasPowerWord(title: string) {
    exists k :: 0 <= k < |PowerWords| && Contains(ToLower(title), PowerWords[k])
  }

  /** How many of the three title criteria hold: the length, a digit, a
      power word. */
  function CriteriaMet(title: string): (n: nat)
    ensures n <= 3
  {
    (if 40 < |title| < 65 then 1 else 0) + (if HasDigit(title) then 1 else 0)
      + (if HasPowerWord(title) then 1 else 0)
  }

  /** "Título": 40 points for a length strictly between 40 and 65 (15
      otherwise), 30 for a digit, 30 for a power word. Each criterion met is
      worth one whole 30, and the remainder shows the length criterion. */
  function TitleScore(title: string): (r: int)
    ensures r in {15, 40, 45, 70, 75, 100}
    ensures r / 30 == CriteriaMet(title)
    ensures r % 30 == if 40 < |title| < 65 then 10 else 15
    ensures r == 100 <==> 40 < |title| < 65 && HasDigit(title) && HasPowerWord(title)
    ensures r == 15 <==> !(40 < |title| < 65) && !HasDigit(title) && !HasPowerWord(title)
  {
    var length := if 40 < |title| < 65 then 40 else 15;
    var digit := if HasDigit(title) then 30 else 0;
    var power := if HasPowerWord(title) then 30 else 0;
    length + digit + power
  }

  /** The score tells whether the length criterion held: 40 and its
      multiples-of-30 successors exactly when it did. */
  lemma TitleScoreShowsLength(title: string)
    ensures 15 <= TitleScore(title) <= 100
    ensures 40 < |title| < 65 <==> TitleScore(title) % 30 == 10
  {
  }

  function MinReal(a: real, b: real): real {
    if a <= b then a else b
  }

  /** `Math.min(100, count / full * 100)`: the share of `full` reached, as a
      percentage capped at 100. */
  function Capped(count: nat, full: nat): (r: real)
    requires full > 0
    ensures 0.0 <= r <= 100.0
    ensures r == 100.0 <==> count >= full
    ensures count < full ==> r * (full as real) == (count as real) * 100.0
  {
    MinReal(100.0, (count as real) / (full as real) * 100.0)
  }

  /** "Descrição": the description's length against 300 characters. */
  function DescriptionScore(description: string): (r: real)
    ensures 0.0 <= r <= 100.0
    ensures r == 100.0 <==> |description| >= 300
  {
    Capped(|description|, 300)
  }

  /** "Tags": the number of tags against 15. */
  function TagScore(tags: seq<string>): (r: real)
    ensures 0.0 <= r <= 100.0
    ensures r == 100.0 <==> |tags| >= 15
  {
    Capped(|tags|, 15)
  }

  /** "Retenção": 50 points each for a hook and a call to action longer than
      50 characters. */
  function RetentionScore(hook: string, cta: string): (r: int)
    ensures r in {0, 50, 100}
    ensures r == 100 <==> |hook| > 50 && |cta| > 50
    ensures r == 0 <==> |hook| <= 50 && |cta| <= 50
  {
    (if |hook| > 50 then 50 else 0) + (if |cta| > 50 then 50 else 0)
  }

  /** One axis of the radar chart. */
  datatype Entry = Entry(subject: string, score: real, fullMark: int)

  const Subjects: seq<string> := ["Título", "Descrição", "Tags", "Retenção"]

  /** `calculateScores`: the four axes in their fixed order. */
  function CalculateScores(title: string, description: string, tags: seq<string>, hook: string, cta: string): (r: seq<Entry>)
    ensures |r| == 4
    ensures forall i :: 0 <= i < 4 ==> r[i].subject == Subjects[i] && r[i].fullMark == 100
    ensures forall i :: 0 <= i < 4 ==> 0.0 <= r[i].score <= 100.0
    ensures r[0].score == TitleScore(title) as real && r[1].score == DescriptionScore(description)
    ensures r[2].score == TagScore(tags) && r[3].score == RetentionScore(hook, cta) as real
  {
    [ Entry(Subjects[0], TitleScore(title) as real, 100),
      Entry(Subjects[1], DescriptionScore(description), 100),
      Entry(Subjects[2], TagScore(tags), 100),
      Entry(Subjects[3], RetentionScore(hook, cta) as real, 100) ]
  }

  function SumScores(entries: seq<Entry>): real
    decreases |entries|
  {
    if |entries| == 0 then 0.0 else SumScores(entries[..|entries| - 1]) + entries[|entries| - 1].score
  }

  /** `Math.round` on a real: the nearest integer, halves rounded up. */
  function Round(x: real): int {
    (x + 0.5).Floor
  }

  lemma SumOfFour(e: seq<Entry>)
    requires |e| == 4
    ensures SumScores(e) == e[0].score + e[1].score + e[2].score + e[3].score
  {
    var one, two, three := e[..1], e[..2], e[..3];
    assert one[..0] == [] && two[..1] == one && three[..2] == two && e[..3] == three;
    assert SumScores(one) == e[0].score;
    assert SumScores(two) == SumScores(one) + e[1].score;
    assert SumScores(three) == SumScores(two) + e[2].score;
  }

  lemma {:induction false} SumBounds(entries: seq<Entry>)
    requires forall i :: 0 <= i < |entries| ==> 0.0 <= entries[i].score <= 100.0
    ensures 0.0 <= SumScores(entries) <= 100.0 * (|entries| as real)
    decreases |entries|
  {
    if |entries| > 0 {
      SumBounds(entries[..|entries| - 1]);
    }
  }

  /** The overall potential: the mean of the four scores, rounded. */
  function OverallPotential(entries: seq<Entry>): (r: int)
    requires |entries| == 4
    requires forall i :: 0 <= i < 4 ==> 0.0 <= entries[i].score <= 100.0
    ensures 0 <= r <= 100
    ensures (r as real) - 0.5 <= SumScores(entries) / 4.0 < (r as real) + 0.5
  {
    SumBounds(entries);
    Round(SumScores(entries) / 4.0)
  }

  /** With every score at 100 the potential is 100. */
  lemma OverallExtremes(title: string, description: string, tags: seq<string>, hook: string, cta: string)
    ensures var e := CalculateScores(title, description, tags, hook, cta);
      (forall i :: 0 <= i < 4 ==> e[i].score == 100.0) ==> OverallPotential(e) == 100
  {
    var e := CalculateScores(title, description, tags, hook, cta);
    if forall i :: 0 <= i < 4 ==> e[i].score == 100.0 {
      SumOfFour(e);
    }
  }

  datatype Variant = Default | Secondary | Destructive

  /** `getBadgeVariant`. */
  function BadgeVariant(score: int): (r: Variant)
    ensures r == Default <==> score >= 75
    ensures r == Secondary <==> 40 <= score < 75
    ensures r == Destructive <==> score < 40
  {
    if score >= 75 then Default else if score >= 40 then Secondary else Destructive
  }

  /** The badge's text. */
  function BadgeLabel(score: int): (r: string)
    ensures r in {"Excelente", "Bom", "Pode Melhorar"}
    ensures r == "Excelente" <==> score >= 75
    ensures r == "Bom" <==> 40 <= score < 75
    ensures r == "Pode Melhorar" <==> score < 40
  {
    if score >= 75 then "Excelente" else if score >= 40 then "Bom" else "Pode Melhorar"
  }

  /** The text and the colour of the badge follow the same thresholds. */
  lemma LabelMatchesVariant(score: int)
    ensures BadgeLabel(score) == "Excelente" <==> BadgeVariant(score) == Default
    ensures BadgeLabel(score) == "Bom" <==> BadgeVariant(score) == Secondary
    ensures BadgeLabel(score) == "Pode Melhorar" <==> BadgeVariant(score) == Destructive
  {
  }
}
