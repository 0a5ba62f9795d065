/**
 * The detailed review (app/components/Details.tsx): a score badge per
 * category, the four categories in a fixed order, and each tip's icon and
 * styling.
 */
module Details {
  import opened Text
  import opened Records

  const GoodScoreThreshold: int := 70
  const AverageScoreThreshold: int := 50

  datatype ScoreStatus = Good | Average | Bad

  function GetScoreStatus(score: int): (status: ScoreStatus)
    ensures status == Good <==> score >= GoodScoreThreshold
    ensures status == Average <==> AverageScoreThreshold <= score < GoodScoreThreshold
    ensures status == Bad <==> score < AverageScoreThreshold
  {
    if score >= GoodScoreThreshold then Good
    else if score >= AverageScoreThreshold then Average
    else Bad
  }

  const CheckIcon: string := "/icons/check.svg"
  const WarningIcon: string := "/icons/warning.svg"

  function BadgeColor(status: ScoreStatus): string
  {
    match status
    case Good => "bg-badge-green"
    case Average => "bg-badge-yellow"
    case Bad => "bg-badge-red"
  }

  function TextColor(status: ScoreStatus): string
  {
    match status
    case Good => "text-badge-green-text"
    case Average => "text-badge-yellow-text"
    case Bad => "text-badge-red-text"
  }

  /** No two statuses get the same badge colour or the same text colour. */
  lemma BadgeStyleOneToOne(a: ScoreStatus, b: ScoreStatus)
    ensures BadgeColor(a) == BadgeColor(b) <==> a == b
    ensures TextColor(a) == TextColor(b) <==> a == b
  {
  }

  /** The badge icon: the check mark only for a good score. */
  function BadgeIcon(score: int): (icon: string)
    ensures icon == CheckIcon <==> score >= GoodScoreThreshold
    ensures icon == WarningIcon <==> score < GoodScoreThreshold
  {
    if GetScoreStatus(score) == Good then CheckIcon else WarningIcon
  }

  /** The badge text `${score}/100`; the score can be read back from it. */
  function BadgeText(score: int): (text: string)
    ensures |text| > 4 && text[|text| - 4..] == "/100"
    ensures IsIntegerText(text[..|text| - 4]) && ParseInt(text[..|text| - 4]) == score
  {
    IntWithSuffix(score, "/100");
    IntToString(score) + "/100"
  }

  datatype AccordionCategory = AccordionCategory(id: string, title: string, data: Category)

  /**
   * The accordion items, in a fixed order, each from its own report field;
   * their ids, which are also the React keys, are pairwise distinct.
   */
  function AccordionCategories(feedback: FeedbackReport): (items: seq<AccordionCategory>)
    ensures |items| == 4
    ensures forall i, j | 0 <= i < j < |items| :: items[i].id != items[j].id
    ensures [items[0].data, items[1].data, items[2].data, items[3].data]
      == [feedback.toneAndStyle, feedback.content, feedback.structure, feedback.skills]
    ensures [items[0].title, items[1].title, items[2].title, items[3].title]
      == ["Tone & Style", "Content", "Structure", "Skills"]
  {
    assert "tone-style"[0] == 't' && "content"[0] == 'c' && "structure"[0] == 's' && "skills"[0] == 's';
    assert "structure"[1] == 't' && "skills"[1] == 'k';
    [ AccordionCategory("tone-style", "Tone & Style", feedback.toneAndStyle),
      AccordionCategory("content", "Content", feedback.content),
      AccordionCategory("structure", "Structure", feedback.structure),
      AccordionCategory("skills", "Skills", feedback.skills) ]
  }

  function TipIcon(kind: TipType): string
  {
    match kind
    case GoodTip => CheckIcon
    case ImproveTip => WarningIcon
  }

  const GoodTipStyle: string := "bg-green-50" + " border border-green-200 text-green-700"
  const ImproveTipStyle: string := "bg-yellow-50" + " border border-yellow-200 text-yellow-700"

  function TipStyle(kind: TipType): string
  {
    match kind
    case GoodTip => GoodTipStyle
    case ImproveTip => ImproveTipStyle
  }

  /**
   * The check mark marks exactly the good tips, and the two kinds of tip
   * never share a style: green for good, yellow for an improvement.
   */
  lemma TipPresentation(a: TipType, b: TipType)
    ensures TipIcon(a) == CheckIcon <==> a == GoodTip
    ensures TipStyle(a) == TipStyle(b) <==> a == b
    ensures a == GoodTip ==> StartsWith(TipStyle(a), "bg-green-50")
    ensures a == ImproveTip ==> StartsWith(TipStyle(a), "bg-yellow-50")
  {
  }
}
