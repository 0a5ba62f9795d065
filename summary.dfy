/** The score summary (app/components/Summary.tsx). */
module Summary {
  import opened Records

  const GoodScoreThreshold: int := 70
  const AverageScoreThreshold: int := 50

  datatype ScoreStatus = Good | Average | Bad

  function GetScoreStatus(score: int): (status: ScoreStatus)
    ensures status == Good <==> score >= GoodScoreThreshold
    ensures status == Average <==> AverageScoreThreshold <= score < GoodScoreThreshold
    ensures status == Bad <==> score < AverageScoreThreshold
  {
    if score >= GoodScoreThreshold then Good
    else if score >= AverageScoreThreshold then Average
    else Bad
  }

  /** `scoreColorConfig[status].textColor`. */
  function ScoreTextColor(status: ScoreStatus): (textColor: string)
    ensures status == Good <==> textColor == "text-badge-green-text"
    ensures status == Average <==> textColor == "text-badge-yellow-text"
    ensures status == Bad <==> textColor == "text-badge-red-text"
  {
    match status
    case Good => "text-badge-green-text"
    case Average => "text-badge-yellow-text"
    case Bad => "text-badge-red-text"
  }

  datatype SummaryCategory = SummaryCategory(title: string, score: int)

  /**
   * The summary rows, in a fixed order, each scored from its own report
   * field; their titles, which are also the React keys, are pairwise distinct.
   */
  function SummaryCategories(feedback: FeedbackReport): (rows: seq<SummaryCategory>)
    ensures |rows| == 4
    ensures forall i, j | 0 <= i < j < |rows| :: rows[i].title != rows[j].title
    ensures [rows[0].score, rows[1].score, rows[2].score, rows[3].score]
      == [feedback.toneAndStyle.score, feedback.content.score, feedback.structure.score, feedback.skills.score]
  {
    assert "Tone & Style"[0] == 'T' && "Content"[0] == 'C' && "Structure"[0] == 'S' && "Skills"[0] == 'S';
    assert "Structure"[1] == 't' && "Skills"[1] == 'k';
    [ SummaryCategory("Tone & Style", feedback.toneAndStyle.score),
      SummaryCategory("Content", feedback.content.score),
      SummaryCategory("Structure", feedback.structure.score),
      SummaryCategory("Skills", feedback.skills.score) ]
  }

  function GaugeScore(feedback: FeedbackReport): int
  {
    feedback.overallScore
  }

  /**
   * The gauge shows the report's overall score as given: changing any
   * category leaves it as it is.
   */
  lemma GaugeIgnoresCategories(feedback: FeedbackReport, t: Category, c: Category, s: Category, k: Category)
    ensures GaugeScore(feedback) == feedback.overallScore
    ensures GaugeScore(feedback.(toneAndStyle := t, content := c, structure := s, skills := k)) == GaugeScore(feedback)
  {
  }
}
