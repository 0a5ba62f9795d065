/**
 * The five components each carry their own copy of the score classifier.
 * These lemmas state that every copy agrees with the one in Details (the ATS
 * panel calls the middle band "warning" instead of "average").
 */
module ScoreAgreement {
  import Details
  import Ats
  import Summary
  import ScoreBadge
  import ScoreCircle
  import Records

  function AtsName(status: Details.ScoreStatus): Ats.ScoreStatus
  {
    match status
    case Good => Ats.Good
    case Average => Ats.Warning
    case Bad => Ats.Bad
  }

  lemma AtsAgreesWithDetails(score: int)
    ensures Ats.GetScoreStatus(score) == AtsName(Details.GetScoreStatus(score))
  {
  }

  lemma SummaryAgreesWithDetails(score: int)
    ensures Summary.GetScoreStatus(score).Good? == Details.GetScoreStatus(score).Good?
    ensures Summary.GetScoreStatus(score).Average? == Details.GetScoreStatus(score).Average?
    ensures Summary.GetScoreStatus(score).Bad? == Details.GetScoreStatus(score).Bad?
  {
  }

  lemma ScoreBadgeAgreesWithDetails(score: int)
    ensures ScoreBadge.GetScoreStatus(score).Good? == Details.GetScoreStatus(score).Good?
    ensures ScoreBadge.GetScoreStatus(score).Average? == Details.GetScoreStatus(score).Average?
    ensures ScoreBadge.GetScoreStatus(score).Bad? == Details.GetScoreStatus(score).Bad?
  {
  }

  lemma ScoreCircleAgreesWithDetails(score: int)
    ensures ScoreCircle.GetScoreStatus(score).Good? == Details.GetScoreStatus(score).Good?
    ensures ScoreCircle.GetScoreStatus(score).Average? == Details.GetScoreStatus(score).Average?
    ensures ScoreCircle.GetScoreStatus(score).Bad? == Details.GetScoreStatus(score).Bad?
  {
  }

  /**
   * The summary and the detailed review list the same four categories in the
   * same order, with the same titles and the same scores.
   */
  lemma SummaryRowsMatchAccordion(feedback: Records.FeedbackReport)
    ensures |Summary.SummaryCategories(feedback)| == |Details.AccordionCategories(feedback)|
    ensures forall i | 0 <= i < |Summary.SummaryCategories(feedback)| ::
      Summary.SummaryCategories(feedback)[i].title == Details.AccordionCategories(feedback)[i].title
      && Summary.SummaryCategories(feedback)[i].score == Details.AccordionCategories(feedback)[i].data.score
  {
  }
}
