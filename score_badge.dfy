/** The word badge next to a score (app/components/ScoreBadge.tsx). */
module ScoreBadge {

  const GoodScoreThreshold: int := 70
  const AverageScoreThreshold: int := 50

  datatype ScoreStatus = Good | Average | Bad

  function GetScoreStatus(score: int): (status: ScoreStatus)
    ensures status == Good <==> score >= GoodScoreThreshold
    ensures status == Average <==> AverageScoreThreshold <= score < GoodScoreThreshold
    ensures status == Bad <==> score < AverageScoreThreshold
  {
    if score >= GoodScoreThreshold then Good
    else if score >= AverageScoreThreshold then Average
    else Bad
  }

  datatype BadgeConfig = BadgeConfig(className: string, text: string)

  function ColorName(status: ScoreStatus): string
  {
    match status
    case Good => "green"
    case Average => "yellow"
    case Bad => "red"
  }

  /** `scoreConfig[status]`: each status has its own label. */
  function ScoreConfig(status: ScoreStatus): (config: BadgeConfig)
    ensures status == Good <==> config.text == "Strong"
    ensures status == Average <==> config.text == "Good Start"
    ensures status == Bad <==> config.text == "Needs Work"
  {
    match status
    case Good => BadgeConfig("bg-badge-green text-badge-green-text", "Strong")
    case Average => BadgeConfig("bg-badge-yellow text-badge-yellow-text", "Good Start")
    case Bad => BadgeConfig("bg-badge-red text-badge-red-text", "Needs Work")
  }

  lemma GoodBadgeClass()
    ensures ScoreConfig(Good).className == "bg-badge-" + ColorName(Good) + " text-badge-" + ColorName(Good) + "-text"
  {
  }

  lemma AverageBadgeClass()
    ensures ScoreConfig(Average).className == "bg-badge-" + ColorName(Average) + " text-badge-" + ColorName(Average) + "-text"
  {
  }

  lemma BadBadgeClass()
    ensures ScoreConfig(Bad).className == "bg-badge-" + ColorName(Bad) + " text-badge-" + ColorName(Bad) + "-text"
  {
  }

  /** The background and the text of a badge are always of one colour. */
  lemma OneColourPerBadge(status: ScoreStatus)
    ensures var c := ColorName(status);
      ScoreConfig(status).className == "bg-badge-" + c + " text-badge-" + c + "-text"
  {
    match status
    case Good => GoodBadgeClass();
    case Average => AverageBadgeClass();
    case Bad => BadBadgeClass();
  }

  /** How good a status is: bad below average below good. */
  function Rank(status: ScoreStatus): nat
  {
    match status
    case Bad => 0
    case Average => 1
    case Good => 2
  }

  /** A higher score never receives a worse status. */
  lemma Monotone(a: int, b: int)
    requires a <= b
    ensures Rank(GetScoreStatus(a)) <= Rank(GetScoreStatus(b))
  {
  }
}
