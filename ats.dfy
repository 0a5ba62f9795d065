/** The ATS panel (app/components/ATS.tsx). */
module Ats {
  import opened Text
  import opened Records

  const GoodScoreThreshold: int := 70
  const WarningScoreThreshold: int := 50

  datatype ScoreStatus = Good | Warning | Bad

  function GetScoreStatus(score: int): (status: ScoreStatus)
    ensures status == Good <==> score >= GoodScoreThreshold
    ensures status == Warning <==> WarningScoreThreshold <= score < GoodScoreThreshold
    ensures status == Bad <==> score < WarningScoreThreshold
  {
    if score >= GoodScoreThreshold then Good
    else if score >= WarningScoreThreshold then Warning
    else Bad
  }

  datatype StatusConfig = StatusConfig(gradientClass: string, icon: string, altText: string)

  /** `scoreStatusConfig[status]`. */
  function ScoreStatusConfig(status: ScoreStatus): (config: StatusConfig)
    ensures status == Good <==> config.gradientClass == "from-green-100"
    ensures status == Warning <==> config.gradientClass == "from-yellow-100"
    ensures status == Bad <==> config.gradientClass == "from-red-100"
    ensures config.icon == "/icons/ats-" + StatusName(status) + ".svg"
  {
    match status
    case Good => StatusConfig("from-green-100", "/icons/ats-good.svg", "Good score ATS")
    case Warning => StatusConfig("from-yellow-100", "/icons/ats-warning.svg", "Warning score ATS")
    case Bad => StatusConfig("from-red-100", "/icons/ats-bad.svg", "Bad score ATS")
  }

  function StatusName(status: ScoreStatus): string
  {
    match status
    case Good => "good"
    case Warning => "warning"
    case Bad => "bad"
  }

  /** Different statuses never share a panel configuration. */
  lemma ConfigOneToOne(a: ScoreStatus, b: ScoreStatus)
    ensures ScoreStatusConfig(a) == ScoreStatusConfig(b) <==> a == b
  {
  }

  /** The panel heading `ATS Score - ${score}/100`; the score can be read back from it. */
  function Header(score: int): (text: string)
    ensures |text| > 16 && StartsWith(text, "ATS Score - ")
    ensures var middle := text[12..|text| - 4];
      text[|text| - 4..] == "/100" && IsIntegerText(middle) && ParseInt(middle) == score
  {
    var t := IntToString(score) + "/100";
    IntWithSuffix(score, "/100");
    var text := "ATS Score - " + t;
    assert text[12..|text| - 4] == t[..|t| - 4];
    text
  }

  /** The icon beside a suggestion: the check mark only for a good one. */
  function SuggestionIcon(kind: TipType): (icon: string)
    ensures icon == "/icons/check.svg" <==> kind == GoodTip
    ensures icon == "/icons/warning.svg" <==> kind == ImproveTip
  {
    match kind
    case GoodTip => "/icons/check.svg"
    case ImproveTip => "/icons/warning.svg"
  }
}
