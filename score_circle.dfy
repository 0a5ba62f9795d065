/**
 * The round score indicator on a résumé card (app/components/ScoreCircle.tsx).
 * Its classifier is declared but the component never calls it.
 */
module ScoreCircle {
  import opened Wrappers
  import opened Text

  const GoodScoreThreshold: int := 70
  const AverageScoreThreshold: int := 50

  datatype ScoreStatus = Good | Average | Bad

  function GetScoreStatus(score: int): (status: ScoreStatus)
    ensures status == Good <==> score >= GoodScoreThreshold
    ensures status == Average <==> AverageScoreThreshold <= score < GoodScoreThreshold
    ensures status == Bad <==> score < AverageScoreThreshold
  {
    if score >= GoodScoreThreshold then Good
    else if score >= AverageScoreThreshold then Average
    else Bad
  }

  /** The `score = 0` default parameter: an absent score is shown as 0. */
  function ScoreOrDefault(score: Option<int>): (shown: int)
    ensures score.Some? ==> shown == score.value
    ensures score.None? ==> shown == 0
  {
    match score
    case Some(s) => s
    case None => 0
  }

  /** `Score: ${score} out of 100`; the score can be read back from it. */
  function AriaLabel(score: int): (aria: string)
    ensures |aria| > 18 && StartsWith(aria, "Score: ")
    ensures var suffix := " out of 100";
      var middle := aria[7..|aria| - |suffix|];
      aria[|aria| - |suffix|..] == suffix && IsIntegerText(middle) && ParseInt(middle) == score
  {
    var t := IntToString(score) + " out of 100";
    IntWithSuffix(score, " out of 100");
    var aria := "Score: " + t;
    assert aria[7..|aria| - 11] == t[..|t| - 11];
    aria
  }

  /** The centre text `${score}/100`; the score can be read back from it. */
  function CentreText(score: int): (text: string)
    ensures |text| > 4 && text[|text| - 4..] == "/100"
    ensures IsIntegerText(text[..|text| - 4]) && ParseInt(text[..|text| - 4]) == score
  {
    IntWithSuffix(score, "/100");
    IntToString(score) + "/100"
  }
}
