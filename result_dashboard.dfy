/**
 * The display helpers of frontend/src/components/ResultDashboard.tsx: the colour
 * classes chosen from the risk level, from the confidence label, and from the
 * numeric risk score for the two stops of the gauge's gradient.
 */
module ResultDashboard {
  import BackendMain

  const HighRisk := "High Risk"
  const ModerateRisk := "Moderate Risk"

  const RedGradient := "from-red-500 to-red-700"
  const AmberGradient := "from-yellow-500 to-orange-600"
  const GreenGradient := "from-green-500 to-green-700"

  const RedBadge := "bg-red-500/20 text-red-300 border-red-500/50"
  const AmberBadge := "bg-yellow-500/20 text-yellow-300 border-yellow-500/50"
  const GreenBadge := "bg-green-500/20 text-green-300 border-green-500/50"

  /**
   * `getRiskColor`: a gradient chosen from the level. Red exactly for "High Risk",
   * yellow to orange exactly for "Moderate Risk", green for every other string.
   * The component defines it but never calls it.
   */
  function RiskColor(level: string): (c: string)
    ensures c == RedGradient <==> level == HighRisk
    ensures c == AmberGradient <==> level == ModerateRisk
    ensures c == GreenGradient <==> level != HighRisk && level != ModerateRisk
  {
    if level == HighRisk then RedGradient
    else if level == ModerateRisk then AmberGradient
    else GreenGradient
  }

  /**
   * `getRiskBadgeColor`: the classes of the level badge under the gauge, the one
   * level-dependent colour the component renders.
   */
  function RiskBadgeColor(level: string): (c: string)
    ensures c == RedBadge <==> level == HighRisk
    ensures c == AmberBadge <==> level == ModerateRisk
    ensures c == GreenBadge <==> level != HighRisk && level != ModerateRisk
  {
    if level == HighRisk then RedBadge
    else if level == ModerateRisk then AmberBadge
    else GreenBadge
  }

  /**
   * `getConfidenceColor`: green exactly for "High", yellow exactly for "Medium",
   * orange for every other label.
   */
  function ConfidenceColor(confidenceLabel: string): (c: string)
    ensures c == "text-green-400" <==> confidenceLabel == "High"
    ensures c == "text-yellow-400" <==> confidenceLabel == "Medium"
    ensures c == "text-orange-400" <==> confidenceLabel != "High" && confidenceLabel != "Medium"
  {
    if confidenceLabel == "High" then "text-green-400"
    else if confidenceLabel == "Medium" then "text-yellow-400"
    else "text-orange-400"
  }

  /** The three colour bands of the gauge. */
  datatype Band = Red | Amber | Green

  /** The band of a risk score: red from 65 up, amber from 40 up to 64, green below 40. */
  function ScoreBand(score: int): (b: Band)
    ensures b == Red <==> score >= 65
    ensures b == Amber <==> 40 <= score < 65
    ensures b == Green <==> score < 40
  {
    if score >= 65 then Red else if score >= 40 then Amber else Green
  }

  /** The class of the gradient's first stop (offset 0%). */
  function GaugeStartClass(score: int): (c: string)
    ensures c == "text-red-500" <==> ScoreBand(score) == Red
    ensures c == "text-yellow-500" <==> ScoreBand(score) == Amber
    ensures c == "text-green-500" <==> ScoreBand(score) == Green
  {
    if score >= 65 then "text-red-500" else if score >= 40 then "text-yellow-500" else "text-green-500"
  }

  /** The class of the gradient's last stop (offset 100%). */
  function GaugeEndClass(score: int): (c: string)
    ensures c == "text-red-700" <==> ScoreBand(score) == Red
    ensures c == "text-orange-600" <==> ScoreBand(score) == Amber
    ensures c == "text-green-700" <==> ScoreBand(score) == Green
  {
    if score >= 65 then "text-red-700" else if score >= 40 then "text-orange-600" else "text-green-700"
  }

  /** The badge tells two levels apart exactly when the (uncalled) gradient helper does. */
  lemma BadgeSplitsLikeGradient(a: string, b: string)
    ensures RiskBadgeColor(a) == RiskBadgeColor(b) <==> RiskColor(a) == RiskColor(b)
  {
  }

  /** "Low" is not special: it gets the same orange as any unrecognised label. */
  lemma LowConfidenceIsOrange(other: string)
    requires other != "High" && other != "Medium"
    ensures ConfidenceColor("Low") == "text-orange-400"
    ensures ConfidenceColor(other) == ConfidenceColor("Low")
  {
  }

  /**
   * Both stops of the gradient always come from the same band, so the gauge never
   * mixes two bands: knowing one stop determines the other.
   */
  lemma GaugeStopsAgree(s: int, t: int)
    ensures GaugeStartClass(s) == GaugeStartClass(t) <==> GaugeEndClass(s) == GaugeEndClass(t)
    ensures GaugeStartClass(s) == GaugeStartClass(t) <==> ScoreBand(s) == ScoreBand(t)
  {
  }

  /** The lower bounds 65 and 40 belong to the higher band. */
  lemma GaugeBoundaries()
    ensures ScoreBand(65) == Red && ScoreBand(64) == Amber
    ensures ScoreBand(40) == Amber && ScoreBand(39) == Green
  {
  }

  /** The bands are ordered: a higher score never falls in a lower band. */
  lemma ScoreBandMonotone(s: int, t: int)
    requires s <= t
    ensures ScoreBand(s) == Red ==> ScoreBand(t) == Red
    ensures ScoreBand(t) == Green ==> ScoreBand(s) == Green
  {
  }

  /**
   * The level badge and the recommendations the server sent for the same level
   * agree: the badge is red exactly when they open with the high-risk block, yellow
   * exactly when they open with the moderate-risk block, green otherwise.
   */
  lemma BadgeMatchesRecommendations(level: string, reasons: seq<string>)
    ensures var r := BackendMain.Recommendations(level, reasons);
      (RiskBadgeColor(level) == RedBadge <==> BackendMain.HighRiskBlock <= r) &&
      (RiskBadgeColor(level) == AmberBadge <==> BackendMain.ModerateRiskBlock <= r) &&
      (RiskBadgeColor(level) == GreenBadge <==> BackendMain.SafeBlock <= r)
  {
    BackendMain.RecommendationCount(level, reasons);
    var r := BackendMain.Recommendations(level, reasons);
    if level == HighRisk {
      BackendMain.HighRiskOpensWithItsBlock(reasons);
      assert r[0] != BackendMain.ModerateRiskBlock[0];
      assert r[0] != BackendMain.SafeBlock[0];
    } else if level == ModerateRisk {
      BackendMain.ModerateRiskOpensWithItsBlock(reasons);
      assert r[0] != BackendMain.HighRiskBlock[0];
      assert r[0] != BackendMain.SafeBlock[0];
    } else {
      BackendMain.OtherLevelsOpenWithSafeBlock(level, reasons);
      assert r[0] != BackendMain.HighRiskBlock[0];
      assert r[0] != BackendMain.ModerateRiskBlock[0];
    }
  }
}
