/** The risk-band classifier `getRiskLevel` and its companion `getRiskIcon`.
    The same if-chain appears verbatim in src/components/results/RiskCard.tsx,
    RiskSummary.tsx, ActionButtons.tsx and src/pages/Results.tsx; it is
    defined once here. */
module RiskLevels {

  /** The object `getRiskLevel` returns: a level name and two CSS classes. */
  datatype RiskInfo = RiskInfo(level: string, color: string, bgColor: string)

  /** The four bands, as an independent reference for the if-chain. */
  datatype Band = Low | Moderate | High | VeryHigh

  /** The half-open interval each band covers. */
  predicate InBand(risk: real, b: Band)
  {
    match b
    case Low => risk < 25.0
    case Moderate => 25.0 <= risk < 50.0
    case High => 50.0 <= risk < 75.0
    case VeryHigh => 75.0 <= risk
  }

  function BandName(b: Band): string
  {
    match b
    case Low => "Low"
    case Moderate => "Moderate"
    case High => "High"
    case VeryHigh => "Very High"
  }

  /** Different bands have different names (their lengths already differ). */
  lemma BandNameInjective()
    ensures forall b1: Band, b2: Band :: BandName(b1) == BandName(b2) ==> b1 == b2
  {
    forall b1: Band, b2: Band | BandName(b1) == BandName(b2)
      ensures b1 == b2
    {
      assert |BandName(b1)| == |BandName(b2)|;
    }
  }

  /** The position of a band in increasing order of risk. */
  function Rank(b: Band): nat
  {
    match b
    case Low => 0
    case Moderate => 1
    case High => 2
    case VeryHigh => 3
  }

  /** A level with its text class `text-<suffix>` and background class
      `bg-<suffix>`. */
  function Styled(level: string, suffix: string): (info: RiskInfo)
    requires |suffix| > 0
    ensures info.level == level
    ensures |info.color| > 5 && info.color[..5] == "text-"
    ensures info.bgColor == "bg-" + info.color[5..]
  {
    assert ("text-" + suffix)[5..] == suffix;
    RiskInfo(level, "text-" + suffix, "bg-" + suffix)
  }

  /** `getRiskLevel`: cut points 25, 50 and 75, each band closed on the left.
      The level names exactly the band the risk lies in, and the text and
      background classes share one colour suffix. */
  function GetRiskLevel(risk: real): (info: RiskInfo)
    ensures forall b: Band :: info.level == BandName(b) <==> InBand(risk, b)
    ensures |info.color| > 5 && info.color[..5] == "text-"
    ensures info.bgColor == "bg-" + info.color[5..]
  {
    BandNameInjective();
    if risk < 25.0 then Styled("Low", "green-600")
    else if risk < 50.0 then Styled("Moderate", "yellow-600")
    else if risk < 75.0 then Styled("High", "orange-600")
    else Styled("Very High", "red-600")
  }

  /** The band a risk value falls in. */
  function BandOf(risk: real): (b: Band)
    ensures InBand(risk, b)
    ensures GetRiskLevel(risk).level == BandName(b)
  {
    if risk < 25.0 then Low
    else if risk < 50.0 then Moderate
    else if risk < 75.0 then High
    else VeryHigh
  }

  /** The bands partition the reals: every risk lies in exactly one. */
  lemma BandsPartition(risk: real, b1: Band, b2: Band)
    requires InBand(risk, b1) && InBand(risk, b2)
    ensures b1 == b2
  {
  }

  /** A larger risk never yields a lower level. */
  lemma LevelMonotone(r1: real, r2: real)
    requires r1 <= r2
    ensures Rank(BandOf(r1)) <= Rank(BandOf(r2))
  {
  }

  /** The cut points belong to the upper band. */
  lemma CutPointsLeftClosed()
    ensures GetRiskLevel(25.0).level == "Moderate"
    ensures GetRiskLevel(50.0).level == "High"
    ensures GetRiskLevel(75.0).level == "Very High"
  {
  }

  const IconSize := "h-5 w-5 "

  datatype IconKind = CheckCircle | Info | AlertTriangle

  /** The icon element `getRiskIcon` returns: which icon, and its classes. */
  datatype Icon = Icon(kind: IconKind, className: string)

  /** `getRiskIcon`: the same cut points as `getRiskLevel`; the icon agrees
      with the level, and carries the level's text colour. */
  function GetRiskIcon(risk: real): (icon: Icon)
    ensures icon.kind == CheckCircle <==> BandOf(risk) == Low
    ensures icon.kind == Info <==> BandOf(risk) == Moderate
    ensures icon.kind == AlertTriangle <==> BandOf(risk) == High || BandOf(risk) == VeryHigh
    ensures icon.className == IconSize + GetRiskLevel(risk).color
  {
    if risk < 25.0 then Icon(CheckCircle, IconSize + "text-green-600")
    else if risk < 50.0 then Icon(Info, IconSize + "text-yellow-600")
    else if risk < 75.0 then Icon(AlertTriangle, IconSize + "text-orange-600")
    else Icon(AlertTriangle, IconSize + "text-red-600")
  }

  /** The text `${level} Risk (${risk}%)` shown beside each condition;
      `format` is JavaScript's number-to-string conversion. */
  function RiskLabel(risk: real, format: real -> string): (text: string)
    ensures |text| == |BandName(BandOf(risk))| + 9 + |format(risk)|
    ensures text[..|BandName(BandOf(risk))|] == BandName(BandOf(risk))
    ensures text[|text| - 2..] == "%)"
  {
    GetRiskLevel(risk).level + " Risk (" + format(risk) + "%)"
  }

  /** Between the level name and "%)" the label holds " Risk (" and the
      risk value as `format` writes it. */
  lemma RiskLabelShowsRisk(risk: real, format: real -> string)
    ensures var text, n := RiskLabel(risk, format), |BandName(BandOf(risk))|;
      text[n..|text| - 2] == " Risk (" + format(risk)
  {
    var level, middle := GetRiskLevel(risk).level, " Risk (" + format(risk);
    assert RiskLabel(risk, format) == level + middle + "%)";
    assert (level + middle + "%)")[|level|..|level| + |middle|] == middle;
  }
}
