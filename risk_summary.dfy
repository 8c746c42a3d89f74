/** The summary card (src/components/results/RiskSummary.tsx): one row per
    result, with a label and a progress bar coloured by the risk level. */
module RiskSummary {
  import opened Health
  import opened Strings
  import opened RiskLevels
  import RiskCard

  datatype Option<T> = None | Some(value: T)

  /** One summary row: its React key, the name, the risk label and its colour
      class (the source adds "font-semibold" to it), and the
      progress bar's value and indicator colour (None for `undefined`). */
  datatype SummaryRow = SummaryRow(
    key: string,
    name: string,
    labelColor: string,
    riskText: string,
    progress: real,
    indicatorColor: Option<string>)

  /** `bgColor.startsWith('bg-') ? var(--${bgColor.replace('bg-', '')}) : undefined`:
      defined exactly for "bg-" classes, and then naming the colour suffix. */
  function IndicatorColor(bgColor: string): (indicator: Option<string>)
    ensures indicator.Some? <==> StartsWith(bgColor, "bg-")
    ensures indicator.Some? ==> indicator.value == "var(--" + bgColor[3..] + ")"
  {
    if StartsWith(bgColor, "bg-") then Some("var(--" + ReplaceFirst(bgColor, "bg-", "") + ")")
    else None
  }

  /** The indicator colour is never undefined: every level's background class
      starts with "bg-", and the colour it names is the one the detailed card
      uses for its border. */
  lemma IndicatorAlwaysSet(risk: real)
    ensures IndicatorColor(GetRiskLevel(risk).bgColor)
         == Some("var(--" + GetRiskLevel(risk).color[5..] + ")")
    ensures IndicatorColor(GetRiskLevel(risk).bgColor)
         == Some(RiskCard.BorderColor(GetRiskLevel(risk).color))
  {
    var info := GetRiskLevel(risk);
    assert info.bgColor[..3] == "bg-";
    RemovePrefix("bg-", info.color[5..]);
  }

  /** The `results.map` callback for one result: keyed and titled by its
      name, labelled with its level's text colour and label text, showing its
      risk as progress, with a defined indicator colour. */
  function Row(d: DiseaseRisk, format: real -> string): (row: SummaryRow)
    ensures row.key == d.name && row.name == d.name
    ensures row.labelColor == GetRiskLevel(d.risk).color
    ensures row.riskText == RiskLabel(d.risk, format)
    ensures row.progress == d.risk
    ensures row.indicatorColor == Some("var(--" + GetRiskLevel(d.risk).color[5..] + ")")
  {
    IndicatorAlwaysSet(d.risk);
    var info := GetRiskLevel(d.risk);
    SummaryRow(d.name, d.name, info.color, RiskLabel(d.risk, format), d.risk, IndicatorColor(info.bgColor))
  }

  /** `results.map(...)`: exactly one row per result, in input order, each
      showing that result's name, level and risk, with a defined indicator. */
  function SummaryRows(results: seq<DiseaseRisk>, format: real -> string): (rows: seq<SummaryRow>)
    ensures |rows| == |results|
    ensures forall i :: 0 <= i < |rows| ==>
      rows[i].key == results[i].name && rows[i].name == results[i].name &&
      rows[i].labelColor == GetRiskLevel(results[i].risk).color &&
      rows[i].riskText == RiskLabel(results[i].risk, format) &&
      rows[i].progress == results[i].risk &&
      rows[i].indicatorColor == Some("var(--" + GetRiskLevel(results[i].risk).color[5..] + ")")
  {
    if results == [] then []
    else
      [Row(results[0], format)] + SummaryRows(results[1..], format)
  }
}
