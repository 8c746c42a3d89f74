/** The detailed card for one condition (src/components/results/RiskCard.tsx);
    the detailed section of src/pages/Results.tsx renders the same card. */
module RiskCard {
  import opened Strings
  import opened RiskLevels

  /** One `<li key={i}>` of the recommendations list. */
  datatype ListItem = ListItem(key: nat, text: string)

  /** What a card shows: the title, the risk label and its colour class (the
      source adds "font-semibold" to it), the description,
      the left border colour and the recommendations list. */
  datatype CardView = CardView(
    title: string,
    labelColor: string,
    riskText: string,
    description: string,
    borderColor: string,
    items: seq<ListItem>)

  /** The CSS variable named by a text colour class:
      `var(--${color.replace('text-', '')})`. For a class starting with
      "text-" it names exactly the colour suffix. */
  function BorderColor(color: string): (border: string)
    ensures StartsWith(color, "text-") ==> border == "var(--" + color[5..] + ")"
  {
    "var(--" + ReplaceFirst(color, "text-", "") + ")"
  }

  /** `RiskCard({name, risk, description, recommendations})`. The label and
      border use the level of `risk`; the border names the colour suffix
      shared with the level's classes; the list keeps every recommendation,
      in order, keyed by its index. */
  function RenderCard(name: string, risk: real, description: string,
                      recommendations: seq<string>, format: real -> string): (card: CardView)
    ensures card.title == name && card.description == description
    ensures card.labelColor == GetRiskLevel(risk).color
    ensures card.riskText == RiskLabel(risk, format)
    ensures card.borderColor == "var(--" + GetRiskLevel(risk).color[5..] + ")"
    ensures |card.items| == |recommendations|
    ensures forall i :: 0 <= i < |card.items| ==>
      card.items[i].key == i && card.items[i].text == recommendations[i]
  {
    var info := GetRiskLevel(risk);
    CardView(name, info.color, RiskLabel(risk, format), description,
             BorderColor(info.color),
             seq(|recommendations|, i requires 0 <= i < |recommendations| => ListItem(i, recommendations[i])))
  }
}
