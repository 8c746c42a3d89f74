/** The result actions (src/components/results/ActionButtons.tsx): print,
    download a plain-text report, share, detailed report. Every action is
    guarded by the login check; the download serialises the results. The
    browser side effects are returned, in order, as a list of `Effect`s. */
module ActionButtons {
  import opened Health
  import opened Strings
  import opened RiskLevels

  const Header := "ChronoDetect Health Assessment\n\n"
  const BlockSeparator := "---\n\n"
  const RecommendationSeparator := "\n"
  const ReportFileName := "ChronoDetect-Health-Report.txt"

  const RecommendationsTitle := "\n\nRecommendations:\n"

  /** Everything of a condition's block up to its first recommendation: it
      opens with the condition's name (`BlockHeadLayout` gives the rest). */
  function BlockHead(d: DiseaseRisk, format: real -> string): (head: string)
    ensures |d.name| < |head| && head[..|d.name|] == d.name
  {
    d.name + ": " + RiskLabel(d.risk, format) + "\n" + d.description + RecommendationsTitle
  }

  /** The block for one condition: the head, the recommendations one per
      line, and a blank line. */
  function Block(d: DiseaseRisk, format: real -> string): (block: string)
    ensures |block| == |BlockHead(d, format)| + |Join(d.recommendations, RecommendationSeparator)| + 2
    ensures block[..|BlockHead(d, format)|] == BlockHead(d, format)
  {
    BlockHead(d, format) + Join(d.recommendations, RecommendationSeparator) + "\n\n"
  }

  /** The head of a block, field by field: the name, ": ", the risk label
      (level, risk value and "%)"), a newline, the description, then a blank
      line and the "Recommendations:" title line. */
  lemma BlockHeadLayout(d: DiseaseRisk, format: real -> string)
    ensures var head, n, l := BlockHead(d, format), |d.name|, |RiskLabel(d.risk, format)|;
      |head| == n + 3 + l + |d.description| + |RecommendationsTitle| &&
      head[n..n + 2] == ": " &&
      head[n + 2..n + 2 + l] == RiskLabel(d.risk, format) &&
      head[n + 2 + l] == '\n' &&
      head[n + 3 + l..n + 3 + l + |d.description|] == d.description &&
      head[n + 3 + l + |d.description|..] == RecommendationsTitle
  {
  }

  /** After the head a block holds exactly the recommendations joined by
      newlines, and then "\n\n". */
  lemma BlockLayout(d: DiseaseRisk, format: real -> string)
    ensures var block, h := Block(d, format), |BlockHead(d, format)|;
      block[h..|block| - 2] == Join(d.recommendations, RecommendationSeparator) &&
      block[|block| - 2..] == "\n\n"
  {
  }

  /** `results.map(...)`: one block per result, in order. */
  function Blocks(results: seq<DiseaseRisk>, format: real -> string): (blocks: seq<string>)
    ensures |blocks| == |results|
    ensures forall i :: 0 <= i < |results| ==> blocks[i] == Block(results[i], format)
  {
    if results == [] then [] else [Block(results[0], format)] + Blocks(results[1..], format)
  }

  /** The text of the downloaded file; it opens with the header. */
  function Report(results: seq<DiseaseRisk>, format: real -> string): (report: string)
    ensures |Header| <= |report| && report[..|Header|] == Header
  {
    Header + Join(Blocks(results, format), BlockSeparator)
  }

  /** Where block `i` starts inside the report. */
  function BlockStart(results: seq<DiseaseRisk>, format: real -> string, i: nat): nat
    requires i <= |results|
  {
    |Header| + Offset(Blocks(results, format), BlockSeparator, i)
  }

  /** Block `i` of the report is the block of `results[i]` and starts at
      `BlockStart(i)`: the blocks keep the order of the results. */
  lemma ReportBlockAt(results: seq<DiseaseRisk>, format: real -> string, i: nat)
    requires i < |results|
    ensures BlockStart(results, format, i) + |Block(results[i], format)| <= |Report(results, format)|
    ensures Report(results, format)[BlockStart(results, format, i)..
                                    BlockStart(results, format, i) + |Block(results[i], format)|]
         == Block(results[i], format)
  {
    var blocks := Blocks(results, format);
    var report, start := Report(results, format), BlockStart(results, format, i);
    assert report == Header + Join(blocks, BlockSeparator);
    PrefixedJoinAt(report, Header, blocks, BlockSeparator, i, start);
  }

  /** "---\n\n" separates each block from the next. */
  lemma ReportSeparatorAfter(results: seq<DiseaseRisk>, format: real -> string, i: nat)
    requires i + 1 < |results|
    ensures var end := BlockStart(results, format, i) + |Block(results[i], format)|;
      end + |BlockSeparator| <= |Report(results, format)| &&
      Report(results, format)[end..end + |BlockSeparator|] == BlockSeparator
  {
    var blocks := Blocks(results, format);
    var end := BlockStart(results, format, i) + |Block(results[i], format)|;
    assert Report(results, format) == Header + Join(blocks, BlockSeparator);
    assert end == |Header| + Offset(blocks, BlockSeparator, i) + |blocks[i]|;
    PrefixedSeparatorAfter(Report(results, format), Header, blocks, BlockSeparator, i, end);
  }

  /** The last block ends the report: nothing follows it. */
  lemma ReportEnds(results: seq<DiseaseRisk>, format: real -> string)
    requires |results| > 0
    ensures BlockStart(results, format, |results| - 1) + |Block(results[|results| - 1], format)|
         == |Report(results, format)|
  {
    var blocks := Blocks(results, format);
    assert Report(results, format) == Header + Join(blocks, BlockSeparator);
    JoinLength(blocks, BlockSeparator);
  }

  /** With no results the report is the header alone. */
  lemma EmptyReport(format: real -> string)
    ensures Report([], format) == Header
  {
  }

  /** Inside a block, recommendation `j` appears on its own line, after the
      head and the recommendations before it, in input order. */
  lemma BlockRecommendation(d: DiseaseRisk, format: real -> string, j: nat)
    requires j < |d.recommendations|
    ensures var start := |BlockHead(d, format)| + Offset(d.recommendations, RecommendationSeparator, j);
      start + |d.recommendations[j]| <= |Block(d, format)| &&
      Block(d, format)[start..start + |d.recommendations[j]|] == d.recommendations[j]
  {
    var recs := Join(d.recommendations, RecommendationSeparator);
    JoinAt(d.recommendations, RecommendationSeparator, j);
    var o := Offset(d.recommendations, RecommendationSeparator, j);
    assert Block(d, format) == BlockHead(d, format) + (recs + "\n\n");
    SliceRight(BlockHead(d, format), recs + "\n\n", o, o + |d.recommendations[j]|);
  }

  datatype Action = Print | Download | Share | DetailedReport

  /** What a handler does outside the component. */
  datatype Effect =
    | ErrorToast(message: string)
    | SuccessToast(message: string)
    | OpenPrintDialog
    | SaveFile(fileName: string, content: string)

  /** The error shown when a logged-out user triggers `a`. */
  function LoginPrompt(a: Action): (prompt: string)
    ensures |prompt| > 16 && prompt[..16] == "Please login to "
  {
    match a
    case Print => "Please login to print your results"
    case Download => "Please login to download your results"
    case Share => "Please login to share your results"
    case DetailedReport => "Please login to view detailed reports"
  }

  /** The handler for `a`; `loggedIn` is whether a "user" entry is stored.
      Without it every action only raises its login prompt; with it no action
      raises an error, the file is saved only by Download and holds the
      report, and the print dialog is opened only by Print. */
  function Handle(a: Action, loggedIn: bool, results: seq<DiseaseRisk>, format: real -> string)
    : (effects: seq<Effect>)
    ensures !loggedIn ==> effects == [ErrorToast(LoginPrompt(a))]
    ensures loggedIn ==> forall e :: e in effects ==> !e.ErrorToast?
    ensures !(loggedIn && a == Download) ==> forall e :: e in effects ==> !e.SaveFile?
    ensures OpenPrintDialog in effects <==> loggedIn && a == Print
    ensures loggedIn && a == Download ==>
      |effects| > 0 && effects[0] == SaveFile(ReportFileName, Report(results, format))
  {
    if !loggedIn then [ErrorToast(LoginPrompt(a))]
    else match a
      case Print => [OpenPrintDialog, SuccessToast("Printing report...")]
      case Download =>
        [SaveFile(ReportFileName, Report(results, format)), SuccessToast("Report downloaded successfully")]
      case Share => [SuccessToast("Sharing options would appear here in a production app")]
      case DetailedReport => [SuccessToast("Detailed report would be generated in a production app")]
  }
}
