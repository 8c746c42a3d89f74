/** The results page (src/pages/Results.tsx). It carries its own copies of
    `calculateRisk`, `getRiskLevel` and `getRiskIcon`, identical to the ones
    modelled in RiskCalculation and RiskLevels, and of `generateMockResults`,
    which builds the same list but stores it in component state with
    `setResults` instead of returning it. */
module ResultsPage {
  import opened Health
  import RiskCalculation

  class Results {
    /** The `results` state variable. */
    var results: seq<DiseaseRisk>

    /** `useState<DiseaseRisk[]>([])`. */
    constructor ()
      ensures results == []
    {
      results := [];
    }

    /** The page's `generateMockResults(data)`: scores the three conditions
        and stores them with `setResults`. */
    method GenerateMockResults(data: ScreeningData, rD: real, rH: real, rO: real)
      requires 0.0 <= rD < 1.0 && 0.0 <= rH < 1.0 && 0.0 <= rO < 1.0
      modifies this
      ensures results == RiskCalculation.MockResults(data, rD, rH, rO)
      ensures |results| == 3
      ensures forall i :: 0 <= i < |results| ==> 5.0 <= results[i].risk <= 95.0
    {
      var generated := RiskCalculation.GenerateMockResults(data, rD, rH, rO);
      results := generated;
    }
  }
}
