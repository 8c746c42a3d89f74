/** The mock risk-scoring engine (src/utils/riskCalculation.ts).

    Every factor is scored on a linear ramp between half its threshold
    (score 0) and its threshold (score 1), weighted, and summed; the sum is
    turned into a percentage, rounded, shifted by a jitter of up to five points
    either way and clamped to [5, 95]. The jitter draw `Math.random()` is the
    parameter `r`, with 0 <= r < 1. */
module RiskCalculation {
  import opened Health

  datatype RiskFactor = RiskFactor(value: real, threshold: real, weight: real)

  /** Every threshold is positive, so each division is defined. */
  predicate WellFormed(factors: seq<RiskFactor>)
  {
    forall i :: 0 <= i < |factors| ==> factors[i].threshold > 0.0
  }

  predicate NonNegativeWeights(factors: seq<RiskFactor>)
  {
    forall i :: 0 <= i < |factors| ==> factors[i].weight >= 0.0
  }

  /** `Math.min` on two numbers: one of them, and no larger than either. */
  function Min(a: real, b: real): (m: real)
    ensures m <= a && m <= b
    ensures m == a || m == b
  {
    if a <= b then a else b
  }

  /** `Math.max` on two numbers: one of them, and no smaller than either. */
  function Max(a: real, b: real): (m: real)
    ensures a <= m && b <= m
    ensures m == a || m == b
  {
    if a >= b then a else b
  }

  /** `Math.round`: the nearest integer, halves rounded towards +infinity. */
  function Round(x: real): (n: int)
    ensures n as real - 0.5 <= x < n as real + 0.5
  {
    (x + 0.5).Floor
  }

  /** The normalised sub-score of one factor, before weighting. */
  function SubScore(value: real, threshold: real): (s: real)
    requires threshold > 0.0
    ensures 0.0 <= s <= 1.0
    ensures value <= threshold / 2.0 ==> s == 0.0
    ensures value >= threshold ==> s == 1.0
  {
    RatioBounds(value, threshold);
    Min(Max(value / threshold - 0.5, 0.0) * 2.0, 1.0)
  }

  /** Where `value / threshold` lies relative to 1/2 and 1. */
  lemma RatioBounds(value: real, threshold: real)
    requires threshold > 0.0
    ensures value <= threshold / 2.0 ==> value / threshold <= 0.5
    ensures value >= threshold ==> value / threshold >= 1.0
  {
    var q := value / threshold;
    QuotientTimesDivisor(value, threshold);
    if q > 0.5 {
      ScaleStrict(0.5, q, threshold);
    }
    if q < 1.0 {
      ScaleStrict(q, 1.0, threshold);
    }
  }

  lemma QuotientTimesDivisor(value: real, threshold: real)
    requires threshold > 0.0
    ensures (value / threshold) * threshold == value
  {
  }

  lemma ScaleStrict(a: real, b: real, c: real)
    requires a < b && c > 0.0
    ensures a * c < b * c
  {
  }

  /** What one factor adds to the accumulator. */
  function Contribution(f: RiskFactor): (c: real)
    requires f.threshold > 0.0
    ensures f.weight >= 0.0 ==> 0.0 <= c <= f.weight
    ensures f.value <= f.threshold / 2.0 ==> c == 0.0
    ensures f.value >= f.threshold ==> c == f.weight
  {
    SubScore(f.value, f.threshold) * f.weight
  }

  /** The accumulated weighted sub-scores of a factor list. With
      non-negative weights it lies between 0 and the total weight. */
  function Sum(factors: seq<RiskFactor>): (s: real)
    requires WellFormed(factors)
    ensures NonNegativeWeights(factors) ==> 0.0 <= s <= TotalWeight(factors)
  {
    if factors == [] then 0.0 else Contribution(factors[0]) + Sum(factors[1..])
  }

  function TotalWeight(factors: seq<RiskFactor>): real
  {
    if factors == [] then 0.0 else factors[0].weight + TotalWeight(factors[1..])
  }

  /** The last step of `calculateRisk`: round the percentage first, then add
      the jitter `10r - 5`, then clamp to [5, 95]. The result is a real, not
      necessarily a whole percentage. */
  function Finish(base: int, r: real): (risk: real)
    requires 0.0 <= r < 1.0
    ensures 5.0 <= risk <= 95.0
    ensures 10 <= base <= 90 ==> base as real - 5.0 <= risk < base as real + 5.0
    ensures base >= 100 ==> risk == 95.0
    ensures base <= 0 ==> risk == 5.0
  {
    Min(Max(base as real + r * 10.0 - 5.0, 5.0), 95.0)
  }

  /** The value `calculateRisk(factors)` returns when `Math.random()` yields `r`. */
  function Risk(factors: seq<RiskFactor>, r: real): (risk: real)
    requires WellFormed(factors)
    requires 0.0 <= r < 1.0
    ensures 5.0 <= risk <= 95.0
    ensures Sum(factors) >= 1.0 ==> risk == 95.0
    ensures Sum(factors) <= 0.0 ==> risk == 5.0
  {
    Finish(Round(Sum(factors) * 100.0), r)
  }

  /** `calculateRisk`: accumulate the weighted sub-scores in list order, then
      finish. */
  method CalculateRisk(factors: seq<RiskFactor>, r: real) returns (risk: real)
    requires WellFormed(factors)
    requires 0.0 <= r < 1.0
    ensures risk == Risk(factors, r)
    ensures 5.0 <= risk <= 95.0
  {
    var riskScore := 0.0;
    var i := 0;
    while i < |factors|
      invariant 0 <= i <= |factors|
      invariant riskScore == Sum(factors[..i])
    {
      SumAppend(factors[..i], factors[i]);
      assert factors[..i + 1] == factors[..i] + [factors[i]];
      riskScore := riskScore + Contribution(factors[i]);
      i := i + 1;
    }
    assert factors[..i] == factors;
    risk := Finish(Round(riskScore * 100.0), r);
  }

  /** Adding a factor at the end adds its contribution: the left-to-right
      accumulator and the recursive `Sum` agree. */
  lemma {:induction false} SumAppend(factors: seq<RiskFactor>, f: RiskFactor)
    requires WellFormed(factors) && f.threshold > 0.0
    ensures WellFormed(factors + [f])
    ensures Sum(factors + [f]) == Sum(factors) + Contribution(f)
  {
    if factors == [] {
      assert [] + [f] == [f];
    } else {
      assert (factors + [f])[1..] == factors[1..] + [f];
      SumAppend(factors[1..], f);
    }
  }

  /** The sum over two lists laid end to end is the sum of their sums. */
  lemma {:induction false} SumConcat(a: seq<RiskFactor>, b: seq<RiskFactor>)
    requires WellFormed(a) && WellFormed(b)
    ensures WellFormed(a + b)
    ensures Sum(a + b) == Sum(a) + Sum(b)
  {
    if a == [] {
      assert a + b == b;
    } else {
      assert (a + b)[1..] == a[1..] + b;
      SumConcat(a[1..], b);
    }
  }

  /** When the first `k` factors are saturated and the rest contribute
      nothing, the sum is the total weight of the first `k`. */
  lemma SumSaturatedThenZero(factors: seq<RiskFactor>, k: nat)
    requires WellFormed(factors) && k <= |factors|
    requires forall i :: 0 <= i < k ==> factors[i].value >= factors[i].threshold
    requires forall i :: k <= i < |factors| ==> factors[i].value <= factors[i].threshold / 2.0
    ensures Sum(factors) == TotalWeight(factors[..k])
  {
    assert factors == factors[..k] + factors[k..];
    SumConcat(factors[..k], factors[k..]);
    SumSaturated(factors[..k]);
    SumZero(factors[k..]);
  }

  /** A larger value never lowers the sub-score. */
  lemma SubScoreMonotone(v1: real, v2: real, threshold: real)
    requires threshold > 0.0 && v1 <= v2
    ensures SubScore(v1, threshold) <= SubScore(v2, threshold)
  {
    assert v1 / threshold <= v2 / threshold by {
      assert v2 / threshold - v1 / threshold == (v2 - v1) / threshold;
    }
  }

  /** When every factor is at or above its threshold, the sum is the total
      weight. */
  lemma {:induction false} SumSaturated(factors: seq<RiskFactor>)
    requires WellFormed(factors)
    requires forall i :: 0 <= i < |factors| ==> factors[i].value >= factors[i].threshold
    ensures Sum(factors) == TotalWeight(factors)
  {
    if factors != [] {
      SumSaturated(factors[1..]);
    }
  }

  /** When every factor is at or below half its threshold, the sum is 0. */
  lemma {:induction false} SumZero(factors: seq<RiskFactor>)
    requires WellFormed(factors)
    requires forall i :: 0 <= i < |factors| ==> factors[i].value <= factors[i].threshold / 2.0
    ensures Sum(factors) == 0.0
  {
    if factors != [] {
      SumZero(factors[1..]);
    }
  }

  /** A yes/no answer encoded as 1 or 0 against threshold 0.5: it contributes
      exactly its weight or exactly nothing. */
  function FlagFactor(b: bool, weight: real): (f: RiskFactor)
    ensures f.threshold == 0.5 && f.weight == weight
    ensures b ==> f.value >= f.threshold
    ensures !b ==> f.value <= f.threshold / 2.0
  {
    RiskFactor(if b then 1.0 else 0.0, 0.5, weight)
  }

  lemma FlagContribution(b: bool, weight: real)
    ensures Contribution(FlagFactor(b, weight)) == if b then weight else 0.0
  {
  }

  /** The diabetes factor table. */
  function DiabetesFactors(d: ScreeningData): (fs: seq<RiskFactor>)
    ensures |fs| == 6 && WellFormed(fs) && NonNegativeWeights(fs)
  {
    [ RiskFactor(d.glucose, 120.0, 0.35),
      RiskFactor(d.insulin, 100.0, 0.15),
      RiskFactor(d.bmi, 30.0, 0.2),
      RiskFactor(d.age, 50.0, 0.1),
      RiskFactor(d.diabetesPedigree, 1.0, 0.2),
      FlagFactor(d.familyHistory, 0.2) ]
  }

  /** The heart-disease factor table. */
  function HeartFactors(d: ScreeningData): (fs: seq<RiskFactor>)
    ensures |fs| == 5 && WellFormed(fs) && NonNegativeWeights(fs)
  {
    [ RiskFactor(d.bloodPressure, 140.0, 0.3),
      RiskFactor(d.bmi, 30.0, 0.15),
      RiskFactor(d.age, 55.0, 0.2),
      FlagFactor(d.smoker, 0.25),
      FlagFactor(d.familyHistory, 0.1) ]
  }

  /** The obesity factor table; note the inverted smoker flag and the
      exact comparison with "female". */
  function ObesityFactors(d: ScreeningData): (fs: seq<RiskFactor>)
    ensures |fs| == 5 && WellFormed(fs) && NonNegativeWeights(fs)
  {
    [ RiskFactor(d.bmi, 30.0, 0.6),
      RiskFactor(d.skinThickness, 35.0, 0.2),
      RiskFactor(d.age, 40.0, 0.05),
      FlagFactor(!d.smoker, 0.05),
      FlagFactor(d.gender == "female", 0.1) ]
  }

  /** The yes/no factors contribute their full weight or nothing: family
      history to diabetes. */
  lemma DiabetesFlags(d: ScreeningData)
    ensures Contribution(DiabetesFactors(d)[5]) == if d.familyHistory then 0.2 else 0.0
  {
    var f := DiabetesFactors(d)[5];
    assert f == FlagFactor(d.familyHistory, 0.2);
    FlagContribution(d.familyHistory, 0.2);
  }

  /** Smoking and family history each add their full weight to heart disease,
      or nothing. */
  lemma HeartFlags(d: ScreeningData)
    ensures Contribution(HeartFactors(d)[3]) == if d.smoker then 0.25 else 0.0
    ensures Contribution(HeartFactors(d)[4]) == if d.familyHistory then 0.1 else 0.0
  {
    var fs := HeartFactors(d);
    assert fs[3] == FlagFactor(d.smoker, 0.25);
    assert fs[4] == FlagFactor(d.familyHistory, 0.1);
    FlagContribution(d.smoker, 0.25);
    FlagContribution(d.familyHistory, 0.1);
  }

  /** For obesity the smoker flag is inverted: NOT smoking adds 0.05; being
      exactly "female" adds 0.1. */
  lemma ObesityFlags(d: ScreeningData)
    ensures Contribution(ObesityFactors(d)[3]) == if d.smoker then 0.0 else 0.05
    ensures Contribution(ObesityFactors(d)[4]) == if d.gender == "female" then 0.1 else 0.0
  {
    var fs := ObesityFactors(d);
    assert fs[3] == FlagFactor(!d.smoker, 0.05);
    assert fs[4] == FlagFactor(d.gender == "female", 0.1);
    FlagContribution(!d.smoker, 0.05);
    FlagContribution(d.gender == "female", 0.1);
  }

  /** The diabetes weights total 1.20. */
  lemma DiabetesWeights(d: ScreeningData)
    ensures TotalWeight(DiabetesFactors(d)) == 1.2
  {
    var fs := DiabetesFactors(d);
    assert TotalWeight(fs[5..]) == 0.2;
    assert TotalWeight(fs[4..]) == 0.4;
    assert TotalWeight(fs[3..]) == 0.5;
    assert TotalWeight(fs[2..]) == 0.7;
    assert TotalWeight(fs[1..]) == 0.85;
  }

  /** The heart-disease weights total 1.00. */
  lemma HeartWeights(d: ScreeningData)
    ensures TotalWeight(HeartFactors(d)) == 1.0
  {
    var fs := HeartFactors(d);
    assert TotalWeight(fs[4..]) == 0.1;
    assert TotalWeight(fs[3..]) == 0.35;
    assert TotalWeight(fs[2..]) == 0.55;
    assert TotalWeight(fs[1..]) == 0.7;
  }

  /** The obesity weights total 1.00. */
  lemma ObesityWeights(d: ScreeningData)
    ensures TotalWeight(ObesityFactors(d)) == 1.0
  {
    var fs := ObesityFactors(d);
    assert TotalWeight(fs[4..]) == 0.1;
    assert TotalWeight(fs[3..]) == 0.15;
    assert TotalWeight(fs[2..]) == 0.2;
    assert TotalWeight(fs[1..]) == 0.4;
  }

  const DiabetesName := "Type 2 Diabetes"
  const HeartName := "Heart Disease"
  const ObesityName := "Obesity"

  const DiabetesDescription := "Type 2 diabetes affects how your body uses sugar (glucose) for energy and can cause serious health complications if left untreated."
  const HeartDescription := "Heart disease includes conditions affecting the heart's rhythm, muscle, and blood vessels, which can lead to heart attacks and stroke."
  const ObesityDescription := "Obesity is a complex disease involving an excessive amount of body fat that increases the risk of other health problems."

  const DiabetesRecommendations := [
    "Monitor blood glucose levels regularly",
    "Reduce intake of refined carbohydrates and sugars",
    "Engage in regular physical activity",
    "Maintain a healthy weight through balanced nutrition",
    "Consider consulting with an endocrinologist for personalized advice"]
  const HeartRecommendations := [
    "Maintain blood pressure within healthy ranges",
    "Quit smoking and avoid second-hand smoke",
    "Reduce saturated fat intake and increase omega-3 fatty acids",
    "Engage in cardiovascular exercise regularly",
    "Consider consulting with a cardiologist for further evaluation"]
  const ObesityRecommendations := [
    "Focus on portion control and balanced nutrition",
    "Gradually increase physical activity levels",
    "Set realistic weight management goals",
    "Consider working with a nutritionist or dietitian",
    "Develop sustainable lifestyle changes rather than short-term diets"]

  /** What `generateMockResults(d)` returns when the three `Math.random()`
      draws (diabetes, heart, obesity, in call order) are `rD`, `rH`, `rO`. */
  function MockResults(d: ScreeningData, rD: real, rH: real, rO: real): (results: seq<DiseaseRisk>)
    requires 0.0 <= rD < 1.0 && 0.0 <= rH < 1.0 && 0.0 <= rO < 1.0
    ensures |results| == 3
    ensures results[0].name == "Type 2 Diabetes"
    ensures results[1].name == "Heart Disease"
    ensures results[2].name == "Obesity"
    ensures forall i :: 0 <= i < 3 ==>
      |results[i].recommendations| == 5 && 5.0 <= results[i].risk <= 95.0
  {
    [ DiseaseRisk(DiabetesName, Risk(DiabetesFactors(d), rD), DiabetesDescription, DiabetesRecommendations),
      DiseaseRisk(HeartName, Risk(HeartFactors(d), rH), HeartDescription, HeartRecommendations),
      DiseaseRisk(ObesityName, Risk(ObesityFactors(d), rO), ObesityDescription, ObesityRecommendations) ]
  }

  /** `generateMockResults`: three calls of `calculateRisk`, then the fixed
      list of results. */
  method GenerateMockResults(d: ScreeningData, rD: real, rH: real, rO: real)
    returns (results: seq<DiseaseRisk>)
    requires 0.0 <= rD < 1.0 && 0.0 <= rH < 1.0 && 0.0 <= rO < 1.0
    ensures results == MockResults(d, rD, rH, rO)
  {
    var diabetesRisk := CalculateRisk(DiabetesFactors(d), rD);
    var heartRisk := CalculateRisk(HeartFactors(d), rH);
    var obesityRisk := CalculateRisk(ObesityFactors(d), rO);
    results := [
      DiseaseRisk(DiabetesName, diabetesRisk, DiabetesDescription, DiabetesRecommendations),
      DiseaseRisk(HeartName, heartRisk, HeartDescription, HeartRecommendations),
      DiseaseRisk(ObesityName, obesityRisk, ObesityDescription, ObesityRecommendations) ];
  }

  /** Every diabetes factor at or above its threshold: the weights total 1.20,
      the base is 120 and the score is pinned at 95 whatever the jitter. */
  lemma DiabetesSaturated(d: ScreeningData, rD: real, rH: real, rO: real)
    requires 0.0 <= rD < 1.0 && 0.0 <= rH < 1.0 && 0.0 <= rO < 1.0
    requires d.glucose >= 120.0 && d.insulin >= 100.0 && d.bmi >= 30.0
    requires d.age >= 50.0 && d.diabetesPedigree >= 1.0 && d.familyHistory
    ensures MockResults(d, rD, rH, rO)[0].risk == 95.0
  {
    SumSaturated(DiabetesFactors(d));
    DiabetesWeights(d);
  }

  /** Every diabetes factor at or below half its threshold: the base is 0 and
      the score is pinned at 5 whatever the jitter. */
  lemma DiabetesMinimal(d: ScreeningData, rD: real, rH: real, rO: real)
    requires 0.0 <= rD < 1.0 && 0.0 <= rH < 1.0 && 0.0 <= rO < 1.0
    requires d.glucose <= 60.0 && d.insulin <= 50.0 && d.bmi <= 15.0
    requires d.age <= 25.0 && d.diabetesPedigree <= 0.5 && !d.familyHistory
    ensures MockResults(d, rD, rH, rO)[0].risk == 5.0
  {
    SumZero(DiabetesFactors(d));
  }

  /** Every heart factor saturated: the weights total 1.00, the base is 100
      and the score is pinned at 95. */
  lemma HeartSaturated(d: ScreeningData, rD: real, rH: real, rO: real)
    requires 0.0 <= rD < 1.0 && 0.0 <= rH < 1.0 && 0.0 <= rO < 1.0
    requires d.bloodPressure >= 140.0 && d.bmi >= 30.0 && d.age >= 55.0
    requires d.smoker && d.familyHistory
    ensures MockResults(d, rD, rH, rO)[1].risk == 95.0
  {
    SumSaturated(HeartFactors(d));
    HeartWeights(d);
  }

  /** A male smoker with saturated BMI, skin thickness and age scores
      0.60 + 0.20 + 0.05 = 0.85 for obesity (the smoker and female flags add
      nothing), so the base is 85 and the result lies in [80, 90). */
  lemma ObesityMaleSmoker(d: ScreeningData, rD: real, rH: real, rO: real)
    requires 0.0 <= rD < 1.0 && 0.0 <= rH < 1.0 && 0.0 <= rO < 1.0
    requires d.bmi >= 30.0 && d.skinThickness >= 35.0 && d.age >= 40.0
    requires d.smoker && d.gender != "female"
    ensures 80.0 <= MockResults(d, rD, rH, rO)[2].risk < 90.0
  {
    ObesityMaleSmokerSum(d);
    assert Round(0.85 * 100.0) == 85;
  }

  lemma ObesityMaleSmokerSum(d: ScreeningData)
    requires d.bmi >= 30.0 && d.skinThickness >= 35.0 && d.age >= 40.0
    requires d.smoker && d.gender != "female"
    ensures Sum(ObesityFactors(d)) == 0.85
  {
    var fs := ObesityFactors(d);
    SumSaturatedThenZero(fs, 3);
    assert TotalWeight(fs[..3][2..]) == 0.05;
    assert TotalWeight(fs[..3][1..]) == 0.25;
  }
}
