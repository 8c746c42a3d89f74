/** The records exchanged between the screening form, the risk engine and the
    result components (src/types/health.ts). */
module Health {

  /** One screening submission. Numeric fields are JavaScript numbers, modelled
      as reals; `gender` is the free string chosen in the form. */
  datatype ScreeningData = ScreeningData(
    age: real,
    gender: string,
    glucose: real,
    bloodPressure: real,
    skinThickness: real,
    insulin: real,
    bmi: real,
    diabetesPedigree: real,
    smoker: bool,
    familyHistory: bool)

  /** The engine's verdict for one condition. */
  datatype DiseaseRisk = DiseaseRisk(
    name: string,
    risk: real,
    description: string,
    recommendations: seq<string>)
}
