/** The titration's results: the NaOH normality from standardisation against
    oxalic acid, and the strength and amount of each acid in the 10 ml sample
    from the two endpoints. */
module Quantities {

  const OxalicVolume: real := 25.0
  const OxalicNormality: real := 0.05
  /** Volume (ml) of the acid mixture titrated. */
  const SampleVolume: real := 10.0
  /** Grams per equivalent, times the 100 ml the sample stands for, per 1000 ml. */
  const HclGramsPerNormality: real := 36.5 * 100.0 / 1000.0
  const Ch3coohGramsPerNormality: real := 60.0 * 100.0 / 1000.0

  /** Normality of NaOH when `naohUsed` ml neutralise 25 ml of 0.05 N oxalic
      acid: volume times normality is the same on both sides. */
  function NaohNormality(naohUsed: real): (n: real)
    requires naohUsed > 0.0
    ensures n * naohUsed == OxalicVolume * OxalicNormality
    ensures n > 0.0
    ensures 0.1 <= naohUsed <= 50.0 ==> 0.025 <= n <= 12.5
  {
    var n := (OxalicVolume * OxalicNormality) / naohUsed;
    assert n * naohUsed == 1.25;
    assert naohUsed <= 50.0 ==> n * naohUsed <= n * 50.0;
    n
  }

  datatype Amounts = Amounts(hclNormality: real, ch3coohNormality: real,
                             hclGrams: real, ch3coohGrams: real)

  /** Acid strengths and amounts from the NaOH normality and the two endpoints:
      the HCl endpoint neutralises the HCl alone, the CH3COOH endpoint both
      acids together. */
  function AcidAmounts(naohNormality: real, hclEnd: real, ch3coohEnd: real): (a: Amounts)
    ensures a.hclNormality * SampleVolume == naohNormality * hclEnd
    ensures (a.hclNormality + a.ch3coohNormality) * SampleVolume == naohNormality * ch3coohEnd
    ensures a.hclGrams == a.hclNormality * HclGramsPerNormality
    ensures a.ch3coohGrams == a.ch3coohNormality * Ch3coohGramsPerNormality
    ensures naohNormality >= 0.0 && 0.0 <= hclEnd <= ch3coohEnd ==>
              a.hclGrams >= 0.0 && a.ch3coohGrams >= 0.0
  {
    var hclNormality := (naohNormality * hclEnd) / SampleVolume;
    var ch3coohNormality := (naohNormality * (ch3coohEnd - hclEnd)) / SampleVolume;
    Amounts(hclNormality, ch3coohNormality,
            hclNormality * 36.5 * 100.0 / 1000.0,
            ch3coohNormality * 60.0 * 100.0 / 1000.0)
  }

  /** 0.1 N NaOH with endpoints at 3 ml and 6 ml: 0.1095 g HCl and 0.18 g CH3COOH. */
  lemma WorkedExample()
    ensures AcidAmounts(0.1, 3.0, 6.0).hclGrams == 0.1095
    ensures AcidAmounts(0.1, 3.0, 6.0).ch3coohGrams == 0.18
  {
  }
}
