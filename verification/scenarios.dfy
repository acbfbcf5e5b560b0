/**
 Worked cases of the whole calculation, one per kind of outcome.
 */
module Scenarios {
  import opened Nomogram

  /** High intensity, 70 kg, PTT 30, standard bag, pump at 20 ml/hr:
      5600 units (56 ml) as a bolus and the pump up by 2.8 ml/hr. */
  lemma SubTherapeuticHighIntensity()
    ensures var r := Evaluate(HighIntensity, Standard, 70.0, 20.0, 30.0);
      && r.bolusUnits == 5600.0 && r.bolusMl == 56.0
      && r.rateChangeUnits == 280.0 && r.changeMl == 2.8
      && r.newRateMl == 22.8 && r.colour == Red && r.message == VeryLow
  {
  }

  /** Standard/low intensity, PTT 80, concentrated bag, pump at 10 ml/hr:
      no bolus and the pump down by 0.4 ml/hr, whatever the weight. */
  lemma ElevatedStandardLow(weight: real)
    requires weight >= 1.0
    ensures var r := Evaluate(StandardLowIntensity, Concentrate, weight, 10.0, 80.0);
      && r.bolusUnits == 0.0 && r.bolusMl == 0.0
      && r.rateChangeUnits == -200.0 && r.changeMl == -0.4
      && r.newRateMl == 9.6 && r.colour == Orange && r.message == Reduce
  {
  }

  /** High intensity, 60 kg, PTT 100, standard bag, pump at 5 ml/hr:
      hold the infusion, then run it 1.8 ml/hr slower. */
  lemma HoldHighIntensity()
    ensures var r := Evaluate(HighIntensity, Standard, 60.0, 5.0, 100.0);
      && r.rateChangeUnits == -180.0 && r.changeMl == -1.8
      && r.newRateMl == 3.2 && r.colour == Red && r.message == HoldInfusion
  {
  }

  /** High intensity, 50 kg, PTT 95, standard bag, pump at 0.5 ml/hr:
      the 1.5 ml/hr cut would go below zero, so the pump is set to 0. */
  lemma ClampAtZero()
    ensures var r := Evaluate(HighIntensity, Standard, 50.0, 0.5, 95.0);
      && r.changeMl == -1.5 && r.newRateMl == 0.0
  {
  }
}
