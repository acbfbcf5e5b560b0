/**
 How the texts picked on the form become the calculator's choices: the
 concentration is read off the radio button's label, the protocol off the
 select box's label, each with a substring test.
 */
module Selection {
  import opened Substring
  import opened Nomogram

  /** The labels of the concentration radio button. */
  const StandardLabel: string := "Standard (100 units : 1 ml) [25,000u in 250ml]"
  const ConcentrateLabel: string := "Concentrate (500 units : 1 ml) [25,000u in 50ml]"

  /** The labels of the protocol select box. */
  const HighIntensityLabel: string := "High Intensity (\U{0E04}\U{0E34}\U{0E14}\U{0E15}\U{0E32}\U{0E21} \U{0E19}\U{0E19}.)"
  const StandardLowLabel: string := "Standard/Low Intensity (Fix dose)"

  /** 100 units/ml when the label mentions "100", 500 units/ml otherwise. */
  function SelectConcentration(option: string): (c: Concentration)
    ensures c.UnitsPerMl() == 100.0 <==> exists i :: OccursAt(option, "100", i)
    ensures c.UnitsPerMl() == 500.0 <==> forall i :: !OccursAt(option, "100", i)
  {
    if Contains(option, "100") then Standard else Concentrate
  }

  /** The weight-scaled table when the label mentions "High", the fixed-dose table otherwise. */
  function SelectProtocol(option: string): (p: Protocol)
    ensures p == HighIntensity <==> exists i :: OccursAt(option, "High", i)
  {
    if Contains(option, "High") then HighIntensity else StandardLowIntensity
  }

  /** The standard label selects 100 units/ml. */
  lemma StandardLabelSelects()
    ensures SelectConcentration(StandardLabel).UnitsPerMl() == 100.0
  {
    var prefix, rest := "Standard (", " units : 1 ml) [25,000u in 250ml]";
    assert StandardLabel == prefix + "100" + rest;
    var window := StandardLabel[|prefix|..|prefix| + 3];
    assert window[0] == '1' && window[1] == '0' && window[2] == '0';
    assert window == "100";
    assert OccursAt(StandardLabel, "100", |prefix|);
  }

  /** The concentrate label does not mention "100", so it selects 500 units/ml:
      its only '1' is followed by a space. */
  lemma ConcentrateLabelSelects()
    ensures SelectConcentration(ConcentrateLabel).UnitsPerMl() == 500.0
  {
    var prefix, tail := "Concentrate (500 units : ", " ml) [25,000u in 50ml]";
    assert ConcentrateLabel == prefix + ['1'] + tail;
    assert '1' !in prefix && '1' !in tail;
    forall i | 0 <= i && i + 3 <= |ConcentrateLabel|
      ensures !OccursAt(ConcentrateLabel, "100", i)
    {
      var window := ConcentrateLabel[i..i + 3];
      if i < |prefix| {
        assert window[0] == prefix[i] != '1';
      } else if i == |prefix| {
        assert window[1] == tail[0] != '0';
      } else {
        assert window[0] == tail[i - |prefix| - 1] != '1';
      }
    }
  }

  /** Each protocol label selects the table it names. */
  lemma ProtocolLabels()
    ensures SelectProtocol(HighIntensityLabel) == HighIntensity
    ensures SelectProtocol(StandardLowLabel) == StandardLowIntensity
  {
    assert OccursAt(HighIntensityLabel, "High", 0);
    MissingFirstChar(StandardLowLabel, "High");
  }
}
