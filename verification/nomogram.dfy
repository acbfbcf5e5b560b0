/**
 The heparin nomogram of the adjustment calculator: the protocol and the
 latest PTT pick a bolus and a change of the infusion rate (in units), which
 are then turned into millilitres of the mixed bag and applied to the pump.

 All quantities are reals; the calculator works on floating point numbers,
 whose rounding is not modelled.
 */
module Nomogram {

  /** The two rule tables offered by the protocol select box. */
  datatype Protocol = HighIntensity | StandardLowIntensity

  /** The two ways the bag is mixed, offered by the concentration radio button. */
  datatype Concentration = Standard | Concentrate {

    /** Units of heparin in one millilitre of the bag. */
    function UnitsPerMl(): (u: real)
      ensures u > 0.0
      ensures u == 100.0 || u == 500.0
    {
      match this
      case Standard => 100.0
      case Concentrate => 500.0
    }
  }

  /** The banner colour; `Blue` is only the value before any rule has fired. */
  datatype Colour = Blue | Red | Orange | Green

  /** What the banner says, by meaning rather than by its (Thai and English) text. */
  datatype Message =
    | NoMessage      // before any rule has fired
    | VeryLow        // PTT far below target (both protocols)
    | SomewhatLow    // high intensity, PTT a little low
    | OnTarget       // high intensity, therapeutic goal reached
    | RisingHigh     // high intensity, PTT starting to rise
    | HoldInfusion   // high intensity, PTT too high: hold the infusion for 60 minutes
    | KeepRate       // standard/low intensity, keep the current rate
    | Reduce         // standard/low intensity, PTT high: lower the dose

  /** The advice of a rule, in units: a one-off bolus and a change of the hourly rate. */
  datatype Advice = Advice(bolusUnits: real, rateChangeUnits: real, message: Message, colour: Colour)

  /** The advice before any rule has fired: no bolus, no change, blue, no message. */
  const Initial := Advice(0.0, 0.0, NoMessage, Blue)

  /** The two open intervals the whole-number bounds of the high-intensity
      guards leave uncovered. */
  predicate InHighIntensityGap(ptt: real)
  {
    49.0 < ptt < 50.0 || 70.0 < ptt < 71.0
  }

  /** The PTTs the high-intensity chain sends to its final, hold-infusion branch. */
  predicate HighIntensityHolds(ptt: real)
  {
    ptt > 90.0 || InHighIntensityGap(ptt)
  }

  /** The high-intensity rule chain; doses scale with the weight in kg.
      Its guards use whole-number bounds, so a PTT in a gap matches no guard
      and ends in the final branch, exactly as a PTT above 90 does. Each
      message is produced by exactly its range of PTTs and carries its own
      doses and colour. */
  function HighIntensityAdvice(weight: real, ptt: real): (a: Advice)
    ensures a.message == VeryLow <==> ptt < 35.0
    ensures a.message == SomewhatLow <==> 35.0 <= ptt <= 49.0
    ensures a.message == OnTarget <==> 50.0 <= ptt <= 70.0
    ensures a.message == RisingHigh <==> 71.0 <= ptt <= 90.0
    ensures a.message == HoldInfusion <==> HighIntensityHolds(ptt)
    ensures a.message == VeryLow ==> a.bolusUnits == 80.0 * weight && a.rateChangeUnits == 4.0 * weight && a.colour == Red
    ensures a.message == SomewhatLow ==> a.bolusUnits == 40.0 * weight && a.rateChangeUnits == 2.0 * weight && a.colour == Orange
    ensures a.message == OnTarget ==> a.bolusUnits == 0.0 && a.rateChangeUnits == 0.0 && a.colour == Green
    ensures a.message == RisingHigh ==> a.bolusUnits == 0.0 && a.rateChangeUnits == -2.0 * weight && a.colour == Orange
    ensures a.message == HoldInfusion ==> a.bolusUnits == 0.0 && a.rateChangeUnits == -3.0 * weight && a.colour == Red
  {
    if ptt < 35.0 then
      Initial.(bolusUnits := 80.0 * weight, rateChangeUnits := 4.0 * weight, message := VeryLow, colour := Red)
    else if 35.0 <= ptt <= 49.0 then
      Initial.(bolusUnits := 40.0 * weight, rateChangeUnits := 2.0 * weight, message := SomewhatLow, colour := Orange)
    else if 50.0 <= ptt <= 70.0 then
      Initial.(message := OnTarget, colour := Green)
    else if 71.0 <= ptt <= 90.0 then
      Initial.(rateChangeUnits := -2.0 * weight, message := RisingHigh, colour := Orange)
    else
      Initial.(rateChangeUnits := -3.0 * weight, message := HoldInfusion, colour := Red)
  }

  /** The standard/low-intensity rule chain; doses are fixed amounts of units.
      Its three messages split the PTTs with no gap. */
  function StandardLowAdvice(ptt: real): (a: Advice)
    ensures a.message == VeryLow <==> ptt < 35.0
    ensures a.message == KeepRate <==> 35.0 <= ptt <= 70.0
    ensures a.message == Reduce <==> ptt > 70.0
    ensures a.message == VeryLow ==> a.bolusUnits == 5000.0 && a.rateChangeUnits == 200.0 && a.colour == Red
    ensures a.message == KeepRate ==> a.bolusUnits == 0.0 && a.rateChangeUnits == 0.0 && a.colour == Green
    ensures a.message == Reduce ==> a.bolusUnits == 0.0 && a.rateChangeUnits == -200.0 && a.colour == Orange
  {
    if ptt < 35.0 then
      Initial.(bolusUnits := 5000.0, rateChangeUnits := 200.0, message := VeryLow, colour := Red)
    else if 35.0 <= ptt <= 70.0 then
      Initial.(message := KeepRate, colour := Green)
    else
      Initial.(rateChangeUnits := -200.0, message := Reduce, colour := Orange)
  }

  /** The advice of the selected protocol's rule chain. */
  function Advise(protocol: Protocol, weight: real, ptt: real): (a: Advice)
    ensures a.colour != Blue && a.message != NoMessage
    ensures protocol.StandardLowIntensity? ==> a.bolusUnits == 0.0 || a.bolusUnits == 5000.0
    ensures weight >= 1.0 ==> a.bolusUnits >= 0.0
    ensures weight >= 1.0 ==> (a.bolusUnits > 0.0 ==> a.rateChangeUnits > 0.0)
    ensures weight >= 1.0 ==> (a.colour == Green <==> a.rateChangeUnits == 0.0)
    ensures a.colour == Green ==> a.bolusUnits == 0.0
  {
    match protocol
    case HighIntensity => HighIntensityAdvice(weight, ptt)
    case StandardLowIntensity => StandardLowAdvice(ptt)
  }

  /** A number of units of heparin, as millilitres of the bag. */
  function ToMl(units: real, c: Concentration): (ml: real)
    ensures ml * c.UnitsPerMl() == units
    ensures ml > 0.0 <==> units > 0.0
    ensures ml < 0.0 <==> units < 0.0
  {
    units / c.UnitsPerMl()
  }

  /** The pump rate after the change, never below zero. */
  function ClampedRate(currentRate: real, changeMl: real): (r: real)
    ensures r >= 0.0 && r >= currentRate + changeMl
    ensures r == 0.0 || r == currentRate + changeMl
  {
    var raw := currentRate + changeMl;
    if raw < 0.0 then 0.0 else raw
  }

  /** Everything the calculator shows once the button is pressed. */
  datatype Recommendation = Recommendation(
    bolusUnits: real,
    rateChangeUnits: real,
    message: Message,
    colour: Colour,
    bolusMl: real,
    changeMl: real,
    newRateMl: real)

  /** The whole calculation, from the form's inputs to the recommendation.
      The form lets no rate below 0, no weight below 1 and no PTT below 0 through. */
  function Evaluate(protocol: Protocol, concentration: Concentration, weight: real, currentRate: real, ptt: real): (r: Recommendation)
    requires weight >= 1.0 && currentRate >= 0.0 && ptt >= 0.0
    ensures r.colour in {Red, Orange, Green}
    ensures r.bolusUnits >= 0.0 && r.bolusMl >= 0.0 && r.newRateMl >= 0.0
    ensures r.bolusMl * concentration.UnitsPerMl() == r.bolusUnits
    ensures r.changeMl * concentration.UnitsPerMl() == r.rateChangeUnits
    ensures r.bolusUnits > 0.0 ==> r.changeMl > 0.0
    ensures r.colour == Green <==> r.changeMl == 0.0
    ensures r.newRateMl == currentRate <==> r.changeMl == 0.0 || (currentRate == 0.0 && r.changeMl < 0.0)
    ensures r.newRateMl == (if currentRate + r.changeMl < 0.0 then 0.0 else currentRate + r.changeMl)
    ensures var a := Advise(protocol, weight, ptt);
      && r.bolusUnits == a.bolusUnits && r.rateChangeUnits == a.rateChangeUnits
      && r.message == a.message && r.colour == a.colour
  {
    var a := Advise(protocol, weight, ptt);
    var changeMl := ToMl(a.rateChangeUnits, concentration);
    Recommendation(
      a.bolusUnits, a.rateChangeUnits, a.message, a.colour,
      ToMl(a.bolusUnits, concentration),
      changeMl,
      ClampedRate(currentRate, changeMl))
  }
}
