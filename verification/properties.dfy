/**
 What the nomogram promises, stated over all inputs: where the bucket
 boundaries lie, the direction of every adjustment, and how the adjustments
 order as the PTT rises.
 */
module NomogramProperties {
  import opened Nomogram

  /** The boundary PTTs: 35 opens the second bucket, 49 and 90 close theirs,
      50 and 71 open theirs, and 70 belongs to the target range. A PTT of
      49.5 or 70.5 gets the hold-infusion advice. */
  lemma BoundaryValues(weight: real)
    ensures HighIntensityAdvice(weight, 35.0).message == SomewhatLow
    ensures HighIntensityAdvice(weight, 49.0).message == SomewhatLow
    ensures HighIntensityAdvice(weight, 49.5).message == HoldInfusion
    ensures HighIntensityAdvice(weight, 50.0).message == OnTarget
    ensures HighIntensityAdvice(weight, 70.0).message == OnTarget
    ensures HighIntensityAdvice(weight, 70.5).message == HoldInfusion
    ensures HighIntensityAdvice(weight, 71.0).message == RisingHigh
    ensures HighIntensityAdvice(weight, 90.0).message == RisingHigh
    ensures StandardLowAdvice(35.0).message == KeepRate
    ensures StandardLowAdvice(70.0).message == KeepRate
  {
  }

  /** The rate goes up exactly when the PTT is low, stays exactly in the
      target range, and goes down otherwise. */
  lemma RateChangeDirection(protocol: Protocol, weight: real, ptt: real)
    requires weight >= 1.0
    ensures var rc := Advise(protocol, weight, ptt).rateChangeUnits;
      match protocol
      case HighIntensity =>
        && (rc > 0.0 <==> ptt <= 49.0)
        && (rc == 0.0 <==> 50.0 <= ptt <= 70.0)
        && (rc < 0.0 <==> ptt > 70.0 || InHighIntensityGap(ptt))
      case StandardLowIntensity =>
        && (rc > 0.0 <==> ptt < 35.0)
        && (rc == 0.0 <==> 35.0 <= ptt <= 70.0)
        && (rc < 0.0 <==> ptt > 70.0)
  {
  }

  /** A higher PTT never earns a larger bolus. */
  lemma BolusNonIncreasing(protocol: Protocol, weight: real, p: real, q: real)
    requires weight >= 1.0 && p <= q
    ensures Advise(protocol, weight, q).bolusUnits <= Advise(protocol, weight, p).bolusUnits
  {
  }

  /** A higher PTT never earns a larger rate change, as long as neither PTT
      falls in a gap of the high-intensity chain. */
  lemma RateChangeNonIncreasing(protocol: Protocol, weight: real, p: real, q: real)
    requires weight >= 1.0 && p <= q
    requires protocol.HighIntensity? ==> !InHighIntensityGap(p) && !InHighIntensityGap(q)
    ensures Advise(protocol, weight, q).rateChangeUnits <= Advise(protocol, weight, p).rateChangeUnits
  {
  }

  /** The gaps break that order: a PTT of 49.5 lowers the rate while 50 keeps it. */
  lemma GapReversesOrder(weight: real)
    requires weight >= 1.0
    ensures HighIntensityAdvice(weight, 49.5).rateChangeUnits < HighIntensityAdvice(weight, 50.0).rateChangeUnits
  {
  }

  /** Units to millilitres and back is the identity, both ways round. */
  lemma ToMlInverse(units: real, ml: real, c: Concentration)
    ensures ToMl(units, c) * c.UnitsPerMl() == units
    ensures ToMl(ml * c.UnitsPerMl(), c) == ml
  {
  }

  /** The pump rate is left alone exactly when there is no change, or when
      it is already 0 and the change would lower it. */
  lemma ClampedRateUnchanged(currentRate: real, changeMl: real)
    requires currentRate >= 0.0
    ensures ClampedRate(currentRate, changeMl) == currentRate <==> changeMl == 0.0 || (currentRate == 0.0 && changeMl < 0.0)
  {
  }
}
