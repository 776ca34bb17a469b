/**
 * The vertical scaling configuration the two vertical scenarios attach to
 * each VM: a scaling factor, a lower and an upper CPU utilization threshold,
 * and the function that turns the currently allocated amount of the resource
 * into a resize amount.  The scaling engine that applies it belongs to the
 * simulation library; here the configuration is a value, and utilization is
 * an opaque real.
 */
module Autoscaling {
  import opened Cloud

  /**
   * The resource scaling function.  Both scenarios give a lambda of the form
   * `multiplier * scalingFactor * current`, so the one closed variant keeps
   * only the multiplier.
   */
  datatype ResourceScaling = Proportional(multiplier: real)

  /**
   * The threshold functions of the scenarios ignore their VM argument and
   * return a constant, so each threshold is a plain real.
   */
  datatype VerticalVmScaling = VerticalVmScaling(
    scalingFactor: real,
    lowerThreshold: real,
    upperThreshold: real,
    resourceScaling: ResourceScaling)

  /** A VM together with the PE vertical scaling set on it. */
  datatype VerticallyScaledVm = VerticallyScaledVm(vm: Vm, peScaling: VerticalVmScaling)

  /** Utilization below the lower threshold asks for fewer PEs. */
  predicate IsUnderloaded(s: VerticalVmScaling, utilization: real)
  {
    utilization < s.lowerThreshold
  }

  /** Utilization above the upper threshold asks for more PEs. */
  predicate IsOverloaded(s: VerticalVmScaling, utilization: real)
  {
    utilization > s.upperThreshold
  }

  /** The two thresholds leave a band in which no resize is asked for. */
  predicate HasHysteresisBand(s: VerticalVmScaling)
  {
    s.lowerThreshold < s.upperThreshold
  }

  /** The resize amount computed from the current amount of the resource. */
  function ResizeAmount(s: VerticalVmScaling, current: real): (delta: real)
    ensures s.scalingFactor > 0.0 && s.resourceScaling.multiplier > 0.0 ==>
              (delta > 0.0 <==> current > 0.0) && (delta == 0.0 <==> current == 0.0)
  {
    var k := s.resourceScaling.multiplier * s.scalingFactor;
    assert s.scalingFactor > 0.0 && s.resourceScaling.multiplier > 0.0 ==> k > 0.0;
    k * current
  }

  /** Inside a band, no utilization is both under- and overloaded. */
  lemma BandSeparatesDecisions(s: VerticalVmScaling, utilization: real)
    requires HasHysteresisBand(s)
    ensures !(IsUnderloaded(s, utilization) && IsOverloaded(s, utilization))
  {
  }

  /**
   * With a non-negative factor and multiplier, a larger allocation never
   * gets a smaller resize amount: the deltas are multiplicative.
   */
  lemma ResizeMonotone(s: VerticalVmScaling, a: real, b: real)
    requires s.scalingFactor >= 0.0 && s.resourceScaling.multiplier >= 0.0
    requires a <= b
    ensures ResizeAmount(s, a) <= ResizeAmount(s, b)
  {
  }
}
