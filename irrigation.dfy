/** The drip-irrigation volume against which the analysis is run. */
module Irrigation {

  /** Bed length (m), number of beds, emitter spacing (cm), emitter flow
      (L/h) and irrigation time (h). */
  datatype DripSetup = DripSetup(bedLength: real, beds: int, spacing: real, flow: real, hours: real)

  function EmittersPerBed(bedLength: real, spacing: real): (e: real)
    requires spacing != 0.0
    ensures e * spacing == bedLength * 100.0
  {
    (bedLength * 100.0) / spacing
  }

  /** Total litres applied: emitters per bed times flow, beds and hours. */
  function Volume(irr: DripSetup): real
    requires irr.spacing != 0.0
  {
    EmittersPerBed(irr.bedLength, irr.spacing) * irr.flow * (irr.beds as real) * irr.hours
  }

  /** Positive inputs give a positive volume. */
  lemma VolumePositive(irr: DripSetup)
    requires 0.0 < irr.bedLength && 0 < irr.beds && 0.0 < irr.spacing
    requires 0.0 < irr.flow && 0.0 < irr.hours
    ensures 0.0 < Volume(irr)
  {
  }

  /** The lower bounds of the irrigation inputs (length and spacing at least
      1, at least one bed, flow and time at least 0.1) always let the
      analysis run. */
  predicate WithinInputBounds(irr: DripSetup)
  {
    1.0 <= irr.bedLength && 1 <= irr.beds && 1.0 <= irr.spacing && 0.1 <= irr.flow && 0.1 <= irr.hours
  }

  lemma InputBoundsOpenAnalysis(irr: DripSetup)
    requires WithinInputBounds(irr)
    ensures 0.0 < Volume(irr)
  {
  }
}
