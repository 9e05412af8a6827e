/** A specimen of an observations message: when it was drawn, its identifier, where it came from and what it is. */
module Specimen {
  import opened Wrappers
  import opened Primitives

  datatype Specimen = Specimen(
    specimenDttm: Time,
    specimenId: Option<CV>,
    source: Option<CE>,
    specimenType: Option<CE>)

  /** The defaulted constructor leaves the draw time indeterminate: it is a parameter here. */
  function Default(specimenDttm: Time): (s: Specimen)
    ensures s.specimenDttm == specimenDttm
    ensures s.specimenId.None? && s.source.None? && s.specimenType.None?
  {
    Specimen(specimenDttm, None, None, None)
  }
}
