/** The control or calibration material of a non-patient service. */
module ControlCalibration {
  import opened Wrappers
  import opened Primitives

  datatype ControlCalibration = ControlCalibration(
    name: string,
    lotNumber: Option<CV>,
    expirationDate: Option<Tm>,
    level: Option<CV>,
    calVerRepetition: Option<int>)

  /** ControlCalibration(): no name and none of the optional details. */
  function Default(): (c: ControlCalibration)
    ensures c.name == ""
    ensures c.lotNumber == c.level == None
    ensures c.expirationDate == None
    ensures c.calVerRepetition == None
  {
    ControlCalibration("", None, None, None, None)
  }
}
