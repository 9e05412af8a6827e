/** The body of the device status message (DST.R01). */
module DeviceStatus {
  import opened Wrappers
  import opened Primitives

  datatype DeviceCondition = BUSY | LOCKED | PARTIAL_LOCKED | READY | STANDBY | UNKNOWN

  datatype DeviceStatus = DeviceStatus(
    newObservations: int,
    newEvents: Option<int>,
    condition: Option<CV>,
    statusTimestamp: Time,
    observationsUpdate: Option<Time>,
    eventsUpdate: Option<Time>,
    operatorsUpdate: Option<Time>,
    patientsUpdate: Option<Time>)

  /**
   * DeviceStatus(): the observation count and the status timestamp are left
   * uninitialised by the C++ constructor, so the caller supplies them here.
   */
  function Default(newObservations: int, statusTimestamp: Time): (s: DeviceStatus)
    ensures s.newObservations == newObservations && s.statusTimestamp == statusTimestamp
    ensures s.newEvents == None && s.condition == None
    ensures s.observationsUpdate == s.eventsUpdate == None
    ensures s.operatorsUpdate == s.patientsUpdate == None
  {
    DeviceStatus(newObservations, None, None, statusTimestamp, None, None, None, None)
  }
}
