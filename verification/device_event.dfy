/** One entry of the device events message. */
module DeviceEvent {
  import opened Primitives

  /** How much operator intervention the event calls for: critical, note or warning. */
  datatype SeverityLevel = C | N | W

  datatype DeviceEvent = DeviceEvent(description: string, eventDttm: Time, severity: SeverityLevel)

  /**
   * DeviceEvent(): an empty description. The event time and the severity are
   * left uninitialised by the C++ constructor, so the caller supplies them here.
   */
  function Default(eventDttm: Time, severity: SeverityLevel): (e: DeviceEvent)
    ensures e.description == ""
    ensures e.eventDttm == eventDttm && e.severity == severity
  {
    DeviceEvent("", eventDttm, severity)
  }
}
