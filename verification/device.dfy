/** The device description carried by the hello message (HEL.R01). */
module Device {
  import opened Wrappers
  import opened Primitives
  import opened CvSet

  /** An unsigned short. */
  type Port = n: int | 0 <= n < 0x1_0000

  /** How the device reaches the data manager; the timeout is in milliseconds. */
  datatype ConnectionProfile = ConnectionProfile(ip: string, port: Port, timeout: int)

  /** The CIC messaging profiles a device may support. */
  datatype ConnectionProfileType = CS | SA | AA

  /** The message topics, beyond the minimum, a device may support. */
  datatype TopicSupported = OBS | D_EV | DTV | OP_LST | OP_LST_I | PT_LST | PT_LST_I

  datatype DeviceStaticCapabilities = DeviceStaticCapabilities(
    connectionProfile: Option<CV>,
    topicsSupported: Option<CvSet>,
    directivesSupported: Option<CvSet>,
    maxMessageSize: Option<int>)

  /** DeviceStaticCapabilities(): none of the capabilities is declared. */
  function DefaultCapabilities(): (c: DeviceStaticCapabilities)
    ensures c.connectionProfile == None && c.maxMessageSize == None
    ensures c.topicsSupported == c.directivesSupported == None
  {
    DeviceStaticCapabilities(None, None, None, None)
  }

  datatype Device = Device(
    deviceId: string,
    vendorId: Option<string>,
    modelId: Option<string>,
    serialId: Option<string>,
    manufacturerName: Option<string>,
    hwVersion: Option<string>,
    swVersion: Option<string>,
    deviceName: Option<string>,
    vmdId: Option<string>,
    vmdName: Option<string>,
    staticCapabilities: DeviceStaticCapabilities,
    connectionProfile: ConnectionProfile)

  /**
   * Device(id): the identifier is the one given and everything optional is
   * unset. The connection profile's port and timeout are left uninitialised
   * by the C++ constructor, so the caller supplies them here.
   */
  function New(id: string, port: Port, timeout: int): (d: Device)
    ensures d.deviceId == id
    ensures d.vendorId == d.modelId == d.serialId == d.manufacturerName == None
    ensures d.hwVersion == d.swVersion == d.deviceName == d.vmdId == d.vmdName == None
    ensures d.staticCapabilities.topicsSupported == d.staticCapabilities.directivesSupported == None
    ensures d.staticCapabilities.connectionProfile == None
    ensures d.staticCapabilities.maxMessageSize == None
    ensures d.connectionProfile.ip == ""
  {
    Device(id, None, None, None, None, None, None, None, None, None,
           DefaultCapabilities(), ConnectionProfile("", port, timeout))
  }
}
