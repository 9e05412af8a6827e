/**
 * The message envelope: a header plus one body per message class, the
 * process-wide control-ID counter, and each class's accessors.
 */
module Message {
  import opened Wrappers
  import Decimal
  import Primitives
  import Header
  import Ack
  import DeviceStatus
  import Escape
  import EndOfTopic
  import Device
  import Service
  import Request
  import Terminate

  /** The counter kMessageNum is an `unsigned int`: 32 bits wide. */
  const UIntRange: nat := 0x1_0000_0000

  type MessageNum = n: nat | n < UIntRange

  /** The body of each concrete message class. */
  datatype Body =
    | AckBody(ack: Ack.Ack)
    | DeviceStatusBody(deviceStatus: DeviceStatus.DeviceStatus)
    | EscapeBody(escape: Escape.Escape)
    | EndOfTopicBody(endOfTopic: EndOfTopic.EndOfTopic)
    | HelloBody(device: Device.Device)
    | ObservationsBody(isPatientInfo: bool, service: Service.Service)
    | RequestBody(request: Request.Request)
    | TerminateBody(terminate: Terminate.Terminate)

  datatype Message = Message(header: Header.Header, body: Body)

  /** `++kMessageNum`: unsigned increment, wrapping to zero. */
  function Next(n: MessageNum): (r: MessageNum)
    ensures r == (n + 1) % UIntRange
    ensures r == 0 <==> n == UIntRange - 1
  {
    if n == UIntRange - 1 then 0 else n + 1
  }

  /** The kind each message class reports; it does not look at the header. */
  function GetMessageType(m: Message): (t: Header.MsgType)
    ensures t !in {Header.EVS_R01, Header.DTV_R01, Header.DTV_R02, Header.DTV_VENDOR,
                   Header.OPL_R01, Header.OPL_R02, Header.PTL_R01, Header.PTL_R02}
  {
    match m.body
    case AckBody(_) => Header.ACK_R01
    case DeviceStatusBody(_) => Header.DST_R01
    case EscapeBody(_) => Header.ESC_R01
    case EndOfTopicBody(_) => Header.EOT_R01
    case HelloBody(_) => Header.HEL_R01
    case ObservationsBody(isPatientInfo, _) =>
      if isPatientInfo then Header.OBS_R01 else Header.OBS_R02
    case RequestBody(_) => Header.REQ_R01
    case TerminateBody(_) => Header.END_R01
  }

  function GetHeader(m: Message): Header.Header {
    m.header
  }

  /**
   * SetHeader(head): copies `head` and stamps it with the next value of the
   * counter written in decimal. Returns the message and the new counter.
   */
  function SetHeader(m: Message, head: Header.Header, messageNum: MessageNum): (r: (Message, MessageNum))
    ensures r.1 == Next(messageNum)
    ensures GetHeader(r.0).controlId == Decimal.ToDecimal(r.1)
    ensures Decimal.Parse(GetHeader(r.0).controlId) == Some(r.1)
    ensures GetHeader(r.0) == head.(controlId := GetHeader(r.0).controlId)
    ensures r.0.body == m.body && GetMessageType(r.0) == GetMessageType(m)
  {
    var n := Next(messageNum);
    Decimal.ParseToDecimal(n);
    (Message(head.(controlId := Decimal.ToDecimal(n)), m.body), n)
  }

  /** SetHeader(head, control_id): copies `head` with the given control ID; the counter is not touched. */
  function SetHeaderWithControlId(m: Message, head: Header.Header, controlId: string): (r: Message)
    ensures GetHeader(r).controlId == controlId
    ensures GetHeader(r) == head.(controlId := controlId)
    ensures r.body == m.body && GetMessageType(r) == GetMessageType(m)
  {
    Message(head.(controlId := controlId), m.body)
  }

  // Construction. Each class default-constructs its header and body; the
  // fields those constructors leave uninitialised are parameters.

  function NewAck(creationDttm: Primitives.Time): (m: Message)
    ensures GetMessageType(m) == Header.ACK_R01
    ensures GetHeader(m) == Header.Default(creationDttm)
    ensures m.body.AckBody? && GetAck(m) == Ack.Default()
  {
    Message(Header.Default(creationDttm), AckBody(Ack.Default()))
  }

  function NewDeviceStatus(creationDttm: Primitives.Time, newObservations: int, statusTimestamp: Primitives.Time): (m: Message)
    ensures GetMessageType(m) == Header.DST_R01
    ensures GetHeader(m) == Header.Default(creationDttm)
    ensures m.body.DeviceStatusBody? && GetDeviceStatus(m) == DeviceStatus.Default(newObservations, statusTimestamp)
  {
    Message(Header.Default(creationDttm),
            DeviceStatusBody(DeviceStatus.Default(newObservations, statusTimestamp)))
  }

  function NewEscape(creationDttm: Primitives.Time): (m: Message)
    ensures GetMessageType(m) == Header.ESC_R01
    ensures GetHeader(m) == Header.Default(creationDttm)
    ensures m.body.EscapeBody? && GetEscape(m) == Escape.Default()
  {
    Message(Header.Default(creationDttm), EscapeBody(Escape.Default()))
  }

  function NewEndOfTopic(creationDttm: Primitives.Time): (m: Message)
    ensures GetMessageType(m) == Header.EOT_R01
    ensures GetHeader(m) == Header.Default(creationDttm)
    ensures m.body.EndOfTopicBody? && GetEndOfTopic(m) == EndOfTopic.Default()
  {
    Message(Header.Default(creationDttm), EndOfTopicBody(EndOfTopic.Default()))
  }

  /** The hello message's device has an empty ID and an uninitialised port and timeout. */
  function NewHello(creationDttm: Primitives.Time, port: Device.Port, timeout: int): (m: Message)
    ensures GetMessageType(m) == Header.HEL_R01
    ensures GetHeader(m) == Header.Default(creationDttm)
    ensures m.body.HelloBody? && GetDevice(m) == Device.New("", port, timeout)
    ensures m.body.device.deviceId == ""
  {
    Message(Header.Default(creationDttm), HelloBody(Device.New("", port, timeout)))
  }

  /** MessageObservations(isPatientInfo): the only class whose kind is chosen at construction. */
  function NewObservations(isPatientInfo: bool, creationDttm: Primitives.Time, observationDttm: Primitives.Time): (m: Message)
    ensures GetMessageType(m) == Header.OBS_R01 <==> isPatientInfo
    ensures GetMessageType(m) == Header.OBS_R02 <==> !isPatientInfo
    ensures GetHeader(m) == Header.Default(creationDttm)
    ensures m.body.ObservationsBody? && GetService(m) == Service.Default(observationDttm)
  {
    Message(Header.Default(creationDttm),
            ObservationsBody(isPatientInfo, Service.Default(observationDttm)))
  }

  function NewRequest(creationDttm: Primitives.Time): (m: Message)
    ensures GetMessageType(m) == Header.REQ_R01
    ensures GetHeader(m) == Header.Default(creationDttm)
    ensures m.body.RequestBody? && GetRequest(m) == Request.Default()
  {
    Message(Header.Default(creationDttm), RequestBody(Request.Default()))
  }

  function NewTerminate(creationDttm: Primitives.Time): (m: Message)
    ensures GetMessageType(m) == Header.END_R01
    ensures GetHeader(m) == Header.Default(creationDttm)
    ensures m.body.TerminateBody? && GetTerminate(m) == Terminate.Default()
  {
    Message(Header.Default(creationDttm), TerminateBody(Terminate.Default()))
  }

  // Accessors. A getter or setter exists only on its own message class,
  // which the precondition on the body states.

  function GetAck(m: Message): Ack.Ack
    requires m.body.AckBody?
  {
    m.body.ack
  }

  function SetAck(m: Message, ack: Ack.Ack): (r: Message)
    requires m.body.AckBody?
    ensures r.body.AckBody? && GetAck(r) == ack
    ensures GetHeader(r) == GetHeader(m) && GetMessageType(r) == GetMessageType(m)
  {
    m.(body := AckBody(ack))
  }

  function GetDeviceStatus(m: Message): DeviceStatus.DeviceStatus
    requires m.body.DeviceStatusBody?
  {
    m.body.deviceStatus
  }

  function SetDeviceStatus(m: Message, status: DeviceStatus.DeviceStatus): (r: Message)
    requires m.body.DeviceStatusBody?
    ensures r.body.DeviceStatusBody? && GetDeviceStatus(r) == status
    ensures GetHeader(r) == GetHeader(m) && GetMessageType(r) == GetMessageType(m)
  {
    m.(body := DeviceStatusBody(status))
  }

  function GetEscape(m: Message): Escape.Escape
    requires m.body.EscapeBody?
  {
    m.body.escape
  }

  function SetEscape(m: Message, escape: Escape.Escape): (r: Message)
    requires m.body.EscapeBody?
    ensures r.body.EscapeBody? && GetEscape(r) == escape
    ensures GetHeader(r) == GetHeader(m) && GetMessageType(r) == GetMessageType(m)
  {
    m.(body := EscapeBody(escape))
  }

  function GetEndOfTopic(m: Message): EndOfTopic.EndOfTopic
    requires m.body.EndOfTopicBody?
  {
    m.body.endOfTopic
  }

  function SetEndOfTopic(m: Message, eot: EndOfTopic.EndOfTopic): (r: Message)
    requires m.body.EndOfTopicBody?
    ensures r.body.EndOfTopicBody? && GetEndOfTopic(r) == eot
    ensures GetHeader(r) == GetHeader(m) && GetMessageType(r) == GetMessageType(m)
  {
    m.(body := EndOfTopicBody(eot))
  }

  function GetDevice(m: Message): Device.Device
    requires m.body.HelloBody?
  {
    m.body.device
  }

  function SetDevice(m: Message, device: Device.Device): (r: Message)
    requires m.body.HelloBody?
    ensures r.body.HelloBody? && GetDevice(r) == device
    ensures GetHeader(r) == GetHeader(m) && GetMessageType(r) == GetMessageType(m)
  {
    m.(body := HelloBody(device))
  }

  function GetService(m: Message): Service.Service
    requires m.body.ObservationsBody?
  {
    m.body.service
  }

  /** Replacing the service keeps the patient/non-patient kind fixed at construction. */
  function SetService(m: Message, service: Service.Service): (r: Message)
    requires m.body.ObservationsBody?
    ensures r.body.ObservationsBody? && GetService(r) == service
    ensures GetHeader(r) == GetHeader(m) && GetMessageType(r) == GetMessageType(m)
  {
    m.(body := m.body.(service := service))
  }

  function GetRequest(m: Message): Request.Request
    requires m.body.RequestBody?
  {
    m.body.request
  }

  function SetRequest(m: Message, request: Request.Request): (r: Message)
    requires m.body.RequestBody?
    ensures r.body.RequestBody? && GetRequest(r) == request
    ensures GetHeader(r) == GetHeader(m) && GetMessageType(r) == GetMessageType(m)
  {
    m.(body := RequestBody(request))
  }

  function GetTerminate(m: Message): Terminate.Terminate
    requires m.body.TerminateBody?
  {
    m.body.terminate
  }

  function SetTerminate(m: Message, terminate: Terminate.Terminate): (r: Message)
    requires m.body.TerminateBody?
    ensures r.body.TerminateBody? && GetTerminate(r) == terminate
    ensures GetHeader(r) == GetHeader(m) && GetMessageType(r) == GetMessageType(m)
  {
    m.(body := TerminateBody(terminate))
  }

  // Properties.

  /** The reported kind determines the message class, and for observations whether it carries patient data. */
  lemma MessageTypeIdentifiesClass(m: Message)
    ensures GetMessageType(m) == Header.ACK_R01 <==> m.body.AckBody?
    ensures GetMessageType(m) == Header.DST_R01 <==> m.body.DeviceStatusBody?
    ensures GetMessageType(m) == Header.ESC_R01 <==> m.body.EscapeBody?
    ensures GetMessageType(m) == Header.EOT_R01 <==> m.body.EndOfTopicBody?
    ensures GetMessageType(m) == Header.HEL_R01 <==> m.body.HelloBody?
    ensures GetMessageType(m) == Header.OBS_R01 <==> m.body.ObservationsBody? && m.body.isPatientInfo
    ensures GetMessageType(m) == Header.OBS_R02 <==> m.body.ObservationsBody? && !m.body.isPatientInfo
    ensures GetMessageType(m) == Header.REQ_R01 <==> m.body.RequestBody?
    ensures GetMessageType(m) == Header.END_R01 <==> m.body.TerminateBody?
  {
  }

  /** The header is stored as given apart from the control ID, so a version other than "POCT1" survives. */
  lemma SetHeaderKeepsCallerVersion(m: Message, head: Header.Header, messageNum: MessageNum, controlId: string)
    requires head.versionId != Header.Version
    ensures GetHeader(SetHeader(m, head, messageNum).0).versionId != Header.Version
    ensures GetHeader(SetHeaderWithControlId(m, head, controlId)).versionId != Header.Version
  {
  }

  /** Two stamps in a row, without wrap-around, give consecutive and therefore different control IDs. */
  lemma SuccessiveControlIds(m1: Message, m2: Message, h1: Header.Header, h2: Header.Header, n: MessageNum)
    requires n + 2 < UIntRange
    ensures var (r1, n1) := SetHeader(m1, h1, n);
            var (r2, _) := SetHeader(m2, h2, n1);
            && GetHeader(r1).controlId == Decimal.ToDecimal(n + 1)
            && GetHeader(r2).controlId == Decimal.ToDecimal(n + 2)
            && GetHeader(r1).controlId != GetHeader(r2).controlId
  {
  }

  /**
   * After 2^32 stamps the counter wraps: the stamp after UIntRange - 1 is
   * "0", and the one after that repeats the very first ID, "1".
   */
  lemma ControlIdRepeatsAfterWrap(m: Message, head: Header.Header)
    ensures var (first, _) := SetHeader(m, head, 0);
            var (wrapped, n) := SetHeader(m, head, UIntRange - 1);
            var (again, _) := SetHeader(m, head, n);
            && GetHeader(wrapped).controlId == "0"
            && GetHeader(again).controlId == GetHeader(first).controlId
  {
  }

  /** SetHeader after SetHeader: only the last header and one more step of the counter remain. */
  lemma SetHeaderTwice(m: Message, h1: Header.Header, h2: Header.Header, n: MessageNum)
    ensures var (r1, n1) := SetHeader(m, h1, n);
            var (r2, n2) := SetHeader(r1, h2, n1);
            && n2 == Next(Next(n))
            && r2 == SetHeader(m, h2, Next(n)).0
  {
  }

  /** Getting then setting a body changes nothing; a second set overrides the first. */
  lemma AckAccessorLaws(m: Message, a: Ack.Ack, b: Ack.Ack)
    requires m.body.AckBody?
    ensures SetAck(m, GetAck(m)) == m
    ensures SetAck(SetAck(m, a), b) == SetAck(m, b)
  {
  }

  lemma ServiceAccessorLaws(m: Message, s: Service.Service, t: Service.Service)
    requires m.body.ObservationsBody?
    ensures SetService(m, GetService(m)) == m
    ensures SetService(SetService(m, s), t) == SetService(m, t)
  {
  }

  /**
   * Stamping a batch of messages with one header, one SetHeader call each,
   * gives message i the control ID of counter value n+i+1, wrapped to 32
   * bits. Two messages get different IDs unless 2^32 or more stamps lie
   * between them, as the header requires of control IDs.
   */
  method SetHeaderEach(msgs: seq<Message>, head: Header.Header, messageNum: MessageNum)
    returns (stamped: seq<Message>, next: MessageNum)
    ensures next == (messageNum + |msgs|) % UIntRange
    ensures |stamped| == |msgs|
    ensures forall i :: 0 <= i < |msgs| ==> stamped[i].body == msgs[i].body
    ensures forall i :: 0 <= i < |msgs| ==>
              stamped[i] == Message(head.(controlId := StampId(messageNum, i)), msgs[i].body)
    ensures forall i :: 0 <= i < |msgs| ==>
              Decimal.Parse(stamped[i].header.controlId) == Some((messageNum + i + 1) % UIntRange)
    ensures forall i, j :: 0 <= i < j < |msgs| && j - i < UIntRange ==>
              stamped[i].header.controlId != stamped[j].header.controlId
  {
    stamped := [];
    next := messageNum;
    var k := 0;
    while k < |msgs|
      invariant 0 <= k <= |msgs|
      invariant next == (messageNum + k) % UIntRange
      invariant |stamped| == k
      invariant forall i :: 0 <= i < k ==>
                  stamped[i] == Message(head.(controlId := StampId(messageNum, i)), msgs[i].body)
    {
      var r := SetHeader(msgs[k], head, next);
      stamped := stamped + [r.0];
      next := r.1;
      k := k + 1;
    }
    forall i | 0 <= i < |msgs|
      ensures Decimal.Parse(stamped[i].header.controlId) == Some((messageNum + i + 1) % UIntRange)
    {
      Decimal.ParseToDecimal((messageNum + i + 1) % UIntRange);
    }
    forall i, j | 0 <= i < j < |msgs| && j - i < UIntRange
      ensures stamped[i].header.controlId != stamped[j].header.controlId
    {
      StampIdsDiffer(messageNum, i, j);
    }
  }

  /** The control ID the (i+1)-th stamp after counter value n receives. */
  function StampId(messageNum: MessageNum, i: nat): (id: string)
    ensures Decimal.Parse(id) == Some((messageNum + i + 1) % UIntRange)
  {
    Decimal.ParseToDecimal((messageNum + i + 1) % UIntRange);
    Decimal.ToDecimal((messageNum + i + 1) % UIntRange)
  }

  /** Fewer than 2^32 stamps apart, two control IDs differ. */
  lemma StampIdsDiffer(messageNum: MessageNum, i: nat, j: nat)
    requires i < j && j - i < UIntRange
    ensures StampId(messageNum, i) != StampId(messageNum, j)
  {
    var a, b := messageNum + i + 1, messageNum + j + 1;
    ModDistinct(a, b);
    Decimal.ToDecimalInjective(a % UIntRange, b % UIntRange);
  }

  lemma ModDistinct(a: nat, b: nat)
    requires a < b && b - a < UIntRange
    ensures a % UIntRange != b % UIntRange
  {
  }
}
