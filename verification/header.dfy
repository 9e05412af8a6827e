/** The header every message carries: identity, sequencing and version. */
module Header {
  import opened Wrappers
  import opened Primitives

  /** The message kinds of the standard, each a message name and trigger. */
  datatype MsgType =
    | REQ_R01     // request
    | ACK_R01     // acknowledgement
    | HEL_R01     // hello
    | OBS_R01     // patient observations
    | OBS_R02     // non-patient observations
    | EVS_R01     // device events
    | DST_R01     // device status
    | DTV_R01     // basic directive
    | DTV_R02     // complex directive
    | DTV_VENDOR  // vendor-specific directive
    | OPL_R01     // operator list, complete
    | OPL_R02     // operator list, incremental
    | PTL_R01     // patient list, complete
    | PTL_R02     // patient list, incremental
    | EOT_R01     // end of topic
    | ESC_R01     // escape
    | END_R01     // terminate

  /** The version every message of this standard declares. */
  const Version: string := "POCT1"

  /**
   * encodingChars, when present, follows section 2.8 (Message Delimiters) of
   * HL7 v2.4; it is only stored, never interpreted.
   */
  datatype Header = Header(
    controlId: string,
    versionId: string,
    creationDttm: Time,
    messageType: Option<CV>,
    encodingChars: Option<string>)

  /**
   * Header(): version "POCT1", an empty control ID, no message type and no
   * encoding characters. The creation time is left uninitialised by the
   * C++ constructor, so the caller supplies it here.
   */
  function Default(creationDttm: Time): (h: Header)
    ensures h.versionId == Version
    ensures h.controlId == ""
    ensures h.messageType == None && h.encodingChars == None
  {
    Header("", Version, creationDttm, None, None)
  }
}
