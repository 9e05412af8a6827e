/** The body of the acknowledgement message (ACK.R01). */
module Ack {
  import opened Wrappers
  import opened Primitives

  /** Whether the acknowledged message was accepted (AA) or in error (AE). */
  datatype AckType = AA | AE

  function AckTypeName(t: AckType): string {
    match t
    case AA => "AA"
    case AE => "AE"
  }

  /** The error codes an acknowledgement can report. */
  datatype AckCode =
    | SUCCESS
    | SEQUENCE_ERROR
    | FIELD_MISSING
    | DATA_TYPE_ERROR
    | VALUE_NOT_FOUND
    | FIELD_NOT_SUPPORTED
    | VERSION_ID_NOT_SUPPORTED
    | APP_INTERNAL_ERROR

  /** The explicit underlying values of the AckCode enumerators. */
  function AckCodeValue(c: AckCode): int {
    match c
    case SUCCESS => 0
    case SEQUENCE_ERROR => 100
    case FIELD_MISSING => 101
    case DATA_TYPE_ERROR => 102
    case VALUE_NOT_FOUND => 103
    case FIELD_NOT_SUPPORTED => 200
    case VERSION_ID_NOT_SUPPORTED => 201
    case APP_INTERNAL_ERROR => 202
  }

  datatype Ack = Ack(
    ackControlId: string,
    ackType: Option<CV>,
    noteTxt: Option<string>,
    errorDetail: Option<CV>)

  /** Ack(): every field is empty or unset. */
  function Default(): (a: Ack)
    ensures a.ackControlId == ""
    ensures a.ackType == a.errorDetail == None
    ensures a.noteTxt == None
  {
    Ack("", None, None, None)
  }

  /** Ack::IsValidType. */
  predicate IsValidType(ackType: string) {
    ackType == "AA" || ackType == "AE"
  }

  /** Ack::IsValidCode: the code is the value of one of the AckCode enumerators. */
  predicate IsValidCode(ackCode: int) {
    || ackCode == AckCodeValue(SUCCESS)
    || ackCode == AckCodeValue(SEQUENCE_ERROR)
    || ackCode == AckCodeValue(FIELD_MISSING)
    || ackCode == AckCodeValue(DATA_TYPE_ERROR)
    || ackCode == AckCodeValue(VALUE_NOT_FOUND)
    || ackCode == AckCodeValue(FIELD_NOT_SUPPORTED)
    || ackCode == AckCodeValue(VERSION_ID_NOT_SUPPORTED)
    || ackCode == AckCodeValue(APP_INTERNAL_ERROR)
  }

  /** The valid types are exactly the names of the AckType enumerators. */
  lemma ValidTypeIsAckTypeName(s: string)
    ensures IsValidType(s) <==> exists t :: AckTypeName(t) == s
  {
    if s == "AA" { assert AckTypeName(AA) == s; }
    if s == "AE" { assert AckTypeName(AE) == s; }
  }

  /** The valid codes are exactly the values of the AckCode enumerators. */
  lemma ValidCodeIsAckCodeValue(n: int)
    ensures IsValidCode(n) <==> exists c :: AckCodeValue(c) == n
  {
  }

  /** The valid codes, written out. */
  lemma ValidCodes(n: int)
    ensures IsValidCode(n) <==> n in {0, 100, 101, 102, 103, 200, 201, 202}
  {
  }
}
