/** A service of an observations message: one test event with its results and context. */
module Service {
  import opened Wrappers
  import opened Primitives
  import Observation
  import Operator
  import Reagent
  import Note
  import Patient
  import Order
  import Specimen
  import ControlCalibration

  /** Observation, liquid QC, electronic QC, calibration verification, calibration, proficiency, unknown. */
  datatype Role = OBS | LQC | EQC | CVR | CAL | PRF | UNK

  /** Normal, override, unknown, and INI, an IHE extension meaning "initiate POC testing". */
  datatype Status = NRM | OVR | UNK | INI

  /** New, resend, edited. */
  datatype Reason = NEW | RES | EDT

  function RoleName(r: Role): string {
    match r
    case OBS => "OBS"
    case LQC => "LQC"
    case EQC => "EQC"
    case CVR => "CVR"
    case CAL => "CAL"
    case PRF => "PRF"
    case UNK => "UNK"
  }

  function StatusName(s: Status): string {
    match s
    case NRM => "NRM"
    case OVR => "OVR"
    case UNK => "UNK"
    case INI => "INI"
  }

  function ReasonName(r: Reason): string {
    match r
    case NEW => "NEW"
    case RES => "RES"
    case EDT => "EDT"
  }

  datatype Service = Service(
    observationUid: CE,
    role: CV,
    observations: seq<Observation.Observation>,
    observationDttm: Time,
    status: Option<CV>,
    reason: Option<CV>,
    sequence: Option<int>,
    op: Option<Operator.Operator>,
    reagents: seq<Reagent.Reagent>,
    notes: seq<Note.Note>,
    // patient related
    patient: Option<Patient.Patient>,
    order: Option<Order.Order>,
    specimen: Option<Specimen.Specimen>,
    // non-patient related
    control: Option<ControlCalibration.ControlCalibration>)

  /**
   * Service(): empty codes, lists and optionals. The constructor leaves the
   * observation time indeterminate, so it is a parameter here.
   */
  function Default(observationDttm: Time): (s: Service)
    ensures s.observationUid == CEWithCode("") && s.role == WithCode("")
    ensures s.observations == [] && s.reagents == [] && s.notes == []
    ensures s.observationDttm == observationDttm
    ensures s.status.None? && s.reason.None? && s.sequence.None? && s.op.None?
    ensures s.patient.None? && s.order.None? && s.specimen.None? && s.control.None?
  {
    Service(CEWithCode(""), WithCode(""), [], observationDttm, None, None, None,
            None, [], [], None, None, None, None)
  }

  /** Service::IsValidRole (UNK is compared first). */
  predicate IsValidRole(role: string) {
    || role == "UNK" || role == "OBS" || role == "LQC" || role == "EQC"
    || role == "CVR" || role == "CAL" || role == "PRF"
  }

  /** Service::IsValidStatus. */
  predicate IsValidStatus(status: string) {
    status == "NRM" || status == "OVR" || status == "UNK"
  }

  /** Service::IsValidReason. */
  predicate IsValidReason(reason: string) {
    reason == "NEW" || reason == "RES" || reason == "EDT"
  }

  /** The role codes accepted are exactly the names of the Role enumerators. */
  lemma ValidRoleIsRoleName(s: string)
    ensures IsValidRole(s) <==> exists r :: RoleName(r) == s
    ensures IsValidRole(s) <==> s in {"OBS", "LQC", "EQC", "CVR", "CAL", "PRF", "UNK"}
  {
    if s == "OBS" { assert RoleName(OBS) == s; }
    if s == "LQC" { assert RoleName(LQC) == s; }
    if s == "EQC" { assert RoleName(EQC) == s; }
    if s == "CVR" { assert RoleName(CVR) == s; }
    if s == "CAL" { assert RoleName(CAL) == s; }
    if s == "PRF" { assert RoleName(PRF) == s; }
    if s == "UNK" { assert RoleName(Role.UNK) == s; }
  }

  /**
   * The status codes accepted are the names of the Status enumerators other
   * than the IHE extension INI, which the validator rejects.
   */
  lemma ValidStatusExcludesInitiate(s: string)
    ensures IsValidStatus(s) <==> exists st :: st != INI && StatusName(st) == s
    ensures !IsValidStatus(StatusName(INI))
    ensures IsValidStatus(s) <==> s in {"NRM", "OVR", "UNK"}
  {
    if s == "NRM" { assert StatusName(NRM) == s; }
    if s == "OVR" { assert StatusName(OVR) == s; }
    if s == "UNK" { assert StatusName(Status.UNK) == s; }
  }

  /** The reason codes accepted are exactly the names of the Reason enumerators. */
  lemma ValidReasonIsReasonName(s: string)
    ensures IsValidReason(s) <==> exists r :: ReasonName(r) == s
    ensures IsValidReason(s) <==> s in {"NEW", "RES", "EDT"}
  {
    if s == "NEW" { assert ReasonName(NEW) == s; }
    if s == "RES" { assert ReasonName(RES) == s; }
    if s == "EDT" { assert ReasonName(EDT) == s; }
  }
}
