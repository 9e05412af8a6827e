/** The body of the terminate message (END.R01). */
module Terminate {
  import opened Wrappers
  import opened Primitives

  /** Why the conversation ends: normal, abnormal, user request or unknown. */
  datatype Reason = NRM | ABN | USR | UNK

  function ReasonName(r: Reason): string {
    match r
    case NRM => "NRM"
    case ABN => "ABN"
    case USR => "USR"
    case UNK => "UNK"
  }

  datatype Terminate = Terminate(reason: CV, note: Option<string>)

  /** Terminate(): an empty reason code and no note. */
  function Default(): (t: Terminate)
    ensures t.reason == WithCode("")
    ensures t.note == None
  {
    Terminate(WithCode(""), None)
  }

  /** Terminate::IsValidReason. */
  predicate IsValidReason(trmReason: string) {
    trmReason == "NRM" || trmReason == "ABN" || trmReason == "USR" || trmReason == "UNK"
  }

  /** The valid reasons are exactly the names of the Reason enumerators. */
  lemma ValidReasonIsReasonName(s: string)
    ensures IsValidReason(s) <==> exists r :: ReasonName(r) == s
    ensures IsValidReason(s) <==> s in {"NRM", "ABN", "USR", "UNK"}
  {
    if s == "NRM" { assert ReasonName(NRM) == s; }
    if s == "ABN" { assert ReasonName(ABN) == s; }
    if s == "USR" { assert ReasonName(USR) == s; }
    if s == "UNK" { assert ReasonName(Reason.UNK) == s; }
  }
}
