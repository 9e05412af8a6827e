/** The body of the escape message (ESC.R01). */
module Escape {
  import opened Wrappers
  import opened Primitives

  /** Why the escape was sent: other reason, unsupported topic, or topic cannot be completed now. */
  datatype Code = OTH | TOP | CNC

  function CodeName(c: Code): string {
    match c
    case OTH => "OTH"
    case TOP => "TOP"
    case CNC => "CNC"
  }

  datatype Escape = Escape(escControlId: string, detail: CV, note: Option<string>)

  /** Escape(): no control ID, a detail code that is empty, no note. */
  function Default(): (e: Escape)
    ensures e.escControlId == ""
    ensures e.detail == WithCode("")
    ensures e.note == None
  {
    Escape("", WithCode(""), None)
  }

  /** Escape::IsValidCode. */
  predicate IsValidCode(escCode: string) {
    escCode == "OTH" || escCode == "TOP" || escCode == "CNC"
  }

  /** The valid codes are exactly the names of the Code enumerators. */
  lemma ValidCodeIsCodeName(s: string)
    ensures IsValidCode(s) <==> exists c :: CodeName(c) == s
    ensures IsValidCode(s) <==> s in {"OTH", "TOP", "CNC"}
  {
    if s == "OTH" { assert CodeName(Code.OTH) == s; }
    if s == "TOP" { assert CodeName(Code.TOP) == s; }
    if s == "CNC" { assert CodeName(Code.CNC) == s; }
  }
}
