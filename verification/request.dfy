/** The body of the request message (REQ.R01). */
module Request {
  import opened Primitives

  /** What is requested: observations or device events. */
  datatype Type = ROBS | RDEV

  function TypeName(t: Type): string {
    match t
    case ROBS => "ROBS"
    case RDEV => "RDEV"
  }

  datatype Request = Request(requestType: CV)

  /** Request(): an empty request code, which is not a valid one. */
  function Default(): (r: Request)
    ensures r.requestType == WithCode("")
    ensures !IsValidCode(r.requestType.code)
  {
    Request(WithCode(""))
  }

  /** Request::IsValidCode. */
  predicate IsValidCode(reqCode: string) {
    reqCode == "ROBS" || reqCode == "RDEV"
  }

  /** The valid codes are exactly the names of the Type enumerators. */
  lemma ValidCodeIsTypeName(s: string)
    ensures IsValidCode(s) <==> exists t :: TypeName(t) == s
    ensures IsValidCode(s) <==> s in {"ROBS", "RDEV"}
  {
    if s == "ROBS" { assert TypeName(ROBS) == s; }
    if s == "RDEV" { assert TypeName(RDEV) == s; }
  }
}
