/** One observation (test result) of an observations message. */
module Observation {
  import opened Wrappers
  import opened Primitives
  import opened Note

  /** Qualitative results. */
  datatype Qualitative = L | H | LL | HH | N | A | AA | U | D | B | W

  /** How a value was determined: calculated, default, estimated, input, measured or unknown. */
  datatype Method = C | D | E | I | M | U

  /** Accepted, discarded, unknown or rejected. */
  datatype Status = A | D | U | X

  /** Abnormal flags; Null (written "null") means no range is defined or applies. */
  datatype Interpretation =
    L | H | LL | HH | LESS | GREATER | N | A | AA | Null | U | D | B | W

  function QualitativeName(q: Qualitative): string {
    match q
    case L => "L"
    case H => "H"
    case LL => "LL"
    case HH => "HH"
    case N => "N"
    case A => "A"
    case AA => "AA"
    case U => "U"
    case D => "D"
    case B => "B"
    case W => "W"
  }

  function MethodName(m: Method): string {
    match m
    case C => "C"
    case D => "D"
    case E => "E"
    case I => "I"
    case M => "M"
    case U => "U"
  }

  function StatusName(s: Status): string {
    match s
    case A => "A"
    case D => "D"
    case U => "U"
    case X => "X"
  }

  function InterpretationName(i: Interpretation): string {
    match i
    case L => "L"
    case H => "H"
    case LL => "LL"
    case HH => "HH"
    case LESS => "LESS"
    case GREATER => "GREATER"
    case N => "N"
    case A => "A"
    case AA => "AA"
    case Null => "null"
    case U => "U"
    case D => "D"
    case B => "B"
    case W => "W"
  }

  datatype Observation = Observation(
    observationId: CE,
    value: Option<PQ<string>>,
    qualitativeValue: Option<CV>,
    obsMethod: CV,
    status: Option<CV>,
    interpretation: Option<CV>,
    normalLoHiLimit: Option<IVL>,
    criticalLoHiLimit: Option<IVL>,
    notes: seq<Note>)

  /** Observation(): empty identifier and method codes, no value, no notes. */
  function Default(): (o: Observation)
    ensures o.observationId == CEWithCode("")
    ensures o.obsMethod == WithCode("") && !IsValidMethod(o.obsMethod.code)
    ensures o.value == None && o.qualitativeValue == None
    ensures o.status == o.interpretation == None
    ensures o.normalLoHiLimit == o.criticalLoHiLimit == None
    ensures o.notes == []
  {
    Observation(CEWithCode(""), None, None, WithCode(""), None, None, None, None, [])
  }

  /** Observation::IsValidMethod. */
  predicate IsValidMethod(m: string) {
    || m == "C" || m == "D" || m == "E" || m == "I"
    || m == "M" || m == "U"
  }

  /** Observation::IsQualitativeValue. */
  predicate IsQualitativeValue(value: string) {
    || value == "L" || value == "H" || value == "LL" || value == "HH"
    || value == "N" || value == "A" || value == "AA" || value == "U"
    || value == "D" || value == "B" || value == "W"
  }

  /** Observation::IsValidStatus. */
  predicate IsValidStatus(status: string) {
    status == "A" || status == "D" || status == "U" || status == "X"
  }

  /** Observation::IsValidInterpretation. */
  predicate IsValidInterpretation(inter: string) {
    || inter == "L" || inter == "H" || inter == "LL" || inter == "HH"
    || inter == "LESS" || inter == "GREATER" || inter == "N"
    || inter == "A" || inter == "AA" || inter == "null" || inter == "U"
    || inter == "D" || inter == "B" || inter == "W"
  }

  lemma ValidMethodIsMethodName(s: string)
    ensures IsValidMethod(s) <==> exists m :: MethodName(m) == s
    ensures IsValidMethod(s) <==> s in {"C", "D", "E", "I", "M", "U"}
  {
    if s == "C" { assert MethodName(Method.C) == s; }
    if s == "D" { assert MethodName(Method.D) == s; }
    if s == "E" { assert MethodName(Method.E) == s; }
    if s == "I" { assert MethodName(Method.I) == s; }
    if s == "M" { assert MethodName(Method.M) == s; }
    if s == "U" { assert MethodName(Method.U) == s; }
  }

  lemma ValidStatusIsStatusName(s: string)
    ensures IsValidStatus(s) <==> exists st :: StatusName(st) == s
    ensures IsValidStatus(s) <==> s in {"A", "D", "U", "X"}
  {
    if s == "A" { assert StatusName(Status.A) == s; }
    if s == "D" { assert StatusName(Status.D) == s; }
    if s == "U" { assert StatusName(Status.U) == s; }
    if s == "X" { assert StatusName(Status.X) == s; }
  }

  lemma QualitativeValueIsQualitativeName(s: string)
    ensures IsQualitativeValue(s) <==> exists q :: QualitativeName(q) == s
  {
    if s == "L" { assert QualitativeName(Qualitative.L) == s; }
    if s == "H" { assert QualitativeName(Qualitative.H) == s; }
    if s == "LL" { assert QualitativeName(Qualitative.LL) == s; }
    if s == "HH" { assert QualitativeName(Qualitative.HH) == s; }
    if s == "N" { assert QualitativeName(Qualitative.N) == s; }
    if s == "A" { assert QualitativeName(Qualitative.A) == s; }
    if s == "AA" { assert QualitativeName(Qualitative.AA) == s; }
    if s == "U" { assert QualitativeName(Qualitative.U) == s; }
    if s == "D" { assert QualitativeName(Qualitative.D) == s; }
    if s == "B" { assert QualitativeName(Qualitative.B) == s; }
    if s == "W" { assert QualitativeName(Qualitative.W) == s; }
  }

  lemma ValidInterpretationIsInterpretationName(s: string)
    ensures IsValidInterpretation(s) <==> exists i :: InterpretationName(i) == s
  {
    if s == "L" { assert InterpretationName(Interpretation.L) == s; }
    if s == "H" { assert InterpretationName(Interpretation.H) == s; }
    if s == "LL" { assert InterpretationName(Interpretation.LL) == s; }
    if s == "HH" { assert InterpretationName(Interpretation.HH) == s; }
    if s == "LESS" { assert InterpretationName(LESS) == s; }
    if s == "GREATER" { assert InterpretationName(GREATER) == s; }
    if s == "N" { assert InterpretationName(Interpretation.N) == s; }
    if s == "A" { assert InterpretationName(Interpretation.A) == s; }
    if s == "AA" { assert InterpretationName(Interpretation.AA) == s; }
    if s == "null" { assert InterpretationName(Null) == s; }
    if s == "U" { assert InterpretationName(Interpretation.U) == s; }
    if s == "D" { assert InterpretationName(Interpretation.D) == s; }
    if s == "B" { assert InterpretationName(Interpretation.B) == s; }
    if s == "W" { assert InterpretationName(Interpretation.W) == s; }
  }

  /** Distinct qualitative enumerators have distinct names, so there are exactly eleven codes. */
  lemma QualitativeNameInjective(p: Qualitative, q: Qualitative)
    ensures QualitativeName(p) == QualitativeName(q) <==> p == q
  {
  }

  /** Distinct interpretation enumerators have distinct names, so there are exactly fourteen codes. */
  lemma InterpretationNameInjective(p: Interpretation, q: Interpretation)
    ensures InterpretationName(p) == InterpretationName(q) <==> p == q
  {
  }

  const QualitativeCodes: set<string> := {"L", "H", "LL", "HH", "N", "A", "AA", "U", "D", "B", "W"}

  const InterpretationCodes: set<string> :=
    {"L", "H", "LL", "HH", "LESS", "GREATER", "N", "A", "AA", "null", "U", "D", "B", "W"}

  /** IsQualitativeValue accepts exactly eleven codes. */
  lemma QualitativeCodeCount(s: string)
    ensures IsQualitativeValue(s) <==> s in QualitativeCodes
    ensures |QualitativeCodes| == 11
  {
  }

  /** IsValidInterpretation accepts exactly fourteen codes. */
  lemma InterpretationCodeCount(s: string)
    ensures IsValidInterpretation(s) <==> s in InterpretationCodes
    ensures |InterpretationCodes| == 14
  {
    var extra := {"LESS", "GREATER", "null"};
    assert InterpretationCodes == QualitativeCodes + extra;
    assert QualitativeCodes !! extra;
    QualitativeCodeCount(s);
  }

  /** Every qualitative value is also a valid interpretation ... */
  lemma QualitativeIsInterpretation(s: string)
    ensures IsQualitativeValue(s) ==> IsValidInterpretation(s)
  {
  }

  /** ... but not conversely: exactly the three off-scale and no-range codes are interpretation-only. */
  lemma InterpretationOnlyCodes(s: string)
    ensures IsValidInterpretation(s) && !IsQualitativeValue(s) <==> s in {"LESS", "GREATER", "null"}
  {
  }
}
