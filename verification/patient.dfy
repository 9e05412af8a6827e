/** The patient of a patient-context service. */
module Patient {
  import opened Wrappers
  import opened Primitives

  datatype Gender = F | M | O | U | A | N

  function GenderName(g: Gender): string {
    match g
    case F => "F"
    case M => "M"
    case O => "O"
    case U => "U"
    case A => "A"
    case N => "N"
  }

  datatype Patient = Patient(
    patientId: string,
    location: Option<string>,
    name: Option<PN>,
    birthDate: Option<Tm>,
    gender: Option<CV>,
    weight: Option<PQ<string>>,
    height: Option<PQ<string>>)

  /** Patient(): no identifier and none of the optional details. */
  function Default(): (p: Patient)
    ensures p.patientId == ""
    ensures p.location == None && p.name == None && p.birthDate == None
    ensures p.gender == None && p.weight == p.height == None
  {
    Patient("", None, None, None, None, None, None)
  }

  /** Patient::IsValidGender. */
  predicate IsValidGender(gender: string) {
    || gender == "F" || gender == "M" || gender == "O" || gender == "U"
    || gender == "A" || gender == "N"
  }

  /** The valid genders are exactly the names of the Gender enumerators. */
  lemma ValidGenderIsGenderName(s: string)
    ensures IsValidGender(s) <==> exists g :: GenderName(g) == s
    ensures IsValidGender(s) <==> s in {"F", "M", "O", "U", "A", "N"}
  {
    if s == "F" { assert GenderName(F) == s; }
    if s == "M" { assert GenderName(M) == s; }
    if s == "O" { assert GenderName(O) == s; }
    if s == "U" { assert GenderName(U) == s; }
    if s == "A" { assert GenderName(A) == s; }
    if s == "N" { assert GenderName(N) == s; }
  }
}
