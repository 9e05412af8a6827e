/**
 * The primitive clinical data types of the POCT1-A vocabulary: null flavours,
 * person names, physical quantities, intervals and coded values.
 */
module Primitives {
  import opened Wrappers
  import Lexical

  /** A time_t: seconds since the epoch. Only stored, never computed with. */
  type Time = int

  /** A broken-down calendar time (std::tm). Only stored, never computed with. */
  datatype Tm = Tm(
    sec: int, min: int, hour: int, mday: int, mon: int, year: int,
    wday: int, yday: int, isdst: int)

  /** Why a field carries no concrete value. */
  datatype NullCode = NI | NA | UNK | NASK | ASKU | NAV | OTH | PINF | NINF | NOT_NULL

  /** A person name: the display form plus optional structured components. */
  datatype PN = PN(
    value: string,
    given: Option<string>,
    middle: Option<string>,
    family: Option<string>,
    prefix: Option<string>,
    suffix: Option<string>,
    delimiter: Option<string>)

  /** PN(): an empty display name and no components. */
  function DefaultPN(): (p: PN)
    ensures p.value == ""
    ensures p.given == p.middle == p.family == None
    ensures p.prefix == p.suffix == p.delimiter == None
  {
    PN("", None, None, None, None, None, None)
  }

  /** A physical quantity: a value and its unit, each independently optional. */
  datatype PQ<T> = PQ(value: Option<T>, unit: Option<string>)

  /** PQ<std::string>(), the only instantiation the structs use: neither a value nor a unit. */
  function DefaultPQ(): (q: PQ<string>)
    ensures q.value == None && q.unit == None
  {
    PQ(None, None)
  }

  /**
   * An interval of values sharing one unit. The bounds are strings whatever
   * the instantiation, so the element type of the C++ template is dropped.
   */
  datatype IVL = IVL(
    closedLow: bool,
    closedHigh: bool,
    valueLow: Option<string>,
    valueHigh: Option<string>,
    unit: Option<string>)

  /**
   * IVL(): no bounds and no unit. Whether each end is closed is left
   * uninitialised by the C++ constructor, so the caller supplies it here.
   */
  function DefaultIVL(closedLow: bool, closedHigh: bool): (v: IVL)
    ensures v.closedLow == closedLow && v.closedHigh == closedHigh
    ensures v.valueLow == v.valueHigh == None
    ensures v.unit == None
  {
    IVL(closedLow, closedHigh, None, None, None)
  }

  /** A coded value: a code and, optionally, its display text and code system. */
  datatype CV = CV(
    code: string,
    displayName: Option<string>,
    codeSetId: Option<string>,
    codeSetName: Option<string>,
    codeSetVersion: Option<string>)

  /** CV(code): a coded value carrying only its code. CV() is WithCode(""). */
  function WithCode(code: string): (cv: CV)
    ensures cv.code == code
    ensures cv.displayName == cv.codeSetId == cv.codeSetName == cv.codeSetVersion == None
  {
    CV(code, None, None, None, None)
  }

  /** operator<: orders coded values by their code alone. */
  predicate Less(a: CV, b: CV) {
    Lexical.Compare(a.code, b.code) < 0
  }

  /** operator==: all five fields agree. */
  predicate Equal(a: CV, b: CV) {
    && a.code == b.code
    && a.displayName == b.displayName
    && a.codeSetId == b.codeSetId
    && a.codeSetName == b.codeSetName
    && a.codeSetVersion == b.codeSetVersion
  }

  /** A coded value plus transliterations of the same concept into other code systems. */
  datatype CE = CE(cv: CV, transliterations: seq<CV>)

  /** CE(code): CE() is CEWithCode(""). */
  function CEWithCode(code: string): (ce: CE)
    ensures ce.cv == WithCode(code)
    ensures ce.transliterations == []
  {
    CE(WithCode(code), [])
  }

  /** The equality a CE inherits from CV looks at the CV part only. */
  predicate CEEqual(a: CE, b: CE) {
    Equal(a.cv, b.cv)
  }

  /** Less is decided by the codes: the other four fields never matter. */
  lemma LessDependsOnlyOnCode(a: CV, b: CV, a': CV, b': CV)
    requires a.code == a'.code && b.code == b'.code
    ensures Less(a, b) <==> Less(a', b')
  {
  }

  /** Less agrees with the lexicographic order of the codes. */
  lemma LessIffCodePrecedes(a: CV, b: CV)
    ensures Less(a, b) <==> Lexical.Precedes(a.code, b.code)
  {
    Lexical.CompareNegativeIffPrecedes(a.code, b.code);
  }

  lemma LessIrreflexive(a: CV)
    ensures !Less(a, a)
  {
    Lexical.CompareZeroIffEqual(a.code, a.code);
  }

  lemma LessAsymmetric(a: CV, b: CV)
    ensures Less(a, b) ==> !Less(b, a)
  {
    Lexical.CompareAntisymmetric(a.code, b.code);
  }

  lemma LessTransitive(a: CV, b: CV, c: CV)
    requires Less(a, b) && Less(b, c)
    ensures Less(a, c)
  {
    Lexical.CompareTransitive(a.code, b.code, c.code);
  }

  /**
   * Less is a strict weak order whose classes of mutually unordered values are
   * the classes of values sharing a code.
   */
  lemma UnorderedIffSameCode(a: CV, b: CV)
    ensures !Less(a, b) && !Less(b, a) <==> a.code == b.code
  {
    Lexical.CompareZeroIffEqual(a.code, b.code);
    Lexical.CompareAntisymmetric(a.code, b.code);
  }

  /** Equal is structural equality of all fields. */
  lemma EqualIffSame(a: CV, b: CV)
    ensures Equal(a, b) <==> a == b
  {
  }

  /** Equal values are mutually not-less. */
  lemma EqualImpliesUnordered(a: CV, b: CV)
    requires Equal(a, b)
    ensures !Less(a, b) && !Less(b, a)
  {
    LessIrreflexive(a);
  }

  /** Mutually not-less values need not be equal: a display name is enough to tell them apart. */
  lemma UnorderedDoesNotImplyEqual(code: string, name: string)
    ensures var a := WithCode(code);
            var b := a.(displayName := Some(name));
            !Less(a, b) && !Less(b, a) && !Equal(a, b)
  {
    var a := WithCode(code);
    LessIrreflexive(a);
  }

  /**
   * CE equality inherited from CV compares the primary coded values and
   * ignores the transliterations: replacing them keeps a CE "equal".
   */
  lemma CEEqualIgnoresTransliterations(a: CE, b: CE, t: seq<CV>)
    ensures CEEqual(a, b) <==> a.cv == b.cv
    ensures CEEqual(a, a.(transliterations := t))
  {
  }
}
