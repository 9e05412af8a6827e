/** Body site a specimen was taken from (Specimen::Source): bilateral ears, left arm, ... */
module SpecimenSource {
  datatype Source =
    | BE
    | OU
    | BN
    | BU
    | CT
    | LA
    | LAC
    | LACF
    | LD
    | LE
    | LEJ
    | OS
    | LF
    | LG
    | LH
    | LIJ
    | LLAQ
    | LLFA
    | LMFA
    | LN
    | LPC
    | LSC
    | LT
    | LUA
    | LUAQ
    | LUFA
    | LVG
    | LVL
    | NB
    | PA
    | PERIN
    | RA
    | RAC
    | RACF
    | RD
    | RE
    | REJ
    | OD
    | RF
    | RG
    | RH
    | RIJ
    | RLAQ
    | RLFA
    | RMFA
    | RN
    | RPC
    | RSC
    | RT
    | RUA
    | RUAQ
    | RUFA
    | RVL
    | RVG

  function SourceName(e: Source): string {
    match e
    case BE => "BE"
    case OU => "OU"
    case BN => "BN"
    case BU => "BU"
    case CT => "CT"
    case LA => "LA"
    case LAC => "LAC"
    case LACF => "LACF"
    case LD => "LD"
    case LE => "LE"
    case LEJ => "LEJ"
    case OS => "OS"
    case LF => "LF"
    case LG => "LG"
    case LH => "LH"
    case LIJ => "LIJ"
    case LLAQ => "LLAQ"
    case LLFA => "LLFA"
    case LMFA => "LMFA"
    case LN => "LN"
    case LPC => "LPC"
    case LSC => "LSC"
    case LT => "LT"
    case LUA => "LUA"
    case LUAQ => "LUAQ"
    case LUFA => "LUFA"
    case LVG => "LVG"
    case LVL => "LVL"
    case NB => "NB"
    case PA => "PA"
    case PERIN => "PERIN"
    case RA => "RA"
    case RAC => "RAC"
    case RACF => "RACF"
    case RD => "RD"
    case RE => "RE"
    case REJ => "REJ"
    case OD => "OD"
    case RF => "RF"
    case RG => "RG"
    case RH => "RH"
    case RIJ => "RIJ"
    case RLAQ => "RLAQ"
    case RLFA => "RLFA"
    case RMFA => "RMFA"
    case RN => "RN"
    case RPC => "RPC"
    case RSC => "RSC"
    case RT => "RT"
    case RUA => "RUA"
    case RUAQ => "RUAQ"
    case RUFA => "RUFA"
    case RVL => "RVL"
    case RVG => "RVG"
  }

  /** Specimen::IsValidSource: the codes are compared in the order of the enumeration. */
  predicate IsValidSource(source: string) {
    source == "BE" || source == "OU" || source == "BN" || source == "BU"
    || source == "CT" || source == "LA" || source == "LAC"
    || source == "LACF" || source == "LD" || source == "LE"
    || source == "LEJ" || source == "OS" || source == "LF" || source == "LG"
    || source == "LH" || source == "LIJ" || source == "LLAQ"
    || source == "LLFA" || source == "LMFA" || source == "LN"
    || source == "LPC" || source == "LSC" || source == "LT"
    || source == "LUA" || source == "LUAQ" || source == "LUFA"
    || source == "LVG" || source == "LVL" || source == "NB"
    || source == "PA" || source == "PERIN" || source == "RA"
    || source == "RAC" || source == "RACF" || source == "RD"
    || source == "RE" || source == "REJ" || source == "OD" || source == "RF"
    || source == "RG" || source == "RH" || source == "RIJ"
    || source == "RLAQ" || source == "RLFA" || source == "RMFA"
    || source == "RN" || source == "RPC" || source == "RSC"
    || source == "RT" || source == "RUA" || source == "RUAQ"
    || source == "RUFA" || source == "RVL" || source == "RVG"
  }

  /** Every enumerator's name is accepted. */
  lemma NameIsValid(e: Source)
    ensures IsValidSource(SourceName(e))
  {
  }

  /** The source codes accepted are exactly the names of the Source enumerators. */
  lemma ValidSourceIsSourceName(s: string)
    ensures IsValidSource(s) <==> exists e :: SourceName(e) == s
  {
    SourceGroup0(s); SourceGroup1(s);
  }

  // The witnesses for ValidSourceIsSourceName, in groups of the enumeration order; each
  // lemma evaluates a few names so that every proof obligation stays small.

  lemma SourceNames0(s: string)
    ensures SourceName(BE) == "BE"
    ensures SourceName(OU) == "OU"
    ensures SourceName(BN) == "BN"
    ensures SourceName(BU) == "BU"
    ensures SourceName(CT) == "CT"
    ensures SourceName(LA) == "LA"
    ensures SourceName(LAC) == "LAC"
    ensures SourceName(LACF) == "LACF"
    ensures s == "BE" || s == "OU" || s == "BN" || s == "BU" || s == "CT"
      || s == "LA" || s == "LAC" || s == "LACF"
      ==> exists e :: SourceName(e) == s
  {
  }

  lemma SourceNames1(s: string)
    ensures SourceName(LD) == "LD"
    ensures SourceName(LE) == "LE"
    ensures SourceName(LEJ) == "LEJ"
    ensures SourceName(OS) == "OS"
    ensures SourceName(LF) == "LF"
    ensures SourceName(LG) == "LG"
    ensures SourceName(LH) == "LH"
    ensures s == "LD" || s == "LE" || s == "LEJ" || s == "OS" || s == "LF"
      || s == "LG" || s == "LH"
      ==> exists e :: SourceName(e) == s
  {
  }

  lemma SourceNames2(s: string)
    ensures SourceName(LIJ) == "LIJ"
    ensures SourceName(LLAQ) == "LLAQ"
    ensures SourceName(LLFA) == "LLFA"
    ensures SourceName(LMFA) == "LMFA"
    ensures SourceName(LN) == "LN"
    ensures SourceName(LPC) == "LPC"
    ensures SourceName(LSC) == "LSC"
    ensures s == "LIJ" || s == "LLAQ" || s == "LLFA" || s == "LMFA" || s == "LN"
      || s == "LPC" || s == "LSC"
      ==> exists e :: SourceName(e) == s
  {
  }

  lemma SourceNames3(s: string)
    ensures SourceName(LT) == "LT"
    ensures SourceName(LUA) == "LUA"
    ensures SourceName(LUAQ) == "LUAQ"
    ensures SourceName(LUFA) == "LUFA"
    ensures SourceName(LVG) == "LVG"
    ensures SourceName(LVL) == "LVL"
    ensures s == "LT" || s == "LUA" || s == "LUAQ" || s == "LUFA" || s == "LVG"
      || s == "LVL"
      ==> exists e :: SourceName(e) == s
  {
  }

  lemma SourceNames4(s: string)
    ensures SourceName(NB) == "NB"
    ensures SourceName(PA) == "PA"
    ensures SourceName(PERIN) == "PERIN"
    ensures SourceName(RA) == "RA"
    ensures SourceName(RAC) == "RAC"
    ensures SourceName(RACF) == "RACF"
    ensures s == "NB" || s == "PA" || s == "PERIN" || s == "RA" || s == "RAC"
      || s == "RACF"
      ==> exists e :: SourceName(e) == s
  {
  }

  lemma SourceNames5(s: string)
    ensures SourceName(RD) == "RD"
    ensures SourceName(RE) == "RE"
    ensures SourceName(REJ) == "REJ"
    ensures SourceName(OD) == "OD"
    ensures SourceName(RF) == "RF"
    ensures s == "RD" || s == "RE" || s == "REJ" || s == "OD" || s == "RF"
      ==> exists e :: SourceName(e) == s
  {
  }

  lemma SourceNames6(s: string)
    ensures SourceName(RG) == "RG"
    ensures SourceName(RH) == "RH"
    ensures SourceName(RIJ) == "RIJ"
    ensures SourceName(RLAQ) == "RLAQ"
    ensures s == "RG" || s == "RH" || s == "RIJ" || s == "RLAQ"
      ==> exists e :: SourceName(e) == s
  {
  }

  lemma SourceNames7(s: string)
    ensures SourceName(RLFA) == "RLFA"
    ensures SourceName(RMFA) == "RMFA"
    ensures SourceName(RN) == "RN"
    ensures SourceName(RPC) == "RPC"
    ensures s == "RLFA" || s == "RMFA" || s == "RN" || s == "RPC"
      ==> exists e :: SourceName(e) == s
  {
  }

  lemma SourceNames8(s: string)
    ensures SourceName(RSC) == "RSC"
    ensures SourceName(RT) == "RT"
    ensures SourceName(RUA) == "RUA"
    ensures SourceName(RUAQ) == "RUAQ"
    ensures s == "RSC" || s == "RT" || s == "RUA" || s == "RUAQ"
      ==> exists e :: SourceName(e) == s
  {
  }

  lemma SourceNames9(s: string)
    ensures SourceName(RUFA) == "RUFA"
    ensures SourceName(RVL) == "RVL"
    ensures SourceName(RVG) == "RVG"
    ensures s == "RUFA" || s == "RVL" || s == "RVG"
      ==> exists e :: SourceName(e) == s
  {
  }

  lemma SourceGroup0(s: string)
    ensures s == "BE" || s == "OU" || s == "BN" || s == "BU" || s == "CT"
      || s == "LA" || s == "LAC" || s == "LACF" || s == "LD" || s == "LE"
      || s == "LEJ" || s == "OS" || s == "LF" || s == "LG" || s == "LH"
      || s == "LIJ" || s == "LLAQ" || s == "LLFA" || s == "LMFA" || s == "LN"
      || s == "LPC" || s == "LSC" || s == "LT" || s == "LUA" || s == "LUAQ"
      || s == "LUFA" || s == "LVG" || s == "LVL" || s == "NB" || s == "PA"
      || s == "PERIN" || s == "RA" || s == "RAC" || s == "RACF" || s == "RD"
      || s == "RE" || s == "REJ" || s == "OD" || s == "RF" || s == "RG"
      || s == "RH" || s == "RIJ" || s == "RLAQ" || s == "RLFA" || s == "RMFA"
      || s == "RN" || s == "RPC"
      ==> exists e :: SourceName(e) == s
  {
    SourceNames0(s); SourceNames1(s); SourceNames2(s); SourceNames3(s); SourceNames4(s); SourceNames5(s); SourceNames6(s); SourceNames7(s);
  }

  lemma SourceGroup1(s: string)
    ensures s == "RSC" || s == "RT" || s == "RUA" || s == "RUAQ" || s == "RUFA"
      || s == "RVL" || s == "RVG"
      ==> exists e :: SourceName(e) == s
  {
    SourceNames8(s); SourceNames9(s);
  }
}
