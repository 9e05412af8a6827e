/** Kind of specimen (Specimen::Type): abscess, amniotic fluid, ... */
module SpecimenType {
  datatype Type =
    | ABS
    | AMN
    | ASP
    | BPH
    | BIFL
    | BLDA
    | BBL
    | BLDC
    | BLMV
    | BPU
    | BLDV
    | BON
    | BRTH
    | BRO
    | BRN
    | CALC
    | CDM
    | CNL
    | CTP
    | CSF
    | CVM
    | CVX
    | COL
    | BLDCO
    | CNJT
    | CUR
    | CYST
    | DIAF
    | DOSE
    | DRN
    | DUFL
    | EAR
    | EARW
    | ELT
    | ENDC
    | ENDM
    | EOS
    | RBC
    | EYE
    | EXG
    | FIB
    | FLT
    | FIST
    | FLU
    | GAS
    | GAST
    | GEN
    | GENC
    | GENL
    | GENV
    | HAR
    | IHG
    | IT
    | ISLT
    | LAM
    | WBC
    | LN
    | LNA
    | LNV
    | LIQ
    | LYM
    | MAC
    | MAR
    | MEC
    | MBLD
    | MLK
    | MILK
    | NAIL
    | NOS
    | ORH
    | PAFL
    | PAT
    | PRT
    | PLC
    | PLAS
    | PLB
    | PLR
    | PMN
    | PPP
    | PRP
    | PUS
    | RT
    | SAL
    | SMN
    | SER
    | SKN
    | SKM
    | SPRM
    | SPT
    | SPTC
    | SPTT
    | STON
    | STL
    | SWT
    | SNV
    | TEAR
    | THRT
    | THRB
    | TISS
    | TISG
    | TLGI
    | TLNG
    | TISPL
    | TSMI
    | TISU
    | TUB
    | ULC
    | UMB
    | UMED
    | URTH
    | UR
    | URC
    | URT
    | URNS
    | USUB
    | VITF
    | VOM
    | BLD
    | BDY
    | WAT
    | WICK
    | WND
    | WNDA
    | WNDE
    | WNDD

  function TypeName(e: Type): string {
    match e
    case ABS => "ABS"
    case AMN => "AMN"
    case ASP => "ASP"
    case BPH => "BPH"
    case BIFL => "BIFL"
    case BLDA => "BLDA"
    case BBL => "BBL"
    case BLDC => "BLDC"
    case BLMV => "BLMV"
    case BPU => "BPU"
    case BLDV => "BLDV"
    case BON => "BON"
    case BRTH => "BRTH"
    case BRO => "BRO"
    case BRN => "BRN"
    case CALC => "CALC"
    case CDM => "CDM"
    case CNL => "CNL"
    case CTP => "CTP"
    case CSF => "CSF"
    case CVM => "CVM"
    case CVX => "CVX"
    case COL => "COL"
    case BLDCO => "BLDCO"
    case CNJT => "CNJT"
    case CUR => "CUR"
    case CYST => "CYST"
    case DIAF => "DIAF"
    case DOSE => "DOSE"
    case DRN => "DRN"
    case DUFL => "DUFL"
    case EAR => "EAR"
    case EARW => "EARW"
    case ELT => "ELT"
    case ENDC => "ENDC"
    case ENDM => "ENDM"
    case EOS => "EOS"
    case RBC => "RBC"
    case EYE => "EYE"
    case EXG => "EXG"
    case FIB => "FIB"
    case FLT => "FLT"
    case FIST => "FIST"
    case FLU => "FLU"
    case GAS => "GAS"
    case GAST => "GAST"
    case GEN => "GEN"
    case GENC => "GENC"
    case GENL => "GENL"
    case GENV => "GENV"
    case HAR => "HAR"
    case IHG => "IHG"
    case IT => "IT"
    case ISLT => "ISLT"
    case LAM => "LAM"
    case WBC => "WBC"
    case LN => "LN"
    case LNA => "LNA"
    case LNV => "LNV"
    case LIQ => "LIQ"
    case LYM => "LYM"
    case MAC => "MAC"
    case MAR => "MAR"
    case MEC => "MEC"
    case MBLD => "MBLD"
    case MLK => "MLK"
    case MILK => "MILK"
    case NAIL => "NAIL"
    case NOS => "NOS"
    case ORH => "ORH"
    case PAFL => "PAFL"
    case PAT => "PAT"
    case PRT => "PRT"
    case PLC => "PLC"
    case PLAS => "PLAS"
    case PLB => "PLB"
    case PLR => "PLR"
    case PMN => "PMN"
    case PPP => "PPP"
    case PRP => "PRP"
    case PUS => "PUS"
    case RT => "RT"
    case SAL => "SAL"
    case SMN => "SMN"
    case SER => "SER"
    case SKN => "SKN"
    case SKM => "SKM"
    case SPRM => "SPRM"
    case SPT => "SPT"
    case SPTC => "SPTC"
    case SPTT => "SPTT"
    case STON => "STON"
    case STL => "STL"
    case SWT => "SWT"
    case SNV => "SNV"
    case TEAR => "TEAR"
    case THRT => "THRT"
    case THRB => "THRB"
    case TISS => "TISS"
    case TISG => "TISG"
    case TLGI => "TLGI"
    case TLNG => "TLNG"
    case TISPL => "TISPL"
    case TSMI => "TSMI"
    case TISU => "TISU"
    case TUB => "TUB"
    case ULC => "ULC"
    case UMB => "UMB"
    case UMED => "UMED"
    case URTH => "URTH"
    case UR => "UR"
    case URC => "URC"
    case URT => "URT"
    case URNS => "URNS"
    case USUB => "USUB"
    case VITF => "VITF"
    case VOM => "VOM"
    case BLD => "BLD"
    case BDY => "BDY"
    case WAT => "WAT"
    case WICK => "WICK"
    case WND => "WND"
    case WNDA => "WNDA"
    case WNDE => "WNDE"
    case WNDD => "WNDD"
  }

  /** Specimen::IsValidType: the codes are compared in the order of the enumeration. */
  predicate IsValidType(t: string) {
    t == "ABS" || t == "AMN" || t == "ASP" || t == "BPH" || t == "BIFL"
    || t == "BLDA" || t == "BBL" || t == "BLDC" || t == "BLMV" || t == "BPU"
    || t == "BLDV" || t == "BON" || t == "BRTH" || t == "BRO" || t == "BRN"
    || t == "CALC" || t == "CDM" || t == "CNL" || t == "CTP" || t == "CSF"
    || t == "CVM" || t == "CVX" || t == "COL" || t == "BLDCO" || t == "CNJT"
    || t == "CUR" || t == "CYST" || t == "DIAF" || t == "DOSE" || t == "DRN"
    || t == "DUFL" || t == "EAR" || t == "EARW" || t == "ELT" || t == "ENDC"
    || t == "ENDM" || t == "EOS" || t == "RBC" || t == "EYE" || t == "EXG"
    || t == "FIB" || t == "FLT" || t == "FIST" || t == "FLU" || t == "GAS"
    || t == "GAST" || t == "GEN" || t == "GENC" || t == "GENL"
    || t == "GENV" || t == "HAR" || t == "IHG" || t == "IT" || t == "ISLT"
    || t == "LAM" || t == "WBC" || t == "LN" || t == "LNA" || t == "LNV"
    || t == "LIQ" || t == "LYM" || t == "MAC" || t == "MAR" || t == "MEC"
    || t == "MBLD" || t == "MLK" || t == "MILK" || t == "NAIL" || t == "NOS"
    || t == "ORH" || t == "PAFL" || t == "PAT" || t == "PRT" || t == "PLC"
    || t == "PLAS" || t == "PLB" || t == "PLR" || t == "PMN" || t == "PPP"
    || t == "PRP" || t == "PUS" || t == "RT" || t == "SAL" || t == "SMN"
    || t == "SER" || t == "SKN" || t == "SKM" || t == "SPRM" || t == "SPT"
    || t == "SPTC" || t == "SPTT" || t == "STON" || t == "STL" || t == "SWT"
    || t == "SNV" || t == "TEAR" || t == "THRT" || t == "THRB"
    || t == "TISS" || t == "TISG" || t == "TLGI" || t == "TLNG"
    || t == "TISPL" || t == "TSMI" || t == "TISU" || t == "TUB"
    || t == "ULC" || t == "UMB" || t == "UMED" || t == "URTH" || t == "UR"
    || t == "URC" || t == "URT" || t == "URNS" || t == "USUB" || t == "VITF"
    || t == "VOM" || t == "BLD" || t == "BDY" || t == "WAT" || t == "WICK"
    || t == "WND" || t == "WNDA" || t == "WNDE" || t == "WNDD"
  }

  /** Every enumerator's name is accepted. */
  lemma NameIsValid(e: Type)
    ensures IsValidType(TypeName(e))
  {
  }

  /** The type codes accepted are exactly the names of the Type enumerators. */
  lemma ValidTypeIsTypeName(s: string)
    ensures IsValidType(s) <==> exists e :: TypeName(e) == s
  {
    TypeGroup0(s); TypeGroup1(s); TypeGroup2(s); TypeGroup3(s); TypeGroup4(s); TypeGroup5(s); TypeGroup6(s); TypeGroup7(s);
  }

  // The witnesses for ValidTypeIsTypeName, in groups of the enumeration order; each
  // lemma evaluates a few names so that every proof obligation stays small.

  lemma TypeNames0(s: string)
    ensures TypeName(ABS) == "ABS"
    ensures TypeName(AMN) == "AMN"
    ensures TypeName(ASP) == "ASP"
    ensures TypeName(BPH) == "BPH"
    ensures TypeName(BIFL) == "BIFL"
    ensures TypeName(BLDA) == "BLDA"
    ensures TypeName(BBL) == "BBL"
    ensures TypeName(BLDC) == "BLDC"
    ensures s == "ABS" || s == "AMN" || s == "ASP" || s == "BPH" || s == "BIFL"
      || s == "BLDA" || s == "BBL" || s == "BLDC"
      ==> exists e :: TypeName(e) == s
  {
  }

  lemma TypeNames1(s: string)
    ensures TypeName(BLMV) == "BLMV"
    ensures TypeName(BPU) == "BPU"
    ensures TypeName(BLDV) == "BLDV"
    ensures TypeName(BON) == "BON"
    ensures TypeName(BRTH) == "BRTH"
    ensures TypeName(BRO) == "BRO"
    ensures TypeName(BRN) == "BRN"
    ensures s == "BLMV" || s == "BPU" || s == "BLDV" || s == "BON" || s == "BRTH"
      || s == "BRO" || s == "BRN"
      ==> exists e :: TypeName(e) == s
  {
  }

  lemma TypeNames2(s: string)
    ensures TypeName(CALC) == "CALC"
    ensures TypeName(CDM) == "CDM"
    ensures TypeName(CNL) == "CNL"
    ensures TypeName(CTP) == "CTP"
    ensures TypeName(CSF) == "CSF"
    ensures TypeName(CVM) == "CVM"
    ensures TypeName(CVX) == "CVX"
    ensures s == "CALC" || s == "CDM" || s == "CNL" || s == "CTP" || s == "CSF"
      || s == "CVM" || s == "CVX"
      ==> exists e :: TypeName(e) == s
  {
  }

  lemma TypeNames3(s: string)
    ensures TypeName(COL) == "COL"
    ensures TypeName(BLDCO) == "BLDCO"
    ensures TypeName(CNJT) == "CNJT"
    ensures TypeName(CUR) == "CUR"
    ensures TypeName(CYST) == "CYST"
    ensures TypeName(DIAF) == "DIAF"
    ensures s == "COL" || s == "BLDCO" || s == "CNJT" || s == "CUR" || s == "CYST"
      || s == "DIAF"
      ==> exists e :: TypeName(e) == s
  {
  }

  lemma TypeNames4(s: string)
    ensures TypeName(DOSE) == "DOSE"
    ensures TypeName(DRN) == "DRN"
    ensures TypeName(DUFL) == "DUFL"
    ensures TypeName(EAR) == "EAR"
    ensures TypeName(EARW) == "EARW"
    ensures TypeName(ELT) == "ELT"
    ensures s == "DOSE" || s == "DRN" || s == "DUFL" || s == "EAR" || s == "EARW"
      || s == "ELT"
      ==> exists e :: TypeName(e) == s
  {
  }

  lemma TypeNames5(s: string)
    ensures TypeName(ENDC) == "ENDC"
    ensures TypeName(ENDM) == "ENDM"
    ensures TypeName(EOS) == "EOS"
    ensures TypeName(RBC) == "RBC"
    ensures TypeName(EYE) == "EYE"
    ensures s == "ENDC" || s == "ENDM" || s == "EOS" || s == "RBC" || s == "EYE"
      ==> exists e :: TypeName(e) == s
  {
  }

  lemma TypeNames6(s: string)
    ensures TypeName(EXG) == "EXG"
    ensures TypeName(FIB) == "FIB"
    ensures TypeName(FLT) == "FLT"
    ensures TypeName(FIST) == "FIST"
    ensures s == "EXG" || s == "FIB" || s == "FLT" || s == "FIST"
      ==> exists e :: TypeName(e) == s
  {
  }

  lemma TypeNames7(s: string)
    ensures TypeName(FLU) == "FLU"
    ensures TypeName(GAS) == "GAS"
    ensures TypeName(GAST) == "GAST"
    ensures TypeName(GEN) == "GEN"
    ensures s == "FLU" || s == "GAS" || s == "GAST" || s == "GEN"
      ==> exists e :: TypeName(e) == s
  {
  }

  lemma TypeNames8(s: string)
    ensures TypeName(GENC) == "GENC"
    ensures TypeName(GENL) == "GENL"
    ensures TypeName(GENV) == "GENV"
    ensures TypeName(HAR) == "HAR"
    ensures s == "GENC" || s == "GENL" || s == "GENV" || s == "HAR"
      ==> exists e :: TypeName(e) == s
  {
  }

  lemma TypeNames9(s: string)
    ensures TypeName(IHG) == "IHG"
    ensures TypeName(IT) == "IT"
    ensures TypeName(ISLT) == "ISLT"
    ensures s == "IHG" || s == "IT" || s == "ISLT"
      ==> exists e :: TypeName(e) == s
  {
  }

  lemma TypeNames10(s: string)
    ensures TypeName(LAM) == "LAM"
    ensures TypeName(WBC) == "WBC"
    ensures TypeName(LN) == "LN"
    ensures s == "LAM" || s == "WBC" || s == "LN"
      ==> exists e :: TypeName(e) == s
  {
  }

  lemma TypeNames11(s: string)
    ensures TypeName(LNA) == "LNA"
    ensures TypeName(LNV) == "LNV"
    ensures TypeName(LIQ) == "LIQ"
    ensures s == "LNA" || s == "LNV" || s == "LIQ"
      ==> exists e :: TypeName(e) == s
  {
  }

  lemma TypeNames12(s: string)
    ensures TypeName(LYM) == "LYM"
    ensures TypeName(MAC) == "MAC"
    ensures TypeName(MAR) == "MAR"
    ensures s == "LYM" || s == "MAC" || s == "MAR"
      ==> exists e :: TypeName(e) == s
  {
  }

  lemma TypeNames13(s: string)
    ensures TypeName(MEC) == "MEC"
    ensures TypeName(MBLD) == "MBLD"
    ensures TypeName(MLK) == "MLK"
    ensures s == "MEC" || s == "MBLD" || s == "MLK"
      ==> exists e :: TypeName(e) == s
  {
  }

  lemma TypeNames14(s: string)
    ensures TypeName(MILK) == "MILK"
    ensures TypeName(NAIL) == "NAIL"
    ensures s == "MILK" || s == "NAIL"
      ==> exists e :: TypeName(e) == s
  {
  }

  lemma TypeNames15(s: string)
    ensures TypeName(NOS) == "NOS"
    ensures TypeName(ORH) == "ORH"
    ensures s == "NOS" || s == "ORH"
      ==> exists e :: TypeName(e) == s
  {
  }

  lemma TypeNames16(s: string)
    ensures TypeName(PAFL) == "PAFL"
    ensures TypeName(PAT) == "PAT"
    ensures s == "PAFL" || s == "PAT"
      ==> exists e :: TypeName(e) == s
  {
  }

  lemma TypeNames17(s: string)
    ensures TypeName(PRT) == "PRT"
    ensures TypeName(PLC) == "PLC"
    ensures s == "PRT" || s == "PLC"
      ==> exists e :: TypeName(e) == s
  {
  }

  lemma TypeNames18(s: string)
    ensures TypeName(PLAS) == "PLAS"
    ensures TypeName(PLB) == "PLB"
    ensures s == "PLAS" || s == "PLB"
      ==> exists e :: TypeName(e) == s
  {
  }

  lemma TypeNames19(s: string)
    ensures TypeName(PLR) == "PLR"
    ensures TypeName(PMN) == "PMN"
    ensures s == "PLR" || s == "PMN"
      ==> exists e :: TypeName(e) == s
  {
  }

  lemma TypeNames20(s: string)
    ensures TypeName(PPP) == "PPP"
    ensures TypeName(PRP) == "PRP"
    ensures s == "PPP" || s == "PRP"
      ==> exists e :: TypeName(e) == s
  {
  }

  lemma TypeNames21(s: string)
    ensures TypeName(PUS) == "PUS"
    ensures TypeName(RT) == "RT"
    ensures s == "PUS" || s == "RT"
      ==> exists e :: TypeName(e) == s
  {
  }

  lemma TypeNames22(s: string)
    ensures TypeName(SAL) == "SAL"
    ensures TypeName(SMN) == "SMN"
    ensures s == "SAL" || s == "SMN"
      ==> exists e :: TypeName(e) == s
  {
  }

  lemma TypeNames23(s: string)
    ensures TypeName(SER) == "SER"
    ensures TypeName(SKN) == "SKN"
    ensures s == "SER" || s == "SKN"
      ==> exists e :: TypeName(e) == s
  {
  }

  lemma TypeNames24(s: string)
    ensures TypeName(SKM) == "SKM"
    ensures TypeName(SPRM) == "SPRM"
    ensures s == "SKM" || s == "SPRM"
      ==> exists e :: TypeName(e) == s
  {
  }

  lemma TypeNames25(s: string)
    ensures TypeName(SPT) == "SPT"
    ensures s == "SPT"
      ==> exists e :: TypeName(e) == s
  {
  }

  lemma TypeNames26(s: string)
    ensures TypeName(SPTC) == "SPTC"
    ensures s == "SPTC"
      ==> exists e :: TypeName(e) == s
  {
  }

  lemma TypeNames27(s: string)
    ensures TypeName(SPTT) == "SPTT"
    ensures s == "SPTT"
      ==> exists e :: TypeName(e) == s
  {
  }

  lemma TypeNames28(s: string)
    ensures TypeName(STON) == "STON"
    ensures s == "STON"
      ==> exists e :: TypeName(e) == s
  {
  }

  lemma TypeNames29(s: string)
    ensures TypeName(STL) == "STL"
    ensures s == "STL"
      ==> exists e :: TypeName(e) == s
  {
  }

  lemma TypeNames30(s: string)
    ensures TypeName(SWT) == "SWT"
    ensures s == "SWT"
      ==> exists e :: TypeName(e) == s
  {
  }

  lemma TypeNames31(s: string)
    ensures TypeName(SNV) == "SNV"
    ensures s == "SNV"
      ==> exists e :: TypeName(e) == s
  {
  }

  lemma TypeNames32(s: string)
    ensures TypeName(TEAR) == "TEAR"
    ensures s == "TEAR"
      ==> exists e :: TypeName(e) == s
  {
  }

  lemma TypeNames33(s: string)
    ensures TypeName(THRT) == "THRT"
    ensures s == "THRT"
      ==> exists e :: TypeName(e) == s
  {
  }

  lemma TypeNames34(s: string)
    ensures TypeName(THRB) == "THRB"
    ensures s == "THRB"
      ==> exists e :: TypeName(e) == s
  {
  }

  lemma TypeNames35(s: string)
    ensures TypeName(TISS) == "TISS"
    ensures s == "TISS"
      ==> exists e :: TypeName(e) == s
  {
  }

  lemma TypeNames36(s: string)
    ensures TypeName(TISG) == "TISG"
    ensures s == "TISG"
      ==> exists e :: TypeName(e) == s
  {
  }

  lemma TypeNames37(s: string)
    ensures TypeName(TLGI) == "TLGI"
    ensures s == "TLGI"
      ==> exists e :: TypeName(e) == s
  {
  }

  lemma TypeNames38(s: string)
    ensures TypeName(TLNG) == "TLNG"
    ensures s == "TLNG"
      ==> exists e :: TypeName(e) == s
  {
  }

  lemma TypeNames39(s: string)
    ensures TypeName(TISPL) == "TISPL"
    ensures s == "TISPL"
      ==> exists e :: TypeName(e) == s
  {
  }

  lemma TypeNames40(s: string)
    ensures TypeName(TSMI) == "TSMI"
    ensures s == "TSMI"
      ==> exists e :: TypeName(e) == s
  {
  }

  lemma TypeNames41(s: string)
    ensures TypeName(TISU) == "TISU"
    ensures s == "TISU"
      ==> exists e :: TypeName(e) == s
  {
  }

  lemma TypeNames42(s: string)
    ensures TypeName(TUB) == "TUB"
    ensures s == "TUB"
      ==> exists e :: TypeName(e) == s
  {
  }

  lemma TypeNames43(s: string)
    ensures TypeName(ULC) == "ULC"
    ensures s == "ULC"
      ==> exists e :: TypeName(e) == s
  {
  }

  lemma TypeNames44(s: string)
    ensures TypeName(UMB) == "UMB"
    ensures s == "UMB"
      ==> exists e :: TypeName(e) == s
  {
  }

  lemma TypeNames45(s: string)
    ensures TypeName(UMED) == "UMED"
    ensures s == "UMED"
      ==> exists e :: TypeName(e) == s
  {
  }

  lemma TypeNames46(s: string)
    ensures TypeName(URTH) == "URTH"
    ensures s == "URTH"
      ==> exists e :: TypeName(e) == s
  {
  }

  lemma TypeNames47(s: string)
    ensures TypeName(UR) == "UR"
    ensures s == "UR"
      ==> exists e :: TypeName(e) == s
  {
  }

  lemma TypeNames48(s: string)
    ensures TypeName(URC) == "URC"
    ensures s == "URC"
      ==> exists e :: TypeName(e) == s
  {
  }

  lemma TypeNames49(s: string)
    ensures TypeName(URT) == "URT"
    ensures s == "URT"
      ==> exists e :: TypeName(e) == s
  {
  }

  lemma TypeNames50(s: string)
    ensures TypeName(URNS) == "URNS"
    ensures s == "URNS"
      ==> exists e :: TypeName(e) == s
  {
  }

  lemma TypeNames51(s: string)
    ensures TypeName(USUB) == "USUB"
    ensures s == "USUB"
      ==> exists e :: TypeName(e) == s
  {
  }

  lemma TypeNames52(s: string)
    ensures TypeName(VITF) == "VITF"
    ensures s == "VITF"
      ==> exists e :: TypeName(e) == s
  {
  }

  lemma TypeNames53(s: string)
    ensures TypeName(VOM) == "VOM"
    ensures s == "VOM"
      ==> exists e :: TypeName(e) == s
  {
  }

  lemma TypeNames54(s: string)
    ensures TypeName(BLD) == "BLD"
    ensures s == "BLD"
      ==> exists e :: TypeName(e) == s
  {
  }

  lemma TypeNames55(s: string)
    ensures TypeName(BDY) == "BDY"
    ensures s == "BDY"
      ==> exists e :: TypeName(e) == s
  {
  }

  lemma TypeNames56(s: string)
    ensures TypeName(WAT) == "WAT"
    ensures s == "WAT"
      ==> exists e :: TypeName(e) == s
  {
  }

  lemma TypeNames57(s: string)
    ensures TypeName(WICK) == "WICK"
    ensures s == "WICK"
      ==> exists e :: TypeName(e) == s
  {
  }

  lemma TypeNames58(s: string)
    ensures TypeName(WND) == "WND"
    ensures s == "WND"
      ==> exists e :: TypeName(e) == s
  {
  }

  lemma TypeNames59(s: string)
    ensures TypeName(WNDA) == "WNDA"
    ensures s == "WNDA"
      ==> exists e :: TypeName(e) == s
  {
  }

  lemma TypeNames60(s: string)
    ensures TypeName(WNDE) == "WNDE"
    ensures s == "WNDE"
      ==> exists e :: TypeName(e) == s
  {
  }

  lemma TypeNames61(s: string)
    ensures TypeName(WNDD) == "WNDD"
    ensures s == "WNDD"
      ==> exists e :: TypeName(e) == s
  {
  }

  lemma TypeGroup0(s: string)
    ensures s == "ABS" || s == "AMN" || s == "ASP" || s == "BPH" || s == "BIFL"
      || s == "BLDA" || s == "BBL" || s == "BLDC" || s == "BLMV" || s == "BPU"
      || s == "BLDV" || s == "BON" || s == "BRTH" || s == "BRO" || s == "BRN"
      || s == "CALC" || s == "CDM" || s == "CNL" || s == "CTP" || s == "CSF"
      || s == "CVM" || s == "CVX" || s == "COL" || s == "BLDCO" || s == "CNJT"
      || s == "CUR" || s == "CYST" || s == "DIAF" || s == "DOSE" || s == "DRN"
      || s == "DUFL" || s == "EAR" || s == "EARW" || s == "ELT" || s == "ENDC"
      || s == "ENDM" || s == "EOS" || s == "RBC" || s == "EYE" || s == "EXG"
      || s == "FIB" || s == "FLT" || s == "FIST" || s == "FLU" || s == "GAS"
      || s == "GAST" || s == "GEN"
      ==> exists e :: TypeName(e) == s
  {
    TypeNames0(s); TypeNames1(s); TypeNames2(s); TypeNames3(s); TypeNames4(s); TypeNames5(s); TypeNames6(s); TypeNames7(s);
  }

  lemma TypeGroup1(s: string)
    ensures s == "GENC" || s == "GENL" || s == "GENV" || s == "HAR" || s == "IHG"
      || s == "IT" || s == "ISLT" || s == "LAM" || s == "WBC" || s == "LN"
      || s == "LNA" || s == "LNV" || s == "LIQ" || s == "LYM" || s == "MAC"
      || s == "MAR" || s == "MEC" || s == "MBLD" || s == "MLK" || s == "MILK"
      || s == "NAIL" || s == "NOS" || s == "ORH"
      ==> exists e :: TypeName(e) == s
  {
    TypeNames8(s); TypeNames9(s); TypeNames10(s); TypeNames11(s); TypeNames12(s); TypeNames13(s); TypeNames14(s); TypeNames15(s);
  }

  lemma TypeGroup2(s: string)
    ensures s == "PAFL" || s == "PAT" || s == "PRT" || s == "PLC" || s == "PLAS"
      || s == "PLB" || s == "PLR" || s == "PMN" || s == "PPP" || s == "PRP"
      || s == "PUS" || s == "RT" || s == "SAL" || s == "SMN" || s == "SER"
      || s == "SKN"
      ==> exists e :: TypeName(e) == s
  {
    TypeNames16(s); TypeNames17(s); TypeNames18(s); TypeNames19(s); TypeNames20(s); TypeNames21(s); TypeNames22(s); TypeNames23(s);
  }

  lemma TypeGroup3(s: string)
    ensures s == "SKM" || s == "SPRM" || s == "SPT" || s == "SPTC" || s == "SPTT"
      || s == "STON" || s == "STL" || s == "SWT" || s == "SNV"
      ==> exists e :: TypeName(e) == s
  {
    TypeNames24(s); TypeNames25(s); TypeNames26(s); TypeNames27(s); TypeNames28(s); TypeNames29(s); TypeNames30(s); TypeNames31(s);
  }

  lemma TypeGroup4(s: string)
    ensures s == "TEAR" || s == "THRT" || s == "THRB" || s == "TISS" || s == "TISG"
      || s == "TLGI" || s == "TLNG" || s == "TISPL"
      ==> exists e :: TypeName(e) == s
  {
    TypeNames32(s); TypeNames33(s); TypeNames34(s); TypeNames35(s); TypeNames36(s); TypeNames37(s); TypeNames38(s); TypeNames39(s);
  }

  lemma TypeGroup5(s: string)
    ensures s == "TSMI" || s == "TISU" || s == "TUB" || s == "ULC" || s == "UMB"
      || s == "UMED" || s == "URTH" || s == "UR"
      ==> exists e :: TypeName(e) == s
  {
    TypeNames40(s); TypeNames41(s); TypeNames42(s); TypeNames43(s); TypeNames44(s); TypeNames45(s); TypeNames46(s); TypeNames47(s);
  }

  lemma TypeGroup6(s: string)
    ensures s == "URC" || s == "URT" || s == "URNS" || s == "USUB" || s == "VITF"
      || s == "VOM" || s == "BLD" || s == "BDY"
      ==> exists e :: TypeName(e) == s
  {
    TypeNames48(s); TypeNames49(s); TypeNames50(s); TypeNames51(s); TypeNames52(s); TypeNames53(s); TypeNames54(s); TypeNames55(s);
  }

  lemma TypeGroup7(s: string)
    ensures s == "WAT" || s == "WICK" || s == "WND" || s == "WNDA" || s == "WNDE"
      || s == "WNDD"
      ==> exists e :: TypeName(e) == s
  {
    TypeNames56(s); TypeNames57(s); TypeNames58(s); TypeNames59(s); TypeNames60(s); TypeNames61(s);
  }
}
