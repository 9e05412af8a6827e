# POCT1-A message data model of accm-ttg, in Dafny

accm-ttg is a Qt application built around POCT1-A, the device messaging
standard of point-of-care testing (device hello, device
status, observations, requests, acknowledgements, end of topic, escape,
terminate). Its business layer describes every message as plain C++ structs
(`AccmDefinitions.h`) and wraps the bodies in eight message classes
(`Message.h`), one of which serves both observation kinds. Those two headers are the system modelled here.

What the model covers:

- **Data types** (`primitives.dfy`): the null-flavour codes, person names,
  physical quantities, intervals, coded values (CV) and coded values with
  transliterations (CE). CV's `operator<` compares codes with
  `std::string::compare` (`lexical.dfy`), and `operator==` compares all five
  fields.
- **Sets of coded values** (`cv_set.dfy`): a `std::set<CV>`, as used for a
  device's supported topics and directives, is a sequence kept strictly
  ordered by `operator<`. Inserting a value whose code is already present
  leaves the set unchanged.
- **Message bodies**: one module per struct (Ack, Directive, AccessControl,
  ConnectionProfile/Device, DeviceEvent, DeviceStatus, EndOfTopic, Escape,
  Header, Note, Observation, Operator, Order, Patient, Reagent, Request,
  ControlCalibration, Specimen, Service, Terminate).
  - Each module has its enumerations, the values its constructors leave,
    and its static `IsValid…` predicates.
  - For every validator, a lemma relates the strings it accepts to the
    names of the enumeration it checks against.
- **The envelope** (`message.dfy`): a header plus a body for each of the
  eight message classes. It models the kind each class reports, both
  `SetHeader` overloads and each class's getter/setter pair.
  - The process-wide control-ID counter `kMessageNum` is an `unsigned int`.
    It is threaded through the calls explicitly as a 32-bit value that wraps
    to zero.
  - `std::to_string` of the counter is `Decimal.ToDecimal`, and
    `Decimal.Parse` is a left inverse of it: parsing what it writes gives the number back.

Where the C++ code's behaviour differs from what its comments or enumerations suggest, the model follows the code:

- `Header::operator=` copies `version_id` from its argument, even though a
  comment there says it is always "POCT1". So a message stamped with a
  caller's header keeps the caller's version (`SetHeaderKeepsCallerVersion`).
- CE inherits `operator<` and `operator==` from CV. Two CEs that differ only
  in their transliterations therefore compare equal
  (`CEEqualIgnoresTransliterations`).
- `Service::IsValidStatus` rejects `INI`, although `INI` is a member of the
  `Service::Status` enumeration (`ValidStatusExcludesInitiate`).
- There is no validator for an operator's action code. None is modelled.

## Model

| member | source | states |
|---|---|---|
| Lexical.Compare | src/accmTtgBusiness/AccmDefinitions.h:220-222 | The sign of `std::string::compare` on two codes, which operator< tests for being negative: negative, zero or positive, normalised to -1, 0 or 1. |
| Lexical.CompareNegativeIffPrecedes | src/accmTtgBusiness/AccmDefinitions.h:220-222 | A negative comparison means exactly that the first code comes first lexicographically: it is a proper prefix, or it has the smaller character at the first difference. |
| Lexical.CompareZeroIffEqual | src/accmTtgBusiness/AccmDefinitions.h:220-222 | The comparison is zero exactly when the two codes are the same string. |
| Lexical.CompareAntisymmetric | src/accmTtgBusiness/AccmDefinitions.h:220-222 | Swapping the arguments negates the comparison. |
| Lexical.CompareTransitive | src/accmTtgBusiness/AccmDefinitions.h:220-222 | If a sorts before b and b before c, then a sorts before c. |
| Primitives.WithCode | src/accmTtgBusiness/AccmDefinitions.h:193 | CV(code) holds the given code and no display name or code-set fields. |
| Primitives.CEWithCode | src/accmTtgBusiness/AccmDefinitions.h:274 | CE(code) is CV(code) with no transliterations. |
| Primitives.LessDependsOnlyOnCode | src/accmTtgBusiness/AccmDefinitions.h:220-222 | CV's operator< is decided by the two codes alone; display names and code sets never change its answer. |
| Primitives.LessIffCodePrecedes | src/accmTtgBusiness/AccmDefinitions.h:220-222 | a < b exactly when a's code precedes b's code lexicographically. |
| Primitives.LessIrreflexive | src/accmTtgBusiness/AccmDefinitions.h:220-222 | No coded value is less than itself. |
| Primitives.LessAsymmetric | src/accmTtgBusiness/AccmDefinitions.h:220-222 | a < b excludes b < a. |
| Primitives.LessTransitive | src/accmTtgBusiness/AccmDefinitions.h:220-222 | operator< is transitive, so it is a valid ordering for std::set. |
| Primitives.UnorderedIffSameCode | src/accmTtgBusiness/AccmDefinitions.h:220-222 | Two coded values are mutually not-less (std::set treats them as the same element) exactly when their codes are equal. |
| Primitives.EqualIffSame | src/accmTtgBusiness/AccmDefinitions.h:228-234 | operator== holds exactly when all five fields agree. |
| Primitives.EqualImpliesUnordered | src/accmTtgBusiness/AccmDefinitions.h:220-234 | Values that are == are never ordered by <. |
| Primitives.UnorderedDoesNotImplyEqual | src/accmTtgBusiness/AccmDefinitions.h:220-234 | The converse fails: the same code with a different display name is neither < nor >, and not ==. |
| Primitives.CEEqualIgnoresTransliterations | src/accmTtgBusiness/AccmDefinitions.h:265-298 | CE equality, inherited from CV, compares only the primary coded value; changing the transliterations keeps a CE equal to itself. |
| CvSet.Insert | src/accmTtgBusiness/AccmDefinitions.h:636-640 | Inserting into a std::set<CV> keeps it strictly ordered by code. The result holds the old elements plus the new one exactly when no element had its code; otherwise the set is unchanged. Afterwards the code is present. |
| Directive.Default | src/accmTtgBusiness/AccmDefinitions.h:503 | A new directive's command is UNKOWN. |
| Device.DefaultCapabilities | src/accmTtgBusiness/AccmDefinitions.h:605 | DeviceStaticCapabilities() declares no connection profile, no supported topics or directives, and no maximum message size. |
| Device.New | src/accmTtgBusiness/AccmDefinitions.h:660 | Device(id) has that ID, all optional identity fields empty, static capabilities with no connection profile, topic or directive sets and no maximum message size, and an empty IP. |
| Header.Default | src/accmTtgBusiness/AccmDefinitions.h:1033 | Header() declares version "POCT1", an empty control ID, no message type and no encoding characters. |
| Note.Default | src/accmTtgBusiness/AccmDefinitions.h:1099 | Note() is an empty operator comment without a code. |
| Service.Default | src/accmTtgBusiness/AccmDefinitions.h:1983 | Service() has empty codes, no observations, reagents or notes, and none of the optional parts. |
| Primitives.DefaultPQ | src/accmTtgBusiness/AccmDefinitions.h:98 | PQ() has neither a value nor a unit. |
| Primitives.DefaultIVL | src/accmTtgBusiness/AccmDefinitions.h:136 | IVL() has no low or high value and no unit; the two indeterminate closed-end flags are the given ones. |
| DeviceEvent.Default | src/accmTtgBusiness/AccmDefinitions.h:757 | DeviceEvent() has an empty description; the indeterminate event time and severity are the given ones. |
| Reagent.Default | src/accmTtgBusiness/AccmDefinitions.h:1506 | Reagent() has no name and an empty lot-number code; the indeterminate expiration date is the given one. |
| Primitives.DefaultPN | src/accmTtgBusiness/AccmDefinitions.h:33 | PN() has an empty display name and none of the name components. |
| AccessControl.Default | src/accmTtgBusiness/AccmDefinitions.h:330 | AccessControl() allows no authentication method and has no password, dates or permission level. |
| Ack.Default | src/accmTtgBusiness/AccmDefinitions.h:415 | Ack() acknowledges no control ID and has no type, note or error detail. |
| DeviceStatus.Default | src/accmTtgBusiness/AccmDefinitions.h:816 | DeviceStatus() has no event count, no condition and none of the update times; the observation count and status time are the given ones. |
| EndOfTopic.Default | src/accmTtgBusiness/AccmDefinitions.h:901 | EndOfTopic() has an empty topic code, no update time and no control ID. |
| Escape.Default | src/accmTtgBusiness/AccmDefinitions.h:957 | Escape() escapes no control ID, with an empty detail code and no note. |
| Observation.Default | src/accmTtgBusiness/AccmDefinitions.h:1206 | Observation() has empty identifier and method codes (the empty method is not a valid one), no value, status, interpretation or limits, and no notes. |
| Operator.Default | src/accmTtgBusiness/AccmDefinitions.h:1333 | Operator() has an empty identifier code, no action and no name. |
| Order.Default | src/accmTtgBusiness/AccmDefinitions.h:1379 | Order() has an empty universal service code and no provider or order identifier. |
| Patient.Default | src/accmTtgBusiness/AccmDefinitions.h:1439 | Patient() has no identifier, location, name, birth date, gender, weight or height. |
| Request.Default | src/accmTtgBusiness/AccmDefinitions.h:1555 | Request() has an empty request code, which IsValidCode rejects. |
| ControlCalibration.Default | src/accmTtgBusiness/AccmDefinitions.h:1592 | ControlCalibration() has no name, lot number, expiration date, level or repetition count. |
| Terminate.Default | src/accmTtgBusiness/AccmDefinitions.h:2114 | Terminate() has an empty reason code and no note. |
| Specimen.Default | src/accmTtgBusiness/AccmDefinitions.h:1845 | Specimen() has no identifier, source or type. |
| Ack.ValidTypeIsAckTypeName | src/accmTtgBusiness/AccmDefinitions.h:462-464 | IsValidType accepts exactly the names of the AckType enumerators, AA and AE. |
| Ack.ValidCodeIsAckCodeValue | src/accmTtgBusiness/AccmDefinitions.h:395-480 | IsValidCode accepts exactly the numeric values of the AckCode enumerators. |
| Ack.ValidCodes | src/accmTtgBusiness/AccmDefinitions.h:395-480 | Those values are 0, 100-103 and 200-202. |
| Escape.ValidCodeIsCodeName | src/accmTtgBusiness/AccmDefinitions.h:948-1000 | IsValidCode accepts exactly the names of the Code enumerators, OTH, TOP and CNC. |
| Observation.ValidMethodIsMethodName | src/accmTtgBusiness/AccmDefinitions.h:1162-1282 | IsValidMethod accepts exactly the names of the Method enumerators, that is C, D, E, I, M and U. |
| Observation.ValidStatusIsStatusName | src/accmTtgBusiness/AccmDefinitions.h:1174-1302 | IsValidStatus accepts exactly the names of the Status enumerators, that is A, D, U and X. |
| Observation.QualitativeValueIsQualitativeName | src/accmTtgBusiness/AccmDefinitions.h:1145-1293 | IsQualitativeValue accepts exactly the names of the Qualitative enumerators. |
| Observation.ValidInterpretationIsInterpretationName | src/accmTtgBusiness/AccmDefinitions.h:1184-1314 | IsValidInterpretation accepts exactly the names of the Interpretation enumerators, where `null` is spelt "null". |
| Observation.QualitativeCodeCount | src/accmTtgBusiness/AccmDefinitions.h:1289-1293 | IsQualitativeValue accepts exactly eleven codes. |
| Observation.InterpretationCodeCount | src/accmTtgBusiness/AccmDefinitions.h:1309-1314 | IsValidInterpretation accepts exactly fourteen codes: the eleven qualitative ones plus LESS, GREATER and null. |
| Observation.QualitativeNameInjective | src/accmTtgBusiness/AccmDefinitions.h:1145-1160 | Different qualitative enumerators have different codes, so there are eleven qualitative codes. |
| Observation.InterpretationNameInjective | src/accmTtgBusiness/AccmDefinitions.h:1184-1200 | Different interpretation enumerators have different codes, so there are fourteen interpretation codes. |
| Observation.QualitativeIsInterpretation | src/accmTtgBusiness/AccmDefinitions.h:1289-1314 | Every qualitative value is also a valid interpretation. |
| Observation.InterpretationOnlyCodes | src/accmTtgBusiness/AccmDefinitions.h:1289-1314 | The interpretations that are not qualitative values are exactly LESS, GREATER and null. |
| Patient.ValidGenderIsGenderName | src/accmTtgBusiness/AccmDefinitions.h:1427-1496 | IsValidGender accepts exactly the names of the Gender enumerators, that is F, M, O, U, A and N. |
| Request.ValidCodeIsTypeName | src/accmTtgBusiness/AccmDefinitions.h:1547-1581 | IsValidCode accepts exactly the names of the Type enumerators, ROBS and RDEV. |
| SpecimenSource.NameIsValid | src/accmTtgBusiness/AccmDefinitions.h:1654-1904 | Every Source enumerator's name is an accepted source code. |
| SpecimenSource.ValidSourceIsSourceName | src/accmTtgBusiness/AccmDefinitions.h:1654-1904 | IsValidSource accepts exactly the names of the 54 Source enumerators. |
| SpecimenType.NameIsValid | src/accmTtgBusiness/AccmDefinitions.h:1714-1941 | Every Type enumerator's name is an accepted specimen type code. |
| SpecimenType.ValidTypeIsTypeName | src/accmTtgBusiness/AccmDefinitions.h:1714-1941 | IsValidType accepts exactly the names of the 125 Type enumerators. |
| Service.ValidRoleIsRoleName | src/accmTtgBusiness/AccmDefinitions.h:1951-2086 | IsValidRole accepts exactly the names of the seven Role enumerators, OBS, LQC, EQC, CVR, CAL, PRF and UNK. |
| Service.ValidStatusExcludesInitiate | src/accmTtgBusiness/AccmDefinitions.h:1964-2090 | IsValidStatus accepts exactly the Status names other than INI, that is NRM, OVR and UNK, and rejects INI. |
| Service.ValidReasonIsReasonName | src/accmTtgBusiness/AccmDefinitions.h:1974-2094 | IsValidReason accepts exactly the names of the Reason enumerators, NEW, RES and EDT. |
| Terminate.ValidReasonIsReasonName | src/accmTtgBusiness/AccmDefinitions.h:2104-2152 | IsValidReason accepts exactly the names of the Reason enumerators, NRM, ABN, USR and UNK. |
| Decimal.ToDecimal | src/accmTtgBusiness/Message.h:44 | std::to_string of a counter value is a non-empty string of decimal digits, with a leading zero only for zero itself. |
| Decimal.ParseToDecimal | src/accmTtgBusiness/Message.h:44 | Reading the decimal string back gives the number: to_string loses nothing. |
| Decimal.ToDecimalInjective | src/accmTtgBusiness/Message.h:44 | Different numbers get different decimal strings. |
| Message.Next | src/accmTtgBusiness/Message.h:44-66 | ++kMessageNum on an unsigned int adds one modulo 2^32; it yields 0 only after the largest value. |
| Message.GetMessageType | src/accmTtgBusiness/Message.h:61-479 | The kinds the message classes report never include device events, directives, operator lists or patient lists. |
| Message.MessageTypeIdentifiesClass | src/accmTtgBusiness/Message.h:104-479 | Each reported kind belongs to exactly one class: ACK_R01 to acknowledgements, DST_R01 to device status, and so on. OBS_R01 means observations with patient data and OBS_R02 observations without. |
| Message.SetHeader | src/accmTtgBusiness/Message.h:36-45 | SetHeader(head) advances the counter by one step. The new control ID is the new counter value written in decimal, and it reads back as that value. Every other header field is taken from head. The body and the reported kind are unchanged. |
| Message.SetHeaderWithControlId | src/accmTtgBusiness/Message.h:52-56 | SetHeader(head, control_id) stores head with exactly that control ID. It takes no counter, so the counter is not touched. The body and kind are unchanged. |
| Message.SetHeaderKeepsCallerVersion | src/accmTtgBusiness/AccmDefinitions.h:1044-1054 | Both overloads, with any control ID, keep the caller's version ID: a header that does not say "POCT1" is not corrected. |
| Message.SuccessiveControlIds | src/accmTtgBusiness/Message.h:42-66 | Two SetHeader calls in a row, away from the wrap, give the IDs n+1 and n+2, which differ. |
| Message.ControlIdRepeatsAfterWrap | src/accmTtgBusiness/Message.h:44-66 | After the largest counter value the ID is "0", and the call after that repeats the first ID ever issued, "1". |
| Message.SetHeaderTwice | src/accmTtgBusiness/Message.h:42-45 | Stamping twice leaves the second header, and the counter advanced by two steps. |
| Message.StampIdsDiffer | src/accmTtgBusiness/Message.h:42-45 | Two stamps fewer than 2^32 calls apart receive different control IDs, whether or not the counter wraps between them. |
| Message.SetHeaderEach | src/accmTtgBusiness/Message.h:42-66 | Stamping a batch in turn gives message i exactly head with the control ID `std::to_string` of the counter value n+i+1 wrapped to 32 bits, and message i's own body; the counter ends as many steps on as the batch is long. Any two IDs fewer than 2^32 stamps apart differ, also across the wrap. |
| Message.NewAck | src/accmTtgBusiness/Message.h:81-106 | A new acknowledgement message reports ACK_R01 and carries a default header, and its body is Ack(). |
| Message.NewDeviceStatus | src/accmTtgBusiness/Message.h:127-154 | A new device status message reports DST_R01 and carries a default header, and its body is DeviceStatus(). |
| Message.NewEscape | src/accmTtgBusiness/Message.h:177-202 | A new escape message reports ESC_R01 and carries a default header, and its body is Escape(). |
| Message.NewEndOfTopic | src/accmTtgBusiness/Message.h:223-250 | A new end-of-topic message reports EOT_R01 and carries a default header, and its body is EndOfTopic(). |
| Message.NewHello | src/accmTtgBusiness/Message.h:274-319 | A new hello message reports HEL_R01, carries a default header, and its device is Device("") with the given port and timeout. |
| Message.NewObservations | src/accmTtgBusiness/Message.h:364-386 | MessageObservations(isPatientInfo) reports OBS_R01 exactly when it carries patient information, and OBS_R02 otherwise. Its header is the default one and its service is Service(). |
| Message.NewRequest | src/accmTtgBusiness/Message.h:414-433 | A new request message reports REQ_R01 and carries a default header, and its body is Request(). |
| Message.NewTerminate | src/accmTtgBusiness/Message.h:460-479 | A new terminate message reports END_R01 and carries a default header, and its body is Terminate(). |
| Message.SetAck | src/accmTtgBusiness/Message.h:99-112 | After SetAck, GetAck returns the new acknowledgement. The header and kind are unchanged. |
| Message.AckAccessorLaws | src/accmTtgBusiness/Message.h:99-112 | Setting the acknowledgement just read changes nothing, and a second SetAck overrides the first. |
| Message.SetDeviceStatus | src/accmTtgBusiness/Message.h:145-162 | After SetDeviceStatus, GetDeviceStatus returns the new status. The header and kind are unchanged. |
| Message.SetEscape | src/accmTtgBusiness/Message.h:195-208 | After SetEscape, GetEscape returns the new escape. The header and kind are unchanged. |
| Message.SetEndOfTopic | src/accmTtgBusiness/Message.h:241-258 | After SetEndOfTopic, GetEndOfTopic returns the new end of topic. The header and kind are unchanged. |
| Message.SetDevice | src/accmTtgBusiness/Message.h:302-336 | After SetDevice, GetDevice returns the new device. The header and kind are unchanged. |
| Message.SetService | src/accmTtgBusiness/Message.h:392-398 | After SetService, GetService returns the new service. The header is unchanged, and so is the patient/non-patient kind chosen at construction. |
| Message.ServiceAccessorLaws | src/accmTtgBusiness/Message.h:392-398 | Setting the service just read changes nothing, and a second SetService overrides the first. |
| Message.SetRequest | src/accmTtgBusiness/Message.h:439-445 | After SetRequest, GetRequest returns the new request. The header and kind are unchanged. |
| Message.SetTerminate | src/accmTtgBusiness/Message.h:485-493 | After SetTerminate, GetTerminate returns the new terminate body. The header and kind are unchanged. |

## Left out

- The user interface, the database layer, the `BusinessLogic` class (which only starts the database), and the application's entry point. They are outside the message data model.
- Ownership and copying: messages are non-copyable in C++ and owned through `std::unique_ptr`. Here they are values. The self-assignment guards in the structs' `operator=` are then no-ops.
- The counter is modelled as a value passed in and returned. Concurrent use of the static `kMessageNum` from several threads is not modelled, and its initial value is a parameter.
- `time_t` and `struct tm` are opaque: an integer and a record of integers. No calendar arithmetic is modelled.
- C++ `int` fields (sequence numbers, maximum message size, AckCode values) are unbounded integers. Only the 32-bit counter's width matters to any property here, and that one is modelled.
- Character order is the order of character code points. `std::string::compare` orders by `char` values, which agrees for ASCII codes, the only codes the standard defines.
- Members that a default constructor leaves uninitialised, such as times, counts, the connection port and the timeout, are parameters of the model's constructors.
- The `Escape(const EndOfTopic&)` constructor (AccmDefinitions.h line 962) is not modelled. Its body assigns the end-of-topic to `*this`, which converts through the same constructor again, so the call never produces an escape. Escape copying is modelled by value, as its field-wise `operator=` does it.
- The commented-out hello accessors for the connection profile and static capabilities are not modelled: they are not part of the compiled code.
- Device-event, directive, operator-list and patient-list messages have no message class in `Message.h`. Only their header message kinds exist.
- An operator's action code has no validator in the code, so none is modelled.
- PQ's type parameter is kept. IVL's unused type parameter is dropped, since its fields are strings.
- Message.SetHeaderWithControlId: the model always stores the control ID value passed in. In C++ the ID is a `const std::string&`, and `header_ = head` runs before `header_.control_id = control_id`. A caller that passes the message's own `GetHeader()->control_id` therefore gets `head.control_id` stored, not the old ID. Reference aliasing is not modelled.
- The `MsgStatus` delivery-state enumeration is not modelled: no message class reads or writes it.
- Message.GetHeader has no contract of its own: it is the header field. The contracts of SetHeader and the constructors state what it returns.
- Message.GetMessageType does not consult `header.message_type`. Nothing in the code keeps that header field consistent with the message class, and the model does not either.
