/** The body of the directive message: a command for the device to perform. */
module Directive {

  datatype DirectivesStandard =
    | SET_TIME
    | LOCK
    | UNLOCK
    | GOTO_STANDBY
    | GOTO_READY
    | START_CONTINUOUS
    | UNKOWN

  datatype Directive = Directive(command: DirectivesStandard)

  /** A directive built without a command falls back to UNKOWN (spelled as in the C++ enum). */
  function Default(): (d: Directive)
    ensures d.command == UNKOWN
  {
    Directive(UNKOWN)
  }
}
