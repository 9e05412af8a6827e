/** The operator of a device, as reported with observations and in operator lists. */
module Operator {
  import opened Wrappers
  import opened Primitives

  /** In an incremental operator list: insert or delete the entry. */
  datatype Action = I | D

  datatype Operator = Operator(operatorId: CV, action: Option<Action>, name: Option<PN>)

  /** Operator(): an empty identifier code, no action and no name. */
  function Default(): (o: Operator)
    ensures o.operatorId == WithCode("")
    ensures o.action == None
    ensures o.name == None
  {
    Operator(WithCode(""), None, None)
  }
}
