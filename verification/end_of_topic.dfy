/** The body of the end-of-topic message (EOT.R01). */
module EndOfTopic {
  import opened Wrappers
  import opened Primitives

  /** The topic that has just been completed. */
  datatype Code = EVS | OBS | OPL | PTL

  datatype EndOfTopic = EndOfTopic(topic: CV, update: Option<Time>, eotControl: Option<string>)

  /** EndOfTopic(): an empty topic code, no update time, no control ID. */
  function Default(): (e: EndOfTopic)
    ensures e.topic == WithCode("")
    ensures e.update == None
    ensures e.eotControl == None
  {
    EndOfTopic(WithCode(""), None, None)
  }
}
