/** A note attached to observations, services and operator lists. */
module Note {
  import opened Wrappers

  /** What a note is used for (Note::MsgType in the C++ code). */
  datatype NoteType = OPERATOR_COMMENT | ABNORMAL_FLAG

  datatype Note = Note(typeCd: NoteType, text: string, code: Option<string>)

  /** Note(): an empty operator comment. */
  function Default(): (n: Note)
    ensures n.typeCd == OPERATOR_COMMENT
    ensures n.text == "" && n.code == None
  {
    Note(OPERATOR_COMMENT, "", None)
  }
}
