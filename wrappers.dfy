/** The optional value used wherever the agent works with Python's `None`. */
module Wrappers {

  datatype Option<+T> = None | Some(value: T)

  /** A three-valued `True | False | None` result is one of exactly those three. */
  lemma OptionBoolCases(o: Option<bool>)
    ensures o == None || o == Some(true) || o == Some(false)
  {
    match o
    case Some(v) => assert v == true || v == false;
    case None =>
  }
}
