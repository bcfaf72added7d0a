/** What a save comes to. */
module Saving {

  /** One that failed may have landed all the same, until a power cut takes it back. */
  datatype Outcome = Written | Landed | NotWritten
}
