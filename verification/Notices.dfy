/** What the owner is told. */
module Notices {

  /** `urgent` notices are pushed as well as logged. */
  datatype Notice = Notice(text: string, urgent: bool)
}
