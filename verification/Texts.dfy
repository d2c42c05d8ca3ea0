/** Text checks shared by every component. */
module Texts {

  /** Nothing is left after trimming. */
  predicate Blank(text: string) {
    forall i :: 0 <= i < |text| ==> text[i] in {' ', '\t', '\n', '\r'}
  }
}
