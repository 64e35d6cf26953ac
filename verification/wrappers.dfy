/** Option type used for results that may be unavailable. */
module Wrappers {

  /** `None` stands for a value the page cannot show as a number. */
  datatype Option<+T> = None | Some(value: T)
}
