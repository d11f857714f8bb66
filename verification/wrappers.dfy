/** The optional-value type used for absent query parameters, absent headers
    and URL strings the parser rejects. */
module Wrappers {

  /** `None` stands for JavaScript's `null` (or a thrown parse error);
      `Some(v)` carries the value. */
  datatype Option<+T> = None | Some(value: T)
}
