/** The usual optional-value wrapper shared by every module of the model. */
module Wrappers {

  /** `None` stands for a JavaScript `undefined`/`null` result or a failed lookup. */
  datatype Option<+T> = None | Some(value: T)
}
