/** Small failure-compatible datatypes shared by the rest of the model. */
module Wrappers {

  /** An optional value: Python's `None` versus a present value. */
  datatype Option<+T> = None | Some(value: T)

  /** The outcome of one key press: the loop either keeps running with a
      new state, or the handler asked the process to exit. */
  datatype Step<+S> = Continue(state: S) | Quit
}
