/** The optional value used wherever the scripts get `None` back or reach the end of input. */
module Wrappers {
  datatype Option<+T> = None | Some(value: T)
}
