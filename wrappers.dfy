/** An optional value: the sensor write-back of a loop pass, the last command sent to a port. */
module Wrappers {
  datatype Option<+T> = None | Some(value: T)
}
