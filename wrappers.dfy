/** Python's `None` next to a present value, for the agent's `reward` field. */
module Wrappers {

  datatype Option<+T> = None | Some(value: T)

}
