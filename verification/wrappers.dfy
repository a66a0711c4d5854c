/** The conventional optional-value datatype: `None` stands for a value the
    program never obtained (an `undefined` field, a rejected service call). */
module Wrappers {

  datatype Option<+T> = None | Some(value: T)
}
