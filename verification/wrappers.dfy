/** An optional value: stands for a value `Floater` may not have (a missing
    component, or a vector whose computation divided by zero). */
module Wrappers {

  datatype Option<+T> = None | Some(value: T)
}
