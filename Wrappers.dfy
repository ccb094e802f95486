/** The optional value used wherever a JavaScript value may be absent
    (`undefined`, `NaN`, a missing field). */
module Wrappers {

  datatype Option<+T> = None | Some(value: T)
}
