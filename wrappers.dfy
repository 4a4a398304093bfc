/** Optional values. `None` stands for `undefined` and `null`; the empty
    string of a field, also falsy, is handled by `Naming.Truthy`. */
module Wrappers {

  datatype Option<+T> = None | Some(value: T)
}
