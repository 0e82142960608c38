/** The optional value used for `string | null` results and for injected failures. */
module Wrappers {

  datatype Option<+T> = None | Some(value: T)
}
