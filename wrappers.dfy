/** Wrappers shared by the modules of the model: `Option`
    stands for a Java reference that may be `null`, `Outcome` for a `void`
    operation that may fail with an error value. */
module Wrappers {

  datatype Option<+T> = None | Some(value: T)

  datatype Outcome<+E> = Pass | Fail(error: E)
}
