/** The optional and outcome types shared by the whole model. `Option` stands in for
    the C# nullable reference (`null` is `None`), `Result` for a call that either
    returns a value or throws. */
module Wrappers {

  datatype Option<+T> = None | Some(value: T)

  datatype Result<+R, +E> = Success(value: R) | Failure(error: E)
}
