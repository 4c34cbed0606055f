/** Small wrapper types shared by every module: an optional value (a nullable
    column or an absent request field) and a success-or-error result (a
    response body or a raised ValidationError). */
module Basics {

  datatype Option<+T> = None | Some(value: T)

  datatype Result<+T, +E> = Ok(value: T) | Err(error: E)
}
