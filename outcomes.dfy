/** Result shapes shared by the models: PHP's `null` return and PHP's thrown exceptions. */
module Outcomes {

  /** A value or PHP's `null`. */
  datatype Option<+T> = None | Some(value: T)

  /** A thrown PHP exception: the name of its class and its message. */
  datatype Exception = Exception(kind: string, message: string)

  /** Either the value a PHP call returns or the exception it throws. */
  datatype Result<+T> = Ok(value: T) | Thrown(error: Exception)
}
