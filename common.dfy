/** Values shared by every part of the pool model: optional values and the
    exceptions the modelled code raises synchronously. */
module Common {

  /** An optional value; `None` stands for JavaScript's `null`/`undefined`. */
  datatype Option<T> = None | Some(value: T)

  /** The errors thrown by the modelled code. */
  datatype Error =
    | SizeNotPositive                // 'The promise pool size must be positive'
    | IndexOutOfBounds               // 'Index is out of bounds'
    | NotAnArray                     // 'The given parameter should be an array'
    | UnboundName(name: string)      // ReferenceError: read of an undeclared variable
    | ModuleNotFound(name: string)   // `require` of a strategy file that does not exist
    | ReadOfUndefined                // TypeError: property read on `undefined`
    | NotAFunction                   // TypeError: call of a value that is not a function

  /** Either a value or the error that was thrown instead. */
  datatype Result<T> = Ok(value: T) | Err(error: Error)
}
