/** Results and errors shared by the geometry builder, the projector glue and the
    discretization constructors. Each error constructor stands for one Python exception. */
module Results {

  datatype Option<+T> = None | Some(value: T)

  datatype Error =
    /** `InputValidationError(actual, expected, name)` raised by the geometry builder */
    | InputValidationError(actual: int, expected: int, field: string)
    /** `NotImplementedError(message)` */
    | NotImplementedError(message: string)
    /** the float division by zero that Python raises as `ZeroDivisionError` */
    | ZeroDivisionError

  datatype Result<+T> = Ok(value: T) | Err(error: Error)
}
