/** Failure-carrying values shared by the modules of this model.  The engine
    reports failures by throwing; here an operation that can fail returns one
    of these instead. */
module Results {

  datatype Option<+T> = None | Some(value: T)

  /** The exceptions the modelled code raises, by kind. */
  datatype Failure =
    | IllegalArgument(message: string)     // raised by the argument validators
    | TemplateProcessing(message: string)  // a TemplateProcessingException
    | LevelUnderflow                       // popping the root level of the engine context

  /** Result of an operation that yields a value or throws. */
  datatype Result<+T> = Ok(value: T) | Err(failure: Failure)

  /** Result of an operation that returns nothing or throws. */
  datatype Outcome = Done | Fail(failure: Failure)
}
