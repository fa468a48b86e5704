// Results of operations that may fail, with the Python exception they fail with.
module Outcomes {

  datatype Option<+T> = None | Some(value: T)

  datatype Fault =
    KeyError | IndexError | ValueError | TypeError | StopIteration | InvalidTransition |
    StructError | UnicodeError | IncompleteRead

  datatype Result<+T> = Ok(value: T) | Err(fault: Fault)
}
