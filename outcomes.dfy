/** Option and Result values, and the faults that stand for the exceptions the
    generator scripts and the sizing optimizer raise instead of returning. */
module Outcomes {

  datatype Option<+T> = None | Some(value: T)

  /** An exception that escapes the modelled code. */
  datatype Fault =
    | ZeroDivision              // a float or floor division by zero
    | MissingKey(key: string)   // a dictionary lookup of an absent key
    | UnboundName(name: string) // a local variable read before any assignment
    | NotATuple                 // unpacking a bare float into two names
    | IndexOutOfRange           // indexing an empty list
    | NegativeShift             // `1 << n` with a negative n
    | AssertionFailed(what: string)

  datatype Result<+T> = Ok(value: T) | Err(fault: Fault)
}
