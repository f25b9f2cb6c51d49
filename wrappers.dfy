/** Option and Result types shared by every module of the model, and the
    errors the modelled code raises. */
module Wrappers {

  datatype Option<+T> = None | Some(value: T)

  /** The exceptions the modelled Python code can raise, grouped by cause. */
  datatype Error =
    | StructError        // struct.pack was given a value outside the format's range
    | IndexError         // a list was indexed past its end
    | TypeError          // a value of the wrong shape (or a call with the wrong arity)
    | ValueError         // list.index did not find the element
    | DanglingReference  // a pool lookup found no entry for the key
    | MalformedTryRange  // a try block starts past the code or has no handlers
    | NotImplemented     // value_as_byte met a type code it does not handle (a plain Exception)
    | UnsupportedValue   // type inference met a value it does not classify
    | FloatEncoding      // the payload falls into struct's float packing, which is not modelled
    | NegativeLeb128     // an unsigned LEB128 was asked to hold a negative number
    | UnboundLocal       // a local variable was read before it was ever assigned
    | AttributeError     // a method was called that the object's class does not define

  datatype Result<+T> = Ok(value: T) | Err(error: Error) {
    predicate IsFailure() { Err? }

    function PropagateFailure<U>(): Result<U>
      requires Err?
    {
      Err(error)
    }

    function Extract(): T
      requires Ok?
    {
      value
    }
  }
}
