/** Values shared by the whole model: Python's None, the exceptions the core
    raises, and opaque handles for framework objects the core only stores. */
module Py {

  /** `None` or a present value. */
  datatype Option<+T> = None | Some(value: T)

  /** The exceptions the modelled code raises. */
  datatype Error =
    | AssertionError                    // a failed `assert`
    | AttributeError(attribute: string) // an attribute looked up on an object that lacks it

  /** A call that either returns a value or raises. */
  datatype Result<+T> = Ok(value: T) | Raise(error: Error)

  /** An opaque framework object (a loss function, an optimizer, a scheduler,
      a cached tensor): the core only stores and hands back such objects. */
  datatype Object = Object(id: nat)
}
