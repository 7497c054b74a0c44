/** Small result types shared by the other modules. */
module Wrappers {

  datatype Option<T> = None | Some(value: T)

  /** The outcome of an awaited step: it completed with a value, or it threw
      an error carrying a message. */
  datatype Attempt<T> = Done(value: T) | Threw(message: string)
}
