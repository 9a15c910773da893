/** Small shared types: optional values, the answer of a bounded channel to a `try_send`,
    and the two ways in which a spawned task can end. */
module Wrappers {

  datatype Option<+T> = None | Some(value: T)

  /** What `try_send` on a bounded channel answers. */
  datatype SendResult = Sent | ChannelFull | ChannelClosed

  datatype Erratic = Cancelled | Panicked

  /** A task ends with its own reason, or because it was cancelled or panicked. */
  datatype ActorShutdown<+R> = Controlled(reason: R) | Erratic(how: Erratic)
}
