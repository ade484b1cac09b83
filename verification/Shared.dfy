/** Types that several components use. */
module Shared {
  datatype Option<+T> = None | Some(value: T)

  /** The stage of a connection. */
  datatype Stage = Connecting | Connected | Disconnecting | Disconnected
}
