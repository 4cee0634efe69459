/** The optional value shared by the frame loop (lastTime) and the feed
    connections (conn.reconnectTimer). */
module Wrappers {
  datatype Option<T> = None | Some(value: T)
}
