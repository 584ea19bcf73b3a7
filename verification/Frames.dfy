/** What is buffered for a disconnected agent. */
module Frames {
  import opened Prelude

  const MAX_BUFFERED: nat := 200

  /** An event, with the room its payload names, if any. */
  datatype Frame = Frame(id: int, room: Option<string>)
}
