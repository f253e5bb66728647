/** The socket as the screens see it: the events they emit, kept in order. Event
    names are those of the `SOCKET_EVENTS` table in src/utils/Constants.js. */
module SocketLink {
  import opened Shared

  /** An emitted event with its payload: `query:send` or `room:create`. */
  datatype Emit =
    | QuerySend(message: string, roomId: string, messages: seq<Turn>)
    | RoomCreate(message: string)

  /** A connected socket; `sent` is every event emitted on it, oldest first. */
  class Socket {
    var sent: seq<Emit>

    constructor ()
      ensures sent == []
    {
      sent := [];
    }

    /** `socket.emit(name, payload)`. */
    method Send(e: Emit)
      modifies this
      ensures sent == old(sent) + [e]
    {
      sent := sent + [e];
    }
  }
}
