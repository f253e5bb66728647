/** The home screen (src/pages/HomeScreenPage.js): a first message creates a room over
    the socket, is parked in the store as `newMessage`, and `room:created` moves the app
    into that room, where the conversation screen sends the parked message. */
module HomeScreen {
  import opened Shared
  import opened JsText
  import opened GlobalSlice
  import opened SocketLink

  datatype HomeState = HomeState(prompt: string, loading: bool, error: Option<string>,
                                 route: Option<Route>, cacheResets: nat)

  class Home {
    const store: Store
    var prompt: string
    var loading: bool
    var error: Option<string>
    /** The last route navigated to, if any. */
    var route: Option<Route>
    /** How often the API cache was reset (`chatApi.util.resetApiState()`). */
    var cacheResets: nat

    ghost function Local(): HomeState
      reads this
    {
      HomeState(prompt, loading, error, route, cacheResets)
    }

    ghost function Emitted(): seq<Emit>
      reads store, store.socket
    {
      if store.socket == null then [] else store.socket.sent
    }

    constructor (store: Store)
      ensures this.store == store
      ensures Local() == HomeState("", false, None, None, 0)
    {
      this.store := store;
      prompt, loading, error, route, cacheResets := "", false, None, None, 0;
    }

    /** `sendMessage(message)`: without a socket, an error and `false`; with one, a
        `room:create` event carrying the message, and `true`. */
    method SendMessage(message: string) returns (sent: bool)
      modifies this, store.socket
      ensures sent <==> old(store.socket) != null
      ensures store.Snapshot() == old(store.Snapshot())
      ensures !sent ==> Local() == old(Local()).(error := Some("Connection issue. Please try again."))
      ensures !sent ==> Emitted() == old(Emitted())
      ensures sent ==> Local() == old(Local()) && Emitted() == old(Emitted()) + [RoomCreate(message)]
    {
      if store.socket == null {
        error := Some("Connection issue. Please try again.");
        return false;
      }
      store.socket.Send(RoomCreate(message));
      return true;
    }

    /** `handleSendPress`: a blank prompt does nothing. Otherwise the prompt is sent,
        parked as `newMessage` whether or not the send went out, and cleared; a failed
        send drops the loader and shows 'Failed to connect to server'. */
    method HandleSendPress()
      modifies this, store, store.socket
      ensures IsBlank(old(prompt)) ==>
        Local() == old(Local()) && store.Snapshot() == old(store.Snapshot()) && Emitted() == old(Emitted())
      ensures var connected := old(store.socket) != null;
        !IsBlank(old(prompt)) ==>
          && store.Snapshot() == old(store.Snapshot()).(newMessage := old(prompt))
          && Local() == old(Local()).(
               prompt := "", loading := connected,
               error := if connected then old(error) else Some("Failed to connect to server"))
          && Emitted() == old(Emitted()) + (if connected then [RoomCreate(old(prompt))] else [])
    {
      if !IsBlank(prompt) {
        loading := true;
        var sent := SendMessage(prompt);
        store.SetNewMessage(prompt);
        if !sent {
          loading := false;
          error := Some("Failed to connect to server");
        }
        prompt := "";
      }
    }

    /** The `room:created` listener: adopt the new room id, reset the API cache and
        open that room. */
    method RoomCreated(roomId: string)
      modifies this, store
      ensures store.Snapshot() == old(store.Snapshot()).(roomId := roomId)
      ensures Local() == old(Local()).(route := Some(Room(roomId)), cacheResets := old(cacheResets) + 1)
    {
      store.SetRoomId(roomId);
      cacheResets := cacheResets + 1;
      route := Some(Room(roomId));
    }
  }
}
