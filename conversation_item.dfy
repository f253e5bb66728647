/** One row of the conversation list (src/assets/components/ConversationItem.js):
    selecting, renaming and deleting a room. The rename and delete endpoints are a log
    of requests; whether a request succeeded is an input. */
module ConversationItem {
  import opened Shared
  import opened JsText
  import opened GlobalSlice
  import opened ChatService

  /** Shortest room name a rename accepts, after trimming. */
  const MinRoomNameLength := 3

  datatype Request = Rename(roomId: string, roomName: string) | Delete(roomId: string)

  /** `isSelected`: the row is the store's current room. */
  predicate IsSelected(currentRoomId: string, room: Room) {
    currentRoomId == room.id
  }

  /** `isLastThree`: where the row's menu opens upwards. */
  predicate IsLastThree(index: int, totalItems: int) {
    totalItems >= 5 && index >= totalItems - 2
  }

  /** The store's room id highlights at most one row of a list of distinct rooms, and
      exactly one when it is the id of a room in the list. */
  lemma {:induction false} AtMostOneRowSelected(currentRoomId: string, rooms: seq<Room>)
    requires forall i, j :: 0 <= i < j < |rooms| ==> rooms[i].id != rooms[j].id
    ensures |set i | 0 <= i < |rooms| && IsSelected(currentRoomId, rooms[i])| <= 1
    ensures (exists k :: 0 <= k < |rooms| && rooms[k].id == currentRoomId) ==>
      |set i | 0 <= i < |rooms| && IsSelected(currentRoomId, rooms[i])| == 1
  {
    var sel := set i | 0 <= i < |rooms| && IsSelected(currentRoomId, rooms[i]);
    if exists k :: 0 <= k < |rooms| && rooms[k].id == currentRoomId {
      var k :| 0 <= k < |rooms| && rooms[k].id == currentRoomId;
      assert k in sel;
    }
    if sel != {} {
      var i :| i in sel;
      assert sel == {i};
    }
  }

  /** Despite its name, `isLastThree` holds for the last two rows of a list of five or
      more, and for no row of a shorter list. */
  lemma {:induction false} LastThreeIsLastTwo(totalItems: nat)
    ensures (set i | 0 <= i < totalItems && IsLastThree(i, totalItems)) ==
      if totalItems >= 5 then {totalItems - 2, totalItems - 1} else {}
    ensures |set i | 0 <= i < totalItems && IsLastThree(i, totalItems)| ==
      if totalItems >= 5 then 2 else 0
  {
    var s := set i | 0 <= i < totalItems && IsLastThree(i, totalItems);
    if totalItems >= 5 {
      assert s == {totalItems - 2, totalItems - 1};
    } else {
      assert s == {};
    }
  }

  /** The name a rename sends, or `None` when `saveNewName` refuses it: the trimmed
      name, if it is at least three characters long. */
  function RenameTo(newName: string): (r: Option<string>)
    ensures r.Some? <==> |Trim(newName)| >= MinRoomNameLength
    ensures r.Some? ==> r.value == Trim(newName)
  {
    if |Trim(newName)| < MinRoomNameLength then None else Some(Trim(newName))
  }

  /** A name the rename sends has at least three characters and does not start or end
      with whitespace; padding a name with whitespace does not change what is sent. */
  lemma RenameSendsTrimmedName(p: string, name: string, q: string)
    requires AllWhitespace(p) && AllWhitespace(q)
    ensures RenameTo(name).Some? ==>
      var n := RenameTo(name).value;
      |n| >= MinRoomNameLength && !IsWhitespace(n[0]) && !IsWhitespace(n[|n| - 1])
    ensures RenameTo(p + name + q) == RenameTo(name)
  {
    var t := Trim(name);
    if |t| >= MinRoomNameLength {
      assert t != "";
      assert RenameTo(name) == Some(t);
    }
    TrimIgnoresPadding(p, name, q);
  }

  datatype ItemState = ItemState(isMenuOpen: bool, isRenaming: bool, newName: string,
                                 isDeleteModalVisible: bool, alert: Option<string>,
                                 requests: seq<Request>, route: Option<Route>, selections: nat)

  class Item {
    const store: Store
    const room: Room
    /** Whether the parent passed an `onSelect` prop. */
    const hasOnSelect: bool
    var isMenuOpen: bool
    var isRenaming: bool
    var newName: string
    var isDeleteModalVisible: bool
    /** The text of the last alert shown. */
    var alert: Option<string>
    var requests: seq<Request>
    var route: Option<Route>
    /** How often `onSelect` was called (only when the prop was passed). */
    var selections: nat

    ghost function Local(): ItemState
      reads this
    {
      ItemState(isMenuOpen, isRenaming, newName, isDeleteModalVisible, alert, requests, route,
                selections)
    }

    constructor (store: Store, room: Room, hasOnSelect: bool)
      ensures this.store == store && this.room == room && this.hasOnSelect == hasOnSelect
      ensures Local() == ItemState(false, false, room.roomName, false, None, [], None, 0)
    {
      this.store, this.room, this.hasOnSelect := store, room, hasOnSelect;
      isMenuOpen, isRenaming, newName, isDeleteModalVisible := false, false, room.roomName, false;
      alert, requests, route, selections := None, [], None, 0;
    }

    /** The menu button: `setIsMenuOpen(!isMenuOpen)`. */
    method ToggleMenu()
      modifies this
      ensures Local() == old(Local()).(isMenuOpen := !old(isMenuOpen))
    {
      isMenuOpen := !isMenuOpen;
    }

    /** `handleRename`: the menu closes and the rename input opens. */
    method HandleRename()
      modifies this
      ensures Local() == old(Local()).(isMenuOpen := false, isRenaming := true)
    {
      isMenuOpen := false;
      isRenaming := true;
    }

    /** The rename input's `onChangeText`. */
    method EditName(text: string)
      modifies this
      ensures Local() == old(Local()).(newName := text)
    {
      newName := text;
    }

    /** The rename input's close button. */
    method CancelRename()
      modifies this
      ensures Local() == old(Local()).(isRenaming := false)
    {
      isRenaming := false;
    }

    /** `handleShare`: the menu closes and a placeholder alert is shown. */
    method HandleShare()
      modifies this
      ensures Local() == old(Local()).(isMenuOpen := false,
        alert := Some("Sharing functionality to be implemented"))
    {
      isMenuOpen := false;
      alert := Some("Sharing functionality to be implemented");
    }

    /** `handleDelete`: the menu closes and the confirmation modal opens. */
    method HandleDelete()
      modifies this
      ensures Local() == old(Local()).(isMenuOpen := false, isDeleteModalVisible := true)
    {
      isMenuOpen := false;
      isDeleteModalVisible := true;
    }

    /** The modal's Cancel button and its `onRequestClose`. */
    method CancelDelete()
      modifies this
      ensures Local() == old(Local()).(isDeleteModalVisible := false)
    {
      isDeleteModalVisible := false;
    }

    /** `handleSelectConversation`: the selected row does nothing; any other row resets
        the store and then opens its room at page 1 with an empty transcript. */
    method HandleSelectConversation()
      modifies this, store
      ensures IsSelected(old(store.roomId), room) ==>
        Local() == old(Local()) && store.Snapshot() == old(store.Snapshot())
      ensures !IsSelected(old(store.roomId), room) ==>
        && store.Snapshot() == old(store.Snapshot()).(roomId := room.id, page := Num(1), allChat := [])
        && Local() == old(Local()).(route := Some(Route.Room(room.id)),
             selections := if hasOnSelect then old(selections) + 1 else old(selections))
    {
      if IsSelected(store.roomId, room) {
        return;
      }
      store.SetPage(Str(""));
      store.SetRoomId("");
      store.SetAllChat([]);
      store.SetRoomId(room.id);
      store.SetPage(Num(1));
      if hasOnSelect {
        selections := selections + 1;
      }
      route := Some(Route.Room(room.id));
    }

    /** `saveNewName`, with `succeeded` the outcome of the rename request and `failure`
        the server's message when it fails. */
    method SaveNewName(succeeded: bool, failure: Option<string>)
      modifies this
      ensures store.Snapshot() == old(store.Snapshot())
      ensures RenameTo(old(newName)).None? ==>
        Local() == old(Local()).(alert := Some("Room name must be at least 3 characters long"))
      ensures RenameTo(old(newName)).Some? ==>
        && requests == old(requests) + [Rename(room.id, RenameTo(old(newName)).value)]
        && isRenaming == (old(isRenaming) && !succeeded)
        && alert == Some(if succeeded then "Room name updated successfully"
                         else if Truthy(failure) then failure.value else "Failed to update room name")
        && isMenuOpen == old(isMenuOpen) && newName == old(newName)
        && isDeleteModalVisible == old(isDeleteModalVisible)
        && route == old(route) && selections == old(selections)
    {
      var name := RenameTo(newName);
      if name.None? {
        alert := Some("Room name must be at least 3 characters long");
        return;
      }
      requests := requests + [Rename(room.id, name.value)];
      if succeeded {
        isRenaming := false;
        alert := Some("Room name updated successfully");
      } else {
        alert := Some(if Truthy(failure) then failure.value else "Failed to update room name");
      }
    }

    /** `confirmDelete`: the delete request goes out and the modal closes either way.
        After a successful delete of the current room, the room id and the page are
        cleared and the app returns home; deleting another room leaves the store alone. */
    method ConfirmDelete(succeeded: bool, failure: Option<string>)
      modifies this, store
      ensures requests == old(requests) + [Delete(room.id)] && !isDeleteModalVisible
      ensures isRenaming == old(isRenaming) && newName == old(newName) && selections == old(selections)
      ensures isMenuOpen == old(isMenuOpen)
      ensures succeeded && IsSelected(old(store.roomId), room) ==>
        && store.Snapshot() == old(store.Snapshot()).(roomId := "", page := Str(""))
        && route == Some(Home)
      ensures !(succeeded && IsSelected(old(store.roomId), room)) ==>
        store.Snapshot() == old(store.Snapshot()) && route == old(route)
      ensures alert == Some(if succeeded then "Conversation deleted successfully"
                            else if Truthy(failure) then failure.value else "Failed to delete conversation")
    {
      requests := requests + [Delete(room.id)];
      if succeeded {
        isDeleteModalVisible := false;
        if IsSelected(store.roomId, room) {
          store.SetRoomId("");
          store.SetPage(Str(""));
          route := Some(Home);
        }
        alert := Some("Conversation deleted successfully");
      } else {
        alert := Some(if Truthy(failure) then failure.value else "Failed to delete conversation");
        isDeleteModalVisible := false;
      }
    }
  }
}
