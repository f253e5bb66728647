/** The conversation list (src/assets/components/ChatHistory.js): the sort order and
    its stored preference, and the case-insensitive search filter. */
module ChatHistory {
  import opened Shared
  import opened JsText
  import opened ChatService

  const SortOldest := "old"
  const SortNewest := "new"
  const DefaultSort := SortNewest

  /** `toggleSort`'s update: `'new'` becomes `'old'`, anything else becomes `'new'`. */
  function Toggled(sort: string): (t: string)
    ensures t == SortOldest || t == SortNewest
    ensures sort == SortNewest ==> t == SortOldest
    ensures sort != SortNewest ==> t == SortNewest
  {
    if sort == SortNewest then SortOldest else SortNewest
  }

  /** Toggling twice restores the sort exactly when it was one of the two orders. */
  lemma ToggleTwiceRestores(sort: string)
    ensures Toggled(Toggled(sort)) == sort <==> sort == SortNewest || sort == SortOldest
  {
  }

  /** A room shows for a query when its lower-cased name contains the lower-cased query. */
  predicate Matches(room: Room, query: string) {
    Includes(Lower(room.roomName), Lower(query))
  }

  /** `rooms.filter(...)`. */
  function FilterRooms(rooms: seq<Room>, query: string): (r: seq<Room>)
    ensures IsSublist(r, rooms)
    ensures forall x :: x in r ==> x in rooms && Matches(x, query)
    ensures forall k :: 0 <= k < |rooms| && Matches(rooms[k], query) ==> rooms[k] in r
  {
    if rooms == [] then []
    else
      var rest := FilterRooms(rooms[1..], query);
      assert forall k :: 1 <= k < |rooms| ==> rooms[k] == rooms[1..][k - 1];
      if Matches(rooms[0], query) then [rooms[0]] + rest
      else rest
  }

  /** The filter keeps every matching room as often as the list holds it, and drops
      every other room. */
  lemma {:induction false} FilterRoomsCounts(rooms: seq<Room>, query: string)
    ensures forall x ::
              multiset(FilterRooms(rooms, query))[x] == if Matches(x, query) then multiset(rooms)[x] else 0
  {
    if rooms != [] {
      FilterRoomsCounts(rooms[1..], query);
      assert rooms == [rooms[0]] + rooms[1..];
      assert multiset(rooms) == multiset{rooms[0]} + multiset(rooms[1..]);
    }
  }

  /** `roomData?.data?.rooms`, when it is there. */
  function RoomsOf(roomData: Option<RoomsResponse>): Option<seq<Room>> {
    if roomData.Some? && roomData.value.data.Some? && roomData.value.data.value.RoomList?
    then roomData.value.data.value.rooms
    else None
  }

  /** `filteredConversations`: nothing without a room list, else the matching rooms. */
  function FilteredConversations(roomData: Option<RoomsResponse>, query: string): (r: seq<Room>)
    ensures RoomsOf(roomData).None? ==> r == []
    ensures RoomsOf(roomData).Some? ==> r == FilterRooms(RoomsOf(roomData).value, query)
  {
    if RoomsOf(roomData).None? then [] else FilterRooms(RoomsOf(roomData).value, query)
  }

  /** The empty query matches every name, so the filter keeps the whole list. */
  lemma {:induction false} EmptyQueryKeepsAll(rooms: seq<Room>)
    ensures FilterRooms(rooms, "") == rooms
  {
    if rooms != [] {
      assert OccursAt(Lower(rooms[0].roomName), Lower(""), 0);
      EmptyQueryKeepsAll(rooms[1..]);
    }
  }

  /** The room list after the fallback transform (`{data: []}`) shows nothing. */
  lemma FallbackListIsEmpty(query: string)
    ensures FilteredConversations(Some(RoomsTransform(None)), query) == []
  {
  }

  /** The list component's sort state. */
  class History {
    var sort: string

    constructor ()
      ensures sort == DefaultSort
    {
      sort := DefaultSort;
    }

    /** The preference effect: a stored `'new'` or `'old'` is adopted; anything else
        (nothing stored included) leaves the sort and returns the default to store. */
    method LoadSortPreference(saved: Option<string>) returns (writeBack: Option<string>)
      modifies this
      ensures saved == Some(SortNewest) || saved == Some(SortOldest) ==>
        sort == saved.value && writeBack == None
      ensures !(saved == Some(SortNewest) || saved == Some(SortOldest)) ==>
        sort == old(sort) && writeBack == Some(DefaultSort)
    {
      if saved == Some(SortNewest) || saved == Some(SortOldest) {
        sort := saved.value;
        writeBack := None;
      } else {
        writeBack := Some(DefaultSort);
      }
    }

    /** `toggleSort`. */
    method ToggleSort()
      modifies this
      ensures sort == Toggled(old(sort))
    {
      sort := if sort == SortNewest then SortOldest else SortNewest;
    }
  }
}
