/** The response transforms of the chat endpoints (src/services/chat.js): the message
    page is turned into chronological order, and malformed payloads are replaced by
    empty ones. Other keys of a payload are carried in `extra`. */
module ChatService {
  import opened Shared
  import opened JsArray

  /** One stored message as the server sends it. */
  datatype Record = Record(sender: Option<string>, message: Option<string>,
                           graph: Option<string>, table: Option<string>,
                           extra: map<string, string>)

  datatype Pagination = Pagination(totalPages: Option<int>, extra: map<string, string>)

  datatype MessagesData = MessagesData(messages: Option<seq<Record>>,
                                       pagination: Option<Pagination>,
                                       extra: map<string, string>)

  /** The body of `chat/getAllMessage`; a missing body is `None` at the call site. */
  datatype MessagesResponse = MessagesResponse(data: Option<MessagesData>,
                                               extra: map<string, string>)

  /** `{data: {messages: []}}`. */
  function EmptyMessages(): MessagesResponse {
    MessagesResponse(Some(MessagesData(Some([]), None, map[])), map[])
  }

  /** The response has a body, the body has `data`, and `data` has `messages`. */
  predicate HasMessages(resp: Option<MessagesResponse>) {
    resp.Some? && resp.value.data.Some? && resp.value.data.value.messages.Some?
  }

  /** `getAllMessage.transformResponse`, as a value: `messages` reversed, the rest of
      the response and of `data` spread unchanged. */
  function MessagesTransform(resp: Option<MessagesResponse>): MessagesResponse {
    if !HasMessages(resp) then EmptyMessages()
    else
      var d := resp.value.data.value;
      resp.value.(data := Some(d.(messages := Some(Reversed(d.messages.value)))))
  }

  /** `getAllMessage.transformResponse` as the source runs it. `raw` is the array the
      response's `data.messages` refers to (`null` when there is none); `reverse()`
      turns it around in place, so the response the transform was given changes too,
      and the result's message list is that same array. */
  method TransformMessages(resp: Option<MessagesResponse>, raw: array?<Record>)
    returns (r: MessagesResponse)
    requires HasMessages(resp) ==> raw != null && raw[..] == resp.value.data.value.messages.value
    modifies raw
    ensures r == MessagesTransform(resp)
    ensures HasMessages(resp) ==> r.data.value.messages.value == raw[..]
    ensures HasMessages(resp) ==> raw[..] == Reversed(old(raw[..]))
    ensures !HasMessages(resp) ==> raw == null || raw[..] == old(raw[..])
  {
    if !HasMessages(resp) {
      return EmptyMessages();
    }
    var d := resp.value.data.value;
    ReverseInPlace(raw);
    r := resp.value.(data := Some(d.(messages := Some(raw[..]))));
  }

  /** A response without a body, without `data`, or without `messages` becomes
      `{data: {messages: []}}`. */
  lemma MalformedMessagesBecomeEmpty(resp: Option<MessagesResponse>)
    requires !HasMessages(resp)
    ensures MessagesTransform(resp).data == Some(MessagesData(Some([]), None, map[]))
    ensures MessagesTransform(resp).extra == map[]
  {
  }

  /** A well-formed page keeps every key but `messages`, which holds the same records
      as the server's, as often, with the last one first. */
  lemma {:induction false} MessagesAreReversed(resp: Option<MessagesResponse>)
    requires HasMessages(resp)
    ensures var r := MessagesTransform(resp);
      var d := resp.value.data.value;
      && r.extra == resp.value.extra
      && r.data.Some? && r.data.value.pagination == d.pagination && r.data.value.extra == d.extra
      && r.data.value.messages.Some?
      && |r.data.value.messages.value| == |d.messages.value|
      && multiset(r.data.value.messages.value) == multiset(d.messages.value)
      && forall k :: 0 <= k < |d.messages.value| ==>
           r.data.value.messages.value[k] == d.messages.value[|d.messages.value| - 1 - k]
  {
    var m := resp.value.data.value.messages.value;
    ReversedSameElements(m);
    forall k | 0 <= k < |m| ensures Reversed(m)[k] == m[|m| - 1 - k] {
      ReversedAt(m, k);
    }
  }

  /** The transform only ever yields a page with a message list, and transforming a
      well-formed page twice gives back the server's page. */
  lemma TransformTwiceRestores(resp: Option<MessagesResponse>)
    ensures HasMessages(Some(MessagesTransform(resp)))
    ensures HasMessages(resp) ==> MessagesTransform(Some(MessagesTransform(resp))) == resp.value
  {
    if HasMessages(resp) {
      ReversedTwice(resp.value.data.value.messages.value);
    }
  }

  /** One conversation as listed by `chat/getAllRoom`. */
  datatype Room = Room(id: string, roomName: string)

  /** `data` of the room list: the server's object, or the `[]` of the fallback. */
  datatype RoomsData = EmptyArray | RoomList(rooms: Option<seq<Room>>, extra: map<string, string>)

  datatype RoomsResponse = RoomsResponse(data: Option<RoomsData>, extra: map<string, string>)

  /** `getAllRoom.transformResponse`: a missing body or missing `data` becomes
      `{data: []}`; anything else passes through. */
  function RoomsTransform(resp: Option<RoomsResponse>): (r: RoomsResponse)
    ensures r.data.Some?
  {
    if resp.None? || resp.value.data.None? then RoomsResponse(Some(EmptyArray), map[])
    else resp.value
  }

  /** What the room transform leaves: the fallback exactly when the payload is
      malformed, the payload itself otherwise; applying it again changes nothing. */
  lemma RoomsTransformCases(resp: Option<RoomsResponse>)
    ensures resp.Some? ==> (RoomsTransform(resp) == resp.value <==> resp.value.data.Some?)
    ensures resp.None? || resp.value.data.None? ==>
      RoomsTransform(resp).data == Some(EmptyArray) && RoomsTransform(resp).extra == map[]
    ensures RoomsTransform(Some(RoomsTransform(resp))) == RoomsTransform(resp)
  {
  }

  /** The argument object of a room-list query, `{sort}`. A fresh object is built on
      every render. */
  class QueryArg {
    const sort: string
    constructor (sort: string)
      ensures this.sort == sort
    {
      this.sort := sort;
    }
  }

  /** `getAllRoom.forceRefetch`: `currentArg !== previousArg`, a comparison of object
      identity (`null` stands for an absent previous argument). */
  predicate ForceRefetch(current: QueryArg?, previous: QueryArg?) {
    current != previous
  }

  /** Two argument objects with the same `sort` still force a refetch when they are
      different objects; only the very same object does not. */
  lemma RefetchIsByIdentity(current: QueryArg, previous: QueryArg?)
    ensures ForceRefetch(current, previous) <==> current != previous
    ensures previous != null && previous != current && previous.sort == current.sort ==>
      ForceRefetch(current, previous)
    ensures !ForceRefetch(current, current)
  {
  }
}
