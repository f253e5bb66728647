/** The conversation screen (src/pages/ConversationScreen.js): the live path that
    appends turns to the transcript in the store, and the history path that prepends
    older pages fetched one at a time as the user scrolls up. The screen's state hooks
    are the fields of `Screen`; the transcript, the room id and the page cursor live in
    the store it dispatches to. */
module ConversationScreen {
  import opened Shared
  import opened JsText
  import opened GlobalSlice
  import opened SocketLink
  import opened ChatService

  /** Longest message `handleSendMessage` lets through. */
  const MaxMessageLength := 200

  /** Page size of the history query. */
  const HistoryPageSize := 10

  /** A `query:response` payload. */
  datatype QueryResponse = QueryResponse(roomId: Option<string>, message: Option<string>,
                                         ticker: Option<string>, table: Option<string>)

  /** The AI turn built for a response: `message || ''`, with the ticker as `graph`. */
  function AiTurn(resp: QueryResponse): (t: Turn)
    ensures t.sender == Some("AI") && t.graph == resp.ticker && t.table == resp.table
    ensures t.message == Some(if Truthy(resp.message) then resp.message.value else "")
  {
    Turn(Some("AI"), Some(resp.message.GetOr("")), resp.ticker, resp.table)
  }

  /** The optimistic turn appended for the user's own message. */
  function UserTurn(message: string): Turn {
    Turn(Some("User"), Some(message), None, None)
  }

  /** A fetched record as a transcript turn: its four fields, nothing else. */
  function RecordToTurn(r: Record): (t: Turn)
    ensures t.sender == r.sender && t.message == r.message
    ensures t.graph == r.graph && t.table == r.table
  {
    Turn(r.sender, r.message, r.graph, r.table)
  }

  function MapRecords(page: seq<Record>): (ts: seq<Turn>)
    ensures |ts| == |page| && forall k :: 0 <= k < |page| ==> ts[k] == RecordToTurn(page[k])
  {
    seq(|page|, k requires 0 <= k < |page| => RecordToTurn(page[k]))
  }

  /** The transcript the history merge dispatches: the fetched page, mapped, in front of
      the snapshot taken when the user scrolled up. */
  function Merged(page: seq<Record>, snapshot: seq<Turn>): (ts: seq<Turn>)
    ensures |ts| == |page| + |snapshot|
    ensures ts[..|page|] == MapRecords(page) && ts[|page|..] == snapshot
  {
    MapRecords(page) + snapshot
  }

  /** `roomMessage?.data?.messages`, or nothing. */
  function PageMessages(roomMessage: Option<MessagesResponse>): seq<Record> {
    if roomMessage.Some? && roomMessage.value.data.Some? && roomMessage.value.data.value.messages.Some?
    then roomMessage.value.data.value.messages.value
    else []
  }

  /** `roomMessage?.data?.pagination?.totalPages`. */
  function TotalPages(roomMessage: Option<MessagesResponse>): Option<int> {
    if roomMessage.Some? && roomMessage.value.data.Some?
       && roomMessage.value.data.value.pagination.Some?
    then roomMessage.value.data.value.pagination.value.totalPages
    else None
  }

  /** `totalPages === page`: only a number equals a number. */
  predicate SeenAll(totalPages: Option<int>, page: PageValue) {
    totalPages.Some? && page == Num(totalPages.value)
  }

  /** `page < totalPages`: false when `totalPages` is absent or the page is not a number. */
  predicate PageBelow(page: PageValue, totalPages: Option<int>) {
    totalPages.Some? && PageNumber(page).Some? && PageNumber(page).value < totalPages.value
  }

  /** The seen-all flag and the scroll guard exclude each other. A string page is never
      "seen all"; a number page is either the last page, below it, or past it. */
  lemma SeenAllExcludesPageBelow(totalPages: Option<int>, page: PageValue)
    ensures SeenAll(totalPages, page) ==> !PageBelow(page, totalPages)
    ensures page.Str? ==> !SeenAll(totalPages, page)
    ensures totalPages.Some? && page.Num? ==>
      SeenAll(totalPages, page) || PageBelow(page, totalPages) || page.n > totalPages.value
  {
  }

  /** The reversing transform keeps the page count: a transformed well-formed page
      reports the server's `totalPages`, and the fallback for a malformed one reports
      none, so scrolling up never fetches after it. */
  lemma TransformKeepsTotalPages(resp: Option<MessagesResponse>)
    ensures TotalPages(Some(MessagesTransform(resp))) ==
      if HasMessages(resp) then TotalPages(resp) else None
    ensures !HasMessages(resp) ==> forall p :: !PageBelow(p, TotalPages(Some(MessagesTransform(resp))))
  {
  }

  /** The arguments of the history query. */
  datatype HistoryQuery = HistoryQuery(roomId: string, page: PageValue, limit: int)

  /** `useGetAllMessageQuery({roomId: conversationId, page, limit: 10}, {skip})`, with
      `skip` when the conversation id or the page is falsy. */
  function HistoryQueryFor(conversationId: Option<string>, page: PageValue): (q: Option<HistoryQuery>)
    ensures q.Some? <==> Truthy(conversationId) && PageTruthy(page)
    ensures q.Some? ==> q.value == HistoryQuery(conversationId.value, page, HistoryPageSize)
  {
    if Truthy(conversationId) && PageTruthy(page)
    then Some(HistoryQuery(conversationId.value, page, HistoryPageSize))
    else None
  }

  /** A merge puts the page in front of the snapshot: when turns were appended to the
      transcript after the snapshot was taken, the merged transcript is that much shorter
      than page plus transcript, and a live turn that is neither in the snapshot nor on
      the page is not in it. */
  lemma MergeDropsTurnsAfterSnapshot(page: seq<Record>, snapshot: seq<Turn>, live: seq<Turn>)
    ensures |Merged(page, snapshot)| == |page| + |snapshot + live| - |live|
    ensures live != [] ==> Merged(page, snapshot) != MapRecords(page) + (snapshot + live)
    ensures forall t :: t in live && t !in snapshot && t !in MapRecords(page) ==>
      t !in Merged(page, snapshot)
  {
  }

  /** Merging a page into a snapshot that already starts with that page holds the page
      twice: nothing removes repeated turns. */
  lemma {:induction false} MergeRepeatsAnOverlap(page: seq<Record>, snapshot: seq<Turn>)
    requires page != []
    ensures var ts := Merged(page, MapRecords(page) + snapshot);
      |ts| == 2 * |page| + |snapshot| && ts[..|page|] == ts[|page|..2 * |page|]
  {
    var ts := Merged(page, MapRecords(page) + snapshot);
    assert ts == MapRecords(page) + MapRecords(page) + snapshot;
    assert ts[..|page|] == MapRecords(page);
    assert ts[|page|..2 * |page|] == MapRecords(page);
  }

  /** The page a run of `n` scroll-to-top events reaches from page `p`, each event
      incrementing only while `page < totalPages`. */
  function PageAfterScrolls(p: int, total: int, n: nat): int
    decreases n
  {
    if n == 0 then p
    else if p < total then PageAfterScrolls(p + 1, total, n - 1)
    else p
  }

  /** However often the user scrolls up, the page cursor never passes `totalPages`, and
      it reaches `min(p + n, totalPages)`. */
  lemma {:induction false} ScrollingStopsAtTotalPages(p: int, total: int, n: nat)
    requires p <= total
    ensures PageAfterScrolls(p, total, n) <= total
    ensures PageAfterScrolls(p, total, n) == if p + n <= total then p + n else total
    decreases n
  {
    if n > 0 && p < total {
      ScrollingStopsAtTotalPages(p + 1, total, n - 1);
    }
  }

  /** The check `handleSendMessage` makes before anything else: the error it shows, or
      `None` when the input may be sent. */
  function InputVerdict(input: string): (err: Option<string>)
    ensures err.None? <==> !IsBlank(input) && |input| <= MaxMessageLength
    ensures IsBlank(input) ==> err == Some("Message cannot be empty")
    ensures !IsBlank(input) && |input| > MaxMessageLength ==>
      err == Some("Message cannot exceed 200 characters")
  {
    if IsBlank(input) then Some("Message cannot be empty")
    else if |input| > MaxMessageLength then Some("Message cannot exceed 200 characters")
    else None
  }

  /** What `sendMessage` does for a given socket and conversation id: the error it
      shows, or `None` when it emits. */
  function SendOutcome(hasSocket: bool, conversationId: Option<string>): (err: Option<string>)
    ensures err.None? <==> hasSocket && Truthy(conversationId)
    ensures !hasSocket ==> err == Some("Connection issue. Please try again.")
    ensures hasSocket && !Truthy(conversationId) ==>
      err == Some("Conversation error. Please restart the chat.")
  {
    if !hasSocket then Some("Connection issue. Please try again.")
    else if !Truthy(conversationId) then Some("Conversation error. Please restart the chat.")
    else None
  }

  /** The events `sendMessage` emits for an outcome: one `query:send`, or none. */
  function Sent(out: Option<string>, message: string, conversationId: Option<string>,
                chat: seq<Turn>): seq<Emit>
    requires out.None? ==> Truthy(conversationId)
  {
    if out.None? then [QuerySend(message, conversationId.value, chat)] else []
  }

  /** The local state of the screen, as a value. */
  datatype ScreenState = ScreenState(
    previousMessage: seq<Turn>, seenAllChat: bool, messageLoading: bool,
    socketLoader: bool, displayTicker: Option<string>, errorMessage: string,
    inputMessage: string)

  /** The local state after `sendMessage`: the error shown, or the socket loader up. */
  function AfterSend(l: ScreenState, out: Option<string>): ScreenState {
    if out.Some? then l.(errorMessage := out.value) else l.(socketLoader := true)
  }

  class Screen {
    /** `route.params.conversationId`. */
    const conversationId: Option<string>
    const store: Store

    var previousMessage: seq<Turn>
    var seenAllChat: bool
    var messageLoading: bool
    var socketLoader: bool
    var displayTicker: Option<string>
    var errorMessage: string
    var inputMessage: string

    ghost function Local(): ScreenState
      reads this
    {
      ScreenState(previousMessage, seenAllChat, messageLoading, socketLoader,
                  displayTicker, errorMessage, inputMessage)
    }

    /** Every event emitted on the store's socket so far. */
    ghost function Emitted(): seq<Emit>
      reads store, store.socket
    {
      if store.socket == null then [] else store.socket.sent
    }

    /** Mounting the screen: the `useState` initial values. */
    constructor (conversationId: Option<string>, store: Store)
      ensures this.conversationId == conversationId && this.store == store
      ensures Local() == ScreenState([], false, false, false, None, "", "")
    {
      this.conversationId := conversationId;
      this.store := store;
      previousMessage, seenAllChat, messageLoading, socketLoader := [], false, false, false;
      displayTicker, errorMessage, inputMessage := None, "", "";
    }

    /** The room-set effect: adopt the route's room id; when it differs from the room
        id the store held, clear the transcript. */
    method RoomSetEffect()
      modifies store
      ensures !Truthy(conversationId) ==> store.Snapshot() == old(store.Snapshot())
      ensures Truthy(conversationId) ==>
        store.Snapshot() == old(store.Snapshot()).(
          roomId := conversationId.value,
          allChat := if conversationId.value != old(store.roomId) then [] else old(store.allChat))
    {
      if Truthy(conversationId) {
        var before := store.roomId;
        store.SetRoomId(conversationId.value);
        if conversationId.value != before {
          store.SetAllChat([]);
        }
      }
    }

    /** `sendMessage(message)` with the transcript `chat` its closure captured: without a
        socket or a conversation id it sets an error and emits nothing; otherwise it raises
        the socket loader and emits `query:send`. */
    method SendMessage(message: string, chat: seq<Turn>)
      modifies this, store.socket
      ensures store.Snapshot() == old(store.Snapshot())
      ensures var out := SendOutcome(store.socket != null, conversationId);
        && Local() == AfterSend(old(Local()), out)
        && Emitted() == old(Emitted()) + Sent(out, message, conversationId, chat)
    {
      if store.socket == null {
        errorMessage := "Connection issue. Please try again.";
        return;
      }
      if !Truthy(conversationId) {
        errorMessage := "Conversation error. Please restart the chat.";
        return;
      }
      socketLoader := true;
      store.socket.Send(QuerySend(message, conversationId.value, chat));
    }

    /** `handleResponse`: a response for another room only clears both loaders; one for
        this room raises the message loader, records the ticker and appends one AI turn. */
    method HandleResponse(resp: QueryResponse)
      modifies this, store
      ensures resp.roomId != conversationId ==>
        && store.Snapshot() == old(store.Snapshot())
        && Local() == old(Local()).(socketLoader := false, messageLoading := false)
      ensures resp.roomId == conversationId ==>
        && store.Snapshot() == old(store.Snapshot()).(allChat := old(store.allChat) + [AiTurn(resp)])
        && Local() == old(Local()).(messageLoading := true, displayTicker := resp.ticker)
    {
      if resp.roomId != conversationId {
        socketLoader := false;
        messageLoading := false;
        return;
      }
      messageLoading := true;
      var chatArr := store.allChat;
      displayTicker := resp.ticker;
      store.SetAllChat(chatArr + [AiTurn(resp)]);
    }

    /** The 500 ms timer `handleResponse` starts: both loaders go down. */
    method LoaderTimeout()
      modifies this
      ensures Local() == old(Local()).(messageLoading := false, socketLoader := false)
    {
      messageLoading := false;
      socketLoader := false;
    }

    /** The `newMessage` effect: a message typed on the home screen is sent once the
        socket and the conversation id are there. */
    method NewMessageEffect()
      modifies this, store.socket
      ensures store.Snapshot() == old(store.Snapshot())
      ensures !(store.newMessage != "" && store.socket != null && Truthy(conversationId)) ==>
        Local() == old(Local()) && Emitted() == old(Emitted())
      ensures store.newMessage != "" && store.socket != null && Truthy(conversationId) ==>
        && Local() == old(Local()).(socketLoader := true)
        && Emitted() == old(Emitted()) + [QuerySend(store.newMessage, conversationId.value, store.allChat)]
    {
      if store.newMessage != "" && store.socket != null && Truthy(conversationId) {
        SendMessage(store.newMessage, store.allChat);
      }
    }

    /** `handleSendMessage`: blank input or input over 200 characters only sets an
        error. Otherwise the user turn is appended, then `sendMessage` runs with the
        transcript as it was before the append, then the input is cleared. */
    method HandleSendMessage()
      modifies this, store, store.socket
      ensures var verdict := InputVerdict(old(inputMessage));
        verdict.Some? ==>
          && Local() == old(Local()).(errorMessage := verdict.value)
          && store.Snapshot() == old(store.Snapshot()) && Emitted() == old(Emitted())
      ensures var out := SendOutcome(store.socket != null, conversationId);
        InputVerdict(old(inputMessage)) == None ==>
          && store.Snapshot() == old(store.Snapshot()).(allChat := old(store.allChat) + [UserTurn(old(inputMessage))])
          && Local() == AfterSend(old(Local()).(errorMessage := ""), out).(inputMessage := "")
          && Emitted() == old(Emitted()) + Sent(out, old(inputMessage), conversationId, old(store.allChat))
    {
      var verdict := InputVerdict(inputMessage);
      if verdict.Some? {
        errorMessage := verdict.value;
        return;
      }
      errorMessage := "";
      var closureChat := store.allChat;
      ghost var sentBefore := Emitted();
      store.SetAllChat(closureChat + [UserTurn(inputMessage)]);
      assert Emitted() == sentBefore;
      SendMessage(inputMessage, closureChat);
      inputMessage := "";
    }

    /** The history-merge effect: a non-empty fetched page, with no fetch in flight,
        replaces the transcript by the page in front of the snapshot. */
    method HistoryMerge(roomMessage: Option<MessagesResponse>, isFetching: bool)
      modifies store
      ensures |PageMessages(roomMessage)| > 0 && !isFetching ==>
        store.Snapshot() == old(store.Snapshot()).(allChat := Merged(PageMessages(roomMessage), previousMessage))
      ensures !(|PageMessages(roomMessage)| > 0 && !isFetching) ==>
        store.Snapshot() == old(store.Snapshot())
    {
      var page := PageMessages(roomMessage);
      if |page| > 0 && !isFetching {
        store.SetAllChat(MapRecords(page) + previousMessage);
      }
    }

    /** The unmount cleanup: the transcript is emptied. */
    method UnmountCleanup()
      modifies store
      ensures store.Snapshot() == old(store.Snapshot()).(allChat := [])
    {
      store.SetAllChat([]);
    }

    /** An empty transcript empties the snapshot as well. */
    method EmptyChatEffect()
      modifies this
      ensures Local() == if store.allChat == [] then old(Local()).(previousMessage := []) else old(Local())
    {
      if |store.allChat| == 0 {
        previousMessage := [];
      }
    }

    /** `seenAllChat` is set exactly when `totalPages === page`. */
    method SeenAllEffect(roomMessage: Option<MessagesResponse>)
      modifies this
      ensures Local() == old(Local()).(seenAllChat := SeenAll(TotalPages(roomMessage), store.page))
    {
      seenAllChat := SeenAll(TotalPages(roomMessage), store.page);
    }

    /** `handleScrollToTop`: at the top, with no fetch in flight and not everything seen,
        snapshot the transcript and move to the next page if there is one. The cursor
        never goes past `totalPages`. */
    method HandleScrollToTop(offsetY: int, isFetching: bool, roomMessage: Option<MessagesResponse>)
      modifies this, store
      ensures !(offsetY <= 0 && !isFetching && !old(seenAllChat)) ==>
        Local() == old(Local()) && store.Snapshot() == old(store.Snapshot())
      ensures offsetY <= 0 && !isFetching && !old(seenAllChat) ==>
        && Local() == old(Local()).(previousMessage := old(store.allChat))
        && store.Snapshot() == old(store.Snapshot()).(
             page := if PageBelow(old(store.page), TotalPages(roomMessage))
                     then NextPage(old(store.page)) else old(store.page))
      ensures old(store.page).Num? && TotalPages(roomMessage).Some?
              && old(store.page).n <= TotalPages(roomMessage).value ==>
        store.page.Num? && store.page.n <= TotalPages(roomMessage).value
    {
      if offsetY <= 0 && !isFetching && !seenAllChat {
        previousMessage := store.allChat;
        if PageBelow(store.page, TotalPages(roomMessage)) {
          store.IncrementPage();
        }
      }
    }
  }
}
