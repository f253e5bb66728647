/** The `global` slice of the Redux store: its initial state, its reducer as a function
    of the state and the action, and the store object whose dispatch applies it in
    place (the reducers assign fields of an Immer draft). */
module GlobalSlice {
  import opened Shared
  import opened JsText
  import SocketLink

  /** `page` and `roomPage` start as numbers, but `setPage('')` stores a string, and
      `+= 1` on a string concatenates. */
  datatype PageValue = Num(n: int) | Str(s: string)

  /** `userDetails`: `''` until a user object is stored. */
  datatype UserDetails = NoUser | User(name: string, email: string)

  datatype StoreState = StoreState(
    email: string, password: string, authToken: string, userDetails: UserDetails,
    verifyEmailOtp: bool, socket: SocketLink.Socket?, newMessage: string, roomId: string,
    allChat: seq<Turn>, page: PageValue, roomPage: PageValue,
    isMobile: bool, isDarkMode: bool, sidebarCollapsed: bool)

  /** The actions of the slice, one per reducer. */
  datatype Action =
    | SetEmail(email: string)
    | SetPassword(password: string)
    | SetAuthToken(token: string)
    | SetUserDetails(details: UserDetails)
    | SetVerifyEmailOtp(flag: bool)
    | SetSocket(socket: SocketLink.Socket?)
    | SetNewMessage(message: string)
    | SetRoomId(roomId: string)
    | SetAllChat(chat: seq<Turn>)
    | SetPage(page: PageValue)
    | IncrementPage
    | SetRoomPage(roomPage: PageValue)
    | IncrementRoomPage
    | SetIsMobile(flag: bool)
    | SetDarkMode(flag: bool)
    | ToggleDarkMode
    | SetSidebarState(flag: bool)
    | ToggleSidebarState
    | InitializeState(storedToken: Option<string>, storedDarkMode: Option<bool>)
    | ClearUserData

  /** `initialState`. */
  function Initial(): StoreState {
    StoreState("", "", "", NoUser, false, null, "", "", [], Num(1), Num(1), false, false, false)
  }

  /** The decimal value of a string of ASCII digits (`''` counts as 0). */
  function DecimalValue(s: string): (v: nat)
    requires AllDigits(s)
    ensures s == "" ==> v == 0
  {
    if s == "" then 0 else 10 * DecimalValue(s[..|s| - 1]) + (s[|s| - 1] as int - '0' as int)
  }

  /** JavaScript `Number(page)`, as `<` applies it: a number is itself, a string of
      digits its decimal value (`''` is 0), any other string is `NaN` (`None`). */
  function PageNumber(p: PageValue): (r: Option<int>)
    ensures p.Num? ==> r == Some(p.n)
    ensures p == Str("") ==> r == Some(0)
  {
    match p
    case Num(n) => Some(n)
    case Str(s) => if AllDigits(s) then Some(DecimalValue(s)) else None
  }

  /** JavaScript truthiness of `page`: not `0` and not `''`. */
  predicate PageTruthy(p: PageValue) {
    match p
    case Num(n) => n != 0
    case Str(s) => s != ""
  }

  /** `page += 1`: a number goes up by one; a string gets the digit `1` appended. */
  function NextPage(p: PageValue): (q: PageValue)
    ensures p.Num? ==> q == Num(p.n + 1)
    ensures p.Str? ==> q.Str? && q.s == p.s + "1"
  {
    match p
    case Num(n) => Num(n + 1)
    case Str(s) => Str(s + "1")
  }

  /** The reducer of the slice. */
  function Reduce(st: StoreState, a: Action): StoreState {
    match a
    case SetEmail(v) => st.(email := v)
    case SetPassword(v) => st.(password := v)
    case SetAuthToken(v) => st.(authToken := v)
    case SetUserDetails(v) => st.(userDetails := v)
    case SetVerifyEmailOtp(v) => st.(verifyEmailOtp := v)
    case SetSocket(v) => st.(socket := v)
    case SetNewMessage(v) => st.(newMessage := v)
    case SetRoomId(v) => st.(roomId := v)
    case SetAllChat(v) => st.(allChat := v)
    case SetPage(v) => st.(page := v)
    case IncrementPage => st.(page := NextPage(st.page))
    case SetRoomPage(v) => st.(roomPage := v)
    case IncrementRoomPage => st.(roomPage := NextPage(st.roomPage))
    case SetIsMobile(v) => st.(isMobile := v)
    case SetDarkMode(v) => st.(isDarkMode := v)
    case ToggleDarkMode => st.(isDarkMode := !st.isDarkMode)
    case SetSidebarState(v) => st.(sidebarCollapsed := v)
    case ToggleSidebarState => st.(sidebarCollapsed := !st.sidebarCollapsed)
    case InitializeState(token, dark) =>
      var st1 := if Truthy(token) then st.(authToken := token.value) else st;
      if dark.Some? then st1.(isDarkMode := dark.value) else st1
    case ClearUserData =>
      st.(email := "", password := "", authToken := "", userDetails := NoUser,
          verifyEmailOtp := false, socket := null, allChat := [])
  }

  /** The initial state holds page 1 of both lists, no room, an empty transcript and
      the light theme. */
  lemma InitialState()
    ensures Initial().page == Num(1) && Initial().roomPage == Num(1)
    ensures Initial().roomId == "" && Initial().allChat == [] && !Initial().isDarkMode
    ensures PageNumber(Initial().page) == Some(1)
  {
  }

  /** `incrementPage` raises a numeric page by exactly one and changes nothing else;
      `incrementRoomPage` does the same for `roomPage`. */
  lemma IncrementOnlyMovesItsCounter(st: StoreState)
    ensures var r := Reduce(st, IncrementPage);
      r.(page := st.page) == st &&
      (st.page.Num? ==> PageNumber(r.page) == Some(st.page.n + 1))
    ensures var r := Reduce(st, IncrementRoomPage);
      r.(roomPage := st.roomPage) == st &&
      (st.roomPage.Num? ==> PageNumber(r.roomPage) == Some(st.roomPage.n + 1))
  {
  }

  /** Every setter changes its own field and no other. */
  lemma SetterWritesOnlyItsField(st: StoreState, a: Action)
    ensures a.SetEmail? ==> Reduce(st, a).email == a.email && Reduce(st, a).(email := st.email) == st
    ensures a.SetPassword? ==> Reduce(st, a).password == a.password && Reduce(st, a).(password := st.password) == st
    ensures a.SetAuthToken? ==> Reduce(st, a).authToken == a.token && Reduce(st, a).(authToken := st.authToken) == st
    ensures a.SetUserDetails? ==> Reduce(st, a).userDetails == a.details && Reduce(st, a).(userDetails := st.userDetails) == st
    ensures a.SetVerifyEmailOtp? ==> Reduce(st, a).verifyEmailOtp == a.flag && Reduce(st, a).(verifyEmailOtp := st.verifyEmailOtp) == st
    ensures a.SetSocket? ==> Reduce(st, a).socket == a.socket && Reduce(st, a).(socket := st.socket) == st
    ensures a.SetNewMessage? ==> Reduce(st, a).newMessage == a.message && Reduce(st, a).(newMessage := st.newMessage) == st
    ensures a.SetRoomId? ==> Reduce(st, a).roomId == a.roomId && Reduce(st, a).(roomId := st.roomId) == st
    ensures a.SetAllChat? ==> Reduce(st, a).allChat == a.chat && Reduce(st, a).(allChat := st.allChat) == st
    ensures a.SetPage? ==> Reduce(st, a).page == a.page && Reduce(st, a).(page := st.page) == st
    ensures a.SetRoomPage? ==> Reduce(st, a).roomPage == a.roomPage && Reduce(st, a).(roomPage := st.roomPage) == st
    ensures a.SetIsMobile? ==> Reduce(st, a).isMobile == a.flag && Reduce(st, a).(isMobile := st.isMobile) == st
    ensures a.SetDarkMode? ==> Reduce(st, a).isDarkMode == a.flag && Reduce(st, a).(isDarkMode := st.isDarkMode) == st
    ensures a.SetSidebarState? ==> Reduce(st, a).sidebarCollapsed == a.flag && Reduce(st, a).(sidebarCollapsed := st.sidebarCollapsed) == st
  {
  }

  /** `toggleDarkMode` and `toggleSidebarState` flip their flag, touch nothing else,
      and undo themselves. */
  lemma TogglesAreInvolutions(st: StoreState)
    ensures Reduce(st, ToggleDarkMode).isDarkMode == !st.isDarkMode
    ensures Reduce(st, ToggleDarkMode).(isDarkMode := st.isDarkMode) == st
    ensures Reduce(Reduce(st, ToggleDarkMode), ToggleDarkMode) == st
    ensures Reduce(st, ToggleSidebarState).sidebarCollapsed == !st.sidebarCollapsed
    ensures Reduce(st, ToggleSidebarState).(sidebarCollapsed := st.sidebarCollapsed) == st
    ensures Reduce(Reduce(st, ToggleSidebarState), ToggleSidebarState) == st
  {
  }

  /** `clearUserData` empties the credentials, the user, the socket and the transcript,
      and keeps the room, the page cursors, the pending message and the theme; doing it
      twice is the same as once. */
  lemma ClearUserDataKeepsSession(st: StoreState)
    ensures var r := Reduce(st, ClearUserData);
      && r.email == "" && r.password == "" && r.authToken == "" && r.userDetails == NoUser
      && !r.verifyEmailOtp && r.socket == null && r.allChat == []
      && r.roomId == st.roomId && r.page == st.page && r.roomPage == st.roomPage
      && r.newMessage == st.newMessage && r.isDarkMode == st.isDarkMode
      && r.isMobile == st.isMobile && r.sidebarCollapsed == st.sidebarCollapsed
    ensures Reduce(Reduce(st, ClearUserData), ClearUserData) == Reduce(st, ClearUserData)
  {
  }

  /** `initializeState` adopts the stored token only when it is truthy and the stored
      theme only when it is defined; everything else is kept. */
  lemma InitializeStateCases(st: StoreState, token: Option<string>, dark: Option<bool>)
    ensures var r := Reduce(st, InitializeState(token, dark));
      && r.authToken == (if Truthy(token) then token.value else st.authToken)
      && r.isDarkMode == (if dark.Some? then dark.value else st.isDarkMode)
      && r.(authToken := st.authToken, isDarkMode := st.isDarkMode) == st
  {
  }

  /** The store. `Snapshot()` is its state; each dispatch runs the reducer on it, assigning
      the fields it writes in place. */
  class Store {
    var email: string
    var password: string
    var authToken: string
    var userDetails: UserDetails
    var verifyEmailOtp: bool
    var socket: SocketLink.Socket?
    var newMessage: string
    var roomId: string
    var allChat: seq<Turn>
    var page: PageValue
    var roomPage: PageValue
    var isMobile: bool
    var isDarkMode: bool
    var sidebarCollapsed: bool

    ghost function Snapshot(): StoreState
      reads this
    {
      StoreState(email, password, authToken, userDetails, verifyEmailOtp, socket,
                 newMessage, roomId, allChat, page, roomPage, isMobile, isDarkMode,
                 sidebarCollapsed)
    }

    /** `configureStore` with `initialState`. */
    constructor ()
      ensures Snapshot() == Initial()
    {
      email, password, authToken, userDetails := "", "", "", NoUser;
      verifyEmailOtp, socket, newMessage, roomId := false, null, "", "";
      allChat, page, roomPage := [], Num(1), Num(1);
      isMobile, isDarkMode, sidebarCollapsed := false, false, false;
    }

    /** `dispatch(setEmail(…))`. */
    method SetEmail(v: string)
      modifies this
      ensures Snapshot() == old(Snapshot()).(email := v)
      ensures Snapshot() == Reduce(old(Snapshot()), Action.SetEmail(v))
    {
      email := v;
    }

    /** `dispatch(setPassword(…))`. */
    method SetPassword(v: string)
      modifies this
      ensures Snapshot() == old(Snapshot()).(password := v)
      ensures Snapshot() == Reduce(old(Snapshot()), Action.SetPassword(v))
    {
      password := v;
    }

    /** `dispatch(setAuthToken(…))`. */
    method SetAuthToken(v: string)
      modifies this
      ensures Snapshot() == old(Snapshot()).(authToken := v)
      ensures Snapshot() == Reduce(old(Snapshot()), Action.SetAuthToken(v))
    {
      authToken := v;
    }

    /** `dispatch(setUserDetails(…))`. */
    method SetUserDetails(v: UserDetails)
      modifies this
      ensures Snapshot() == old(Snapshot()).(userDetails := v)
      ensures Snapshot() == Reduce(old(Snapshot()), Action.SetUserDetails(v))
    {
      userDetails := v;
    }

    /** `dispatch(setVerifyEmailOtp(…))`. */
    method SetVerifyEmailOtp(v: bool)
      modifies this
      ensures Snapshot() == old(Snapshot()).(verifyEmailOtp := v)
      ensures Snapshot() == Reduce(old(Snapshot()), Action.SetVerifyEmailOtp(v))
    {
      verifyEmailOtp := v;
    }

    /** `dispatch(setSocket(…))`. */
    method SetSocket(v: SocketLink.Socket?)
      modifies this
      ensures Snapshot() == old(Snapshot()).(socket := v)
      ensures Snapshot() == Reduce(old(Snapshot()), Action.SetSocket(v))
    {
      socket := v;
    }

    /** `dispatch(setNewMessage(…))`. */
    method SetNewMessage(v: string)
      modifies this
      ensures Snapshot() == old(Snapshot()).(newMessage := v)
      ensures Snapshot() == Reduce(old(Snapshot()), Action.SetNewMessage(v))
    {
      newMessage := v;
    }

    /** `dispatch(setRoomId(…))`. */
    method SetRoomId(v: string)
      modifies this
      ensures Snapshot() == old(Snapshot()).(roomId := v)
      ensures Snapshot() == Reduce(old(Snapshot()), Action.SetRoomId(v))
    {
      roomId := v;
    }

    /** `dispatch(setAllChat(…))`. */
    method SetAllChat(v: seq<Turn>)
      modifies this
      ensures Snapshot() == old(Snapshot()).(allChat := v)
      ensures Snapshot() == Reduce(old(Snapshot()), Action.SetAllChat(v))
    {
      allChat := v;
    }

    /** `dispatch(setPage(…))`. */
    method SetPage(v: PageValue)
      modifies this
      ensures Snapshot() == old(Snapshot()).(page := v)
      ensures Snapshot() == Reduce(old(Snapshot()), Action.SetPage(v))
    {
      page := v;
    }

    /** `dispatch(incrementPage())`. */
    method IncrementPage()
      modifies this
      ensures Snapshot() == old(Snapshot()).(page := NextPage(old(page)))
      ensures Snapshot() == Reduce(old(Snapshot()), Action.IncrementPage)
    {
      page := NextPage(page);
    }

    /** `dispatch(setRoomPage(…))`. */
    method SetRoomPage(v: PageValue)
      modifies this
      ensures Snapshot() == old(Snapshot()).(roomPage := v)
      ensures Snapshot() == Reduce(old(Snapshot()), Action.SetRoomPage(v))
    {
      roomPage := v;
    }

    /** `dispatch(incrementRoomPage())`. */
    method IncrementRoomPage()
      modifies this
      ensures Snapshot() == old(Snapshot()).(roomPage := NextPage(old(roomPage)))
      ensures Snapshot() == Reduce(old(Snapshot()), Action.IncrementRoomPage)
    {
      roomPage := NextPage(roomPage);
    }

    /** `dispatch(setIsMobile(…))`. */
    method SetIsMobile(v: bool)
      modifies this
      ensures Snapshot() == old(Snapshot()).(isMobile := v)
      ensures Snapshot() == Reduce(old(Snapshot()), Action.SetIsMobile(v))
    {
      isMobile := v;
    }

    /** `dispatch(setDarkMode(…))`. */
    method SetDarkMode(v: bool)
      modifies this
      ensures Snapshot() == old(Snapshot()).(isDarkMode := v)
      ensures Snapshot() == Reduce(old(Snapshot()), Action.SetDarkMode(v))
    {
      isDarkMode := v;
    }

    /** `dispatch(toggleDarkMode())`. */
    method ToggleDarkMode()
      modifies this
      ensures Snapshot() == old(Snapshot()).(isDarkMode := !old(isDarkMode))
      ensures Snapshot() == Reduce(old(Snapshot()), Action.ToggleDarkMode)
    {
      isDarkMode := !isDarkMode;
    }

    /** `dispatch(setSidebarState(…))`. */
    method SetSidebarState(v: bool)
      modifies this
      ensures Snapshot() == old(Snapshot()).(sidebarCollapsed := v)
      ensures Snapshot() == Reduce(old(Snapshot()), Action.SetSidebarState(v))
    {
      sidebarCollapsed := v;
    }

    /** `dispatch(toggleSidebarState())`. */
    method ToggleSidebarState()
      modifies this
      ensures Snapshot() == old(Snapshot()).(sidebarCollapsed := !old(sidebarCollapsed))
      ensures Snapshot() == Reduce(old(Snapshot()), Action.ToggleSidebarState)
    {
      sidebarCollapsed := !sidebarCollapsed;
    }

    /** `dispatch(initializeState(…))`. */
    method InitializeState(token: Option<string>, dark: Option<bool>)
      modifies this
      ensures Snapshot() == old(Snapshot()).(
        authToken := if Truthy(token) then token.value else old(authToken),
        isDarkMode := if dark.Some? then dark.value else old(isDarkMode))
      ensures Snapshot() == Reduce(old(Snapshot()), Action.InitializeState(token, dark))
    {
      if Truthy(token) { authToken := token.value; }
      if dark.Some? { isDarkMode := dark.value; }
    }

    /** `dispatch(clearUserData())`. */
    method ClearUserData()
      modifies this
      ensures Snapshot() == old(Snapshot()).(email := "", password := "", authToken := "",
        userDetails := NoUser, verifyEmailOtp := false, socket := null, allChat := [])
      ensures Snapshot() == Reduce(old(Snapshot()), Action.ClearUserData)
    {
      SetEmail("");
      SetPassword("");
      SetAuthToken("");
      SetUserDetails(NoUser);
      SetVerifyEmailOtp(false);
      SetSocket(null);
      SetAllChat([]);
    }
  }
}
