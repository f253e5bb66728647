/** The sidebar's profile button (src/assets/components/ProfileSection.js): the avatar
    initials, the dropdown and its menu handlers. */
module ProfileSection {
  import opened Shared
  import opened JsText
  import opened GlobalSlice

  const Space := ' '
  const MaxInitials := 2

  /** `s.split(' ')`: the pieces between separators, in order, empty ones included. */
  function SplitOnSpace(s: string): (parts: seq<string>)
    ensures |parts| >= 1
    ensures forall k :: 0 <= k < |parts| ==> Space !in parts[k]
  {
    if s == "" then [""]
    else if s[0] == Space then [""] + SplitOnSpace(s[1..])
    else
      var r := SplitOnSpace(s[1..]);
      [[s[0]] + r[0]] + r[1..]
  }

  /** `parts.join(' ')`. */
  function JoinWithSpace(parts: seq<string>): string
    requires |parts| >= 1
  {
    if |parts| == 1 then parts[0] else parts[0] + [Space] + JoinWithSpace(parts[1..])
  }

  /** Splitting on `' '` loses nothing: joining the pieces back gives the name. */
  lemma {:induction false} SplitJoinRoundTrip(s: string)
    ensures JoinWithSpace(SplitOnSpace(s)) == s
  {
    if s != "" {
      SplitJoinRoundTrip(s[1..]);
      var r := SplitOnSpace(s[1..]);
      if s[0] == Space {
        assert s == [Space] + s[1..];
      } else {
        var p := SplitOnSpace(s);
        assert p[0] == [s[0]] + r[0] && p[1..] == r[1..];
        if |r| > 1 {
          assert JoinWithSpace(r) == r[0] + [Space] + JoinWithSpace(r[1..]);
          assert s == [s[0]] + s[1..];
        }
      }
    }
  }

  /** `part.charAt(0)`: the first character, or `''`. */
  function CharAt0(p: string): (c: string)
    ensures |c| == (if p == "" then 0 else 1)
    ensures p != "" ==> c[0] == p[0]
  {
    if p == "" then "" else [p[0]]
  }

  /** `parts.map(part => part.charAt(0)).join('')`. */
  function FirstChars(parts: seq<string>): string {
    if parts == [] then "" else CharAt0(parts[0]) + FirstChars(parts[1..])
  }

  /** The characters that start a word: a non-space character at the start of the name
      (`afterSpace`) or right after a space. */
  function WordStarts(s: string, afterSpace: bool): string {
    if s == "" then ""
    else (if afterSpace && s[0] != Space then [s[0]] else "") + WordStarts(s[1..], s[0] == Space)
  }

  /** Joining the pieces' first characters yields exactly the word starts: empty pieces
      (from consecutive, leading or trailing spaces) add nothing. */
  lemma {:induction false} FirstCharsAreWordStarts(s: string)
    ensures FirstChars(SplitOnSpace(s)) == WordStarts(s, true)
    ensures FirstChars(SplitOnSpace(s)[1..]) == WordStarts(s, false)
  {
    if s != "" {
      FirstCharsAreWordStarts(s[1..]);
      var r := SplitOnSpace(s[1..]);
      if s[0] == Space {
        assert SplitOnSpace(s)[1..] == r;
      } else {
        var p := SplitOnSpace(s);
        assert p[1..] == r[1..];
        assert CharAt0(p[0]) == [s[0]];
      }
    }
  }

  /** `s.substring(0, n)` for `n >= 0`. */
  function Prefix(s: string, n: nat): string {
    if |s| <= n then s else s[..n]
  }

  /** `getInitials`: `'?'` for a missing or empty name; otherwise the upper-cased word
      starts, at most two of them. */
  function Initials(name: Option<string>): (r: string)
    ensures !Truthy(name) ==> r == "?"
    ensures Truthy(name) ==> r == Prefix(Upper(WordStarts(name.value, true)), MaxInitials)
    ensures Truthy(name) ==> |r| <= MaxInitials
  {
    if !Truthy(name) then "?"
    else
      FirstCharsAreWordStarts(name.value);
      Prefix(Upper(FirstChars(SplitOnSpace(name.value))), MaxInitials)
  }

  /** The dialog keys the menu opens. */
  const ProfileManagementKey := "profile_management"
  const ChatSettingsKey := "chat_settings"
  const AccountSettingsKey := "account_settings"

  predicate MenuKey(k: string) {
    k == ProfileManagementKey || k == ChatSettingsKey || k == AccountSettingsKey
  }

  datatype SectionState = SectionState(isDropdownVisible: bool, isModalOpen: bool,
                                       activeDialog: string, route: Option<Route>)

  class Section {
    const store: Store
    var isDropdownVisible: bool
    var isModalOpen: bool
    var activeDialog: string
    var route: Option<Route>

    function Local(): SectionState
      reads this
    {
      SectionState(isDropdownVisible, isModalOpen, activeDialog, route)
    }

    constructor (store: Store)
      ensures this.store == store
      ensures Local() == SectionState(false, false, ProfileManagementKey, None)
    {
      this.store := store;
      isDropdownVisible, isModalOpen, activeDialog, route := false, false, ProfileManagementKey, None;
    }

    /** `toggleDropdown`. */
    method ToggleDropdown()
      modifies this
      ensures Local() == old(Local()).(isDropdownVisible := !old(isDropdownVisible))
    {
      isDropdownVisible := !isDropdownVisible;
    }

    /** `handleProfileManagement`, `handleChatSettings`, `handleAccountSettings`: the
        dialog takes the item's key, the modal opens and the dropdown closes. */
    method OpenSettings(key: string)
      requires MenuKey(key)
      modifies this
      ensures Local() == old(Local()).(activeDialog := key, isModalOpen := true, isDropdownVisible := false)
    {
      activeDialog := key;
      isModalOpen := true;
      isDropdownVisible := false;
    }

    /** `handleDarkModeToggle`: the dropdown stays open. */
    method DarkModeToggle()
      modifies store
      ensures store.Snapshot() == Reduce(old(store.Snapshot()), Action.ToggleDarkMode)
    {
      store.ToggleDarkMode();
    }

    /** `handleLogout`: clears the user data, navigates to Login and closes the dropdown. */
    method Logout()
      modifies this, store
      ensures store.Snapshot() == Reduce(old(store.Snapshot()), Action.ClearUserData)
      ensures Local() == old(Local()).(route := Some(Login), isDropdownVisible := false)
    {
      store.ClearUserData();
      route := Some(Login);
      isDropdownVisible := false;
    }

    /** The dropdown's `onClose` and the modal's `onClose`. */
    method CloseDropdown()
      modifies this
      ensures Local() == old(Local()).(isDropdownVisible := false)
    {
      isDropdownVisible := false;
    }

    method CloseModal()
      modifies this
      ensures Local() == old(Local()).(isModalOpen := false)
    {
      isModalOpen := false;
    }
  }
}
