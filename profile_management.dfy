/** The profile editor (src/assets/components/ProfileManagement.js): the name and
    e-mail modals' save guards, their 1000 ms mock saves, and the panel that shows the
    user's name and e-mail. */
module ProfileManagement {
  import opened Shared
  import opened JsText
  import opened EmailPatterns

  const DefaultName := "Eddie Lake"
  const DefaultEmail := "eddie_lake@gmail.com"

  /** The error the name modal's `handleSave` shows, or `None` when it saves. */
  function NameSaveError(name: string): (err: Option<string>)
    ensures err.None? <==> !AllWhitespace(name)
    ensures err.Some? ==> err.value == "Name cannot be empty"
  {
    if IsBlank(name) then Some("Name cannot be empty") else None
  }

  /** The error the e-mail modal's `handleSave` shows, or `None` when it saves: blank
      first, then the pattern, which is tested on the untrimmed text. */
  function EmailSaveError(email: string): (err: Option<string>)
    ensures err.None? <==> ProfileEmailAccepts(email)
    ensures AllWhitespace(email) ==> err == Some("Email cannot be empty")
    ensures !AllWhitespace(email) && err.Some? ==> err == Some("Please enter a valid email address")
  {
    if IsBlank(email) then Some("Email cannot be empty")
    else if !ProfileEmailAccepts(email) then Some("Please enter a valid email address")
    else None
  }

  /** A blank e-mail never matches the pattern, so the first check only chooses the
      message. */
  lemma BlankEmailRejected(email: string)
    requires AllWhitespace(email)
    ensures !ProfileEmailAccepts(email)
  {
    if ProfileEmailAccepts(email) {
      var l, h, t := ProfileEmailAcceptedSplit(email);
    }
  }

  /** A saved e-mail has one `@`, no whitespace (so none at either end), and the shape
      local `@` host `.` label. */
  lemma SavedEmailShape(email: string)
    requires EmailSaveError(email).None?
    ensures NoWhitespace(email) && multiset(email)['@'] == 1
    ensures exists l, h, t :: ProfileEmailSplit(email, l, h, t)
  {
    ProfileEmailOneAt(email);
    ProfileEmailShape(email);
  }

  datatype EditState = EditState(draft: string, isLoading: bool, error: string,
                                 pending: Option<string>, closed: Option<bool>)

  /** `EditNameModal` and `EditEmailModal` share this state: the text being edited, the
      loading flag, the error, the value the mock save will report, and the argument of
      the last `onClose`. */
  class EditModal {
    /** True for the e-mail modal, false for the name modal. */
    const isEmail: bool
    var draft: string
    var isLoading: bool
    var error: string
    var pending: Option<string>
    var closed: Option<bool>

    function Local(): EditState
      reads this
    {
      EditState(draft, isLoading, error, pending, closed)
    }

    /** `useState(current || '')`. */
    constructor (isEmail: bool, current: Option<string>)
      ensures this.isEmail == isEmail
      ensures Local() == EditState(current.GetOr(""), false, "", None, None)
    {
      this.isEmail := isEmail;
      draft, isLoading, error, pending, closed := current.GetOr(""), false, "", None, None;
    }

    /** `onChangeText`. */
    method Edit(text: string)
      modifies this
      ensures Local() == old(Local()).(draft := text)
    {
      draft := text;
    }

    function SaveError(text: string): Option<string>
      reads this
    {
      if isEmail then EmailSaveError(text) else NameSaveError(text)
    }

    /** `handleSave`: a rejected text sets the error and nothing else; an accepted one
        starts loading, clears the error and schedules the mock save of the text as
        typed (not trimmed). */
    method HandleSave()
      modifies this
      ensures var err := SaveError(old(draft));
        Local() == if err.Some? then old(Local()).(error := err.value)
                   else old(Local()).(isLoading := true, error := "", pending := Some(old(draft)))
      ensures pending != old(pending) ==>
        if isEmail then NoWhitespace(draft) && multiset(draft)['@'] == 1 else !AllWhitespace(draft)
    {
      var err := SaveError(draft);
      if err.Some? {
        error := err.value;
        return;
      }
      if isEmail {
        SavedEmailShape(draft);
      }
      isLoading := true;
      error := "";
      pending := Some(draft);
    }

    /** The mock save's timer: reports the saved text (`onNameUpdated` /
        `onEmailUpdated`), stops loading and calls `onClose(true)`. */
    method SaveTimerFires() returns (updated: Option<string>)
      modifies this
      ensures updated == old(pending)
      ensures old(pending).Some? ==> Local() == old(Local()).(isLoading := false, pending := None, closed := Some(true))
      ensures old(pending).None? ==> Local() == old(Local())
    {
      updated := pending;
      if pending.Some? {
        isLoading, pending, closed := false, None, Some(true);
      }
    }
  }

  /** `userData` from `useGetUserDetailQuery`, with the fields the effect reads. */
  datatype UserRecord = UserRecord(name: Option<string>, email: Option<string>)
  datatype UserData = UserData(data: Option<UserRecord>)

  datatype PanelState = PanelState(name: string, email: string, showNameModal: bool,
                                   showEmailModal: bool, nameSuccess: bool, emailSuccess: bool)

  /** `ProfileManagement`. */
  class ProfilePanel {
    var name: string
    var email: string
    var showNameModal: bool
    var showEmailModal: bool
    var nameSuccess: bool
    var emailSuccess: bool

    function Local(): PanelState
      reads this
    {
      PanelState(name, email, showNameModal, showEmailModal, nameSuccess, emailSuccess)
    }

    constructor ()
      ensures Local() == PanelState(DefaultName, DefaultEmail, false, false, false, false)
    {
      name, email := DefaultName, DefaultEmail;
      showNameModal, showEmailModal, nameSuccess, emailSuccess := false, false, false, false;
    }

    /** The effect on `userData`: with a `data` object, name and e-mail are replaced,
        each by `''` when missing; otherwise both are kept. */
    method UserDataLoaded(userData: Option<UserData>)
      modifies this
      ensures userData.Some? && userData.value.data.Some? ==>
        var d := userData.value.data.value;
        Local() == old(Local()).(name := d.name.GetOr(""), email := d.email.GetOr(""))
      ensures !(userData.Some? && userData.value.data.Some?) ==> Local() == old(Local())
    {
      if userData.Some? && userData.value.data.Some? {
        var d := userData.value.data.value;
        name := d.name.GetOr("");
        email := d.email.GetOr("");
      }
    }

    /** A press on the name or e-mail row opens its modal. */
    method OpenModal(isEmail: bool)
      modifies this
      ensures Local() == if isEmail then old(Local()).(showEmailModal := true)
                         else old(Local()).(showNameModal := true)
    {
      if isEmail { showEmailModal := true; } else { showNameModal := true; }
    }

    /** `onNameUpdated` / `onEmailUpdated`. */
    method Updated(isEmail: bool, value: string)
      modifies this
      ensures Local() == if isEmail then old(Local()).(email := value) else old(Local()).(name := value)
    {
      if isEmail { email := value; } else { name := value; }
    }

    /** A modal's `onClose(success)`: the modal hides, and a success shows its message. */
    method ModalClosed(isEmail: bool, success: bool)
      modifies this
      ensures Local() == if isEmail
        then old(Local()).(showEmailModal := false, emailSuccess := success || old(emailSuccess))
        else old(Local()).(showNameModal := false, nameSuccess := success || old(nameSuccess))
    {
      if isEmail {
        showEmailModal := false;
        if success { emailSuccess := true; }
      } else {
        showNameModal := false;
        if success { nameSuccess := true; }
      }
    }

    /** The timer a successful close starts: three seconds later that modal's success
        message hides again; the other one is left as it is. */
    method SuccessTimerFires(isEmail: bool)
      modifies this
      ensures Local() == if isEmail then old(Local()).(emailSuccess := false)
                         else old(Local()).(nameSuccess := false)
    {
      if isEmail { emailSuccess := false; } else { nameSuccess := false; }
    }
  }
}
