/** The account settings panel (src/assets/components/AccountSetting.js): the
    password-change form's submit guard and the account deletion that signs the user
    out of the store. */
module AccountSetting {
  import opened Shared
  import opened GlobalSlice

  /** The object `handleSubmit` passes to `onSubmit`. */
  datatype PasswordChange = PasswordChange(oldPassword: string, newPassword: string, confirmPassword: string)

  /** The error `handleSubmit` shows, or `None` when it submits. */
  function SubmitError(oldPassword: string, newPassword: string, confirmPassword: string): (err: Option<string>)
    ensures err.None? <==> oldPassword != "" && newPassword != "" && confirmPassword != "" && newPassword == confirmPassword
    ensures oldPassword == "" || newPassword == "" || confirmPassword == "" ==> err == Some("All fields are required")
    ensures err.Some? && err != Some("All fields are required") ==> err == Some("New passwords do not match")
  {
    if oldPassword == "" || newPassword == "" || confirmPassword == "" then Some("All fields are required")
    else if newPassword != confirmPassword then Some("New passwords do not match")
    else None
  }

  datatype FormState = FormState(oldPassword: string, newPassword: string, confirmPassword: string,
                                 error: string, submitted: seq<PasswordChange>)

  /** `PasswordChangeModal`. */
  class PasswordChangeForm {
    var oldPassword: string
    var newPassword: string
    var confirmPassword: string
    var error: string
    /** Every `onSubmit` call. */
    var submitted: seq<PasswordChange>

    function Local(): FormState
      reads this
    {
      FormState(oldPassword, newPassword, confirmPassword, error, submitted)
    }

    constructor ()
      ensures Local() == FormState("", "", "", "", [])
    {
      oldPassword, newPassword, confirmPassword, error, submitted := "", "", "", "", [];
    }

    /** The three `onChangeText` setters. */
    method Edit(oldText: string, newText: string, confirmText: string)
      modifies this
      ensures Local() == old(Local()).(oldPassword := oldText, newPassword := newText, confirmPassword := confirmText)
    {
      oldPassword, newPassword, confirmPassword := oldText, newText, confirmText;
    }

    /** `handleSubmit`: an empty field or a mismatch sets the error and submits
        nothing; otherwise exactly the three entered values are submitted, and the
        error shown so far stays. */
    method HandleSubmit()
      modifies this
      ensures var err := SubmitError(old(oldPassword), old(newPassword), old(confirmPassword));
        Local() == if err.Some? then old(Local()).(error := err.value)
                   else old(Local()).(submitted := old(submitted) + [PasswordChange(old(oldPassword), old(newPassword), old(confirmPassword))])
      ensures |submitted| > |old(submitted)| ==>
        var c := submitted[|submitted| - 1];
        c.oldPassword != "" && c.newPassword != "" && c.newPassword == c.confirmPassword
    {
      if oldPassword == "" || newPassword == "" || confirmPassword == "" {
        error := "All fields are required";
        return;
      }
      if newPassword != confirmPassword {
        error := "New passwords do not match";
        return;
      }
      submitted := submitted + [PasswordChange(oldPassword, newPassword, confirmPassword)];
    }
  }

  /** How `deleteProfile()` ends: a truthy or falsy response, or an error that may
      carry a message. */
  datatype DeleteOutcome = Responded(truthy: bool) | Failed(message: Option<string>)

  datatype PanelState = PanelState(showPasswordModal: bool, showDeleteModal: bool,
                                   passwordSuccess: bool, alerts: seq<string>)

  /** `AccountSetting`. */
  class AccountPanel {
    const store: Store
    var showPasswordModal: bool
    var showDeleteModal: bool
    var passwordSuccess: bool
    var alerts: seq<string>

    function Local(): PanelState
      reads this
    {
      PanelState(showPasswordModal, showDeleteModal, passwordSuccess, alerts)
    }

    constructor (store: Store)
      ensures this.store == store && Local() == PanelState(false, false, false, [])
    {
      this.store := store;
      showPasswordModal, showDeleteModal, passwordSuccess, alerts := false, false, false, [];
    }

    /** `handlePasswordSave` after `changePassword` ends. */
    method PasswordSaved(succeeded: bool)
      modifies this
      ensures Local() == if succeeded then old(Local()).(showPasswordModal := false, passwordSuccess := true)
                         else old(Local()).(alerts := old(alerts) + ["Failed to change password. Please try again."])
    {
      if succeeded {
        showPasswordModal := false;
        passwordSuccess := true;
      } else {
        alerts := alerts + ["Failed to change password. Please try again."];
      }
    }

    /** The timer a successful change starts: three seconds later the success note
        hides again. */
    method PasswordSuccessTimerFires()
      modifies this
      ensures Local() == old(Local()).(passwordSuccess := false)
    {
      passwordSuccess := false;
    }

    /** `handleConfirmDelete`: a truthy response clears the token and the user details
        and closes the modal; a falsy one does nothing; an error alerts its message or
        'Failed to delete account'. Nothing else in the store changes. */
    method HandleConfirmDelete(o: DeleteOutcome)
      modifies this, store
      ensures o == Responded(true) ==>
        && store.Snapshot() == old(store.Snapshot()).(authToken := "", userDetails := NoUser)
        && Local() == old(Local()).(showDeleteModal := false)
      ensures o == Responded(false) ==>
        store.Snapshot() == old(store.Snapshot()) && Local() == old(Local())
      ensures o.Failed? ==>
        && store.Snapshot() == old(store.Snapshot())
        && Local() == old(Local()).(alerts := old(alerts) + [if Truthy(o.message) then o.message.value else "Failed to delete account"])
    {
      match o
      case Responded(truthy) =>
        if truthy {
          store.SetAuthToken("");
          store.SetUserDetails(NoUser);
          showDeleteModal := false;
        }
      case Failed(message) =>
        alerts := alerts + [if Truthy(message) then message.value else "Failed to delete account"];
    }
  }
}
