/** The e-mail verification modal of the sign-up page (src/pages/VeifyEmailModal.js):
    OTP entry, the resend and verify guards, and the reset when the modal closes. */
module VerifyEmailPage {
  import opened Shared
  import opened OtpSlots
  import opened GlobalSlice

  /** The OTP requests the modal sends. */
  datatype OtpRequest = SendOtp(email: string) | VerifyOtp(otp: string, email: string)

  datatype ModalState = ModalState(requests: seq<OtpRequest>, closeRequested: bool, route: Option<Route>)

  class PageModal {
    const store: Store
    const slots: Slots
    var requests: seq<OtpRequest>
    /** `onClose()` has been called. */
    var closeRequested: bool
    var route: Option<Route>

    function Local(): ModalState
      reads this
    {
      ModalState(requests, closeRequested, route)
    }

    ghost predicate Valid()
      reads this, slots
    {
      slots.Valid()
    }

    constructor (store: Store)
      ensures this.store == store && fresh(slots) && Valid()
      ensures slots.values == Cleared() && Local() == ModalState([], false, None)
    {
      this.store := store;
      slots := new Slots();
      requests, closeRequested, route := [], false, None;
    }

    /** The effect on `visible`: hiding the modal clears the six slots. */
    method VisibilityChanged(visible: bool)
      requires Valid()
      modifies slots
      ensures Valid()
      ensures slots.values == if visible then old(slots.values) else Cleared()
    {
      if !visible {
        slots.Reset();
      }
    }

    /** `handleResendCode`: with no e-mail in the store no request is made; otherwise
        `sendOtp({email})` is sent and only a successful one clears the slots. */
    method ResendCode(succeeded: bool)
      requires Valid()
      modifies this, slots
      ensures Valid()
      ensures old(store.email) == "" ==> Local() == old(Local()) && slots.values == old(slots.values)
      ensures old(store.email) != "" ==>
        && Local() == old(Local()).(requests := old(requests) + [SendOtp(old(store.email))])
        && slots.values == if succeeded then Cleared() else old(slots.values)
    {
      if store.email == "" {
        return;
      }
      requests := requests + [SendOtp(store.email)];
      if succeeded {
        slots.Reset();
      }
    }

    /** `handleVerifyOtp`: a code that is not six characters long, or a missing e-mail,
        stops before any request; otherwise `verifyOtp({otp, email})` is sent, and a
        successful response closes the modal and navigates to Login. */
    method VerifyCode(success: bool)
      requires Valid()
      modifies this
      ensures var code := Join(slots.values);
        if |code| != SlotCount || store.email == "" then Local() == old(Local())
        else Local() == old(Local()).(
          requests := old(requests) + [VerifyOtp(code, store.email)],
          closeRequested := success || old(closeRequested),
          route := if success then Some(Login) else old(route))
      ensures |requests| > |old(requests)| <==>
        store.email != "" && forall k :: 0 <= k < SlotCount ==> slots.values[k] != ""
      ensures |requests| > |old(requests)| ==>
        var code := requests[|requests| - 1].otp; |code| == SlotCount && JsText.AllDigits(code)
    {
      JoinCountsFilledSlots(slots.values);
      var code := Join(slots.values);
      if |code| != SlotCount {
        return;
      }
      if store.email == "" {
        return;
      }
      requests := requests + [VerifyOtp(code, store.email)];
      if success {
        closeRequested := true;
        route := Some(Login);
      }
    }
  }
}
