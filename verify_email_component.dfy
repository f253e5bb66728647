/** The e-mail verification modal of the components folder
    (src/assets/components/VerifyEmailModal.js): the same OTP entry, a resend that only
    clears the slots, and a verify that a 1500 ms timer completes. */
module VerifyEmailComponent {
  import opened Shared
  import opened OtpSlots

  datatype ModalState = ModalState(isLoading: bool, timerPending: bool,
                                   closeRequested: bool, route: Option<Route>)

  class ComponentModal {
    const slots: Slots
    var isLoading: bool
    /** The verification timer has been started and has not fired yet. */
    var timerPending: bool
    var closeRequested: bool
    var route: Option<Route>

    function Local(): ModalState
      reads this
    {
      ModalState(isLoading, timerPending, closeRequested, route)
    }

    ghost predicate Valid()
      reads this, slots
    {
      slots.Valid()
    }

    constructor ()
      ensures fresh(slots) && Valid()
      ensures slots.values == Cleared() && Local() == ModalState(false, false, false, None)
    {
      slots := new Slots();
      isLoading, timerPending, closeRequested, route := false, false, false, None;
    }

    /** The effect on `visible`: hiding the modal clears the six slots. */
    method VisibilityChanged(visible: bool)
      requires Valid()
      modifies slots
      ensures Valid()
      ensures slots.values == if visible then old(slots.values) else Cleared()
    {
      if !visible {
        slots.Reset();
      }
    }

    /** `handleResendCode`: sends nothing and always clears the slots. */
    method ResendCode()
      requires Valid()
      modifies slots
      ensures Valid() && slots.values == Cleared()
    {
      slots.Reset();
    }

    /** `handleVerifyOtp`: a code that is not six characters long changes nothing;
        a complete one starts loading and the timer. */
    method VerifyCode()
      requires Valid()
      modifies this
      ensures var complete := forall k :: 0 <= k < SlotCount ==> slots.values[k] != "";
        Local() == if complete then old(Local()).(isLoading := true, timerPending := true)
                   else old(Local())
    {
      JoinCountsFilledSlots(slots.values);
      if |Join(slots.values)| != SlotCount {
        return;
      }
      isLoading := true;
      timerPending := true;
    }

    /** The timer callback: stops loading, calls `onClose()` and navigates to Login. */
    method VerifyTimerFires()
      modifies this
      ensures old(timerPending) ==>
        Local() == ModalState(false, false, true, Some(Login))
      ensures !old(timerPending) ==> Local() == old(Local())
    {
      if !timerPending {
        return;
      }
      isLoading, timerPending, closeRequested, route := false, false, true, Some(Login);
    }
  }
}
