/** The six one-digit OTP inputs that both e-mail verification modals keep in their
    `otpValues` state, with `handleInputChange` and the backspace focus rule of
    `handleKeyPress`. */
module OtpSlots {
  import opened Shared
  import opened JsText

  const SlotCount := 6
  const LastSlot := 5

  /** `['', '', '', '', '', '']`. */
  function Cleared(): (v: seq<string>)
    ensures |v| == SlotCount && forall k :: 0 <= k < SlotCount ==> v[k] == ""
  {
    ["", "", "", "", "", ""]
  }

  /** Six slots, each empty or one ASCII digit. */
  predicate WellFormed(v: seq<string>) {
    |v| == SlotCount && forall k :: 0 <= k < |v| ==> |v[k]| <= 1 && AllDigits(v[k])
  }

  /** `otpValues.join('')`. */
  function Join(v: seq<string>): string {
    if v == [] then "" else v[0] + Join(v[1..])
  }

  /** Joined slots of at most one digit each are digits, at most one per slot, and one
      per slot exactly when no slot is empty: so "length is 6" means "all six filled". */
  lemma {:induction false} JoinCountsFilledSlots(v: seq<string>)
    requires forall k :: 0 <= k < |v| ==> |v[k]| <= 1 && AllDigits(v[k])
    ensures AllDigits(Join(v))
    ensures |Join(v)| <= |v|
    ensures |Join(v)| == |v| <==> forall k :: 0 <= k < |v| ==> v[k] != ""
  {
    if v != [] {
      JoinCountsFilledSlots(v[1..]);
      var t := Join(v[1..]);
      assert Join(v) == v[0] + t;
      forall k | 0 <= k < |Join(v)| ensures IsAsciiDigit(Join(v)[k]) {
        if k < |v[0]| { assert Join(v)[k] == v[0][k]; } else { assert Join(v)[k] == t[k - |v[0]|]; }
      }
      if forall k :: 0 <= k < |v| - 1 ==> v[1..][k] != "" {
        forall k | 0 < k < |v| ensures v[k] != "" { assert v[k] == v[1..][k - 1]; }
      } else {
        var k :| 0 <= k < |v| - 1 && v[1..][k] == "";
        assert v[k + 1] == "";
      }
    }
  }

  /** Where `handleInputChange` moves the focus: to the next slot after a non-empty
      digit-only value, unless this is the last slot. */
  function FocusAfterInput(index: int, value: string): (focus: Option<int>)
    ensures focus.Some? <==> AllDigits(value) && value != "" && index < LastSlot
    ensures focus.Some? ==> focus.value == index + 1
  {
    if AllDigits(value) && value != "" && index < LastSlot then Some(index + 1) else None
  }

  /** Where Backspace moves the focus: back one slot, from an empty slot that is not the
      first. */
  function FocusOnBackspace(v: seq<string>, index: int): (focus: Option<int>)
    requires 0 <= index < |v|
    ensures focus.Some? <==> v[index] == "" && index > 0
    ensures focus.Some? ==> focus.value == index - 1 && 0 <= focus.value < |v|
  {
    if v[index] == "" && index > 0 then Some(index - 1) else None
  }

  class Slots {
    /** `otpValues`; every update stores a new array. */
    var values: seq<string>

    ghost predicate Valid()
      reads this
    {
      WellFormed(values)
    }

    constructor ()
      ensures Valid() && values == Cleared()
    {
      values := Cleared();
    }

    /** `handleInputChange(index, value)`: a value holding a non-digit changes nothing;
        otherwise slot `index` becomes the value's last character (`''` for an empty
        value) and the other five are kept. */
    method InputChange(index: int, value: string) returns (focus: Option<int>)
      requires Valid() && 0 <= index < SlotCount
      modifies this
      ensures Valid()
      ensures !AllDigits(value) ==> values == old(values)
      ensures AllDigits(value) ==> values == old(values)[index := LastChar(value)]
      ensures |values| == SlotCount && forall k :: 0 <= k < SlotCount && k != index ==> values[k] == old(values)[k]
      ensures focus == FocusAfterInput(index, value)
    {
      if !AllDigits(value) {
        return None;
      }
      values := values[index := LastChar(value)];
      focus := FocusAfterInput(index, value);
    }

    /** `handleKeyPress` with Backspace: focus only, the slots are unchanged. */
    method Backspace(index: int) returns (focus: Option<int>)
      requires Valid() && 0 <= index < SlotCount
      ensures focus == FocusOnBackspace(values, index)
    {
      focus := FocusOnBackspace(values, index);
    }

    /** `setOtpValues(['', '', '', '', '', ''])`. */
    method Reset()
      modifies this
      ensures Valid() && values == Cleared()
    {
      values := Cleared();
    }
  }
}
