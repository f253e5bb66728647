/** The chat settings panel (src/assets/components/ChatSetting.js): three switches,
    the effect that loads the stored settings into them, and the save payload. */
module ChatSetting {
  import opened Shared

  /** A switch's state: `undefined` until loaded from a response that lacks the field. */
  type Flag = Option<bool>

  predicate On(f: Flag) {
    f == Some(true)
  }

  /** `setX(!x)`: the negation of the flag's truthiness. */
  function Flipped(f: Flag): (g: Flag)
    ensures g.Some? && (On(g) <==> !On(f))
  {
    Some(!On(f))
  }

  /** Flipping twice restores a loaded flag, and restores the truthiness of any flag
      (an `undefined` flag comes back as `false`). */
  lemma FlipTwice(f: Flag)
    ensures On(Flipped(Flipped(f))) <==> On(f)
    ensures f.Some? ==> Flipped(Flipped(f)) == f
    ensures f.None? ==> Flipped(Flipped(f)) == Some(false)
  {
    if f.Some? {
      assert On(Flipped(f)) == !f.value;
    }
  }

  /** The settings object the server stores, in its own field names. */
  datatype Settings = Settings(conversationTags: Flag, displayChatHistory: Flag, clearChatHistory: Flag)

  /** `chatSettings` from `useGetChatSettingQuery`. */
  datatype SettingsResponse = SettingsResponse(data: Option<Settings>)

  /** The panel's three switches, in the component's own names. */
  datatype Switches = Switches(conversationTags: Flag, displayHistory: Flag, clearHistory: Flag)

  /** The effect as written: the Conversation Tags switch takes `displayChatHistory` and
      the Display Chat History switch takes `conversationTags`. */
  function LoadedAsWritten(resp: SettingsResponse): (s: Switches)
    ensures resp.data.Some? ==> s == Switches(resp.data.value.displayChatHistory,
                                              resp.data.value.conversationTags,
                                              resp.data.value.clearChatHistory)
    ensures resp.data.None? ==> s == Switches(None, None, None)
  {
    match resp.data
    case None => Switches(None, None, None)
    case Some(d) => Switches(d.displayChatHistory, d.conversationTags, d.clearChatHistory)
  }

  /** The effect as intended: each switch takes the field `handleSave` writes it to. */
  function Loaded(resp: SettingsResponse): (s: Switches)
    ensures resp.data.Some? ==> Payload(s) == resp.data.value
    ensures resp.data.None? ==> s == Switches(None, None, None)
  {
    match resp.data
    case None => Switches(None, None, None)
    case Some(d) => Switches(d.conversationTags, d.displayChatHistory, d.clearChatHistory)
  }

  /** `handleSave`'s request body. */
  function Payload(s: Switches): (p: Settings)
    ensures p.conversationTags == s.conversationTags
    ensures p.displayChatHistory == s.displayHistory
    ensures p.clearChatHistory == s.clearHistory
  {
    Settings(s.conversationTags, s.displayHistory, s.clearHistory)
  }

  /** As written, saving the loaded settings untouched writes back `conversationTags`
      and `displayChatHistory` exchanged. */
  lemma LoadThenSaveSwaps(st: Settings)
    ensures Payload(LoadedAsWritten(SettingsResponse(Some(st)))) ==
      Settings(st.displayChatHistory, st.conversationTags, st.clearChatHistory)
  {
  }

  /** Settings that differ in the two swapped fields come back changed. */
  lemma LoadThenSaveChangesSettings()
    ensures var st := Settings(Some(true), Some(false), Some(false));
      Payload(LoadedAsWritten(SettingsResponse(Some(st)))) != st
  {
    var st := Settings(Some(true), Some(false), Some(false));
    LoadThenSaveSwaps(st);
  }

  /** With the intended load, saving untouched settings writes back what was loaded. */
  lemma LoadThenSaveRoundTrips(st: Settings)
    ensures Payload(Loaded(SettingsResponse(Some(st)))) == st
  {
  }

  /** How the update request ends. */
  datatype SaveOutcome = Saved(hasData: bool) | Failed(message: Option<string>)

  datatype PanelState = PanelState(switches: Switches, successMessage: bool,
                                   requests: seq<Settings>, alerts: seq<string>)

  class SettingsPanel {
    var switches: Switches
    var successMessage: bool
    var requests: seq<Settings>
    var alerts: seq<string>

    function Local(): PanelState
      reads this
    {
      PanelState(switches, successMessage, requests, alerts)
    }

    constructor ()
      ensures Local() == PanelState(Switches(Some(false), Some(false), Some(false)), false, [], [])
    {
      switches := Switches(Some(false), Some(false), Some(false));
      successMessage, requests, alerts := false, [], [];
    }

    /** The effect on `chatSettings` (intended mapping): a response fills all three
        switches; none leaves them. */
    method SettingsLoaded(chatSettings: Option<SettingsResponse>)
      modifies this
      ensures chatSettings.Some? ==> Local() == old(Local()).(switches := Loaded(chatSettings.value))
      ensures chatSettings.None? ==> Local() == old(Local())
    {
      if chatSettings.Some? {
        switches := Loaded(chatSettings.value);
      }
    }

    /** The three `onValueChange` handlers; `which` is 0, 1 or 2 in screen order. */
    method Toggle(which: int)
      requires 0 <= which < 3
      modifies this
      ensures which == 0 ==> Local() == old(Local()).(switches := old(switches).(conversationTags := Flipped(old(switches).conversationTags)))
      ensures which == 1 ==> Local() == old(Local()).(switches := old(switches).(displayHistory := Flipped(old(switches).displayHistory)))
      ensures which == 2 ==> Local() == old(Local()).(switches := old(switches).(clearHistory := Flipped(old(switches).clearHistory)))
    {
      if which == 0 {
        switches := switches.(conversationTags := Flipped(switches.conversationTags));
      } else if which == 1 {
        switches := switches.(displayHistory := Flipped(switches.displayHistory));
      } else {
        switches := switches.(clearHistory := Flipped(switches.clearHistory));
      }
    }

    /** `handleSave`: sends the payload; a response with `data` shows the success
        message, an error alerts its message or 'Failed to save settings'. */
    method HandleSave(o: SaveOutcome)
      modifies this
      ensures requests == old(requests) + [Payload(old(switches))]
      ensures switches == old(switches)
      ensures o.Saved? ==> alerts == old(alerts) && successMessage == (o.hasData || old(successMessage))
      ensures o.Failed? ==>
        && successMessage == old(successMessage)
        && alerts == old(alerts) + [if Truthy(o.message) then o.message.value else "Failed to save settings"]
    {
      requests := requests + [Payload(switches)];
      match o
      case Saved(hasData) =>
        if hasData { successMessage := true; }
      case Failed(message) =>
        alerts := alerts + [if Truthy(message) then message.value else "Failed to save settings"];
    }

    /** The timer a shown success message starts: three seconds later it hides again. */
    method SuccessTimerFires()
      modifies this
      ensures Local() == old(Local()).(successMessage := false)
    {
      successMessage := false;
    }
  }
}
