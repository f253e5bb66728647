/** The settings dialog (src/assets/components/ProfileModal.js): which tab a dialog key
    opens, the tab presses, and the reset on close. */
module ProfileModal {

  const StageProfile := 1
  const StageChat := 2
  const StageAccount := 3

  /** `getInitialStage`: `'chat_settings'` opens tab 2, `'account_settings'` tab 3, and
      any other key (`'profile_management'` included) tab 1. */
  function InitialStage(dialog: string): (stage: int)
    ensures StageProfile <= stage <= StageAccount
    ensures stage == StageChat <==> dialog == "chat_settings"
    ensures stage == StageAccount <==> dialog == "account_settings"
  {
    if dialog == "chat_settings" then StageChat
    else if dialog == "account_settings" then StageAccount
    else StageProfile
  }

  /** The content panes the dialog can show. */
  datatype Pane = ProfileManagementPane | ChatSettingPane | AccountSettingPane

  /** The panes rendered for a stage (`stage === 1 && …`, …). */
  function PanesShown(stage: int): set<Pane> {
    (if stage == StageProfile then {ProfileManagementPane} else {}) +
    (if stage == StageChat then {ChatSettingPane} else {}) +
    (if stage == StageAccount then {AccountSettingPane} else {})
  }

  /** Every stage from 1 to 3 renders exactly one pane, each stage its own. */
  lemma OnePanePerStage(stage: int)
    requires StageProfile <= stage <= StageAccount
    ensures |PanesShown(stage)| == 1
    ensures PanesShown(stage) == {if stage == StageProfile then ProfileManagementPane
                                  else if stage == StageChat then ChatSettingPane
                                  else AccountSettingPane}
  {
  }

  datatype ModalState = ModalState(dialog: string, stage: int, closeRequests: nat)

  class SettingsDialog {
    var dialog: string
    var stage: int
    /** The number of `onClose(false)` calls. */
    var closeRequests: nat

    function Local(): ModalState
      reads this
    {
      ModalState(dialog, stage, closeRequests)
    }

    ghost predicate Valid()
      reads this
    {
      StageProfile <= stage <= StageAccount
    }

    /** `useState(getInitialStage())`. */
    constructor (dialog: string)
      ensures Valid() && Local() == ModalState(dialog, InitialStage(dialog), 0)
    {
      this.dialog := dialog;
      stage := InitialStage(dialog);
      closeRequests := 0;
    }

    /** The effect on `dialog`: the stage follows the new key. */
    method DialogChanged(d: string)
      modifies this
      ensures Valid() && Local() == old(Local()).(dialog := d, stage := InitialStage(d))
    {
      dialog := d;
      stage := InitialStage(d);
    }

    /** A tab press: `setStage(1)`, `setStage(2)` or `setStage(3)`. */
    method SelectTab(n: int)
      requires StageProfile <= n <= StageAccount
      modifies this
      ensures Valid() && Local() == old(Local()).(stage := n)
    {
      stage := n;
    }

    /** The close icon and `onRequestClose`: `onClose(false)`, then the stage goes back
        to the dialog's initial one. */
    method Close()
      modifies this
      ensures Valid()
      ensures Local() == old(Local()).(stage := InitialStage(old(dialog)), closeRequests := old(closeRequests) + 1)
    {
      closeRequests := closeRequests + 1;
      stage := InitialStage(dialog);
    }
  }
}
