/** The prompt box (src/assets/components/InputComponent.js): the auto-growing height,
    which buttons are shown or enabled, and the clear and microphone handlers. */
module InputComponent {
  import opened JsText

  const MinHeight := 40
  const MaxHeight := 180

  /** `Math.min(Math.max(40, height), 180)`. */
  function ClampHeight(height: int): (h: int)
    ensures MinHeight <= h <= MaxHeight
    ensures MinHeight <= height <= MaxHeight ==> h == height
    ensures height < MinHeight ==> h == MinHeight
    ensures height > MaxHeight ==> h == MaxHeight
  {
    if height < MinHeight then MinHeight else if height > MaxHeight then MaxHeight else height
  }

  /** Clamping a clamped height changes nothing. */
  lemma ClampIdempotent(height: int)
    ensures ClampHeight(ClampHeight(height)) == ClampHeight(height)
  {
  }

  /** The send button's `disabled`. */
  predicate SendDisabled(loading: bool, prompt: string) {
    loading || IsBlank(prompt)
  }

  /** Whether the clear button is rendered. */
  predicate ClearShown(prompt: string, isRecording: bool) {
    !IsBlank(prompt) || isRecording
  }

  /** The clear button's `disabled`. */
  predicate ClearDisabled(loading: bool, isRecording: bool) {
    loading && !isRecording
  }

  /** The microphone button's `disabled`. */
  predicate MicDisabled(loading: bool) {
    loading
  }

  /** A prompt that can be sent always has a usable clear button next to it, and a
      prompt of only whitespace can never be sent. */
  lemma SendableHasClear(loading: bool, prompt: string, isRecording: bool)
    ensures !SendDisabled(loading, prompt) ==> ClearShown(prompt, isRecording) && !ClearDisabled(loading, isRecording)
    ensures AllWhitespace(prompt) ==> SendDisabled(loading, prompt)
  {
  }

  /** While a reply is loading nothing can be sent and the microphone is locked, and the
      clear button is usable only to stop a recording; with nothing loading the clear
      and microphone buttons are usable and a prompt can be sent exactly when it is not
      blank. */
  lemma LoadingLocksInput(prompt: string, isRecording: bool)
    ensures SendDisabled(true, prompt) && MicDisabled(true)
    ensures ClearDisabled(true, isRecording) <==> !isRecording
    ensures !MicDisabled(false) && !ClearDisabled(false, isRecording)
    ensures !SendDisabled(false, prompt) <==> !IsBlank(prompt)
  {
  }

  /** The callbacks the box calls on its parent. */
  datatype RecorderCall = StartRecording | StopRecording

  datatype BoxState = BoxState(prompt: string, inputHeight: int, calls: seq<RecorderCall>)

  class PromptBox {
    /** The parent's `prompt`, written through `setPrompt`. */
    var prompt: string
    var inputHeight: int
    var calls: seq<RecorderCall>

    function Local(): BoxState
      reads this
    {
      BoxState(prompt, inputHeight, calls)
    }

    ghost predicate Valid()
      reads this
    {
      MinHeight <= inputHeight <= MaxHeight
    }

    constructor (prompt: string)
      ensures Valid() && Local() == BoxState(prompt, MinHeight, [])
    {
      this.prompt, inputHeight, calls := prompt, MinHeight, [];
    }

    /** `handleContentSizeChange`. */
    method ContentSizeChanged(height: int)
      modifies this
      ensures Valid() && Local() == old(Local()).(inputHeight := ClampHeight(height))
    {
      inputHeight := ClampHeight(height);
    }

    /** The clear button: while recording it stops recording and empties the prompt;
        otherwise it empties the prompt and resets the height. */
    method ClearPressed(isRecording: bool)
      requires Valid()
      modifies this
      ensures Valid()
      ensures isRecording ==> Local() == old(Local()).(prompt := "", calls := old(calls) + [StopRecording])
      ensures !isRecording ==> Local() == old(Local()).(prompt := "", inputHeight := MinHeight)
      ensures SendDisabled(false, prompt)
    {
      if isRecording {
        calls := calls + [StopRecording];
        prompt := "";
      } else {
        prompt := "";
        inputHeight := MinHeight;
      }
    }

    /** The microphone button: stops recording and empties the prompt while
        recording, starts recording otherwise. */
    method MicPressed(isRecording: bool)
      modifies this
      ensures isRecording ==> Local() == old(Local()).(prompt := "", calls := old(calls) + [StopRecording])
      ensures !isRecording ==> Local() == old(Local()).(calls := old(calls) + [StartRecording])
    {
      if isRecording {
        calls := calls + [StopRecording];
        prompt := "";
      } else {
        calls := calls + [StartRecording];
      }
    }

    /** `onChangeText`. */
    method TextChanged(text: string)
      modifies this
      ensures Local() == old(Local()).(prompt := text)
    {
      prompt := text;
    }
  }
}
