/**
 * The chat input box: a draft `message`, the `loading` flag its parent
 * passes in, and whether an `onSubmit` handler was supplied. Submitting
 * hands the trimmed draft to the handler and clears the draft.
 */
module AIInputBox {
  import opened Text

  /** The key that submits: Enter without Shift. */
  predicate IsSubmitKey(key: string, shiftKey: bool) {
    key == "Enter" && !shiftKey
  }

  /** The guard of `handleSubmit`: a non-blank draft, a handler, and not loading. */
  predicate CanSubmit(message: string, hasHandler: bool, loading: bool) {
    Trim(message) != "" && hasHandler && !loading
  }

  /** The send button's `disabled` attribute. */
  predicate SendDisabled(message: string, loading: bool) {
    Trim(message) == "" || loading
  }

  /** Whether the "Ready to submit!" hint is rendered. */
  predicate ShowsReadyHint(message: string, loading: bool) {
    Trim(message) == "" && !loading
  }

  /** The textarea's `disabled` attribute. */
  predicate TextareaDisabled(loading: bool) {
    loading
  }

  /** The send button is disabled exactly when the draft is all whitespace or a reply is loading. */
  lemma SendDisabledIffBlankOrLoading(message: string, loading: bool)
    ensures SendDisabled(message, loading) <==> IsBlank(message) || loading
  {
    TrimEmptyIffBlank(message);
  }

  /** The hint shows exactly when the draft is all whitespace and nothing is loading; the button is then disabled. */
  lemma ReadyHintIffBlankAndIdle(message: string, loading: bool)
    ensures ShowsReadyHint(message, loading) <==> IsBlank(message) && !loading
    ensures ShowsReadyHint(message, loading) ==> SendDisabled(message, loading)
  {
    TrimEmptyIffBlank(message);
  }

  /** With a handler supplied, clicking an enabled button submits and a disabled one does not. */
  lemma EnabledButtonSubmits(message: string, loading: bool)
    ensures !SendDisabled(message, loading) <==> CanSubmit(message, true, loading)
  {
  }

  /** What the guard lets through is non-empty, already trimmed, and free of whitespace at both ends. */
  lemma SubmittedTextIsTrimmed(message: string, hasHandler: bool, loading: bool)
    requires CanSubmit(message, hasHandler, loading)
    ensures var sent := Trim(message);
      sent != "" && Trim(sent) == sent && !IsTrimSpace(sent[0]) && !IsTrimSpace(sent[|sent| - 1])
  {
    TrimIdempotent(message);
    TrimHasCleanEnds(message);
  }

  class AIInput {
    /** Whether an `onSubmit` prop was passed. */
    const hasHandler: bool
    /** The draft held in the `message` state. */
    var message: string
    /** The `loading` prop. */
    var loading: bool
    /** The arguments of every `onSubmit` call so far, oldest first. */
    var submitted: seq<string>

    /** Everything handed to `onSubmit` was non-empty and already trimmed. */
    ghost predicate Valid()
      reads this
    {
      forall k :: 0 <= k < |submitted| ==> submitted[k] != "" && Trim(submitted[k]) == submitted[k]
    }

    /** A freshly mounted input: empty draft, nothing submitted. */
    constructor (hasHandler: bool, loading: bool)
      ensures Valid()
      ensures this.hasHandler == hasHandler && this.loading == loading
      ensures message == "" && submitted == []
    {
      this.hasHandler := hasHandler;
      this.loading := loading;
      message := "";
      submitted := [];
    }

    /** The textarea's `onChange`; a disabled textarea takes no input. */
    method Change(text: string)
      requires Valid()
      modifies this`message
      ensures Valid()
      ensures message == if TextareaDisabled(loading) then old(message) else text
    {
      if !TextareaDisabled(loading) {
        message := text;
      }
    }

    /** The parent passes a new `loading` prop. */
    method SetLoading(value: bool)
      requires Valid()
      modifies this`loading
      ensures Valid()
      ensures loading == value
    {
      loading := value;
    }

    /**
     * `handleSubmit`: when the guard holds, `onSubmit` receives the trimmed
     * draft once and the draft is cleared; otherwise nothing happens.
     */
    method HandleSubmit()
      requires Valid()
      modifies this`message, this`submitted
      ensures Valid()
      ensures CanSubmit(old(message), hasHandler, loading) ==>
        submitted == old(submitted) + [Trim(old(message))] && message == ""
      ensures !CanSubmit(old(message), hasHandler, loading) ==>
        submitted == old(submitted) && message == old(message)
    {
      if CanSubmit(message, hasHandler, loading) {
        SubmittedTextIsTrimmed(message, hasHandler, loading);
        submitted := submitted + [Trim(message)];
        message := "";
      }
    }

    /**
     * `handleKeyDown`: Enter without Shift prevents the default newline and
     * runs `handleSubmit`; every other key is left to the textarea.
     */
    method HandleKeyDown(key: string, shiftKey: bool) returns (defaultPrevented: bool)
      requires Valid()
      modifies this`message, this`submitted
      ensures Valid()
      ensures defaultPrevented == IsSubmitKey(key, shiftKey)
      ensures IsSubmitKey(key, shiftKey) && CanSubmit(old(message), hasHandler, loading) ==>
        submitted == old(submitted) + [Trim(old(message))] && message == ""
      ensures !(IsSubmitKey(key, shiftKey) && CanSubmit(old(message), hasHandler, loading)) ==>
        submitted == old(submitted) && message == old(message)
    {
      defaultPrevented := false;
      if IsSubmitKey(key, shiftKey) {
        defaultPrevented := true;
        HandleSubmit();
      }
    }
  }
}
