/** The prompt form: its `formData` record, the per-field updates and the submit guard. */
module PromptForm {
  import opened Text
  import opened Wrappers

  datatype FormData = FormData(prompt: string, style: string, duration: int, music: string)

  /** The initial `formData`. */
  const InitialForm := FormData("", "cinematic", 30, "upbeat")

  /** `handleSubmit`: the form is handed to `onSubmit` unchanged when the trimmed prompt is non-empty. */
  function Submission(form: FormData): (submitted: Option<FormData>)
    ensures submitted.Some? <==> !IsBlank(form.prompt)
    ensures submitted.Some? ==> submitted.value == form
  {
    TrimEmptyIffBlank(form.prompt);
    if Trim(form.prompt) != "" then Some(form) else None
  }

  /** The submit button's `disabled` attribute. */
  predicate SubmitDisabled(form: FormData, isLoading: bool)
    ensures SubmitDisabled(form, isLoading) <==> IsBlank(form.prompt) || isLoading
  {
    TrimEmptyIffBlank(form.prompt);
    Trim(form.prompt) == "" || isLoading
  }

  /** The button is enabled exactly when nothing is loading and a click would submit. */
  lemma EnabledButtonSubmits(form: FormData, isLoading: bool)
    ensures !SubmitDisabled(form, isLoading) <==> !isLoading && Submission(form).Some?
  {
    TrimEmptyIffBlank(form.prompt);
  }

  /** The component's `formData` state. */
  class Form {
    var formData: FormData

    constructor ()
      ensures formData == InitialForm
    {
      formData := InitialForm;
    }

    /** The textarea's `onChange`. */
    method SetPrompt(value: string)
      modifies this
      ensures formData == old(formData).(prompt := value)
    {
      formData := formData.(prompt := value);
    }

    /** The style select's `onValueChange`. */
    method SetStyle(value: string)
      modifies this
      ensures formData == old(formData).(style := value)
    {
      formData := formData.(style := value);
    }

    /** The slider's `onValueChange`: the first element of the slider value. */
    method SetDuration(value: seq<int>)
      requires |value| > 0
      modifies this
      ensures formData == old(formData).(duration := value[0])
    {
      formData := formData.(duration := value[0]);
    }

    /** The music select's `onValueChange`. */
    method SetMusic(value: string)
      modifies this
      ensures formData == old(formData).(music := value)
    {
      formData := formData.(music := value);
    }

    /** `handleSubmit`: returns what `onSubmit` receives, and changes no state. */
    method HandleSubmit() returns (submitted: Option<FormData>)
      ensures submitted.Some? <==> !IsBlank(formData.prompt)
      ensures submitted.Some? ==> submitted.value == formData
    {
      if Trim(formData.prompt) != "" {
        submitted := Some(formData);
      } else {
        submitted := None;
      }
      TrimEmptyIffBlank(formData.prompt);
    }
  }
}
