/**
 * `SubmitAudit`: a three-step wizard (code, project details, review) with a
 * per-step validator that enables the Next button, and form fields that are
 * only on screen, hence only editable, on their own step.
 */
module SubmitAudit {
  import opened Optional
  import opened JsText
  import CodeEditor

  /** `steps.length`. */
  const StepCount: int := 3

  datatype FormData = FormData(code: string, projectName: string, description: string, originalPrompt: string)

  const EmptyForm: FormData := FormData("", "", "", "")

  /** `handleNext`: one step forward, except on the last step. */
  function NextStep(step: int): int
  {
    if step < StepCount then step + 1 else step
  }

  /** `handlePrevious`: one step back, except on the first step. */
  function PreviousStep(step: int): int
  {
    if step > 1 then step - 1 else step
  }

  /** Both moves keep the step in 1..3, stop at the ends, and undo each other inside. */
  lemma StepMoves(step: int)
    requires 1 <= step <= StepCount
    ensures 1 <= NextStep(step) <= StepCount && 1 <= PreviousStep(step) <= StepCount
    ensures NextStep(step) == step <==> step == StepCount
    ensures PreviousStep(step) == step <==> step == 1
    ensures step < StepCount ==> PreviousStep(NextStep(step)) == step
    ensures step > 1 ==> NextStep(PreviousStep(step)) == step
  {
  }

  /** `canProceed()`: the trimmed required fields of the current step are not empty. */
  function CanProceed(step: int, form: FormData): bool
  {
    if step == 1 then |Trim(form.code)| > 0
    else if step == 2 then |Trim(form.projectName)| > 0 && |Trim(form.description)| > 0
    else if step == 3 then true
    else false
  }

  /** Which fields each step requires; the original prompt is never consulted. */
  lemma CanProceedRules(step: int, form: FormData, prompt: string)
    ensures CanProceed(1, form) <==> !IsBlank(form.code)
    ensures CanProceed(2, form) <==> !IsBlank(form.projectName) && !IsBlank(form.description)
    ensures CanProceed(3, form)
    ensures !(1 <= step <= StepCount) ==> !CanProceed(step, form)
    ensures CanProceed(step, form.(originalPrompt := prompt)) == CanProceed(step, form)
  {
    TrimEmptyIffBlank(form.code);
    TrimEmptyIffBlank(form.projectName);
    TrimEmptyIffBlank(form.description);
  }

  /** `(currentStep / steps.length) * 100`. */
  function Progress(step: int): real
  {
    (step as real / StepCount as real) * 100.0
  }

  /** The bar grows with the step and is full exactly on the last step. */
  lemma ProgressFacts(step: int)
    requires 1 <= step <= StepCount
    ensures 0.0 < Progress(step) <= 100.0
    ensures Progress(step) == 100.0 <==> step == StepCount
    ensures step < StepCount ==> Progress(step) < Progress(step + 1)
  {
  }

  /**
   * What the wizard can reach: a later step is only ever entered through an
   * enabled Next button, and a field can only be edited on its own step.
   */
  ghost predicate Reachable(step: int, form: FormData)
  {
    && 1 <= step <= StepCount
    && (step >= 2 ==> !IsBlank(form.code))
    && (step == StepCount ==> !IsBlank(form.projectName) && !IsBlank(form.description))
  }

  /** On the review step every earlier step's check passes. */
  lemma ReviewedFormValid(form: FormData)
    requires Reachable(StepCount, form)
    ensures CanProceed(1, form) && CanProceed(2, form) && CanProceed(3, form)
  {
    CanProceedRules(1, form, form.originalPrompt);
  }

  /** The review step's "Code Length" and "Lines" entries. */
  function ReviewCounts(form: FormData): CodeEditor.Stats
  {
    CodeEditor.Stats(CodeEditor.LineCount(form.code), |form.code|)
  }

  /** On the review step the code has at least one character, and one line per break plus one. */
  lemma ReviewCountsFacts(form: FormData)
    requires Reachable(StepCount, form)
    ensures ReviewCounts(form).characters >= 1
    ensures ReviewCounts(form).lines == Count(form.code, '\n') + 1
    ensures CodeEditor.StatsRow(form.code) == Some(ReviewCounts(form))
  {
    CodeEditor.LineCountBreaks(form.code);
  }

  /** The page state: `currentStep` and `formData`. */
  class Wizard {
    var currentStep: int
    var formData: FormData

    ghost predicate Valid()
      reads this
    {
      Reachable(currentStep, formData)
    }

    constructor ()
      ensures Valid() && currentStep == 1 && formData == EmptyForm
    {
      currentStep := 1;
      formData := EmptyForm;
    }

    /** The Next button: a click calls `handleNext` only while `canProceed()` enables it. */
    method ClickNext()
      requires Valid()
      modifies this
      ensures Valid() && formData == old(formData)
      ensures currentStep == if CanProceed(old(currentStep), formData) then NextStep(old(currentStep)) else old(currentStep)
    {
      CanProceedRules(currentStep, formData, formData.originalPrompt);
      if CanProceed(currentStep, formData) {
        if currentStep < StepCount {
          currentStep := currentStep + 1;
        }
      }
    }

    /** The Previous button, calling `handlePrevious`. */
    method ClickPrevious()
      requires Valid()
      modifies this
      ensures Valid() && formData == old(formData)
      ensures currentStep == PreviousStep(old(currentStep))
    {
      if currentStep > 1 {
        currentStep := currentStep - 1;
      }
    }

    /** The code editor, shown on step 1 only. */
    method EditCode(value: string)
      requires Valid() && currentStep == 1
      modifies this
      ensures Valid() && currentStep == old(currentStep)
      ensures formData == old(formData).(code := value)
    {
      formData := formData.(code := value);
    }

    /** The project name input, shown on step 2 only. */
    method EditProjectName(value: string)
      requires Valid() && currentStep == 2
      modifies this
      ensures Valid() && currentStep == old(currentStep)
      ensures formData == old(formData).(projectName := value)
    {
      formData := formData.(projectName := value);
    }

    /** The description text area, shown on step 2 only. */
    method EditDescription(value: string)
      requires Valid() && currentStep == 2
      modifies this
      ensures Valid() && currentStep == old(currentStep)
      ensures formData == old(formData).(description := value)
    {
      formData := formData.(description := value);
    }

    /** The optional original-prompt text area, shown on step 2 only. */
    method EditOriginalPrompt(value: string)
      requires Valid() && currentStep == 2
      modifies this
      ensures Valid() && currentStep == old(currentStep)
      ensures formData == old(formData).(originalPrompt := value)
    {
      formData := formData.(originalPrompt := value);
    }
  }
}
