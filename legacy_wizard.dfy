/**
 * The older three-step creation page (app/dashboard/new/page.tsx):
 * identity, behaviour and cue, a bounded step counter, and a Next button
 * that is disabled while the current field is empty.
 */
module LegacyWizard {
  import HabitWizard

  datatype Field = Identity | Title | Cue

  /** The `steps` table, by the form field each step edits. */
  const StepFields: seq<Field> := [Identity, Title, Cue]

  datatype FormData = FormData(identity: string, title: string, cue: string)

  function FieldValue(data: FormData, field: Field): string {
    match field
    case Identity => data.identity
    case Title => data.title
    case Cue => data.cue
  }

  function WithField(data: FormData, field: Field, value: string): FormData {
    match field
    case Identity => data.(identity := value)
    case Title => data.(title := value)
    case Cue => data.(cue := value)
  }

  /**
   * `disabled={!formData[step.field]}`: only the empty string disables Next;
   * unlike the newer wizard, a value of spaces does not.
   */
  function NextDisabledFor(value: string): (disabled: bool)
    ensures disabled <==> |value| == 0
  {
    value == ""
  }

  /** A field of blanks lets the old page go on, where the newer wizard reports INPUT_REQUIRED.SYS. */
  lemma BlankFieldAcceptedOnlyHere(value: string)
    requires |value| > 0 && forall i :: 0 <= i < |value| ==> value[i] == ' '
    ensures !NextDisabledFor(value)
    ensures HabitWizard.IsInputInvalid(value)
  {
  }

  /** Progress segment `i` is highlighted once the wizard has reached step `i`. */
  function SegmentHighlighted(currentStep: int, i: nat): (on: bool)
    requires i < |StepFields|
    ensures on <==> i <= currentStep
    ensures currentStep == |StepFields| - 1 ==> on
  {
    i <= currentStep
  }

  class NewHabitPage {
    var currentStep: int
    var formData: FormData

    ghost predicate Valid()
      reads this
    {
      0 <= currentStep < |StepFields|
    }

    constructor ()
      ensures Valid() && currentStep == 0 && formData == FormData("", "", "")
    {
      currentStep := 0;
      formData := FormData("", "", "");
    }

    function IsLastStep(): bool
      reads this
    {
      currentStep == |StepFields| - 1
    }

    function NextDisabled(): (disabled: bool)
      reads this
      requires Valid()
      ensures disabled <==> FieldValue(formData, StepFields[currentStep]) == ""
    {
      NextDisabledFor(FieldValue(formData, StepFields[currentStep]))
    }

    /** `disabled={currentStep === 0}` on the Back button. */
    function BackDisabled(): (disabled: bool)
      reads this
      ensures disabled <==> currentStep == 0
    {
      currentStep == 0
    }

    method HandleNext()
      requires Valid()
      modifies this
      ensures Valid() && formData == old(formData)
      ensures currentStep == if old(currentStep) < |StepFields| - 1 then old(currentStep) + 1 else old(currentStep)
    {
      if currentStep < |StepFields| - 1 {
        currentStep := currentStep + 1;
      }
    }

    method HandleBack()
      requires Valid()
      modifies this
      ensures Valid() && formData == old(formData)
      ensures currentStep == if old(currentStep) > 0 then old(currentStep) - 1 else old(currentStep)
    {
      if currentStep > 0 {
        currentStep := currentStep - 1;
      }
    }

    /**
     * Enter in the text input: advances unless on the last step. It does not
     * consult the field, so it advances past an empty field that disables Next.
     */
    method PressEnter()
      requires Valid()
      modifies this
      ensures Valid() && formData == old(formData)
      ensures currentStep == if old(currentStep) < |StepFields| - 1 then old(currentStep) + 1 else old(currentStep)
    {
      if !IsLastStep() {
        HandleNext();
      }
    }

    /** `onChange` of the text input: the typed value is stored as is. */
    method Type(value: string)
      requires Valid()
      modifies this
      ensures Valid() && currentStep == old(currentStep)
      ensures formData == WithField(old(formData), StepFields[old(currentStep)], value)
    {
      formData := WithField(formData, StepFields[currentStep], value);
    }
  }
}
