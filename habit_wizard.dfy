/**
 * The four-step creation / edit wizard (components/HabitWizard/HabitWizard.tsx):
 * identity, behaviour, cue and frequency, with per-step validation, a
 * weekday toggle and submission only from the last step.
 */
module HabitWizard {
  import opened Wrappers
  import opened Seqs
  import Days

  datatype Field = Identity | Title | Cue | Frequency
  datatype Step = Step(id: string, field: Field)

  /** The `steps` table: three text steps, then the frequency picker. */
  const Steps: seq<Step> := [
    Step("identity", Identity),
    Step("behavior", Title),
    Step("cue", Cue),
    Step("frequency", Frequency)]

  /** The day codes the picker displays. */
  const DisplayDays: seq<string> := ["MON", "TUE", "WED", "THU", "FRI", "SAT", "SUN"]

  /** The frequency of a new habit: every day. */
  const DefaultFrequency: seq<string> := ["Mon", "Tue", "Wed", "Thu", "Fri", "Sat", "Sun"]

  const InputRequired: string := "INPUT_REQUIRED.SYS"
  const AtLeastOneCycleRequired: string := "AT_LEAST_ONE_CYCLE_REQUIRED"

  datatype HabitData = HabitData(identity: string, title: string, cue: string, frequency: seq<string>)

  /** The characters `String.prototype.trim` removes: white space and line terminators. */
  predicate IsWhitespace(c: char) {
    || c == ' ' || c == '\t' || c == '\n' || c == '\r' || c == '\U{000B}' || c == '\U{000C}'
    || c == '\U{00A0}' || c == '\U{1680}' || ('\U{2000}' <= c <= '\U{200A}')
    || c == '\U{2028}' || c == '\U{2029}' || c == '\U{202F}' || c == '\U{205F}'
    || c == '\U{3000}' || c == '\U{FEFF}'
  }

  predicate AllWhitespace(s: string) {
    forall i :: 0 <= i < |s| ==> IsWhitespace(s[i])
  }

  function TrimStart(s: string): (r: string)
    ensures |r| <= |s| && r == s[|s| - |r|..]
    ensures r != [] ==> !IsWhitespace(r[0])
    ensures forall i :: 0 <= i < |s| - |r| ==> IsWhitespace(s[i])
  {
    if s != [] && IsWhitespace(s[0]) then TrimStart(s[1..]) else s
  }

  function TrimEnd(s: string): (r: string)
    ensures |r| <= |s| && r == s[..|r|]
    ensures r != [] ==> !IsWhitespace(r[|r| - 1])
    ensures forall i :: |r| <= i < |s| ==> IsWhitespace(s[i])
  {
    if s != [] && IsWhitespace(s[|s| - 1]) then TrimEnd(s[..|s| - 1]) else s
  }

  function Trim(s: string): string {
    TrimEnd(TrimStart(s))
  }

  /** `!value || value.trim().length === 0`: the value is empty or only white space. */
  function IsInputInvalid(value: string): (r: bool)
    ensures r <==> AllWhitespace(value)
  {
    var t := TrimStart(value);
    assert t != [] ==> TrimEnd(t) != [];
    assert t == [] ==> AllWhitespace(value) by {
      if t == [] {
        assert |value| - |t| == |value|;
      }
    }
    |value| == 0 || |Trim(value)| == 0
  }

  /** ASCII `toLowerCase` of one character. */
  function LowerChar(c: char): char {
    if 'A' <= c <= 'Z' then (c as int + 32) as char else c
  }

  /** ASCII `toUpperCase` of one character. */
  function UpperChar(c: char): char {
    if 'a' <= c <= 'z' then (c as int - 32) as char else c
  }

  function Lower(s: string): (r: string)
    ensures |r| == |s| && forall i :: 0 <= i < |s| ==> r[i] == LowerChar(s[i])
  {
    seq(|s|, i requires 0 <= i < |s| => LowerChar(s[i]))
  }

  function Upper(s: string): (r: string)
    ensures |r| == |s| && forall i :: 0 <= i < |s| ==> r[i] == UpperChar(s[i])
  {
    seq(|s|, i requires 0 <= i < |s| => UpperChar(s[i]))
  }

  /** `day.charAt(0) + day.slice(1).toLowerCase()`: display code to stored code. */
  function ValueDay(day: string): (v: string)
    ensures |v| == |day|
    ensures day != [] ==> v[0] == day[0]
    ensures forall i :: 1 <= i < |day| ==> v[i] == LowerChar(day[i])
  {
    if day == [] then [] else [day[0]] + Lower(day[1..])
  }

  /** The seven picker codes map onto the short weekday names the punchcard and task list test. */
  lemma DisplayDaysAreShortNames()
    ensures |DisplayDays| == |Days.ShortNames| == |DefaultFrequency|
    ensures forall i :: 0 <= i < |DisplayDays| ==> ValueDay(DisplayDays[i]) == Days.ShortNames[i]
    ensures DefaultFrequency == Days.ShortNames
  {
    forall i | 0 <= i < |DisplayDays| ensures ValueDay(DisplayDays[i]) == Days.ShortNames[i] {
      var v := ValueDay(DisplayDays[i]);
      assert |v| == 3;
      assert v[1] == LowerChar(DisplayDays[i][1]) && v[2] == LowerChar(DisplayDays[i][2]);
    }
  }

  /** The array `toggleDay` builds: the day removed if present, appended otherwise. */
  function ToggledDays(days: seq<string>, valueDay: string): (r: seq<string>)
    ensures valueDay in r <==> valueDay !in days
    ensures forall d :: d != valueDay ==> (d in r <==> d in days)
    ensures NoDuplicates(days) ==> NoDuplicates(r)
  {
    if valueDay in days then
      var r := Filter(days, Except(valueDay));
      assert NoDuplicates(days) ==> NoDuplicates(r) by {
        if NoDuplicates(days) {
          FilterIsSubsequence(days, Except(valueDay));
          SubsequenceNoDuplicates(r, days);
        }
      }
      r
    else
      days + [valueDay]
  }

  lemma {:induction false} SubsequenceNoDuplicates(a: seq<string>, b: seq<string>)
    requires IsSubsequence(a, b) && NoDuplicates(b)
    ensures NoDuplicates(a)
    decreases |b|
  {
    if a != [] {
      assert b != [];
      if a[0] == b[0] {
        SubsequenceNoDuplicates(a[1..], b[1..]);
        forall k | 1 <= k < |a| ensures a[k] != a[0] {
          SubsequenceMembers(a[1..], b[1..]);
          assert a[k] == a[1..][k - 1];
        }
      } else {
        SubsequenceNoDuplicates(a, b[1..]);
      }
    }
  }

  lemma {:induction false} SubsequenceMembers(a: seq<string>, b: seq<string>)
    requires IsSubsequence(a, b)
    ensures forall k :: 0 <= k < |a| ==> a[k] in b
    decreases |b|
  {
    if a != [] {
      if a[0] == b[0] {
        SubsequenceMembers(a[1..], b[1..]);
        forall k | 1 <= k < |a| ensures a[k] in b {
          assert a[k] == a[1..][k - 1];
        }
      } else {
        SubsequenceMembers(a, b[1..]);
      }
    }
  }

  /** Toggling a day that was off and then toggling it again gives back the very same list. */
  lemma ToggleTwiceRestores(days: seq<string>, valueDay: string)
    requires valueDay !in days
    ensures ToggledDays(ToggledDays(days, valueDay), valueDay) == days
  {
    FilterConcat(days, [valueDay], Except(valueDay));
    FilterKeepsAll(days, Except(valueDay));
    FilterSingleton(valueDay, Except(valueDay));
  }

  /** Toggling any day twice restores which days are selected. */
  lemma ToggleTwiceRestoresMembership(days: seq<string>, valueDay: string, d: string)
    ensures d in ToggledDays(ToggledDays(days, valueDay), valueDay) <==> d in days
  {
  }

  /** The form data before any edit: the initial data if given, otherwise blanks and every day. */
  function InitialFormData(initialData: Option<HabitData>): (data: HabitData)
    ensures initialData.None? ==> data == HabitData("", "", "", DefaultFrequency)
    // `initialData?.frequency || [...]`: an empty array is truthy and is kept
    ensures initialData.Some? ==> data == initialData.value
  {
    match initialData
    case None => HabitData("", "", "", DefaultFrequency)
    case Some(d) =>
      HabitData(
        if d.identity != "" then d.identity else "",
        if d.title != "" then d.title else "",
        if d.cue != "" then d.cue else "",
        d.frequency)
  }

  function TextValue(data: HabitData, field: Field): string
    requires field != Frequency
  {
    match field
    case Identity => data.identity
    case Title => data.title
    case Cue => data.cue
  }

  function WithText(data: HabitData, field: Field, value: string): HabitData
    requires field != Frequency
  {
    match field
    case Identity => data.(identity := value)
    case Title => data.(title := value)
    case Cue => data.(cue := value)
  }

  /**
   * The validation `handleNext` and the form's submit handler both run on the
   * current step. By the first ensures, whatever passes the last step's
   * validation has at least one active weekday.
   */
  function StepError(stepIndex: nat, data: HabitData): (err: Option<string>)
    requires stepIndex < |Steps|
    ensures err == Some(AtLeastOneCycleRequired) <==> stepIndex == |Steps| - 1 && |data.frequency| == 0
    ensures err == Some(InputRequired)
            <==> stepIndex < |Steps| - 1 && AllWhitespace(TextValue(data, Steps[stepIndex].field))
    ensures err.None? || err == Some(AtLeastOneCycleRequired) || err == Some(InputRequired)
  {
    var step := Steps[stepIndex];
    assert (step.id == "frequency") == (stepIndex == 3) by {
      if stepIndex < 3 {
        assert step.id[0] != 'f';
      }
    }
    if step.id == "frequency" then
      if |data.frequency| == 0 then Some(AtLeastOneCycleRequired) else None
    else if IsInputInvalid(TextValue(data, step.field)) then Some(InputRequired)
    else None
  }

  class Wizard {
    var currentStep: int
    var direction: int
    var formData: HabitData
    var validationError: Option<string>

    ghost predicate Valid()
      reads this
    {
      0 <= currentStep < |Steps| && (direction == 1 || direction == -1)
    }

    constructor (initialData: Option<HabitData>)
      ensures Valid()
      ensures currentStep == 0 && direction == 1 && validationError == None
      ensures formData == InitialFormData(initialData)
    {
      currentStep := 0;
      direction := 1;
      formData := InitialFormData(initialData);
      validationError := None;
    }

    function IsLastStep(): bool
      reads this
    {
      currentStep == |Steps| - 1
    }

    method HandleNext()
      requires Valid()
      modifies this
      ensures Valid()
      ensures formData == old(formData)
      ensures var err := StepError(old(currentStep), old(formData));
        && (err.Some? ==>
              validationError == err && currentStep == old(currentStep) && direction == old(direction))
        && (err.None? && old(currentStep) < |Steps| - 1 ==>
              validationError == None && direction == 1 && currentStep == old(currentStep) + 1)
        && (err.None? && old(currentStep) == |Steps| - 1 ==>
              validationError == old(validationError) && currentStep == old(currentStep) && direction == old(direction))
    {
      var step := Steps[currentStep];
      if step.id == "frequency" {
        if |formData.frequency| == 0 {
          validationError := Some(AtLeastOneCycleRequired);
          return;
        }
      } else if IsInputInvalid(TextValue(formData, step.field)) {
        validationError := Some(InputRequired);
        return;
      }
      if currentStep < |Steps| - 1 {
        validationError := None;
        direction := 1;
        currentStep := currentStep + 1;
      }
    }

    method HandleBack()
      requires Valid()
      modifies this
      ensures Valid()
      ensures formData == old(formData)
      ensures old(currentStep) > 0 ==>
        validationError == None && direction == -1 && currentStep == old(currentStep) - 1
      ensures old(currentStep) == 0 ==>
        validationError == old(validationError) && direction == old(direction) && currentStep == 0
    {
      if currentStep > 0 {
        validationError := None;
        direction := -1;
        currentStep := currentStep - 1;
      }
    }

    /** A click on one of the seven picker codes. */
    method ToggleDay(day: string)
      requires Valid()
      modifies this
      ensures Valid()
      ensures formData == old(formData).(frequency := ToggledDays(old(formData).frequency, ValueDay(day)))
      ensures validationError == None
      ensures currentStep == old(currentStep) && direction == old(direction)
    {
      var valueDay := ValueDay(day);
      var currentDays := formData.frequency;
      var newDays;
      if valueDay in currentDays {
        newDays := Filter(currentDays, Except(valueDay));
      } else {
        newDays := currentDays + [valueDay];
      }
      formData := formData.(frequency := newDays);
      if validationError.Some? {
        validationError := None;
      }
    }

    /** Typing into the text input of a text step: the value is stored upper-cased. */
    method TypeText(value: string)
      requires Valid()
      requires Steps[currentStep].field != Frequency
      modifies this
      ensures Valid()
      ensures currentStep == old(currentStep) && direction == old(direction)
      ensures formData == WithText(old(formData), Steps[old(currentStep)].field, Upper(value))
      ensures validationError == None
    {
      formData := WithText(formData, Steps[currentStep].field, Upper(value));
      if validationError.Some? {
        validationError := None;
      }
    }

    /**
     * The form's submit handler; `submitted` says whether the server action
     * runs. Before the last step a valid submit only moves to the next step.
     */
    method Submit() returns (submitted: bool)
      requires Valid()
      modifies this
      ensures Valid()
      ensures formData == old(formData)
      ensures var err := StepError(old(currentStep), old(formData));
        && (submitted <==> old(currentStep) == |Steps| - 1 && err.None?)
        && (err.Some? ==>
              validationError == err && currentStep == old(currentStep) && direction == old(direction))
        && (err.None? && old(currentStep) < |Steps| - 1 ==>
              validationError == None && direction == 1 && currentStep == old(currentStep) + 1)
        && (err.None? && old(currentStep) == |Steps| - 1 ==>
              validationError == old(validationError) && currentStep == old(currentStep) && direction == old(direction))
    {
      var err := StepError(currentStep, formData);
      if err.Some? {
        validationError := err;
        return false;
      }
      if !IsLastStep() {
        HandleNext();
        return false;
      }
      return true;
    }
  }
}
