/** The four-step reservation wizard
    (`src/components/organisms/ReservationFormSteps.jsx`): date and time,
    contact details, review, confirm. Its `step`, `formData` and `loading`
    live in the parent page; here they are the fields of one object. */
module ReservationFormSteps {
  import opened Records
  import opened ReservationForm

  const LastStep: int := 4

  /** Steps 1-3 show "Next"; the submit button replaces it from step 4 on. */
  predicate ShowsSubmit(step: int) {
    !(step < LastStep)
  }

  lemma SubmitOnlyAtLastStep(step: int)
    requires 1 <= step <= LastStep
    ensures ShowsSubmit(step) <==> step == 4
  {
  }

  class FourStepWizard {
    var step: int
    var formData: Record
    var loading: bool

    ghost predicate Valid()
      reads this
    {
      1 <= step <= LastStep
    }

    /** The parent's initial state: step 1 and an empty draft. */
    constructor ()
      ensures Valid() && step == 1 && formData == EmptyDraft && !loading
    {
      step, formData, loading := 1, EmptyDraft, false;
    }

    /** `nextStep`: advances by one when the gate holds and step < 4. */
    method NextStep()
      requires Valid()
      modifies this
      ensures Valid()
      ensures step == if CanProceedToNext(old(step), formData) && old(step) < LastStep then old(step) + 1 else old(step)
      ensures formData == old(formData) && loading == old(loading)
    {
      if CanProceedToNext(step, formData) && step < LastStep {
        step := step + 1;
      }
    }

    /** `prevStep`: goes back by one unless on step 1. */
    method PrevStep()
      requires Valid()
      modifies this
      ensures Valid()
      ensures step == if old(step) > 1 then old(step) - 1 else old(step)
      ensures formData == old(formData) && loading == old(loading)
    {
      if step > 1 {
        step := step - 1;
      }
    }

    /** `handleInputChange` */
    method HandleInputChange(name: string, value: string)
      modifies this
      ensures formData == WithInput(old(formData), name, value)
      ensures step == old(step) && loading == old(loading)
    {
      formData := WithInput(formData, name, value);
    }

    /** A click on a time-slot button: `{ ...prev, time }`. */
    method SelectTime(slot: string)
      requires slot in TimeSlots
      modifies this
      ensures formData == old(formData)["time" := Str(slot)]
      ensures step == old(step) && loading == old(loading)
    {
      formData := formData["time" := Str(slot)];
    }

    /** `handleSubmit`: sends the draft as it stands; on success the draft
        is reset and the step is kept, on failure nothing changes. */
    method HandleSubmit(created: bool) returns (sent: Record)
      requires Valid()
      modifies this
      ensures Valid()
      ensures sent == old(formData)
      ensures formData == if created then EmptyDraft else old(formData)
      ensures step == old(step) && !loading
    {
      loading := true;
      sent := formData;
      if created {
        formData := EmptyDraft;
      }
      loading := false;
    }
  }
}
