/** The three-step reservation page (`src/pages/Reservations.jsx`): date
    and time, contact details, then a review step that submits. It shares
    the gate of the four-step wizard but returns to step 1 after a
    successful submit. */
module ReservationsPage {
  import opened Records
  import opened ReservationForm

  const LastStep: int := 3

  /** The guest `<select>` offers 1 to 10 guests. */
  function GuestChoices(): (r: seq<int>)
    ensures |r| == 10
    ensures forall i :: 0 <= i < |r| ==> r[i] == i + 1
    ensures forall v :: v in r <==> 1 <= v <= 10
  {
    GuestOptions(10)
  }

  /** Steps 1-2 show "Next"; the submit button appears from step 3 on. */
  predicate ShowsSubmit(step: int) {
    !(step < LastStep)
  }

  lemma SubmitOnlyAtLastStep(step: int)
    requires 1 <= step <= LastStep
    ensures ShowsSubmit(step) <==> step == 3
  {
  }

  class ThreeStepWizard {
    var step: int
    var formData: Record
    var loading: bool

    ghost predicate Valid()
      reads this
    {
      1 <= step <= LastStep
    }

    constructor ()
      ensures Valid() && step == 1 && formData == EmptyDraft && !loading
    {
      step, formData, loading := 1, EmptyDraft, false;
    }

    /** `nextStep`: advances by one when the gate holds and step < 3. */
    method NextStep()
      requires Valid()
      modifies this
      ensures Valid()
      ensures step == if CanProceedToNext(old(step), formData) && old(step) < LastStep then old(step) + 1 else old(step)
      ensures formData == old(formData) && loading == old(loading)
    {
      if CanProceedToNext(step, formData) && step < LastStep {
        step := step + 1;
      }
    }

    /** `prevStep` */
    method PrevStep()
      requires Valid()
      modifies this
      ensures Valid()
      ensures step == if old(step) > 1 then old(step) - 1 else old(step)
      ensures formData == old(formData) && loading == old(loading)
    {
      if step > 1 {
        step := step - 1;
      }
    }

    /** `handleInputChange` */
    method HandleInputChange(name: string, value: string)
      modifies this
      ensures formData == WithInput(old(formData), name, value)
      ensures step == old(step) && loading == old(loading)
    {
      formData := WithInput(formData, name, value);
    }

    /** A click on a time-slot button. */
    method SelectTime(slot: string)
      requires slot in TimeSlots
      modifies this
      ensures formData == old(formData)["time" := Str(slot)]
      ensures step == old(step) && loading == old(loading)
    {
      formData := formData["time" := Str(slot)];
    }

    /** `handleSubmit`: on success the draft is reset and the wizard goes
        back to step 1; on failure nothing changes. */
    method HandleSubmit(created: bool) returns (sent: Record)
      requires Valid()
      modifies this
      ensures Valid()
      ensures sent == old(formData)
      ensures formData == if created then EmptyDraft else old(formData)
      ensures step == if created then 1 else old(step)
      ensures !loading
    {
      loading := true;
      sent := formData;
      if created {
        formData := EmptyDraft;
        step := 1;
      }
      loading := false;
    }
  }
}
