/** The `Scheduler` component as an object: its two state cells `step` and
    `formData` (here `draft`) are fields, and each event handler is a method
    that overwrites them. Every method is one atomic transition, agrees with
    Wizard.Transition and keeps the reachable-state invariant. */
module SchedulerComponent {
  import opened Directory
  import opened Wizard
  import WizardProperties

  class Scheduler {
    /** The centre directory, read-only for the wizard's lifetime. */
    const centers: seq<Center>
    var step: int
    var draft: Draft

    function Current(): State
      reads this
    {
      State(step, draft)
    }

    ghost predicate Valid()
      reads this
    {
      Inv(centers, Current())
    }

    /** Mounting the component: step 1 and a fresh draft. */
    constructor (centers: seq<Center>, userName: string)
      ensures this.centers == centers
      ensures step == 1 && draft == InitialDraft(userName)
      ensures Valid()
    {
      this.centers := centers;
      step := 1;
      draft := InitialDraft(userName);
    }

    /** The location input of step 1. */
    method EditLocation(value: string)
      modifies this
      ensures step == old(step)
      ensures draft == if old(step) == 1 then old(draft).(location := value) else old(draft)
      ensures Current() == Transition(centers, old(Current()), Action.EditLocation(value)).state
      ensures old(Valid()) ==> Valid()
    {
      ghost var before := Current();
      if step == 1 {
        draft := draft.(location := value);
      }
      if Inv(centers, before) {
        WizardProperties.TransitionKeepsInv(centers, before, Action.EditLocation(value));
      }
    }

    /** "Cancel" of step 1: invokes onCancel and changes nothing here. */
    method Cancel() returns (cancelCalled: bool)
      ensures cancelCalled <==> step == 1
      ensures cancelCalled <==> Transition(centers, Current(), Action.Cancel).callback == OnCancel
    {
      cancelCalled := step == 1;
    }

    /** The forward button of steps 1, 3 and 4; a disabled button, or a step
        without one, does nothing. */
    method Next()
      modifies this
      ensures draft == old(draft)
      ensures step == if Guard(old(step), old(draft)) then old(step) + 1 else old(step)
      ensures Current() == Transition(centers, old(Current()), Action.Next).state
      ensures old(Valid()) ==> Valid()
    {
      ghost var before := Current();
      if Guard(step, draft) {
        step := step + 1;
      }
      if Inv(centers, before) {
        WizardProperties.TransitionKeepsInv(centers, before, Action.Next);
      }
    }

    /** A click on the `index`-th centre card of step 2: records the centre
        and advances, leaving every other field as it was. */
    method SelectCenter(index: nat)
      modifies this
      ensures old(step) == 2 && index < |centers| ==>
                step == 3 && draft == old(draft).(centerId := centers[index].id)
      ensures !(old(step) == 2 && index < |centers|) ==> step == old(step) && draft == old(draft)
      ensures Current() == Transition(centers, old(Current()), Action.SelectCenter(index)).state
      ensures old(Valid()) ==> Valid()
    {
      ghost var before := Current();
      if step == 2 && index < |centers| {
        draft := draft.(centerId := centers[index].id);
        step := step + 1;
      }
      if Inv(centers, before) {
        WizardProperties.TransitionKeepsInv(centers, before, Action.SelectCenter(index));
      }
    }

    /** "Back" of steps 2 to 4: retreats one step, keeping the draft. */
    method Back()
      modifies this
      ensures draft == old(draft)
      ensures step == if 2 <= old(step) <= 4 then old(step) - 1 else old(step)
      ensures Current() == Transition(centers, old(Current()), Action.Back).state
      ensures old(Valid()) ==> Valid()
    {
      ghost var before := Current();
      if 2 <= step <= 4 {
        step := step - 1;
      }
      if Inv(centers, before) {
        WizardProperties.TransitionKeepsInv(centers, before, Action.Back);
      }
    }

    /** The date input of step 3; clearing it sets the date to "". The
        chosen slot is kept. */
    method SetDate(value: string)
      modifies this
      ensures step == old(step)
      ensures draft == if old(step) == 3 then old(draft).(date := value) else old(draft)
      ensures Current() == Transition(centers, old(Current()), Action.SetDate(value)).state
      ensures old(Valid()) ==> Valid()
    {
      ghost var before := Current();
      if step == 3 {
        draft := draft.(date := value);
      }
      if Inv(centers, before) {
        WizardProperties.TransitionKeepsInv(centers, before, Action.SetDate(value));
      }
    }

    /** A slot button of step 3; the buttons exist once a date is set, one
        per slot of the centre the draft names. */
    method PickSlot(slot: string)
      modifies this
      ensures step == old(step)
      ensures old(step) == 3 && old(draft).date != "" && slot in SlotsOf(centers, old(draft).centerId) ==>
                draft == old(draft).(time := slot)
      ensures !(old(step) == 3 && old(draft).date != "" && slot in SlotsOf(centers, old(draft).centerId)) ==>
                draft == old(draft)
      ensures Current() == Transition(centers, old(Current()), Action.PickSlot(slot)).state
      ensures old(Valid()) ==> Valid()
    {
      ghost var before := Current();
      if step == 3 && draft.date != "" && slot in SlotsOf(centers, draft.centerId) {
        draft := draft.(time := slot);
      }
      if Inv(centers, before) {
        WizardProperties.TransitionKeepsInv(centers, before, Action.PickSlot(slot));
      }
    }

    /** One of the name, email and phone inputs of step 4. */
    method EditDonor(field: DonorField, value: string)
      modifies this
      ensures step == old(step)
      ensures draft == if old(step) == 4 then WithDonor(old(draft), field, value) else old(draft)
      ensures Current() == Transition(centers, old(Current()), Action.EditDonor(field, value)).state
      ensures old(Valid()) ==> Valid()
    {
      ghost var before := Current();
      if step == 4 {
        draft := WithDonor(draft, field, value);
      }
      if Inv(centers, before) {
        WizardProperties.TransitionKeepsInv(centers, before, Action.EditDonor(field, value));
      }
    }

    /** The confirmation shown on step 5: the centre found by the recorded
        identifier, with the draft's date, slot and donor name. */
    method ShowSummary() returns (summary: Confirmation)
      requires Valid() && step == 5
      ensures summary.donor == draft.name && summary.date == draft.date && summary.time == draft.time
      ensures summary.date != "" && summary.time != "" && summary.donor != ""
      ensures exists c :: c in centers && c.id == draft.centerId && summary.centerName == Some(c.name)
    {
      summary := Summary(centers, draft);
      WizardProperties.ConfirmationShowsSelectedCenter(centers, Current());
    }

    /** "Return to Dashboard" of step 5: invokes onComplete and changes
        nothing here. */
    method ReturnToDashboard() returns (completeCalled: bool)
      ensures completeCalled <==> step == 5
      ensures completeCalled <==> Transition(centers, Current(), Action.ReturnToDashboard).callback == OnComplete
    {
      completeCalled := step == 5;
    }
  }
}
