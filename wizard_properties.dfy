/** What the booking wizard guarantees, stated over the pure transition
    function: the effect of each action, the reachable-state invariant, the
    two exits, the confirmation summary, and when the chosen slot belongs to
    the chosen centre. */
module WizardProperties {
  import opened Directory
  import opened Wizard

  /** The wizard mounts at step 1 with an empty draft whose donor name is
      pre-filled, so that part of the step-4 guard already holds. */
  lemma InitialState(cs: seq<Center>, userName: string)
    ensures Initial(userName).step == 1
    ensures var d := Initial(userName).draft;
      && d.location == "" && d.centerId == "" && d.date == "" && d.time == ""
      && d.email == "" && d.phone == "" && d.name == userName
    ensures Inv(cs, Initial(userName)) && SlotMatchesCenter(cs, Initial(userName).draft)
    ensures userName != "" ==> !Guard(4, Initial(userName).draft) && Guard(4, Initial(userName).draft.(email := "e", phone := "p"))
  {
  }

  /** "Next" moves exactly when the current step's guard holds, and then by
      one step; the draft is untouched either way. */
  lemma NextIsGuarded(cs: seq<Center>, s: State)
    ensures var o := Transition(cs, s, Next);
      && o.callback == NoCallback
      && o.state.draft == s.draft
      && (o.state.step != s.step <==> Guard(s.step, s.draft))
      && (Guard(s.step, s.draft) ==> o.state.step == s.step + 1)
    ensures Guard(s.step, s.draft) <==>
      || (s.step == 1 && s.draft.location != "")
      || (s.step == 3 && s.draft.date != "" && s.draft.time != "")
      || (s.step == 4 && s.draft.name != "" && s.draft.email != "" && s.draft.phone != "")
  {
  }

  /** A centre click at step 2 records the centre's identifier and advances
      in one action; no other field changes, the date and slot included. */
  lemma SelectCenterAdvances(cs: seq<Center>, s: State, i: nat)
    requires s.step == 2 && i < |cs|
    ensures var o := Transition(cs, s, SelectCenter(i));
      && o.callback == NoCallback
      && o.state.step == 3
      && o.state.draft.centerId == cs[i].id
      && o.state.draft == s.draft.(centerId := cs[i].id)
      && o.state.draft.time == s.draft.time && o.state.draft.date == s.draft.date
  {
  }

  /** Clicking the centre already recorded leaves the draft identical. */
  lemma ReselectKeepsDraft(cs: seq<Center>, s: State, i: nat)
    requires s.step == 2 && i < |cs| && s.draft.centerId == cs[i].id
    ensures Transition(cs, s, SelectCenter(i)).state == s.(step := 3)
  {
  }

  /** "Back" retreats one step from steps 2 to 4 and never touches the draft:
      the centre, date and slot survive a retreat. */
  lemma BackKeepsDraft(cs: seq<Center>, s: State)
    ensures var o := Transition(cs, s, Back);
      && o.callback == NoCallback
      && o.state.draft == s.draft
      && o.state.step == (if 2 <= s.step <= 4 then s.step - 1 else s.step)
  {
  }

  /** Each field edit replaces the one field it names, and only at the step
      that renders its input; the step never changes. */
  lemma EditsReplaceOneField(cs: seq<Center>, s: State, v: string, f: DonorField)
    ensures Transition(cs, s, EditLocation(v)) ==
            Outcome(State(s.step, if s.step == 1 then s.draft.(location := v) else s.draft), NoCallback)
    ensures Transition(cs, s, SetDate(v)) ==
            Outcome(State(s.step, if s.step == 3 then s.draft.(date := v) else s.draft), NoCallback)
    ensures var d := Transition(cs, s, EditDonor(f, v)).state.draft;
      && Transition(cs, s, EditDonor(f, v)).state.step == s.step
      && DonorValue(d, f) == (if s.step == 4 then v else DonorValue(s.draft, f))
      && (forall g :: g != f ==> DonorValue(d, g) == DonorValue(s.draft, g))
      && d.location == s.draft.location && d.centerId == s.draft.centerId
      && d.date == s.draft.date && d.time == s.draft.time
    ensures Transition(cs, s, PickSlot(v)) ==
            Outcome(State(s.step, if Offered(cs, s, PickSlot(v)) then s.draft.(time := v) else s.draft), NoCallback)
  {
  }

  /** The slot changes only through a slot button of step 3, which exists
      only once a date is set and only for the selected centre's slots. */
  lemma SlotOnlyFromSelectedCenter(cs: seq<Center>, s: State, a: Action)
    requires Transition(cs, s, a).state.draft.time != s.draft.time
    ensures a == PickSlot(Transition(cs, s, a).state.draft.time)
    ensures s.step == 3 && s.draft.date != ""
    ensures Transition(cs, s, a).state.draft.time in SlotsOf(cs, s.draft.centerId)
  {
  }

  /** onCancel is invoked only by "Cancel" on step 1 and onComplete only by
      "Return" on step 5; neither exit changes the wizard's state. */
  lemma CallbacksOnlyFromExits(cs: seq<Center>, s: State, a: Action)
    ensures Transition(cs, s, a).callback == OnCancel <==> s.step == 1 && a == Cancel
    ensures Transition(cs, s, a).callback == OnComplete <==> s.step == 5 && a == ReturnToDashboard
    ensures Transition(cs, s, a).callback != NoCallback ==> Transition(cs, s, a).state == s
  {
  }

  /** Running a session one action at a time. */
  lemma RunStep(cs: seq<Center>, s: State, a: Action, rest: seq<Action>, next: State)
    requires Transition(cs, s, a) == Outcome(next, NoCallback)
    ensures Run(cs, s, [a] + rest) == Run(cs, next, rest)
  {
  }

  /** Every action keeps the reachable-state invariant. */
  lemma TransitionKeepsInv(cs: seq<Center>, s: State, a: Action)
    requires Inv(cs, s)
    ensures Inv(cs, Transition(cs, s, a).state)
  {
  }

  lemma {:induction false} RunKeepsInv(cs: seq<Center>, s: State, trace: seq<Action>)
    requires Inv(cs, s)
    ensures Inv(cs, Run(cs, s, trace).state)
    decreases |trace|
  {
    if trace != [] {
      TransitionKeepsInv(cs, s, trace[0]);
      var o := Transition(cs, s, trace[0]);
      if o.callback == NoCallback {
        RunKeepsInv(cs, o.state, trace[1..]);
      }
    }
  }

  /** Whatever the user does, the step stays within 1..5 and the invariant
      holds: a centre is recorded from step 3 on, date and slot are set from
      step 4 on, and all donor fields are set at step 5. */
  lemma ReachableStatesAreValid(cs: seq<Center>, userName: string, trace: seq<Action>)
    ensures Inv(cs, Run(cs, Initial(userName), trace).state)
    ensures 1 <= Run(cs, Initial(userName), trace).state.step <= 5
  {
    InitialState(cs, userName);
    RunKeepsInv(cs, Initial(userName), trace);
  }

  /** A session that invokes a callback stops in the state where it was
      invoked: step 1 for onCancel, step 5 for onComplete. */
  lemma {:induction false} RunCallbackStep(cs: seq<Center>, s: State, trace: seq<Action>)
    ensures Run(cs, s, trace).callback == OnCancel ==> Run(cs, s, trace).state.step == 1
    ensures Run(cs, s, trace).callback == OnComplete ==> Run(cs, s, trace).state.step == 5
    decreases |trace|
  {
    if trace != [] {
      CallbacksOnlyFromExits(cs, s, trace[0]);
      var o := Transition(cs, s, trace[0]);
      if o.callback == NoCallback {
        RunCallbackStep(cs, o.state, trace[1..]);
      }
    }
  }

  /** The confirmation step shows the centre the draft names, found in the
      directory, with the draft's date, slot and donor name. */
  lemma ConfirmationShowsSelectedCenter(cs: seq<Center>, s: State)
    requires Inv(cs, s) && s.step == 5
    ensures exists c :: (c in cs && c.id == s.draft.centerId &&
                         Summary(cs, s.draft) == Confirmation(s.draft.name, Some(c.name), s.draft.date, s.draft.time))
  {
  }

  /** With unique identifiers the summary names exactly the clicked centre. */
  lemma SummaryNamesClickedCenter(cs: seq<Center>, d: Draft, k: nat)
    requires UniqueIds(cs) && k < |cs| && d.centerId == cs[k].id
    ensures Summary(cs, d).centerName == Some(cs[k].name)
  {
  }

  /** A completed session has every field a booking needs: the wizard stops
      at step 5 with a centre found, a date, a slot and all donor details. */
  lemma CompletedBookingIsFilled(cs: seq<Center>, userName: string, trace: seq<Action>)
    requires Run(cs, Initial(userName), trace).callback == OnComplete
    ensures var s := Run(cs, Initial(userName), trace).state;
      && s.step == 5
      && Summary(cs, s.draft).centerName.Some?
      && s.draft.location != "" && s.draft.date != "" && s.draft.time != ""
      && s.draft.name != "" && s.draft.email != "" && s.draft.phone != ""
  {
    RunCallbackStep(cs, Initial(userName), trace);
    ReachableStatesAreValid(cs, userName, trace);
  }

  /** One action keeps the slot matched to the centre, except a centre click
      while a slot is chosen that the new centre does not offer. */
  lemma StepKeepsSlotMatch(cs: seq<Center>, s: State, a: Action)
    requires SlotMatchesCenter(cs, s.draft)
    requires a.SelectCenter? && Offered(cs, s, a) ==>
               s.draft.time == "" || s.draft.time in SlotsOf(cs, cs[a.index].id)
    ensures SlotMatchesCenter(cs, Transition(cs, s, a).state.draft)
  {
  }

  /** Conversely, a centre click while a slot is chosen that the new centre
      does not offer leaves the slot unmatched. */
  lemma UnsafeClickBreaksSlotMatch(cs: seq<Center>, s: State, i: nat)
    requires s.step == 2 && i < |cs|
    requires s.draft.time != "" && s.draft.time !in SlotsOf(cs, cs[i].id)
    ensures !SlotMatchesCenter(cs, Transition(cs, s, SelectCenter(i)).state.draft)
  {
  }

  /** The code as written keeps the slot matched on every session whose
      centre clicks are all safe. */
  lemma {:induction false} SafeClicksKeepSlotMatch(cs: seq<Center>, s: State, trace: seq<Action>)
    requires SlotMatchesCenter(cs, s.draft)
    requires SafeClicks(cs, s, trace)
    ensures SlotMatchesCenter(cs, Run(cs, s, trace).state.draft)
    decreases |trace|
  {
    if trace != [] {
      var o := Transition(cs, s, trace[0]);
      StepKeepsSlotMatch(cs, s, trace[0]);
      if o.callback == NoCallback {
        SafeClicksKeepSlotMatch(cs, o.state, trace[1..]);
      }
    }
  }

  /** Before the first centre click the wizard stays on steps 1 and 2 with no
      slot chosen. */
  lemma PristineKept(cs: seq<Center>, s: State, a: Action)
    requires !a.SelectCenter? && s.step <= 2 && s.draft.time == ""
    ensures Transition(cs, s, a).state.step <= 2 && Transition(cs, s, a).state.draft.time == ""
  {
  }

  lemma {:induction false} SingleSelectionKeepsSlotMatch(cs: seq<Center>, s: State, trace: seq<Action>)
    requires SlotMatchesCenter(cs, s.draft)
    requires Selections(trace) <= 1
    requires Selections(trace) == 1 ==> s.step <= 2 && s.draft.time == ""
    ensures SlotMatchesCenter(cs, Run(cs, s, trace).state.draft)
    decreases |trace|
  {
    if trace != [] {
      var a := trace[0];
      var o := Transition(cs, s, a);
      assert Selections(trace) == (if a.SelectCenter? then 1 else 0) + Selections(trace[1..]);
      StepKeepsSlotMatch(cs, s, a);
      if o.callback == NoCallback {
        if !a.SelectCenter? && Selections(trace) == 1 {
          PristineKept(cs, s, a);
        }
        SingleSelectionKeepsSlotMatch(cs, o.state, trace[1..]);
      }
    }
  }

  /** The code as written keeps the slot in the selected centre's slot list
      on every session with at most one centre click. */
  lemma SlotMatchesWhenCenterClickedOnce(cs: seq<Center>, userName: string, trace: seq<Action>)
    requires Selections(trace) <= 1
    ensures SlotMatchesCenter(cs, Run(cs, Initial(userName), trace).state.draft)
  {
    SingleSelectionKeepsSlotMatch(cs, Initial(userName), trace);
  }

  /** With the corrected centre click, every action keeps both the invariant
      and the slot matched to the selected centre. */
  lemma CorrectedKeepsSlotMatch(cs: seq<Center>, s: State, a: Action)
    requires Inv(cs, s) && SlotMatchesCenter(cs, s.draft)
    ensures Inv(cs, CorrectedTransition(cs, s, a).state)
    ensures SlotMatchesCenter(cs, CorrectedTransition(cs, s, a).state.draft)
  {
  }

  lemma {:induction false} CorrectedRunKeepsSlotMatch(cs: seq<Center>, s: State, trace: seq<Action>)
    requires Inv(cs, s) && SlotMatchesCenter(cs, s.draft)
    ensures Inv(cs, CorrectedRun(cs, s, trace).state)
    ensures SlotMatchesCenter(cs, CorrectedRun(cs, s, trace).state.draft)
    ensures CorrectedRun(cs, s, trace).callback == OnComplete ==> CorrectedRun(cs, s, trace).state.step == 5
    decreases |trace|
  {
    if trace != [] {
      var o := CorrectedTransition(cs, s, trace[0]);
      CorrectedKeepsSlotMatch(cs, s, trace[0]);
      CallbacksOnlyFromExits(cs, s, trace[0]);
      if o.callback == NoCallback {
        CorrectedRunKeepsSlotMatch(cs, o.state, trace[1..]);
      }
    }
  }

  /** With the corrected centre click, every completed booking holds a slot
      that its own centre offers, whatever the session. */
  lemma CorrectedBookingSlotIsOffered(cs: seq<Center>, userName: string, trace: seq<Action>)
    requires CorrectedRun(cs, Initial(userName), trace).callback == OnComplete
    ensures var s := CorrectedRun(cs, Initial(userName), trace).state;
      && s.step == 5
      && s.draft.time != ""
      && s.draft.time in SlotsOf(cs, s.draft.centerId)
  {
    InitialState(cs, userName);
    CorrectedRunKeepsSlotMatch(cs, Initial(userName), trace);
  }

  /** The correction keeps the source's idempotent re-click. */
  lemma CorrectedReselectKeepsDraft(cs: seq<Center>, s: State, i: nat)
    requires s.step == 2 && i < |cs| && s.draft.centerId == cs[i].id
    requires SlotMatchesCenter(cs, s.draft)
    ensures CorrectedTransition(cs, s, SelectCenter(i)).state == s.(step := 3)
  {
  }
}
