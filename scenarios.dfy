/** End-to-end sessions over the shipped directory: a complete booking, a
    slot the centre does not offer, cancelling, remounting after an exit, and
    the session on which the code as written books a slot the chosen centre
    does not offer. */
module Scenarios {
  import opened Directory
  import opened Wizard
  import opened SchedulerComponent
  import opened AppShell
  import opened WizardProperties

  /** Location, the first centre, a date and one of its slots, the donor
      details, confirm: the summary names Metro Blood Center at 10:30. */
  method CompleteBooking() returns (summary: Confirmation, completeCalled: bool)
    ensures summary == Confirmation("Jane Doe", Some("Metro Blood Center"), "2024-05-01", "10:30")
    ensures completeCalled
  {
    var app := new App();
    var w := app.StartBooking();
    w.EditLocation("Downtown");
    w.Next();
    w.SelectCenter(0);
    w.SetDate("2024-05-01");
    w.PickSlot("10:30");
    w.Next();
    w.EditDonor(Name, "Jane Doe");
    w.EditDonor(Email, "jane@x.com");
    w.EditDonor(Phone, "555-1234");
    w.Next();
    assert w.step == 5;
    summary := Summary(w.centers, w.draft);
    completeCalled := w.ReturnToDashboard();
  }

  /** 11:00 is not a slot of the first centre, so no button delivers it: the
      slot stays unset and "Continue" stays disabled on step 3. */
  method SlotNotOffered() returns (step: int, time: string)
    ensures step == 3 && time == ""
  {
    var app := new App();
    var w := app.StartBooking();
    w.EditLocation("Downtown");
    w.Next();
    w.SelectCenter(0);
    w.SetDate("2024-05-01");
    w.PickSlot("11:00");
    w.Next();
    step, time := w.step, w.draft.time;
  }

  /** "Cancel" on step 1 invokes onCancel, once: the session ends there,
      whatever actions follow, and onComplete is never invoked. */
  lemma CancelFromLocation(userName: string, rest: seq<Action>)
    ensures Run(MockCenters(), Initial(userName), [EditLocation("Downtown"), Cancel] + rest) ==
            Outcome(State(1, InitialDraft(userName).(location := "Downtown")), OnCancel)
  {
    var s1 := State(1, InitialDraft(userName).(location := "Downtown"));
    assert [EditLocation("Downtown"), Cancel] + rest == [EditLocation("Downtown")] + ([Cancel] + rest);
    RunStep(MockCenters(), Initial(userName), EditLocation("Downtown"), [Cancel] + rest, s1);
  }

  /** After an exit the dashboard is shown again, and booking once more
      mounts a new wizard whose draft is fresh, whatever the old one held. */
  method RemountIsFresh() returns (step: int, draft: Draft)
    ensures step == 1 && draft == InitialDraft("Alex Sterling")
  {
    var app := new App();
    var w := app.StartBooking();
    w.EditLocation("Downtown");
    w.Next();
    w.SelectCenter(1);
    w.Back();
    w.Back();
    var exited := w.Cancel();
    assert exited;
    app.ShowDashboard();
    var again := app.StartBooking();
    step, draft := again.step, again.draft;
  }

  /** Pick a slot of the first centre, go back, click the second centre:
      the slot is kept although the second centre does not offer it. */
  function StaleSlotTrace(): seq<Action>
  {
    [ EditLocation("Downtown"), Next, SelectCenter(0), SetDate("2024-05-01"), PickSlot("10:30"),
      Back, SelectCenter(1), Next, EditDonor(Email, "jane@x.com"), EditDonor(Phone, "555-1234"), Next ]
  }

  /** The draft after the first five actions of that session. */
  function SlotPickedDraft(userName: string): Draft
  {
    Draft("Downtown", "1", "2024-05-01", "10:30", userName, "", "")
  }

  lemma StaleSlotFirstPart(userName: string)
    ensures Run(MockCenters(), Initial(userName), StaleSlotTrace()) ==
            Run(MockCenters(), State(3, SlotPickedDraft(userName)), StaleSlotTrace()[5..])
  {
    var cs := MockCenters();
    FindCenterOfMember(cs, 0);
    var s0 := Initial(userName);
    var s1 := s0.(draft := s0.draft.(location := "Downtown"));
    var s2 := s1.(step := 2);
    var s3 := State(3, s2.draft.(centerId := "1"));
    var s4 := s3.(draft := s3.draft.(date := "2024-05-01"));
    var s5 := State(3, SlotPickedDraft(userName));
    var t5 := StaleSlotTrace()[5..];
    var t4 := [PickSlot("10:30")] + t5;
    var t3 := [SetDate("2024-05-01")] + t4;
    var t2 := [SelectCenter(0)] + t3;
    var t1 := [Next] + t2;
    var t0 := [EditLocation("Downtown")] + t1;
    assert t0 == StaleSlotTrace();
    RunStep(cs, s4, PickSlot("10:30"), t5, s5);
    RunStep(cs, s3, SetDate("2024-05-01"), t4, s4);
    RunStep(cs, s2, SelectCenter(0), t3, s3);
    RunStep(cs, s1, Next, t2, s2);
    RunStep(cs, s0, EditLocation("Downtown"), t1, s1);
  }

  lemma StaleSlotSecondPart(userName: string)
    requires userName != ""
    ensures Run(MockCenters(), State(3, SlotPickedDraft(userName)), StaleSlotTrace()[5..]) ==
            Outcome(State(5, StaleSlotDraft(userName)), NoCallback)
  {
    var cs := MockCenters();
    var s5 := State(3, SlotPickedDraft(userName));
    var s6 := s5.(step := 2);
    var s7 := State(3, s6.draft.(centerId := "2"));
    var s8 := s7.(step := 4);
    var s9 := s8.(draft := s8.draft.(email := "jane@x.com"));
    var s10 := s9.(draft := s9.draft.(phone := "555-1234"));
    var s11 := s10.(step := 5);
    var t10 := [Next];
    var t9 := [EditDonor(Phone, "555-1234")] + t10;
    var t8 := [EditDonor(Email, "jane@x.com")] + t9;
    var t7 := [Next] + t8;
    var t6 := [SelectCenter(1)] + t7;
    var t5 := [Back] + t6;
    assert t5 == StaleSlotTrace()[5..];
    RunStep(cs, s10, Next, [], s11);
    RunStep(cs, s9, EditDonor(Phone, "555-1234"), t10, s10);
    RunStep(cs, s8, EditDonor(Email, "jane@x.com"), t9, s9);
    RunStep(cs, s7, Next, t8, s8);
    RunStep(cs, s6, SelectCenter(1), t7, s7);
    RunStep(cs, s5, Back, t6, s6);
  }

  /** The draft at the end of that session. */
  function StaleSlotDraft(userName: string): Draft
  {
    SlotPickedDraft(userName).(centerId := "2", email := "jane@x.com", phone := "555-1234")
  }

  lemma StaleSlotSummary(userName: string)
    ensures Summary(MockCenters(), StaleSlotDraft(userName)) ==
            Confirmation(userName, Some("St. Mary's Hospital"), "2024-05-01", "10:30")
    ensures SlotsOf(MockCenters(), "2") == ["11:00", "13:00", "16:30"]
    ensures !SlotMatchesCenter(MockCenters(), StaleSlotDraft(userName))
  {
  }

  /** As written, that session reaches the confirmation step showing St.
      Mary's Hospital at 10:30, a slot St. Mary's does not offer, for any
      signed-in user. */
  lemma StaleSlotReachesConfirmation(userName: string)
    requires userName != ""
    ensures Run(MockCenters(), Initial(userName), StaleSlotTrace()) == Outcome(State(5, StaleSlotDraft(userName)), NoCallback)
    ensures Summary(MockCenters(), StaleSlotDraft(userName)) ==
            Confirmation(userName, Some("St. Mary's Hospital"), "2024-05-01", "10:30")
    ensures !SlotMatchesCenter(MockCenters(), StaleSlotDraft(userName))
  {
    StaleSlotFirstPart(userName);
    StaleSlotSecondPart(userName);
    StaleSlotSummary(userName);
  }

  /** On the same session the corrected centre click clears the slot that
      St. Mary's Hospital does not offer. */
  lemma CorrectedClearsStaleSlot(userName: string)
    ensures CorrectedTransition(MockCenters(), State(2, SlotPickedDraft(userName)), SelectCenter(1)) ==
            Outcome(State(3, SlotPickedDraft(userName).(centerId := "2", time := "")), NoCallback)
  {
  }
}
