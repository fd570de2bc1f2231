# Hemo_link booking wizard in Dafny

This project models the appointment-booking wizard of the Hemo_link blood-donation front end. In the source it is the `Scheduler` component of `App.tsx`. The wizard is a five-step state machine: 1 Location, 2 Centre selection, 3 Date and time, 4 Donor details, 5 Confirmation. It holds two state cells: the step cursor `step` and the draft record `formData`. The draft has the fields location, centerId, date, time, name, email and phone. The centre directory is the fixed list of `Center` records the application ships with.

The model has two layers:

- `Wizard` (wizard.dfy) is the pure layer. `Draft` and `State` are datatypes. `Guard` is the negation of each forward button's `disabled` expression. `Offered` says which controls a step renders and enables. `Transition` applies one user action as one atomic step. `Run` applies a session of actions and stops at the first callback, because both callbacks unmount the wizard.
- `SchedulerComponent.Scheduler` (scheduler.dfy) is the component as an object. Its fields are `step` and `draft`. It has one method per event handler. Each method states the new value of both fields, agrees with `Transition`, and keeps the invariant `Inv`.

The other modules:

- `Directory` (directory.dfy): the `Center` record, the shipped centres and the first-match lookup `FindCenter`.
- `WizardProperties` (wizard_properties.dfy): the lemmas.
- `AppShell` (app.dfy): the three-way view switch of `App`.
- `Scenarios` (scenarios.dfy): end-to-end sessions on the shipped directory.

The model follows the code, not an idealised wizard:

- The step-1 guard is "location is not the empty string". There is no trimming.
- The step-3 guard only checks that date and time are non-empty.
- Clicking a centre does not clear a slot chosen earlier.
- The date input is uncontrolled, so the date stays in the draft across Back and Next even though the input shows blank.
- An action whose control is not rendered, or is disabled, leaves the state unchanged. The component can never receive such an action; modelling it as a no-op makes every operation total.

The centre directory is a parameter of the model. It is instantiated with the three shipped centres in `AppShell` and `Scenarios`.

## Model

| member | source | states |
|---|---|---|
| Directory.FindCenter | App.tsx:265 | A found centre is in the directory and has the requested id; nothing is found exactly when no centre has that id |
| Directory.FindCenterIsFirst | App.tsx:361 | The lookup returns the first centre with the id, like `Array.prototype.find` |
| Directory.FindCenterOfMember | App.tsx:34-38 | When ids are unique, looking up a centre's id finds that centre |
| Directory.MockCentersHaveUniqueIds | App.tsx:34-38 | The three shipped centres have distinct ids |
| Wizard.WithDonor | App.tsx:330 | A donor edit sets the named field and leaves every other field as it was |
| Wizard.Transition | App.tsx:197-198 | A control that is not rendered or is disabled does nothing; an action that invokes a callback leaves the wizard's state unchanged |
| Wizard.CorrectedTransition | App.tsx:240-243 | Corrected centre click: an offered click goes to step 3, records the centre, keeps the slot when the new centre offers it and clears it otherwise, changes no other field and invokes no callback; every other action behaves as in the code |
| WizardProperties.InitialState | App.tsx:186-195 | Mounts at step 1 with every field empty except the donor name, which is the user's name; the invariant holds; with a non-empty user name only email and phone are still missing for the step-4 guard |
| WizardProperties.NextIsGuarded | App.tsx:220-222 | Next changes the step exactly when the step's guard holds, and then to step+1; the draft never changes. The guards are: step 1 location non-empty; step 3 date and time non-empty (line 306); step 4 name, email and phone non-empty (line 339) |
| WizardProperties.SelectCenterAdvances | App.tsx:240-243 | A centre click at step 2 sets centerId to that centre's id and goes to step 3 in one action; every other field, date and time included, is unchanged |
| WizardProperties.ReselectKeepsDraft | App.tsx:241 | Clicking the centre already recorded leaves the draft identical |
| WizardProperties.BackKeepsDraft | App.tsx:198 | Back goes from step k to k-1 for k in 2..4, does nothing elsewhere, and never changes the draft |
| WizardProperties.EditsReplaceOneField | App.tsx:214 | The location, date (line 277), slot (line 289) and donor (line 330) edits each replace only their own field, only on their own step, and never change the step |
| WizardProperties.SlotOnlyFromSelectedCenter | App.tsx:282-289 | The slot changes only through a slot button on step 3, which exists only once a date is set and only for the selected centre's slots |
| WizardProperties.CallbacksOnlyFromExits | App.tsx:219 | onCancel is invoked exactly by Cancel on step 1; onComplete exactly by Return on step 5 (line 373); neither changes the state |
| WizardProperties.TransitionKeepsInv | App.tsx:197-198 | Every action keeps the invariant: step in 1..5; a location is set past step 1; centerId is empty or a directory id, and a directory id from step 3 on; date and time are set from step 4 on; all donor fields are set at step 5; a chosen slot is some centre's slot |
| WizardProperties.RunKeepsInv | App.tsx:201-378 | Any session from a state satisfying the invariant ends in a state satisfying it |
| WizardProperties.ReachableStatesAreValid | App.tsx:201-378 | Every reachable state satisfies the invariant, so the step stays in 1..5 and the final `return null` is unreachable |
| WizardProperties.RunCallbackStep | App.tsx:373 | A session that invokes onCancel stops at step 1; one that invokes onComplete stops at step 5 |
| WizardProperties.ConfirmationShowsSelectedCenter | App.tsx:357-363 | At step 5 the summary shows the name of a directory centre whose id is centerId, together with the draft's date, time and donor name |
| WizardProperties.SummaryNamesClickedCenter | App.tsx:361 | When ids are unique, the summary names exactly the centre whose id was recorded |
| WizardProperties.CompletedBookingIsFilled | App.tsx:351-373 | A session that ends with onComplete stops at step 5 with a centre found, and location, date, time, name, email and phone all set |
| WizardProperties.StepKeepsSlotMatch | App.tsx:289 | Every action keeps the slot among the selected centre's slots, except a centre click made while a slot is chosen that the new centre does not offer |
| WizardProperties.UnsafeClickBreaksSlotMatch | App.tsx:241 | Conversely, such a centre click always leaves the slot outside the selected centre's slots |
| WizardProperties.SafeClicksKeepSlotMatch | App.tsx:241 | Any session in which every centre click is made with no slot chosen, or onto a centre offering the chosen slot, keeps the slot among the selected centre's slots |
| WizardProperties.SingleSelectionKeepsSlotMatch | App.tsx:241 | Over a session with at most one centre click, starting before that click, the slot stays among the selected centre's slots |
| WizardProperties.SlotMatchesWhenCenterClickedOnce | App.tsx:241 | From mount, every session with at most one centre click keeps the slot among the selected centre's slots |
| WizardProperties.CorrectedKeepsSlotMatch | App.tsx:240-243 | With the corrected centre click, every action keeps both the invariant and "the slot is one of the selected centre's slots" |
| WizardProperties.CorrectedRunKeepsSlotMatch | App.tsx:240-243 | With the corrected centre click, any session keeps the invariant and the slot among the selected centre's slots, and one ending in onComplete stops at step 5 |
| WizardProperties.CorrectedBookingSlotIsOffered | App.tsx:357-363 | With the corrected centre click, every session from mount that ends in onComplete books a non-empty slot that the booked centre offers |
| WizardProperties.CorrectedReselectKeepsDraft | App.tsx:241 | The correction keeps the source's idempotent re-click |
| SchedulerComponent.Scheduler.constructor | App.tsx:186-195 | Mounting gives step 1, the initial draft, and the invariant |
| SchedulerComponent.Scheduler.EditLocation | App.tsx:214 | On step 1 replaces the location only; the step is unchanged; the invariant is kept |
| SchedulerComponent.Scheduler.Cancel | App.tsx:219 | Reports that onCancel is invoked exactly when on step 1, and changes nothing |
| SchedulerComponent.Scheduler.Next | App.tsx:197 | Increments the step exactly when the guard holds; the draft is unchanged; the invariant is kept |
| SchedulerComponent.Scheduler.SelectCenter | App.tsx:240-243 | On step 2, for a listed centre, records its id and moves to step 3; otherwise nothing changes |
| SchedulerComponent.Scheduler.Back | App.tsx:198 | Decrements the step on steps 2 to 4; the draft is unchanged |
| SchedulerComponent.Scheduler.SetDate | App.tsx:277 | On step 3 replaces the date only; the slot is kept |
| SchedulerComponent.Scheduler.PickSlot | App.tsx:282-289 | On step 3 with a date set, a slot of the selected centre replaces the time; anything else changes nothing |
| SchedulerComponent.Scheduler.EditDonor | App.tsx:324-330 | On step 4 replaces the named donor field only |
| SchedulerComponent.Scheduler.ShowSummary | App.tsx:357-363 | On step 5 of a valid wizard the summary shows the name of a directory centre with the recorded id, and the draft's non-empty date, time and donor name |
| SchedulerComponent.Scheduler.ReturnToDashboard | App.tsx:373 | Reports that onComplete is invoked exactly when on step 5, and changes nothing |
| AppShell.App.constructor | App.tsx:449 | The application starts on the dashboard |
| AppShell.App.StartBooking | App.tsx:456 | From the dashboard, switches to the booking view and mounts a new wizard with a fresh initial draft over the shipped centres |
| AppShell.App.ShowDashboard | App.tsx:457 | onCancel, onComplete and the header logo all set the view to the dashboard |
| AppShell.App.ShowProfile | App.tsx:81 | The header's user entry sets the view to the profile |
| Scenarios.CompleteBooking | App.tsx:351-363 | Downtown, Metro Blood Center, 2024-05-01 at 10:30, Jane Doe's details: the summary names Metro Blood Center at 10:30, and Return invokes onComplete |
| Scenarios.SlotNotOffered | App.tsx:286-306 | 11:00 is not a slot of Metro Blood Center, so no button sets it; the slot stays empty and the wizard stays on step 3 |
| Scenarios.CancelFromLocation | App.tsx:219 | Location, then Cancel: the session ends with onCancel on step 1 whatever actions follow, so onCancel is invoked once and onComplete never |
| Scenarios.RemountIsFresh | App.tsx:457 | After an exit, booking again mounts a wizard at step 1 with the initial draft |
| Scenarios.StaleSlotReachesConfirmation | App.tsx:241 | As written: pick 10:30 at Metro Blood Center, go back, click St. Mary's Hospital; the wizard confirms St. Mary's at 10:30, which St. Mary's does not offer |
| Scenarios.CorrectedClearsStaleSlot | App.tsx:241 | On that same session, the corrected centre click clears the stale slot |

## Findings

| source | as written | input that shows it | evidently intended | confidence | as-written member | corrected member |
|---|---|---|---|---|---|---|
| App.tsx:241 | Clicking a centre keeps a slot chosen for a different centre, and the step-3 guard at line 306 does not check the slot against the centre | Downtown, Next, Metro Blood Center, 2024-05-01, 10:30, Back, St. Mary's Hospital, Next, email, phone, Next | A slot the newly selected centre does not offer is cleared, so the booking always holds one of its centre's slots | medium, not executed | Scenarios.StaleSlotReachesConfirmation | WizardProperties.CorrectedBookingSlotIsOffered |

The `Scheduler` class still follows the code as written: it is the model of the component. The corrected click differs from the code only in the centre-click action. `Wizard.CorrectedTransition` defines it. `WizardProperties.CorrectedKeepsSlotMatch` proves that it keeps the slot among the selected centre's slots on every action, `WizardProperties.CorrectedRunKeepsSlotMatch` on every session, and `WizardProperties.CorrectedBookingSlotIsOffered` that every completed booking holds a slot of its own centre. `WizardProperties.CorrectedReselectKeepsDraft` proves that it keeps the idempotent re-click. For the code as written, the session-level statements proved are `WizardProperties.SafeClicksKeepSlotMatch` (every centre click is made with no slot chosen, or onto a centre that offers the chosen slot) and its corollary `WizardProperties.SlotMatchesWhenCenterClickedOnce` (at most one centre click); `WizardProperties.UnsafeClickBreaksSlotMatch` shows that any other centre click breaks the match.

Where an idealised wizard would behave differently, the model follows the code:

- An idealised wizard would trim the location before the step-1 check; the code (App.tsx:221) tests the raw string.
- An idealised step-3 guard would also require the slot to be one of the centre's slots; the code's (App.tsx:306) checks only that date and time are non-empty.
- An idealised centre click would reset a slot the new centre does not offer; the code (App.tsx:241) keeps it. This is the finding above.

## Left out

- components/GeminiChat.tsx and services/gemini.ts: the assistant widget and its wrapper. They make an asynchronous network call to an external language-model client, which the model cannot express.
- Header, Dashboard and UserProfile markup, the inventory chart and its `level < 30` colour choice: presentation only. From Header, only the two `onViewChange` calls are modelled (App.ShowDashboard, App.ShowProfile).
- The "Download Appointment Letter" button: it only shows a browser alert.
- Mock data other than the centres and the user's name (needs, inventory, past appointments): nothing in the wizard reads it.
- React rendering and batching: each handler is one atomic transition. This includes the state update followed by `handleNext` in the centre click.
- The blank display of the uncontrolled date input: only its effect on the draft is modelled. The date stays in the draft.
- The wizard as a field of App: App.StartBooking returns the wizard it mounts, and dropping that object models unmounting. The model does not say that a client stops using an unmounted wizard.
