/** The booking wizard (`Scheduler` in App.tsx) as a pure state machine: the
    step cursor and the draft record, the per-step guards that enable the
    forward button, the user actions each step renders, and the effect of each
    action as one atomic transition. */
module Wizard {
  import opened Directory

  /** The draft record `formData`; JavaScript's empty string is "". */
  datatype Draft = Draft(
    location: string,
    centerId: string,
    date: string,
    time: string,
    name: string,
    email: string,
    phone: string)

  /** The three donor fields the details step renders as text inputs. */
  datatype DonorField = Name | Email | Phone

  /** The step cursor (1 Location, 2 Centre selection, 3 Date and time,
      4 Donor details, 5 Confirmation) together with the draft. */
  datatype State = State(step: int, draft: Draft)

  /** One discrete user action, as delivered by one event handler. */
  datatype Action =
    | EditLocation(value: string)              // location text input, step 1
    | Cancel                                   // "Cancel", step 1
    | Next                                     // the forward button of steps 1, 3 and 4
    | SelectCenter(index: nat)                 // click on the index-th centre card, step 2
    | Back                                     // "Back", steps 2 to 4
    | SetDate(value: string)                   // the date input, step 3
    | PickSlot(slot: string)                   // a time-slot button, step 3
    | EditDonor(field: DonorField, value: string) // a donor input, step 4
    | ReturnToDashboard                        // "Return to Dashboard", step 5

  /** Which of the component's two callbacks an action invoked, if any. */
  datatype Callback = NoCallback | OnCancel | OnComplete

  datatype Outcome = Outcome(state: State, callback: Callback)

  /** The draft the component mounts with: everything empty except the donor
      name, which is the signed-in user's name. */
  function InitialDraft(userName: string): Draft
  {
    Draft("", "", "", "", userName, "", "")
  }

  function Initial(userName: string): State
  {
    State(1, InitialDraft(userName))
  }

  function DonorValue(d: Draft, f: DonorField): string
  {
    match f
    case Name => d.name
    case Email => d.email
    case Phone => d.phone
  }

  /** `{...formData, [field]: value}` for one of the donor fields. */
  function WithDonor(d: Draft, f: DonorField, v: string): (r: Draft)
    ensures DonorValue(r, f) == v
    ensures forall g :: g != f ==> DonorValue(r, g) == DonorValue(d, g)
    ensures r.location == d.location && r.centerId == d.centerId
    ensures r.date == d.date && r.time == d.time
  {
    match f
    case Name => d.(name := v)
    case Email => d.(email := v)
    case Phone => d.(phone := v)
  }

  /** The negation of the forward button's `disabled` expression. Step 2 has
      no forward button (a centre click advances) and step 5 has none. */
  predicate Guard(step: int, d: Draft)
  {
    if step == 1 then d.location != ""
    else if step == 3 then d.date != "" && d.time != ""
    else if step == 4 then d.name != "" && d.email != "" && d.phone != ""
    else false
  }

  /** `selectedCenter?.availableSlots`: the slots of the centre the draft
      names, or none when no centre has that identifier. */
  function SlotsOf(cs: seq<Center>, id: string): seq<string>
  {
    match FindCenter(cs, id)
    case Some(c) => c.availableSlots
    case None => []
  }

  /** Whether the control that delivers `a` is rendered and enabled in `s`.
      The date-time step renders slot buttons only once a date is chosen, and
      only the selected centre's slots. */
  predicate Offered(cs: seq<Center>, s: State, a: Action)
  {
    match a
    case EditLocation(_) => s.step == 1
    case Cancel => s.step == 1
    case Next => Guard(s.step, s.draft)
    case SelectCenter(i) => s.step == 2 && i < |cs|
    case Back => 2 <= s.step <= 4
    case SetDate(_) => s.step == 3
    case PickSlot(slot) => s.step == 3 && s.draft.date != "" && slot in SlotsOf(cs, s.draft.centerId)
    case EditDonor(_, _) => s.step == 4
    case ReturnToDashboard => s.step == 5
  }

  /** The effect of one user action. An action whose control is not rendered
      or is disabled has no effect. Cancel and Return change nothing in the
      wizard; they only invoke the matching callback. */
  function Transition(cs: seq<Center>, s: State, a: Action): (o: Outcome)
    ensures o.callback != NoCallback ==> o.state == s
    ensures !Offered(cs, s, a) ==> o == Outcome(s, NoCallback)
  {
    if !Offered(cs, s, a) then Outcome(s, NoCallback)
    else match a
      case EditLocation(v) => Outcome(s.(draft := s.draft.(location := v)), NoCallback)
      case Cancel => Outcome(s, OnCancel)
      case Next => Outcome(s.(step := s.step + 1), NoCallback)
      case SelectCenter(i) => Outcome(State(s.step + 1, s.draft.(centerId := cs[i].id)), NoCallback)
      case Back => Outcome(s.(step := s.step - 1), NoCallback)
      case SetDate(v) => Outcome(s.(draft := s.draft.(date := v)), NoCallback)
      case PickSlot(slot) => Outcome(s.(draft := s.draft.(time := slot)), NoCallback)
      case EditDonor(f, v) => Outcome(s.(draft := WithDonor(s.draft, f, v)), NoCallback)
      case ReturnToDashboard => Outcome(s, OnComplete)
  }

  /** A session: the actions are applied in order until one of them invokes
      a callback, which unmounts the wizard; the outcome is the state at that
      point together with the callback invoked (NoCallback if none was). */
  function Run(cs: seq<Center>, s: State, trace: seq<Action>): Outcome
    decreases |trace|
  {
    if trace == [] then Outcome(s, NoCallback)
    else
      var o := Transition(cs, s, trace[0]);
      if o.callback != NoCallback then o else Run(cs, o.state, trace[1..])
  }

  /** The step-5 summary: the centre's name as found by `centerId` (absent
      when no centre has it), the date and time, and the donor's name. */
  datatype Confirmation = Confirmation(donor: string, centerName: Option<string>, date: string, time: string)

  function Summary(cs: seq<Center>, d: Draft): Confirmation
  {
    var name := match FindCenter(cs, d.centerId)
                case Some(c) => Some(c.name)
                case None => None;
    Confirmation(d.name, name, d.date, d.time)
  }

  /** The reachable-state invariant of the code as written. */
  ghost predicate Inv(cs: seq<Center>, s: State)
  {
    && 1 <= s.step <= 5
    && (s.step >= 2 ==> s.draft.location != "")
    && (s.draft.centerId == "" || FindCenter(cs, s.draft.centerId).Some?)
    && (s.step >= 3 ==> FindCenter(cs, s.draft.centerId).Some?)
    && (s.step >= 4 ==> s.draft.date != "" && s.draft.time != "")
    && (s.step == 5 ==> s.draft.name != "" && s.draft.email != "" && s.draft.phone != "")
    && (s.draft.time == "" || exists c :: c in cs && s.draft.time in c.availableSlots)
  }

  /** The slot in the draft, if any, belongs to the centre the draft names.
      The code as written does not preserve this (see SelectCenter). */
  predicate SlotMatchesCenter(cs: seq<Center>, d: Draft)
  {
    d.time == "" || d.time in SlotsOf(cs, d.centerId)
  }

  /** The number of centre clicks in a trace. */
  function Selections(trace: seq<Action>): nat
    decreases |trace|
  {
    if trace == [] then 0
    else (if trace[0].SelectCenter? then 1 else 0) + Selections(trace[1..])
  }

  /** The evidently intended centre click: as written, except that a slot
      the newly selected centre does not offer is cleared. */
  function CorrectedTransition(cs: seq<Center>, s: State, a: Action): (o: Outcome)
    ensures a.SelectCenter? && Offered(cs, s, a) ==>
              o == Outcome(State(3, s.draft.(centerId := cs[a.index].id,
                                             time := if s.draft.time in SlotsOf(cs, cs[a.index].id)
                                                     then s.draft.time else "")),
                           NoCallback)
    ensures !(a.SelectCenter? && Offered(cs, s, a)) ==> o == Transition(cs, s, a)
  {
    var o := Transition(cs, s, a);
    if a.SelectCenter? && Offered(cs, s, a) && o.state.draft.time !in SlotsOf(cs, cs[a.index].id)
    then o.(state := o.state.(draft := o.state.draft.(time := "")))
    else o
  }

  /** A session of the corrected wizard, stopping at the first callback. */
  function CorrectedRun(cs: seq<Center>, s: State, trace: seq<Action>): Outcome
    decreases |trace|
  {
    if trace == [] then Outcome(s, NoCallback)
    else
      var o := CorrectedTransition(cs, s, trace[0]);
      if o.callback != NoCallback then o else CorrectedRun(cs, o.state, trace[1..])
  }

  /** Every offered centre click of the session is made with no slot chosen,
      or onto a centre that offers the chosen slot. */
  predicate SafeClicks(cs: seq<Center>, s: State, trace: seq<Action>)
    decreases |trace|
  {
    trace == [] ||
    var a := trace[0];
    var o := Transition(cs, s, a);
    && (a.SelectCenter? && Offered(cs, s, a) ==>
          s.draft.time == "" || s.draft.time in SlotsOf(cs, cs[a.index].id))
    && (o.callback == NoCallback ==> SafeClicks(cs, o.state, trace[1..]))
  }
}
