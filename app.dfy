/** The top-level `App`: a view cell switched between the dashboard, the
    booking wizard and the profile. The wizard exists only while the view is
    the booking view, so entering that view mounts a fresh one. */
module AppShell {
  import opened Directory
  import opened Wizard
  import opened SchedulerComponent

  datatype View = Dashboard | Booking | Profile

  /** The signed-in user's name, which pre-fills the donor name. */
  const MockUserName: string := "Alex Sterling"

  class App {
    var view: View

    constructor ()
      ensures view == Dashboard
    {
      view := Dashboard;
    }

    /** "Book Appointment", rendered only on the dashboard: switches to the
        booking view, which mounts a wizard over the shipped directory with a
        fresh draft. */
    method StartBooking() returns (wizard: Scheduler?)
      modifies this
      ensures old(view) == Dashboard ==>
                && view == Booking && wizard != null && fresh(wizard)
                && wizard.centers == MockCenters()
                && wizard.Current() == Initial(MockUserName)
                && wizard.Valid()
      ensures old(view) != Dashboard ==> view == old(view) && wizard == null
    {
      if view == Dashboard {
        view := Booking;
        wizard := new Scheduler(MockCenters(), MockUserName);
      } else {
        wizard := null;
      }
    }

    /** `setView('dashboard')`: the logo in the header, and both the wizard's
        onCancel and onComplete callbacks. Leaving the booking view unmounts
        the wizard and discards its draft. */
    method ShowDashboard()
      modifies this
      ensures view == Dashboard
    {
      view := Dashboard;
    }

    /** `setView('profile')`: the user entry in the header. */
    method ShowProfile()
      modifies this
      ensures view == Profile
    {
      view := Profile;
    }
  }
}
