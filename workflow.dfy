/** How the screens' separate rules line up against each other. Each screen
    keeps its own rule; these lemmas only compare them. */
module Workflow {
  import opened Outcomes
  import opened Marketplace
  import AdminDashboard
  import AdminBookings
  import JobCard
  import StatusBadge
  import ProviderDashboard

  /** Wherever the dashboard offers assignment, the bookings screen does too;
      the bookings screen also offers it for ASSIGNED and IN_PROGRESS
      bookings, which the dashboard does not. */
  lemma AdminScreensDisagreeOnAssign(b: Booking)
    ensures AdminDashboard.AssignSelectorShown(b) ==> AdminBookings.SelectorOffered(b.status)
    ensures b.status == Assigned || b.status == InProgress ==>
      AdminBookings.SelectorOffered(b.status) && !AdminDashboard.AssignSelectorShown(b)
  {
  }

  /** The card offers "Accept" for exactly the bookings the dashboard still
      lets an admin assign. */
  lemma AcceptMatchesDashboardAssign(b: Booking, loading: bool)
    ensures (exists k | 0 <= k < |JobCard.Buttons(b.status, loading)| :: JobCard.Buttons(b.status, loading)[k].action == JobCard.Accept)
      <==> AdminDashboard.AssignSelectorShown(b)
  {
    var bs := JobCard.Buttons(b.status, loading);
    assert (exists k | 0 <= k < |bs| :: bs[k].action == JobCard.Accept) <==> b.status == Created;
  }

  /** The card offers "Mark Complete" on ASSIGNED jobs, but the provider
      dashboard enables Complete only for IN_PROGRESS ones. */
  lemma CardAndDashboardDisagreeOnComplete(b: Booking, loading: bool, loadingId: Option<string>)
    requires b.status == Assigned
    ensures JobCard.Buttons(b.status, loading)[0].action == JobCard.MarkComplete
    ensures !ProviderDashboard.Enabled(ProviderDashboard.Complete, b, loadingId)
  {
  }

  /** For none of the five statuses does the card's chip show the text of
      the status badge: the chip shows a tone word, the badge a label or the
      raw "CANCELLED". */
  lemma CardAndBadgeTextsDiffer(s: string)
    requires s in {Created, Assigned, InProgress, Completed, Cancelled}
    ensures JobCard.ChipText(s) != StatusBadge.BadgeFor(Some(s)).text
  {
    JobCard.KnownStatusMeta();
    StatusBadge.KnownStatusShowsLabel(Assigned);
    StatusBadge.KnownStatusShowsLabel(InProgress);
    StatusBadge.KnownStatusShowsLabel(Completed);
    StatusBadge.KnownStatusShowsLabel(Created);
    StatusBadge.CancelledShowsRaw();
  }
}
