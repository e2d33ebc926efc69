/** The shared vocabulary of the screens: the booking status strings the
    server sends, the records the screens read, and the status filters behind
    the dashboards' summary counts. */
module Marketplace {
  import opened Outcomes

  const Created: string := "CREATED"
  const Assigned: string := "ASSIGNED"
  const InProgress: string := "IN_PROGRESS"
  const Completed: string := "COMPLETED"
  const Cancelled: string := "CANCELLED"

  /** The order in which a booking moves forward: created, assigned to a
      provider, started, completed. */
  const Lifecycle: seq<string> := [Created, Assigned, InProgress, Completed]

  datatype ProviderRef = ProviderRef(id: string, name: string)

  /** A booking as the screens read it. `status` is the raw string the server
      sent, which need not be one of the five known values. */
  datatype Booking = Booking(id: string, status: string, provider: Option<ProviderRef>, scheduledAt: string)

  /** A catalog entry. The price is kept as the text the server returned. */
  datatype Service = Service(id: string, name: string, price: string)

  /** `bookings.filter(b => statuses.includes(b.status)).length`. */
  function CountWithStatus(bs: seq<Booking>, statuses: set<string>): (n: nat)
    ensures n <= |bs|
  {
    if bs == [] then 0
    else (if bs[0].status in statuses then 1 else 0) + CountWithStatus(bs[1..], statuses)
  }

  /** Filtering on two disjoint status sets counts each booking at most once:
      the two counts add up to the count for the union. */
  lemma {:induction false} CountDisjointUnion(bs: seq<Booking>, a: set<string>, b: set<string>)
    requires a !! b
    ensures CountWithStatus(bs, a) + CountWithStatus(bs, b) == CountWithStatus(bs, a + b)
  {
    if bs != [] {
      CountDisjointUnion(bs[1..], a, b);
    }
  }

  /** Two counts over disjoint status sets never exceed the number of bookings. */
  lemma CountsOfDisjointBounded(bs: seq<Booking>, a: set<string>, b: set<string>)
    requires a !! b
    ensures CountWithStatus(bs, a) + CountWithStatus(bs, b) <= |bs|
  {
    CountDisjointUnion(bs, a, b);
  }

  /** A count is zero exactly when no booking has one of the statuses. */
  lemma {:induction false} CountZeroIff(bs: seq<Booking>, statuses: set<string>)
    ensures CountWithStatus(bs, statuses) == 0 <==> forall k | 0 <= k < |bs| :: bs[k].status !in statuses
  {
    if bs != [] {
      CountZeroIff(bs[1..], statuses);
      assert forall k | 1 <= k < |bs| :: bs[k] == bs[1..][k - 1];
    }
  }

  /** A count equals the number of bookings exactly when every booking has
      one of the statuses. */
  lemma {:induction false} CountAllIff(bs: seq<Booking>, statuses: set<string>)
    ensures CountWithStatus(bs, statuses) == |bs| <==> forall k | 0 <= k < |bs| :: bs[k].status in statuses
  {
    if bs != [] {
      CountAllIff(bs[1..], statuses);
      assert forall k | 1 <= k < |bs| :: bs[k] == bs[1..][k - 1];
    }
  }

  /** The status a booking moves to next along the lifecycle, if any. */
  function NextStatus(status: string): (next: Option<string>)
    ensures next.Some? <==> status == Created || status == Assigned || status == InProgress
    ensures forall i | 0 <= i < 3 :: status == Lifecycle[i] ==> next == Some(Lifecycle[i + 1])
  {
    if status == Created then Some(Assigned)
    else if status == Assigned then Some(InProgress)
    else if status == InProgress then Some(Completed)
    else None
  }
}
