/** The admin dashboard: the add-job form, job deletion behind a
    confirmation, provider assignment for new bookings, the bookings table's
    provider cell and the unassigned count. */
module AdminDashboard {
  import opened Outcomes
  import opened Marketplace

  /** The body of the create request; the price is sent as typed (its
      conversion with `Number` is left out). */
  datatype ServiceDraft = ServiceDraft(name: string, price: string, description: string)

  datatype AssignRequest = AssignRequest(bookingId: string, providerId: string)

  const RequiredMessage: string := "Job name and price are required."

  /** The assign selector is rendered in a booking's row. */
  predicate AssignSelectorShown(b: Booking) {
    b.status == Created
  }

  /** The selector's own `disabled` expression. */
  predicate AssignSelectorDisabled(b: Booking) {
    b.status != Created
  }

  /** This screen offers assignment only for CREATED bookings, and a shown
      selector is never disabled. */
  lemma AssignOnlyForCreated(b: Booking)
    ensures AssignSelectorShown(b) <==> b.status == Created
    ensures AssignSelectorShown(b) ==> !AssignSelectorDisabled(b)
    ensures b.status in {Assigned, InProgress, Completed, Cancelled} ==> !AssignSelectorShown(b)
  {
  }

  /** The provider column: the provider's name, or "Unassigned". */
  function ProviderCell(b: Booking): string {
    if b.provider.Some? then b.provider.value.name else "Unassigned"
  }

  /** "Unassigned" is shown for every booking without a provider, and for a
      booking with one only if that provider is itself named "Unassigned". */
  lemma ProviderCellUnassigned(b: Booking)
    ensures b.provider.None? ==> ProviderCell(b) == "Unassigned"
    ensures ProviderCell(b) == "Unassigned" <==> b.provider.None? || b.provider.value.name == "Unassigned"
  {
  }

  function UnassignedCount(bookings: seq<Booking>): nat {
    CountWithStatus(bookings, {Created})
  }

  /** The "Unassigned bookings" card counts the rows that offer a selector,
      and is at most the number of bookings. */
  lemma {:induction false} UnassignedCountIsSelectorRows(bookings: seq<Booking>)
    ensures UnassignedCount(bookings) <= |bookings|
    ensures UnassignedCount(bookings) == 0 <==> forall k | 0 <= k < |bookings| :: !AssignSelectorShown(bookings[k])
  {
    CountZeroIff(bookings, {Created});
  }

  class Dashboard {
    var services: seq<Service>
    var name: string
    var price: string
    var description: string
    var error: string
    var success: string
    var bookings: seq<Booking>
    var providers: seq<ProviderRef>

    constructor ()
      ensures services == [] && bookings == [] && providers == []
      ensures name == "" && price == "" && description == "" && error == "" && success == ""
    {
      services, bookings, providers := [], [], [];
      name, price, description, error, success := "", "", "", "", "";
    }

    /** `loadServices`: the list on success, the message otherwise. */
    method LoadServices(res: Response<seq<Service>>)
      modifies this`services, this`error
      ensures res.Success? ==> services == res.value && error == old(error)
      ensures res.Failure? ==> services == old(services) && error == res.message
    {
      match res {
        case Success(v) => services := v;
        case Failure(m) => error := m;
      }
    }

    /** `loadBookings`: the list on success, the message otherwise. */
    method LoadBookings(res: Response<seq<Booking>>)
      modifies this`bookings, this`error
      ensures res.Success? ==> bookings == res.value && error == old(error)
      ensures res.Failure? ==> bookings == old(bookings) && error == res.message
    {
      match res {
        case Success(v) => bookings := v;
        case Failure(m) => error := m;
      }
    }

    /** `loadProviders`: the list on success, the message otherwise. */
    method LoadProviders(res: Response<seq<ProviderRef>>)
      modifies this`providers, this`error
      ensures res.Success? ==> providers == res.value && error == old(error)
      ensures res.Failure? ==> providers == old(providers) && error == res.message
    {
      match res {
        case Success(v) => providers := v;
        case Failure(m) => error := m;
      }
    }

    /** `createService`. An empty name or price sets the required-fields
        error and sends nothing. Otherwise the form is sent; on success the
        three fields and the error are cleared and a success message set,
        on failure only the error changes. */
    method CreateService(outcome: Outcome) returns (request: Option<ServiceDraft>)
      modifies this`name, this`price, this`description, this`error, this`success
      ensures old(name) == "" || old(price) == "" ==>
        request == None && error == RequiredMessage
        && name == old(name) && price == old(price) && description == old(description) && success == old(success)
      ensures old(name) != "" && old(price) != "" ==>
        request == Some(ServiceDraft(old(name), old(price), old(description)))
      ensures old(name) != "" && old(price) != "" && outcome.Done? ==>
        name == "" && price == "" && description == "" && error == "" && success == "Job added successfully."
      ensures old(name) != "" && old(price) != "" && outcome.Failed? ==>
        error == outcome.message
        && name == old(name) && price == old(price) && description == old(description) && success == old(success)
    {
      if name == "" || price == "" {
        error := RequiredMessage;
        return None;
      }
      request := Some(ServiceDraft(name, price, description));
      match outcome {
        case Done =>
          name, price, description, error := "", "", "", "";
          success := "Job added successfully.";
        case Failed(m) =>
          error := m;
      }
    }

    /** `deleteService`. Declining the confirmation changes nothing and sends
        nothing; otherwise the delete for `id` is sent. */
    method DeleteService(id: string, confirmed: bool, outcome: Outcome) returns (request: Option<string>)
      modifies this`error, this`success
      ensures !confirmed ==> request == None && error == old(error) && success == old(success)
      ensures confirmed ==> request == Some(id)
      ensures confirmed && outcome.Done? ==> error == "" && success == "Job deleted successfully."
      ensures confirmed && outcome.Failed? ==> error == outcome.message && success == old(success)
    {
      if !confirmed {
        return None;
      }
      request := Some(id);
      match outcome {
        case Done =>
          error := "";
          success := "Job deleted successfully.";
        case Failed(m) =>
          error := m;
      }
    }

    /** `assignProvider`. An empty provider id (the placeholder option) is a
        no-op; otherwise the assignment is sent. */
    method AssignProvider(bookingId: string, providerId: string, outcome: Outcome) returns (request: Option<AssignRequest>)
      modifies this`error, this`success
      ensures providerId == "" ==> request == None && error == old(error) && success == old(success)
      ensures providerId != "" ==> request == Some(AssignRequest(bookingId, providerId))
      ensures providerId != "" && outcome.Done? ==> error == "" && success == "Provider assigned successfully."
      ensures providerId != "" && outcome.Failed? ==> error == outcome.message && success == old(success)
    {
      if providerId == "" {
        return None;
      }
      request := Some(AssignRequest(bookingId, providerId));
      match outcome {
        case Done =>
          success := "Provider assigned successfully.";
          error := "";
        case Failed(m) =>
          error := m;
      }
    }
  }
}
