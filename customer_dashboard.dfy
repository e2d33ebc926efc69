/** The customer's dashboard: the booking form behind a chosen service, its
    required fields, its reset, and the two summary counts. */
module CustomerDashboard {
  import opened Outcomes
  import opened Marketplace

  /** The six fields of `bookingData`. */
  datatype BookingForm = BookingForm(name: string, phone: string, email: string,
                                     address: string, notes: string, scheduledAt: string)

  const EmptyForm: BookingForm := BookingForm("", "", "", "", "", "")

  /** The request body: the service id and every form field. */
  datatype BookingRequest = BookingRequest(serviceId: string, form: BookingForm)

  /** One of the four required fields is empty; email and notes are optional. */
  predicate MissingRequired(f: BookingForm) {
    f.name == "" || f.phone == "" || f.address == "" || f.scheduledAt == ""
  }

  /** The optional fields never decide whether a form is accepted. */
  lemma OptionalFieldsIrrelevant(f: BookingForm, email: string, notes: string)
    ensures MissingRequired(f.(email := email, notes := notes)) == MissingRequired(f)
    ensures MissingRequired(EmptyForm)
  {
  }

  const UpcomingStatuses: set<string> := {Created, Assigned, InProgress}

  function UpcomingCount(bookings: seq<Booking>): nat {
    CountWithStatus(bookings, UpcomingStatuses)
  }

  function CompletedCount(bookings: seq<Booking>): nat {
    CountWithStatus(bookings, {Completed})
  }

  /** The two summary cards count disjoint sets of bookings; CANCELLED ones
      and unknown statuses are in neither. */
  lemma SummaryCountsBounded(bookings: seq<Booking>)
    ensures UpcomingCount(bookings) + CompletedCount(bookings) <= |bookings|
    ensures UpcomingCount(bookings) + CompletedCount(bookings) + CountWithStatus(bookings, {Cancelled}) <= |bookings|
  {
    CountDisjointUnion(bookings, UpcomingStatuses, {Completed});
    CountsOfDisjointBounded(bookings, UpcomingStatuses + {Completed}, {Cancelled});
  }

  class Dashboard {
    var services: seq<Service>
    var bookings: seq<Booking>
    var selectedService: Option<Service>
    var bookingData: BookingForm

    constructor ()
      ensures services == [] && bookings == [] && selectedService == None && bookingData == EmptyForm
    {
      services, bookings, selectedService, bookingData := [], [], None, EmptyForm;
    }

    /** `openBookingModal`. */
    method OpenBookingModal(service: Service)
      modifies this`selectedService
      ensures selectedService == Some(service)
    {
      selectedService := Some(service);
    }

    /** `closeBookingModal`: back to the state the screen starts in. */
    method CloseBookingModal()
      modifies this`selectedService, this`bookingData
      ensures selectedService == None && bookingData == EmptyForm
    {
      selectedService := None;
      bookingData := BookingForm("", "", "", "", "", "");
    }

    /** `confirmBooking`, which is only reachable from the open modal. A
        form missing a required field is rejected with an alert: nothing is
        sent and nothing changes. Otherwise the form is sent; success closes
        and resets the modal, and a failure (not caught) leaves it as it was. */
    method ConfirmBooking(outcome: Outcome) returns (request: Option<BookingRequest>)
      requires selectedService.Some?
      modifies this`selectedService, this`bookingData
      ensures MissingRequired(old(bookingData)) ==>
        request == None && selectedService == old(selectedService) && bookingData == old(bookingData)
      ensures !MissingRequired(old(bookingData)) ==>
        request == Some(BookingRequest(old(selectedService).value.id, old(bookingData)))
      ensures !MissingRequired(old(bookingData)) && outcome.Done? ==>
        selectedService == None && bookingData == EmptyForm
      ensures !MissingRequired(old(bookingData)) && outcome.Failed? ==>
        selectedService == old(selectedService) && bookingData == old(bookingData)
    {
      if bookingData.name == "" || bookingData.phone == "" || bookingData.address == "" || bookingData.scheduledAt == "" {
        return None;
      }
      request := Some(BookingRequest(selectedService.value.id, bookingData));
      if outcome.Done? {
        CloseBookingModal();
      }
    }

    /** `loadBookings`: a failure is not caught and leaves the list. */
    method LoadBookings(res: Response<seq<Booking>>)
      modifies this`bookings
      ensures bookings == (if res.Success? then res.value else old(bookings))
    {
      if res.Success? {
        bookings := res.value;
      }
    }

    /** `loadServices`: a failure is not caught and leaves the list. */
    method LoadServices(res: Response<seq<Service>>)
      modifies this`services
      ensures services == (if res.Success? then res.value else old(services))
    {
      if res.Success? {
        services := res.value;
      }
    }
  }
}
