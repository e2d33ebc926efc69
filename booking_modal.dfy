/** The booking modal: a date, one of nine hourly time slots and the contact
    fields, the `scheduledAt` text built from date and slot, and the
    submit sequence with its `loading`, `success` and `error` state. */
module BookingModal {
  import opened Outcomes

  const TimeSlots: seq<string> := [
    "09:00", "10:00", "11:00",
    "12:00", "13:00", "14:00",
    "15:00", "16:00", "17:00"
  ]

  /** Two decimal digits: the `HH` of a slot. */
  function TwoDigits(n: nat): string
    requires n < 100
  {
    ['0' + ((n / 10) as char), '0' + ((n % 10) as char)]
  }

  /** The slots are the full hours from 09:00 to 17:00, in order. */
  lemma SlotsAreHours()
    ensures |TimeSlots| == 9
    ensures forall k | 0 <= k < 9 :: TimeSlots[k] == TwoDigits(9 + k) + ":00"
  {
  }

  /** Every slot is five characters long, and no two slots are equal. */
  lemma SlotsShape()
    ensures forall t | t in TimeSlots :: |t| == 5
    ensures forall i, j | 0 <= i < j < |TimeSlots| :: TimeSlots[i] != TimeSlots[j]
  {
    SlotsAreHours();
    forall i, j | 0 <= i < j < |TimeSlots|
      ensures TimeSlots[i] != TimeSlots[j]
    {
      assert TimeSlots[i][..2] == TwoDigits(9 + i) && TimeSlots[j][..2] == TwoDigits(9 + j);
    }
  }

  /** The text handed to the `Date` constructor: `${date}T${time}:00`. */
  function ScheduledAt(date: string, time: string): string {
    date + "T" + time + ":00"
  }

  /** Reads a `scheduledAt` text of this shape back into date and time. */
  function SplitScheduledAt(s: string): (r: Option<(string, string)>)
    ensures r.Some? ==> ScheduledAt(r.value.0, r.value.1) == s && |r.value.1| == 5
  {
    if |s| >= 9 && s[|s| - 9] == 'T' && s[|s| - 3..] == ":00" then
      var date, time := s[..|s| - 9], s[|s| - 8..|s| - 3];
      assert s == date + "T" + time + ":00";
      Some((date, time))
    else None
  }

  /** For any date and any slot, the built text reads back to them, so
      different choices give different texts. */
  lemma ScheduledAtRoundTrip(date: string, time: string)
    requires time in TimeSlots
    ensures SplitScheduledAt(ScheduledAt(date, time)) == Some((date, time))
  {
    SlotsShape();
    var s := ScheduledAt(date, time);
    assert |s| == |date| + 9;
    assert s[..|s| - 9] == date;
    assert s[|s| - 8..|s| - 3] == time;
    assert s[|s| - 3..] == ":00";
  }

  /** The body of the create request. */
  datatype CreateRequest = CreateRequest(serviceId: string, scheduledAt: string, customerName: string,
                                         customerPhone: string, customerAddress: string, notes: string)

  const RequiredMessage: string := "Please fill all required fields"

  class Modal {
    const serviceId: string
    var date: string
    var time: string
    var customerName: string
    var customerPhone: string
    var customerAddress: string
    var notes: string
    var loading: bool
    var success: bool
    var error: string

    /** The chosen time is empty or one of the slot buttons'. */
    predicate Valid()
      reads this
    {
      time == "" || time in TimeSlots
    }

    /** A required field is empty; notes are optional. */
    predicate MissingRequired()
      reads this
    {
      date == "" || time == "" || customerName == "" || customerPhone == "" || customerAddress == ""
    }

    constructor (serviceId: string)
      ensures Valid()
      ensures this.serviceId == serviceId
      ensures date == "" && time == "" && customerName == "" && customerPhone == ""
      ensures customerAddress == "" && notes == "" && !loading && !success && error == ""
    {
      this.serviceId := serviceId;
      date, time, customerName, customerPhone, customerAddress, notes := "", "", "", "", "", "";
      loading, success, error := false, false, "";
    }

    /** A slot button was pressed; only the slots are offered. */
    method SelectTime(t: string)
      requires Valid()
      requires t in TimeSlots
      modifies this`time
      ensures Valid() && time == t
    {
      time := t;
    }

    /** The first half of `submit`, up to the awaited request. The error is
        cleared first; a missing required field sets the required-fields
        error and sends nothing; otherwise `loading` is set and the request
        carries the built `scheduledAt`. */
    method BeginSubmit() returns (request: Option<CreateRequest>)
      requires Valid()
      modifies this`error, this`loading
      ensures Valid()
      ensures old(MissingRequired()) ==> request == None && error == RequiredMessage && loading == old(loading)
      ensures !old(MissingRequired()) ==> error == "" && loading
      ensures !old(MissingRequired()) ==>
        request == Some(CreateRequest(serviceId, ScheduledAt(date, time), customerName, customerPhone, customerAddress, notes))
      ensures !old(MissingRequired()) ==> SplitScheduledAt(request.value.scheduledAt) == Some((date, time))
    {
      error := "";
      if date == "" || time == "" || customerName == "" || customerPhone == "" || customerAddress == "" {
        error := RequiredMessage;
        return None;
      }
      var scheduledAt := ScheduledAt(date, time);
      ScheduledAtRoundTrip(date, time);
      loading := true;
      request := Some(CreateRequest(serviceId, scheduledAt, customerName, customerPhone, customerAddress, notes));
    }

    /** The second half of `submit`: success is shown only after the request
        succeeded; a failure shows its message or the default text; `loading`
        is cleared either way. */
    method FinishSubmit(outcome: Outcome)
      requires Valid()
      modifies this`success, this`error, this`loading
      ensures Valid()
      ensures !loading
      ensures outcome.Done? ==> success && error == old(error)
      ensures outcome.Failed? ==> success == old(success) && error == MessageOr(outcome.message, "Failed to create booking")
      ensures outcome.Failed? ==> error != ""
    {
      match outcome {
        case Done =>
          success := true;
        case Failed(m) =>
          error := MessageOr(m, "Failed to create booking");
      }
      loading := false;
    }
  }
}
