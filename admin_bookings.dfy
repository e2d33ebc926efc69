/** The admin bookings screen: a per-booking cache of available providers,
    the assign selector for every booking that is not finished, and the
    busy flag around an assignment. */
module AdminBookings {
  import opened Outcomes
  import opened Marketplace

  type ProviderCache = map<string, seq<ProviderRef>>

  /** The cache after a provider list for `bookingId` arrived: that entry is
      added or replaced, every other entry is kept. */
  function Cached(cache: ProviderCache, bookingId: string, providers: seq<ProviderRef>): (c: ProviderCache)
    ensures c.Keys == cache.Keys + {bookingId}
    ensures c[bookingId] == providers
    ensures forall id | id in cache && id != bookingId :: c[id] == cache[id]
  {
    cache[bookingId := providers]
  }

  /** The selector is offered unless the booking is COMPLETED or CANCELLED. */
  predicate SelectorOffered(status: string) {
    status !in [Completed, Cancelled]
  }

  /** The selector is disabled while this booking is being assigned. */
  predicate SelectorDisabled(b: Booking, assigning: Option<string>) {
    assigning == Some(b.id)
  }

  /** The selected option: the current provider's id, or the placeholder "". */
  function SelectedValue(b: Booking): string {
    if b.provider.Some? then b.provider.value.id else ""
  }

  /** The options listed under the placeholder: the cached list, if any. */
  function ProviderOptions(cache: ProviderCache, b: Booking): seq<ProviderRef> {
    if b.id in cache then cache[b.id] else []
  }

  /** This screen offers reassignment for every status except the two
      finished ones, unknown statuses included. */
  lemma SelectorOfferedIff(status: string)
    ensures SelectorOffered(status) <==> status != Completed && status != Cancelled
    ensures SelectorOffered(Created) && SelectorOffered(Assigned) && SelectorOffered(InProgress)
  {
  }

  /** At most one booking's selector is disabled at a time, and none is
      when no assignment is in flight. */
  lemma AtMostOneSelectorDisabled(b1: Booking, b2: Booking, assigning: Option<string>)
    requires SelectorDisabled(b1, assigning) && SelectorDisabled(b2, assigning)
    ensures b1.id == b2.id && assigning.Some?
  {
  }

  /** With no provider the placeholder is selected; with a provider its id. */
  lemma SelectedValueIff(b: Booking)
    ensures b.provider.None? ==> SelectedValue(b) == ""
    ensures b.provider.Some? ==> SelectedValue(b) == b.provider.value.id
  {
  }

  datatype AssignRequest = AssignRequest(bookingId: string, providerId: string)

  class Screen {
    var bookings: seq<Booking>
    var availableProviders: ProviderCache
    var loading: bool
    var assigning: Option<string>

    constructor ()
      ensures bookings == [] && availableProviders == map[] && loading && assigning == None
    {
      bookings, availableProviders, loading, assigning := [], map[], true, None;
    }

    /** The load on mount: the list on success (a failure is not caught and
        leaves it), and `loading` cleared either way. */
    method LoadOnMount(res: Response<seq<Booking>>)
      modifies this`bookings, this`loading
      ensures bookings == (if res.Success? then res.value else old(bookings))
      ensures !loading
    {
      if res.Success? {
        bookings := res.value;
      }
      loading := false;
    }

    /** `loadProviders`. A booking already in the cache is a no-op that sends
        nothing; otherwise the availability for its time is requested and a
        received list is cached for that booking alone. A failed request is
        not caught and caches nothing. */
    method LoadProviders(bookingId: string, scheduledAt: string, res: Response<seq<ProviderRef>>)
      returns (requested: Option<string>)
      modifies this`availableProviders
      ensures old(bookingId in availableProviders) ==> requested == None && availableProviders == old(availableProviders)
      ensures old(bookingId !in availableProviders) ==> requested == Some(scheduledAt)
      ensures old(bookingId !in availableProviders) && res.Success? ==>
        availableProviders == Cached(old(availableProviders), bookingId, res.value)
      ensures old(bookingId !in availableProviders) && res.Failure? ==> availableProviders == old(availableProviders)
    {
      if bookingId in availableProviders {
        return None;
      }
      requested := Some(scheduledAt);
      if res.Success? {
        availableProviders := Cached(availableProviders, bookingId, res.value);
      }
    }

    /** The first half of `assignProvider`, up to the awaited request: the
        booking is marked as being assigned. */
    method BeginAssign(bookingId: string, providerId: string) returns (request: AssignRequest)
      modifies this`assigning
      ensures request == AssignRequest(bookingId, providerId)
      ensures assigning == Some(bookingId)
    {
      assigning := Some(bookingId);
      request := AssignRequest(bookingId, providerId);
    }

    /** The second half: after a successful assignment the list is reloaded
        (`reload` is that request); the busy flag is cleared whether either
        request failed or not. */
    method FinishAssign(outcome: Outcome, reload: Response<seq<Booking>>)
      modifies this`bookings, this`assigning
      ensures assigning == None
      ensures bookings == (if outcome.Done? && reload.Success? then reload.value else old(bookings))
    {
      if outcome.Done? && reload.Success? {
        bookings := reload.value;
      }
      assigning := None;
    }
  }

  /** Two loads for the same booking, as when its selector is focused
      twice. After the first load succeeds, the second finds its entry,
      sends nothing and leaves the cache as the first left it; after a
      failed first load the second asks again. A booking cached beforehand
      is never requested. */
  method LoadProvidersTwice(s: Screen, bookingId: string, scheduledAt: string,
                            r1: Response<seq<ProviderRef>>, r2: Response<seq<ProviderRef>>)
    returns (first: Option<string>, second: Option<string>)
    modifies s`availableProviders
    ensures old(bookingId in s.availableProviders) ==>
      first == None && second == None && s.availableProviders == old(s.availableProviders)
    ensures old(bookingId !in s.availableProviders) ==> first == Some(scheduledAt)
    ensures old(bookingId !in s.availableProviders) && r1.Success? ==>
      second == None && s.availableProviders == Cached(old(s.availableProviders), bookingId, r1.value)
    ensures old(bookingId !in s.availableProviders) && r1.Failure? ==> second == Some(scheduledAt)
  {
    first := s.LoadProviders(bookingId, scheduledAt, r1);
    second := s.LoadProviders(bookingId, scheduledAt, r2);
  }
}
