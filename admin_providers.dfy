/** The admin providers screen: password reset and suspend/activate, each
    behind a confirmation and guarded by a per-provider busy flag, and the
    texts that follow a provider's active flag. */
module AdminProviders {
  import opened Outcomes

  datatype Provider = Provider(id: string, name: string, email: string, active: bool)

  /** The confirmation prompt of `toggleStatus`. */
  function TogglePrompt(active: bool): string {
    if active then "Suspend this provider?" else "Activate this provider?"
  }

  /** The caption of the suspend/activate button. */
  function ToggleCaption(active: bool): string {
    if active then "Suspend" else "Activate"
  }

  /** The status badge. */
  function StatusText(active: bool): string {
    if active then "Active" else "Suspended"
  }

  /** The prompt asks for the action the button names, and both name the
      opposite of what the badge shows: an active provider is offered a
      suspension, a suspended one an activation. */
  lemma TextsFollowActiveFlag(active: bool)
    ensures TogglePrompt(active) == ToggleCaption(active) + " this provider?"
    ensures ToggleCaption(active) == (if StatusText(active) == "Active" then "Suspend" else "Activate")
    ensures TogglePrompt(active) != TogglePrompt(!active)
    ensures StatusText(active) != StatusText(!active)
  {
  }

  /** Both action buttons of a provider are disabled while an action on that
      provider is in flight (the edit button always is). */
  predicate ActionsDisabled(p: Provider, actionLoading: Option<string>) {
    actionLoading == Some(p.id)
  }

  /** With nothing in flight every provider's buttons are enabled; while an
      action runs, only the providers with that id have theirs disabled. */
  lemma DisabledOnlyWhileInFlight(p: Provider, q: Provider, actionLoading: Option<string>)
    ensures !ActionsDisabled(p, None)
    ensures ActionsDisabled(p, Some(p.id))
    ensures ActionsDisabled(p, actionLoading) && ActionsDisabled(q, actionLoading) ==> p.id == q.id
  {
  }

  datatype StatusRequest = StatusRequest(providerId: string, active: bool)

  class Screen {
    var providers: seq<Provider>
    var loading: bool
    var actionLoading: Option<string>

    constructor ()
      ensures providers == [] && loading && actionLoading == None
    {
      providers, loading, actionLoading := [], true, None;
    }

    /** The load on mount: a failure is not caught and leaves the list;
        `loading` is cleared either way. */
    method LoadOnMount(res: Response<seq<Provider>>)
      modifies this`providers, this`loading
      ensures providers == (if res.Success? then res.value else old(providers))
      ensures !loading
    {
      if res.Success? {
        providers := res.value;
      }
      loading := false;
    }

    /** The first half of `resetPassword`: declined, nothing is sent and
        nothing changes; confirmed, the provider is marked busy and the
        reset is sent for its id. */
    method BeginResetPassword(providerId: string, confirmed: bool) returns (request: Option<string>)
      modifies this`actionLoading
      ensures !confirmed ==> request == None && actionLoading == old(actionLoading)
      ensures confirmed ==> request == Some(providerId) && actionLoading == Some(providerId)
    {
      if !confirmed {
        return None;
      }
      actionLoading := Some(providerId);
      request := Some(providerId);
    }

    /** The second half: the busy flag is cleared whether the reset
        succeeded or failed (the success alert is not modelled). */
    method FinishResetPassword(outcome: Outcome)
      modifies this`actionLoading
      ensures actionLoading == None
    {
      actionLoading := None;
    }

    /** The first half of `toggleStatus`: the confirmation prompt follows
        the current flag; declined, nothing is sent; confirmed, the provider
        is marked busy and the request asks for the opposite flag. */
    method BeginToggleStatus(provider: Provider, confirmed: bool) returns (prompt: string, request: Option<StatusRequest>)
      modifies this`actionLoading
      ensures prompt == TogglePrompt(provider.active)
      ensures !confirmed ==> request == None && actionLoading == old(actionLoading)
      ensures confirmed ==> request == Some(StatusRequest(provider.id, !provider.active))
      ensures confirmed ==> actionLoading == Some(provider.id) && ActionsDisabled(provider, actionLoading)
    {
      prompt := TogglePrompt(provider.active);
      if !confirmed {
        return prompt, None;
      }
      actionLoading := Some(provider.id);
      request := Some(StatusRequest(provider.id, !provider.active));
    }

    /** The second half: after a successful change the list is reloaded
        (`reload` is that request); the busy flag is cleared whatever
        happened. */
    method FinishToggleStatus(outcome: Outcome, reload: Response<seq<Provider>>)
      modifies this`providers, this`actionLoading
      ensures actionLoading == None
      ensures providers == (if outcome.Done? && reload.Success? then reload.value else old(providers))
    {
      if outcome.Done? && reload.Success? {
        providers := reload.value;
      }
      actionLoading := None;
    }
  }
}
