/** The provider's dashboard: Start and Complete buttons per job, the status
    update with its per-job busy flag, and the two summary counts. */
module ProviderDashboard {
  import opened Outcomes
  import opened Marketplace

  datatype ProviderAction = Start | Complete

  /** The status a job must have for the action's button to be enabled. */
  function RequiredStatus(a: ProviderAction): string {
    match a
    case Start => Assigned
    case Complete => InProgress
  }

  /** The status the action's button asks the server for. */
  function TargetStatus(a: ProviderAction): string {
    match a
    case Start => InProgress
    case Complete => Completed
  }

  /** The button is enabled: `!(job.status !== required || loadingId === job._id)`. */
  predicate Enabled(a: ProviderAction, job: Booking, loadingId: Option<string>) {
    job.status == RequiredStatus(a) && loadingId != Some(job.id)
  }

  /** An enabled button always asks for the next status of the lifecycle, so
      a provider can never skip a state; and at most one button is enabled. */
  lemma EnabledActionIsNextStep(a: ProviderAction, job: Booking, loadingId: Option<string>)
    requires Enabled(a, job, loadingId)
    ensures job.status == Assigned || job.status == InProgress
    ensures NextStatus(job.status) == Some(TargetStatus(a))
    ensures forall b: ProviderAction :: Enabled(b, job, loadingId) ==> b == a
  {
  }

  /** Start is enabled exactly for an ASSIGNED job, Complete exactly for an
      IN_PROGRESS one, in both cases only while that job is not in flight. */
  lemma EnabledIff(job: Booking, loadingId: Option<string>)
    ensures Enabled(Start, job, loadingId) <==> job.status == Assigned && loadingId != Some(job.id)
    ensures Enabled(Complete, job, loadingId) <==> job.status == InProgress && loadingId != Some(job.id)
    ensures loadingId == Some(job.id) ==> !Enabled(Start, job, loadingId) && !Enabled(Complete, job, loadingId)
  {
  }

  /** The status a job reaches when the provider presses `actions` in turn
      and the server applies each request; `None` as soon as a pressed
      button is disabled. */
  function Run(status: string, actions: seq<ProviderAction>): Option<string>
    decreases |actions|
  {
    if actions == [] then Some(status)
    else if status != RequiredStatus(actions[0]) then None
    else Run(TargetStatus(actions[0]), actions[1..])
  }

  /** From a lifecycle position, every run the buttons allow moves one
      position per press, never past COMPLETED. */
  lemma {:induction false} RunFollowsLifecycle(i: nat, actions: seq<ProviderAction>)
    requires i < |Lifecycle|
    requires Run(Lifecycle[i], actions).Some?
    ensures i + |actions| < |Lifecycle|
    ensures Run(Lifecycle[i], actions) == Some(Lifecycle[i + |actions|])
    ensures actions != [] ==> 1 <= i
    decreases |actions|
  {
    if actions != [] {
      var a := actions[0];
      assert Lifecycle[i] == RequiredStatus(a);
      var j := if a == Start then 2 else 3;
      assert Lifecycle[j] == TargetStatus(a);
      assert i + 1 == j;
      RunFollowsLifecycle(j, actions[1..]);
    }
  }

  /** The provider starting from an ASSIGNED job can press at most two
      buttons, and every state it reaches is ASSIGNED, IN_PROGRESS or COMPLETED. */
  lemma ProviderPathFromAssigned(actions: seq<ProviderAction>)
    requires Run(Assigned, actions).Some?
    ensures |actions| <= 2
    ensures Run(Assigned, actions).value in {Assigned, InProgress, Completed}
  {
    RunFollowsLifecycle(1, actions);
  }

  /** `"Job started successfully."` for a start, otherwise the completion text. */
  function SuccessMessage(status: string): string {
    if status == InProgress then "Job started successfully." else "Job marked as completed."
  }

  /** The request an update sends: `{ bookingId, status }`. */
  datatype StatusRequest = StatusRequest(bookingId: string, status: string)

  function AssignedCount(jobs: seq<Booking>): nat {
    CountWithStatus(jobs, {Assigned})
  }

  function InProgressCount(jobs: seq<Booking>): nat {
    CountWithStatus(jobs, {InProgress})
  }

  /** The two summary cards count disjoint sets of jobs. */
  lemma SummaryCountsBounded(jobs: seq<Booking>)
    ensures AssignedCount(jobs) + InProgressCount(jobs) <= |jobs|
    ensures AssignedCount(jobs) + InProgressCount(jobs) == CountWithStatus(jobs, {Assigned, InProgress})
  {
    CountDisjointUnion(jobs, {Assigned}, {InProgress});
  }

  class Dashboard {
    var jobs: seq<Booking>
    var error: string
    var loadingId: Option<string>
    var success: string

    constructor ()
      ensures jobs == [] && error == "" && loadingId == None && success == ""
    {
      jobs, error, loadingId, success := [], "", None, "";
    }

    /** `loadJobs`: the job list on success, the error message otherwise. */
    method LoadJobs(res: Response<seq<Booking>>)
      modifies this
      ensures res.Success? ==> jobs == res.value && error == old(error)
      ensures res.Failure? ==> jobs == old(jobs) && error == res.message
      ensures loadingId == old(loadingId) && success == old(success)
    {
      match res {
        case Success(js) => jobs := js;
        case Failure(m) => error := m;
      }
    }

    /** The first half of `updateStatus`, up to the awaited request: the job
        is marked in flight, which disables both of its buttons. */
    method BeginUpdateStatus(bookingId: string, status: string) returns (request: StatusRequest)
      modifies this
      ensures request == StatusRequest(bookingId, status)
      ensures loadingId == Some(bookingId)
      ensures jobs == old(jobs) && error == old(error) && success == old(success)
    {
      loadingId := Some(bookingId);
      request := StatusRequest(bookingId, status);
    }

    /** The second half of `updateStatus`, once the request has ended. On
        success the message depends on the requested status and the error
        is cleared; on failure only the error changes; the busy flag is
        cleared either way. */
    method FinishUpdateStatus(request: StatusRequest, outcome: Outcome)
      modifies this
      ensures loadingId == None
      ensures jobs == old(jobs)
      ensures outcome.Done? ==> error == "" && success == SuccessMessage(request.status)
      ensures outcome.Done? ==> (success == "Job started successfully." <==> request.status == InProgress)
      ensures outcome.Failed? ==> error == outcome.message && success == old(success)
    {
      match outcome {
        case Done =>
          success := SuccessMessage(request.status);
          error := "";
        case Failed(m) =>
          error := m;
      }
      loadingId := None;
    }
  }
}
