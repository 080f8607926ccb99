/**
 * The `jobs` slice of frontend/job-portal/src/features/jobs/jobsSlice.jsx:
 * the query parameters `fetchJobs` sends, and the reducers of the job
 * list and the job detail. The HTTP calls are outside this model; `Job`
 * stands for whatever rows the backend returns.
 */
module JobsSlice {
  import opened Wrappers

  /** The filters the listing page passes to `fetchJobs`. */
  datatype JobFilters = JobFilters(title: string, company: string, location: string)

  /** The params object of `fetchJobs`: a key for each non-empty filter, with the filter unchanged. */
  method FetchJobsParams(filters: Option<JobFilters>) returns (params: map<string, string>)
    ensures params.Keys <= {"title", "company", "location"}
    ensures "title" in params <==> filters.Some? && filters.value.title != ""
    ensures "company" in params <==> filters.Some? && filters.value.company != ""
    ensures "location" in params <==> filters.Some? && filters.value.location != ""
    ensures "title" in params ==> params["title"] == filters.value.title
    ensures "company" in params ==> params["company"] == filters.value.company
    ensures "location" in params ==> params["location"] == filters.value.location
  {
    params := map[];
    if filters.Some? && filters.value.title != "" {
      params := params["title" := filters.value.title];
    }
    if filters.Some? && filters.value.company != "" {
      params := params["company" := filters.value.company];
    }
    if filters.Some? && filters.value.location != "" {
      params := params["location" := filters.value.location];
    }
  }

  /** The slice's state as a value. */
  datatype JobsState<Job> = JobsState(
    list: seq<Job>,
    currentJob: Option<Job>,
    loadingList: bool,
    loadingDetail: bool,
    errorList: Option<string>,
    errorDetail: Option<string>)

  /** The actions the slice handles. */
  datatype JobsAction<Job> =
    | FetchJobsPending
    | FetchJobsFulfilled(jobs: seq<Job>)
    | FetchJobsRejected(listMessage: string)
    | FetchJobDetailPending
    | FetchJobDetailFulfilled(job: Job)
    | FetchJobDetailRejected(detailMessage: string)
    | ClearCurrentJob
  {
    predicate IsListAction() {
      FetchJobsPending? || FetchJobsFulfilled? || FetchJobsRejected?
    }
  }

  /** The slice reducer as a function of state and action: the reference for the methods below. */
  function Reduce<Job>(s: JobsState<Job>, a: JobsAction<Job>): JobsState<Job> {
    match a
    case FetchJobsPending => s.(loadingList := true, errorList := None)
    case FetchJobsFulfilled(jobs) => s.(loadingList := false, list := jobs)
    case FetchJobsRejected(m) => s.(loadingList := false, errorList := Some(m))
    case FetchJobDetailPending => s.(loadingDetail := true, errorDetail := None)
    case FetchJobDetailFulfilled(job) => s.(loadingDetail := false, currentJob := Some(job))
    case FetchJobDetailRejected(m) => s.(loadingDetail := false, errorDetail := Some(m))
    case ClearCurrentJob => s.(currentJob := None, errorDetail := None)
  }

  /** The fields the job list owns. */
  function ListPart<Job>(s: JobsState<Job>): (seq<Job>, bool, Option<string>) {
    (s.list, s.loadingList, s.errorList)
  }

  /** The fields the job detail owns. */
  function DetailPart<Job>(s: JobsState<Job>): (Option<Job>, bool, Option<string>) {
    (s.currentJob, s.loadingDetail, s.errorDetail)
  }

  /** List actions never touch the detail fields, and the other actions never touch the list fields. */
  lemma ListAndDetailAreIndependent<Job>(s: JobsState<Job>, a: JobsAction<Job>)
    ensures a.IsListAction() ==> DetailPart(Reduce(s, a)) == DetailPart(s)
    ensures !a.IsListAction() ==> ListPart(Reduce(s, a)) == ListPart(s)
  {
  }

  /** So a list action and a detail action give the same state in either order. */
  lemma ListAndDetailActionsCommute<Job>(s: JobsState<Job>, a: JobsAction<Job>, b: JobsAction<Job>)
    requires a.IsListAction() && !b.IsListAction()
    ensures Reduce(Reduce(s, a), b) == Reduce(Reduce(s, b), a)
  {
  }

  /** Clearing the current job twice is clearing it once. */
  lemma ClearCurrentJobIdempotent<Job>(s: JobsState<Job>)
    ensures Reduce(Reduce(s, ClearCurrentJob), ClearCurrentJob) == Reduce(s, ClearCurrentJob)
  {
  }

  /** The Immer draft of the slice: reducers assign its fields in place. */
  class JobsSliceState<Job> {
    var list: seq<Job>
    var currentJob: Option<Job>
    var loadingList: bool
    var loadingDetail: bool
    var errorList: Option<string>
    var errorDetail: Option<string>

    ghost function View(): JobsState<Job>
      reads this
    {
      JobsState(list, currentJob, loadingList, loadingDetail, errorList, errorDetail)
    }

    constructor ()
      ensures View() == JobsState([], None, false, false, None, None)
    {
      list, currentJob := [], None;
      loadingList, loadingDetail := false, false;
      errorList, errorDetail := None, None;
    }

    /** `clearCurrentJob`. */
    method ClearCurrentJob()
      modifies this
      ensures currentJob == None && errorDetail == None
      ensures list == old(list) && loadingList == old(loadingList) && errorList == old(errorList)
      ensures loadingDetail == old(loadingDetail)
      ensures View() == Reduce(old(View()), JobsAction.ClearCurrentJob)
    {
      currentJob := None;
      errorDetail := None;
    }

    /** `fetchJobs.pending`. */
    method FetchJobsPending()
      modifies this
      ensures loadingList && errorList == None && list == old(list)
      ensures currentJob == old(currentJob) && loadingDetail == old(loadingDetail) && errorDetail == old(errorDetail)
      ensures View() == Reduce(old(View()), JobsAction.FetchJobsPending)
    {
      loadingList := true;
      errorList := None;
    }

    /** `fetchJobs.fulfilled` with the fetched rows. */
    method FetchJobsFulfilled(jobs: seq<Job>)
      modifies this
      ensures !loadingList && list == jobs && errorList == old(errorList)
      ensures currentJob == old(currentJob) && loadingDetail == old(loadingDetail) && errorDetail == old(errorDetail)
      ensures View() == Reduce(old(View()), JobsAction.FetchJobsFulfilled(jobs))
    {
      loadingList := false;
      list := jobs;
    }

    /** `fetchJobs.rejected` with the thunk's rejection value. */
    method FetchJobsRejected(message: string)
      modifies this
      ensures !loadingList && errorList == Some(message) && list == old(list)
      ensures currentJob == old(currentJob) && loadingDetail == old(loadingDetail) && errorDetail == old(errorDetail)
      ensures View() == Reduce(old(View()), JobsAction.FetchJobsRejected(message))
    {
      loadingList := false;
      errorList := Some(message);
    }

    /** `fetchJobDetail.pending`. */
    method FetchJobDetailPending()
      modifies this
      ensures loadingDetail && errorDetail == None && currentJob == old(currentJob)
      ensures list == old(list) && loadingList == old(loadingList) && errorList == old(errorList)
      ensures View() == Reduce(old(View()), JobsAction.FetchJobDetailPending)
    {
      loadingDetail := true;
      errorDetail := None;
    }

    /** `fetchJobDetail.fulfilled` with the fetched job. */
    method FetchJobDetailFulfilled(job: Job)
      modifies this
      ensures !loadingDetail && currentJob == Some(job) && errorDetail == old(errorDetail)
      ensures list == old(list) && loadingList == old(loadingList) && errorList == old(errorList)
      ensures View() == Reduce(old(View()), JobsAction.FetchJobDetailFulfilled(job))
    {
      loadingDetail := false;
      currentJob := Some(job);
    }

    /** `fetchJobDetail.rejected` with the thunk's rejection value. */
    method FetchJobDetailRejected(message: string)
      modifies this
      ensures !loadingDetail && errorDetail == Some(message) && currentJob == old(currentJob)
      ensures list == old(list) && loadingList == old(loadingList) && errorList == old(errorList)
      ensures View() == Reduce(old(View()), JobsAction.FetchJobDetailRejected(message))
    {
      loadingDetail := false;
      errorDetail := Some(message);
    }
  }
}
