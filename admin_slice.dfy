/**
 * The `admin` slice of frontend/job-portal/src/features/admin/adminSlice.js.
 * `Job` and `Application` stand for whatever payloads the actions carry.
 */
module AdminSlice {

  /** The slice's state as a value. */
  datatype AdminState<Job, Application> = AdminState(jobs: seq<Job>, applications: seq<Application>)

  datatype AdminAction<Job, Application> =
    | AddJob(job: Job)
    | SetApplications(applications: seq<Application>)

  /** The slice reducer as a function of state and action: the reference for the methods below. */
  function Reduce<Job, Application>(s: AdminState<Job, Application>, a: AdminAction<Job, Application>): AdminState<Job, Application> {
    match a
    case AddJob(job) => s.(jobs := s.jobs + [job])
    case SetApplications(apps) => s.(applications := apps)
  }

  /** Dispatching `addJob` for each of `added` in turn. */
  function AddJobs<Job, Application>(s: AdminState<Job, Application>, added: seq<Job>): AdminState<Job, Application>
    decreases |added|
  {
    if added == [] then s else AddJobs(Reduce(s, AddJob(added[0])), added[1..])
  }

  /** Successive `addJob`s append their payloads in dispatch order and leave the applications alone. */
  lemma {:induction false} AddJobsAppendInOrder<Job, Application>(s: AdminState<Job, Application>, added: seq<Job>)
    ensures AddJobs(s, added).jobs == s.jobs + added
    ensures AddJobs(s, added).applications == s.applications
    decreases |added|
  {
    if added != [] {
      AddJobsAppendInOrder(Reduce(s, AddJob(added[0])), added[1..]);
      assert s.jobs + [added[0]] + added[1..] == s.jobs + added;
    }
  }

  /** `setApplications` wins over whatever came before: only the last payload counts. */
  lemma SetApplicationsOverwrites<Job, Application>(s: AdminState<Job, Application>, first: seq<Application>, second: seq<Application>)
    ensures Reduce(Reduce(s, SetApplications(first)), SetApplications(second)) == Reduce(s, SetApplications(second))
  {
  }

  /** The Immer draft of the slice. */
  class AdminSliceState<Job, Application> {
    var jobs: seq<Job>
    var applications: seq<Application>

    ghost function View(): AdminState<Job, Application>
      reads this
    {
      AdminState(jobs, applications)
    }

    constructor ()
      ensures jobs == [] && applications == []
    {
      jobs, applications := [], [];
    }

    /** `addJob`: `state.jobs.push(action.payload)`. */
    method AddJob(job: Job)
      modifies this
      ensures jobs == old(jobs) + [job]
      ensures applications == old(applications)
      ensures View() == Reduce(old(View()), AdminAction.AddJob(job))
    {
      jobs := jobs + [job];
    }

    /** `setApplications`. */
    method SetApplications(payload: seq<Application>)
      modifies this
      ensures applications == payload
      ensures jobs == old(jobs)
      ensures View() == Reduce(old(View()), AdminAction.SetApplications(payload))
    {
      applications := payload;
    }
  }
}
