/**
The durable upload queue (backend/jobs/persistent_upload_jobs.py): one job per uploaded
document version. `create_job` creates the document row and the job row in one transaction,
so a job is named here by the id of its document.
*/
module UploadJobs {
  import opened Wrappers
  import opened Registry

  datatype JobStatus = JobPending | JobRunning | JobCompleted | JobFailed

  datatype Job = Job(status: JobStatus, attempts: nat)

  const NEW_JOB := Job(JobPending, 0)

  predicate Claimable(job: Job) {
    job.status in {JobPending, JobRunning}
  }

  predicate Terminal(job: Job) {
    job.status in {JobCompleted, JobFailed}
  }

  lemma ClaimableOrTerminal(job: Job)
    ensures Claimable(job) <==> !Terminal(job)
  {
    match job.status {
      case JobPending =>
      case JobRunning =>
      case JobCompleted =>
      case JobFailed =>
    }
  }

  function Claimed(job: Job): Job {
    Job(JobRunning, job.attempts + 1)
  }

  /** UPLOAD_MAX_ATTEMPTS is never taken to be below one. */
  function AttemptLimit(configured: int): nat {
    if configured < 1 then 1 else configured
  }

  /** The document states in which only completion bookkeeping is left to do. */
  const PUBLISHED_STATUSES := {Active, Retiring, SoftDeleting, SoftDeleted}

  predicate Exhausted(job: Job, seen: Option<Status>, permanent: bool, configured: int) {
    && (permanent || job.attempts >= AttemptLimit(configured))
    && !(seen.Some? && seen.value in PUBLISHED_STATUSES)
  }

  function Retried(job: Job, seen: Option<Status>, permanent: bool, configured: int): Job {
    job.(status := if Exhausted(job, seen, permanent, configured) then JobFailed else JobPending)
  }

  /** A retry, in numbers: when a job fails for good. */
  lemma RetryOutcome(job: Job, seen: Option<Status>, permanent: bool, configured: int)
    ensures Retried(job, seen, permanent, configured).attempts == job.attempts
    ensures Retried(job, seen, permanent, configured).status ==
            if (permanent || (job.attempts >= configured && job.attempts >= 1))
               && (seen.None? || seen.value !in {Active, Retiring, SoftDeleting, SoftDeleted})
            then JobFailed else JobPending
  {
  }

  class UploadJobManager {
    const registry: DocumentRegistry
    const maxAttempts: int
    var jobs: map<DocumentId, Job>

    constructor (registry: DocumentRegistry, maxAttempts: int)
      ensures this.registry == registry && this.maxAttempts == maxAttempts && jobs == map[]
    {
      this.registry, this.maxAttempts, this.jobs := registry, maxAttempts, map[];
    }

    method CreateJob(id: DocumentId, filename: string) returns (r: Result<Job, RegistryError>)
      modifies this`jobs, registry
      ensures r.Ok? <==> id !in old(registry.documents)
      ensures r.Ok? ==> registry.Value() == Reserve(old(registry.Value()), id, filename)
      ensures r.Ok? ==> r.value == NEW_JOB && jobs == old(jobs)[id := NEW_JOB]
      ensures r.Err? ==> jobs == old(jobs) && registry.Value() == old(registry.Value())
    {
      var version := registry.ReserveUpload(id, filename);
      if version.Err? {
        return Err(version.error);
      }
      jobs := jobs[id := NEW_JOB];
      r := Ok(NEW_JOB);
    }

    method Claim(id: DocumentId) returns (r: Option<Job>)
      modifies this`jobs
      ensures r.Some? <==> id in old(jobs) && Claimable(old(jobs)[id])
      ensures r.Some? ==> r.value == Claimed(old(jobs)[id]) && jobs == old(jobs)[id := r.value]
      ensures r.None? ==> jobs == old(jobs)
    {
      if id !in jobs || jobs[id].status !in {JobPending, JobRunning} {
        return None;
      }
      var row := jobs[id];
      row := row.(status := JobRunning, attempts := row.attempts + 1);
      jobs := jobs[id := row];
      r := Some(row);
    }

    /** Failure bookkeeping; a document that is still staging is failed with its exhausted job. */
    method RetryJob(id: DocumentId, permanent: bool)
      modifies this`jobs, registry
      ensures id !in old(jobs) ==> jobs == old(jobs) && registry.Value() == old(registry.Value())
      ensures id in old(jobs) ==>
                var seen := if id in old(registry.documents) then Some(old(registry.documents)[id].status) else None;
                && jobs == old(jobs)[id := Retried(old(jobs)[id], seen, permanent, maxAttempts)]
                && registry.Value() ==
                   if Exhausted(old(jobs)[id], seen, permanent, maxAttempts) && seen == Some(Staging)
                   then SetStatus(old(registry.Value()), id, Failed)
                   else old(registry.Value())
      // the same for an ordinary error of a staging upload, in numbers
      ensures id in old(jobs) && id in old(registry.documents) && old(registry.documents)[id].status == Staging && !permanent ==>
                if old(jobs)[id].attempts >= maxAttempts && old(jobs)[id].attempts >= 1
                then jobs[id].status == JobFailed && registry.documents[id].status == Failed
                else jobs[id].status == JobPending && registry.documents[id].status == Staging
    {
      if id !in jobs {
        return;
      }
      var row := jobs[id];
      var exhausted := permanent || row.attempts >= AttemptLimit(maxAttempts);
      if id in registry.documents && registry.documents[id].status in PUBLISHED_STATUSES {
        exhausted := false;  // publication already committed
      }
      jobs := jobs[id := row.(status := if exhausted then JobFailed else JobPending)];
      if exhausted && id in registry.documents && registry.documents[id].status == Staging {
        var _ := registry.ChangeStatus(id, Failed);
      }
    }

    method CompleteJob(id: DocumentId)
      modifies this`jobs
      ensures jobs == if id in old(jobs) then old(jobs)[id := old(jobs)[id].(status := JobCompleted)] else old(jobs)
    {
      if id in jobs {
        jobs := jobs[id := jobs[id].(status := JobCompleted)];
      }
    }
  }
}
