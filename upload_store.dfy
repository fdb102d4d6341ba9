/** The client-side job registry of store/upload.ts: a record from job id to
    job, replaced as a whole by each of four operations. */
module UploadStore {
  import opened Wrappers

  datatype Status = Uploading | Processing | Done | Error

  /** A job entry. Every field may be missing: `UploadJob` requires all but
      `error`, yet an update of an id that is not registered spreads
      `undefined` and stores an object holding only the written fields. The
      same shape is `Partial<UploadJob>`, the patch that `updateJob` takes. */
  datatype Job = Job(
    id: Option<string>,
    filename: Option<string>,
    progress: Option<int>,
    status: Option<Status>,
    error: Option<string>)

  /** An object with no fields: what spreading `undefined` contributes. */
  const Absent := Job(None, None, None, None, None)

  /** A well-formed `UploadJob`: every required field is present. */
  predicate Whole(j: Job)
  {
    j.id.Some? && j.filename.Some? && j.progress.Some? && j.status.Some?
  }

  /** The job a new upload registers: progress 0, status uploading. */
  function NewJob(id: string, filename: string): (j: Job)
    ensures Whole(j) && j.id == Some(id) && j.filename == Some(filename)
    ensures j.progress == Some(0) && j.status == Some(Uploading) && j.error == None
  {
    Job(Some(id), Some(filename), Some(0), Some(Uploading), None)
  }

  /** `{ ...base, ...patch }`: the fields present in `patch` win. */
  function Merge(base: Job, patch: Job): Job
  {
    Job(
      if patch.id.Some? then patch.id else base.id,
      if patch.filename.Some? then patch.filename else base.filename,
      if patch.progress.Some? then patch.progress else base.progress,
      if patch.status.Some? then patch.status else base.status,
      if patch.error.Some? then patch.error else base.error)
  }

  /** `s.jobs[id]`, with a missing key read as the empty object. */
  function Lookup(jobs: map<string, Job>, id: string): Job
  {
    if id in jobs then jobs[id] else Absent
  }

  /** The fields `completeJob` writes. */
  const CompletePatch := Job(None, None, Some(100), Some(Done), None)

  /** The fields `failJob(id, error)` writes. */
  function FailPatch(error: string): Job
  {
    Job(None, None, None, Some(Error), Some(error))
  }

  /** The registry after `addJob(job)`. */
  function Added(jobs: map<string, Job>, job: Job): (r: map<string, Job>)
    requires job.id.Some?
    ensures r.Keys == jobs.Keys + {job.id.value}
    ensures r[job.id.value] == job
    ensures forall k :: k in jobs && k != job.id.value ==> r[k] == jobs[k]
  {
    jobs[job.id.value := job]
  }

  /** The registry after `updateJob(id, patch)`: only the entry under `id`
      changes, and in it only the fields that `patch` holds. */
  function Patched(jobs: map<string, Job>, id: string, patch: Job): (r: map<string, Job>)
    ensures r.Keys == jobs.Keys + {id}
    ensures forall k :: k in jobs && k != id ==> r[k] == jobs[k]
    ensures patch.progress.Some? ==> r[id].progress == patch.progress
    ensures patch.progress.None? ==> r[id].progress == Lookup(jobs, id).progress
    ensures patch.status.Some? ==> r[id].status == patch.status
    ensures patch.status.None? ==> r[id].status == Lookup(jobs, id).status
    ensures patch.error.Some? ==> r[id].error == patch.error
    ensures patch.error.None? ==> r[id].error == Lookup(jobs, id).error
    ensures patch.filename.Some? ==> r[id].filename == patch.filename
    ensures patch.filename.None? ==> r[id].filename == Lookup(jobs, id).filename
    ensures patch.id.Some? ==> r[id].id == patch.id
    ensures patch.id.None? ==> r[id].id == Lookup(jobs, id).id
  {
    jobs[id := Merge(Lookup(jobs, id), patch)]
  }

  /** The registry after `completeJob(id)`. */
  function Completed(jobs: map<string, Job>, id: string): map<string, Job>
  {
    Patched(jobs, id, CompletePatch)
  }

  /** The registry after `failJob(id, error)`. */
  function Failed(jobs: map<string, Job>, id: string, error: string): map<string, Job>
  {
    Patched(jobs, id, FailPatch(error))
  }

  /** `completeJob` marks the job done at 100% and keeps its id, file name
      and error message; no other job changes and no key is lost. */
  lemma CompleteJobEffect(jobs: map<string, Job>, id: string)
    ensures Completed(jobs, id).Keys == jobs.Keys + {id}
    ensures forall k :: k in jobs && k != id ==> Completed(jobs, id)[k] == jobs[k]
    ensures Completed(jobs, id)[id].status == Some(Done)
    ensures Completed(jobs, id)[id].progress == Some(100)
    ensures Completed(jobs, id)[id].id == Lookup(jobs, id).id
    ensures Completed(jobs, id)[id].filename == Lookup(jobs, id).filename
    ensures Completed(jobs, id)[id].error == Lookup(jobs, id).error
  {
  }

  /** `failJob` marks the job failed with the message and keeps its progress,
      id and file name; no other job changes and no key is lost. */
  lemma FailJobEffect(jobs: map<string, Job>, id: string, error: string)
    ensures Failed(jobs, id, error).Keys == jobs.Keys + {id}
    ensures forall k :: k in jobs && k != id ==> Failed(jobs, id, error)[k] == jobs[k]
    ensures Failed(jobs, id, error)[id].status == Some(Error)
    ensures Failed(jobs, id, error)[id].error == Some(error)
    ensures Failed(jobs, id, error)[id].progress == Lookup(jobs, id).progress
    ensures Failed(jobs, id, error)[id].id == Lookup(jobs, id).id
    ensures Failed(jobs, id, error)[id].filename == Lookup(jobs, id).filename
  {
  }

  /** On an id that is not registered, an update stores only the patch:
      the partial entry that spreading `undefined` produces. */
  lemma PatchMissingId(jobs: map<string, Job>, id: string, patch: Job)
    requires id !in jobs
    ensures Patched(jobs, id, patch)[id] == patch
    ensures !Whole(Completed(jobs, id)[id])
  {
  }

  /** Patching a registered whole job that keeps its id leaves it whole. */
  lemma PatchKeepsWhole(jobs: map<string, Job>, id: string, patch: Job)
    requires id in jobs && Whole(jobs[id])
    ensures Whole(Patched(jobs, id, patch)[id])
  {
  }

  /** Two updates in a row are one update with the merged patch: the spread
      is associative. */
  lemma PatchTwice(jobs: map<string, Job>, id: string, p: Job, q: Job)
    ensures Patched(Patched(jobs, id, p), id, q) == Patched(jobs, id, Merge(p, q))
  {
  }

  /** Repeating an update changes nothing more. */
  lemma PatchIdempotent(jobs: map<string, Job>, id: string, patch: Job)
    ensures Patched(Patched(jobs, id, patch), id, patch) == Patched(jobs, id, patch)
  {
    PatchTwice(jobs, id, patch, patch);
    assert Merge(patch, patch) == patch;
  }

  /** The zustand store: the `jobs` record and its four operations. */
  class Store {
    var jobs: map<string, Job>

    /** Initially the store holds no jobs. */
    constructor ()
      ensures jobs == map[]
    {
      jobs := map[];
    }

    method AddJob(job: Job)
      requires job.id.Some?
      modifies this
      ensures jobs == Added(old(jobs), job)
      ensures jobs.Keys == old(jobs).Keys + {job.id.value}
      ensures jobs[job.id.value] == job
      ensures forall k :: k in old(jobs) && k != job.id.value ==> jobs[k] == old(jobs)[k]
    {
      jobs := jobs[job.id.value := job];
    }

    method UpdateJob(id: string, patch: Job)
      modifies this
      ensures jobs == Patched(old(jobs), id, patch)
      ensures jobs.Keys == old(jobs).Keys + {id}
      ensures forall k :: k in old(jobs) && k != id ==> jobs[k] == old(jobs)[k]
    {
      jobs := jobs[id := Merge(Lookup(jobs, id), patch)];
    }

    method CompleteJob(id: string)
      modifies this
      ensures jobs == Completed(old(jobs), id)
      ensures jobs.Keys == old(jobs).Keys + {id}
      ensures forall k :: k in old(jobs) && k != id ==> jobs[k] == old(jobs)[k]
      ensures jobs[id].status == Some(Done) && jobs[id].progress == Some(100)
    {
      jobs := jobs[id := Merge(Lookup(jobs, id), CompletePatch)];
    }

    method FailJob(id: string, error: string)
      modifies this
      ensures jobs == Failed(old(jobs), id, error)
      ensures jobs.Keys == old(jobs).Keys + {id}
      ensures forall k :: k in old(jobs) && k != id ==> jobs[k] == old(jobs)[k]
      ensures jobs[id].status == Some(Error) && jobs[id].error == Some(error)
      ensures jobs[id].progress == Lookup(old(jobs), id).progress
    {
      jobs := jobs[id := Merge(Lookup(jobs, id), FailPatch(error))];
    }
  }
}
