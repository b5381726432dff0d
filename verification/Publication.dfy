/**
Publication as a protocol over shared tables: upload workers, the lifecycle service
(soft delete, restore, purge) and the cleanup scan interleave, and any of them may raise or
crash between two store writes. One `Action` is one commit in one store.

Rows of the parent store and of the vector store are kept per document: a chunk id renders
the document id injectively (`ChunkTreeTheorems.RenderInjective`), so no write keyed by a chunk id of
one document reaches a row of another.
*/
module Publication {
  import opened Wrappers
  import opened Registry
  import opened UploadJobs

  type ChunkId = string

  /** chunks.json: the parsed chunks, and whether the ingestor's validator accepts them. */
  datatype Manifest = Manifest(parents: set<ChunkId>, leaves: set<ChunkId>, accepted: bool)

  /** The chunk rows of one document; a row is live when `is_deleted` is false. */
  type Rows = map<ChunkId, bool>

  datatype Storage = Storage(manifest: Option<Manifest>, parents: Rows, vectors: Rows)

  function Live(rows: Rows): set<ChunkId> {
    set k | k in rows && rows[k]
  }

  /** Rows `keys` now carry the flag `live`; no row is added. */
  function Flag(rows: Rows, keys: set<ChunkId>, live: bool): Rows {
    map k | k in rows :: if k in keys then live else rows[k]
  }

  function Write(rows: Rows, keys: set<ChunkId>): Rows {
    map k | k in rows.Keys + keys :: k in keys || rows[k]
  }

  /** Where the worker holding the job's advisory lock stands in `process` or `retry_job`. */
  datatype Worker =
    | Idle
    | ReadingStatus
    | Parsing
    | WritingParents(m: Manifest)
    | CountingParents(m: Manifest)
    | WritingVectors(m: Manifest, written: set<ChunkId>)
    | CheckingParents(m: Manifest)
    | CheckingLeaves(m: Manifest)
    | RecordingCounts(m: Manifest)
    | Publishing
    | Cleaning
    | Raised(permanent: bool)
    | Retrying(permanent: bool, seen: Status)
    | Rereading(exhausted: bool)
    | MarkingFailed

  /** Where the holder of the document's lifecycle lock stands. */
  datatype Lifecycle =
    | Unlocked
    | DeleteBegun(seen: Status)
    | DeletingVectors(seen: Status)
    | DeletingParents(seen: Status)
    | CountingRemaining(seen: Status)
    | FinishingDelete(seen: Status)
    | ReportingDelete(seen: Status)
    | DeleteRaised(seen: Status)
    | RestoringVectors(leaves: nat, parents: nat)
    | RestoringParents(leaves: nat, parents: nat)
    | CountingLeaves(leaves: nat, parents: nat)
    | CountingRestored(parents: nat)
    | Restaging
    | Republishing
    | ReportingRestore
    | RestoreRaised
    | PurgeBegun
    | PurgingVectors
    | PurgingParents
    | CountingPurged
    | FinishingPurge
    | ReportingPurge
    | PurgeRaised

  /** History of a document; no step of the protocol reads `crashes` or `settled`. */
  datatype History = History(
    crashes: nat,      // claims that ended without any bookkeeping
    everActive: bool,  // the head has pointed here, so the delete endpoints may have found it
    settled: bool,     // its own upload took it out of staging
    restored: bool)    // a restore has begun

  datatype State = State(storage: Storage, job: Job, worker: Worker, lifecycle: Lifecycle, history: History)

  datatype System = System(
    maxAttempts: int,
    exclusive: bool,                   // a restore waits until the upload job is over
    tables: Tables,
    docs: map<DocumentId, State>,
    published: map<string, seq<nat>>)  // history: the versions each head has taken, in order

  const NO_ROWS: Rows := map[]
  const FRESH := State(Storage(None, NO_ROWS, NO_ROWS), NEW_JOB, Idle, Unlocked, History(0, false, false, false))

  function Init(maxAttempts: int): System {
    System(maxAttempts, true, Tables(map[], map[]), map[], map[])
  }

  datatype Action =
    | CreateJob(id: DocumentId, filename: string)
    | Claim(id: DocumentId)
    | ReadStatus(id: DocumentId)
    | LoadManifest(id: DocumentId, parsed: Option<Manifest>)
    | UpsertParents(id: DocumentId)
    | CountParents(id: DocumentId)
    | WriteBatch(id: DocumentId, batch: set<ChunkId>)
    | EndVectors(id: DocumentId)
    | CheckParents(id: DocumentId)
    | CheckLeaves(id: DocumentId)
    | RecordCounts(id: DocumentId)
    | PublishUpload(id: DocumentId)
    | CompleteJob(id: DocumentId)
    | Raise(id: DocumentId, permanent: bool)
    | ReadForRetry(id: DocumentId)
    | CommitRetry(id: DocumentId)
    | Reread(id: DocumentId)
    | MarkFailed(id: DocumentId)
    | CrashWorker(id: DocumentId)
    | BeginDelete(id: DocumentId, retiringOnly: bool)
    | BeginRestore(id: DocumentId)
    | BeginPurge(id: DocumentId)
    | Proceed(id: DocumentId)
    | Fail(id: DocumentId, touched: set<ChunkId>)
    | Undo(id: DocumentId)
    | CrashLifecycle(id: DocumentId)

  function Row(s: System, id: DocumentId): Document
    requires id in s.tables.documents
  {
    s.tables.documents[id]
  }

  predicate Known(s: System, id: DocumentId) {
    id in s.docs && id in s.tables.documents
  }

  // ---- upload workers: backend/document/ingestion.py and the queue ----

  function Enter(x: State, w: Worker): State {
    x.(worker := w)
  }

  /** The status check at the top of `process`. */
  function AfterRead(status: Status): Worker {
    if status in PUBLISHED_STATUSES then Cleaning
    else if status != Staging then Raised(true)
    else Parsing
  }

  /** A saved manifest is reused; otherwise what the loader yields is saved first. */
  function AfterLoad(x: State, parsed: Option<Manifest>): State {
    var manifest := if x.storage.manifest.Some? then x.storage.manifest else parsed;
    x.(storage := x.storage.(manifest := manifest),
       worker := if manifest.Some? && manifest.value.accepted && manifest.value.leaves != {}
                 then WritingParents(manifest.value) else Raised(true))
  }

  function AfterParents(x: State): State
    requires x.worker.WritingParents?
  {
    x.(storage := x.storage.(parents := Write(x.storage.parents, x.worker.m.parents)),
       worker := CountingParents(x.worker.m))
  }

  function AfterCount(x: State): Worker
    requires x.worker.CountingParents?
  {
    if |Live(x.storage.parents)| != |x.worker.m.parents| then Raised(false) else WritingVectors(x.worker.m, {})
  }

  function AfterBatch(x: State, batch: set<ChunkId>): State
    requires x.worker.WritingVectors?
  {
    x.(storage := x.storage.(vectors := Write(x.storage.vectors, batch)),
       worker := WritingVectors(x.worker.m, x.worker.written + batch))
  }

  function AfterRetry(x: State, maxAttempts: int): State
    requires x.worker.Retrying?
  {
    var seen := Some(x.worker.seen);
    x.(job := Retried(x.job, seen, x.worker.permanent, maxAttempts),
       worker := Rereading(Exhausted(x.job, seen, x.worker.permanent, maxAttempts)))
  }

  // ---- the lifecycle service: backend/document/document_service.py ----

  /** The store write or check of one successful lifecycle step, and where it leads. */
  function AfterProceed(x: State): State {
    var st := x.storage;
    match x.lifecycle
    case DeleteBegun(seen) => x.(lifecycle := DeletingVectors(seen))
    case DeletingVectors(seen) =>
      x.(storage := st.(vectors := Flag(st.vectors, st.vectors.Keys, false)), lifecycle := DeletingParents(seen))
    case DeletingParents(seen) =>
      x.(storage := st.(parents := Flag(st.parents, st.parents.Keys, false)), lifecycle := CountingRemaining(seen))
    case CountingRemaining(seen) =>
      x.(lifecycle := if |Live(st.vectors)| > 0 then DeleteRaised(seen) else FinishingDelete(seen))
    case FinishingDelete(seen) => x.(lifecycle := ReportingDelete(seen))
    case RestoringVectors(leaves, parents) =>
      x.(storage := st.(vectors := Flag(st.vectors, st.vectors.Keys, true)),
         lifecycle := RestoringParents(leaves, parents))
    case RestoringParents(leaves, parents) =>
      x.(storage := st.(parents := Flag(st.parents, st.parents.Keys, true)),
         lifecycle := CountingLeaves(leaves, parents))
    case CountingLeaves(leaves, parents) =>
      x.(lifecycle := if leaves <= 0 || |Live(st.vectors)| != leaves then RestoreRaised else CountingRestored(parents))
    case CountingRestored(parents) =>
      x.(lifecycle := if |Live(st.parents)| != parents then RestoreRaised else Restaging)
    case Restaging => x.(lifecycle := Republishing)
    case PurgeBegun => x.(lifecycle := PurgingVectors)
    case PurgingVectors =>
      x.(storage := st.(vectors := st.vectors - (st.vectors.Keys - Live(st.vectors))), lifecycle := PurgingParents)
    case PurgingParents => x.(storage := st.(parents := NO_ROWS), lifecycle := CountingPurged)
    case CountingPurged => x.(lifecycle := if |st.vectors| > 0 then PurgeRaised else FinishingPurge)
    case FinishingPurge => x.(lifecycle := ReportingPurge)
    case _ => x.(lifecycle := Unlocked)
  }

  /** The status committed by a lifecycle step, when it commits one. */
  function StatusOfStep(l: Lifecycle): Option<Status> {
    match l
    case DeleteBegun(_) => Some(SoftDeleting)
    case FinishingDelete(_) => Some(SoftDeleted)
    case Restaging => Some(Staging)
    case PurgeBegun => Some(Purging)
    case FinishingPurge => Some(Purged)
    case _ => None
  }

  /** A vector-store batch loop that raises part-way has touched some of the rows. */
  function AfterFailure(x: State, touched: set<ChunkId>): State {
    var st := x.storage;
    match x.lifecycle
    case DeletingVectors(seen) =>
      x.(storage := st.(vectors := Flag(st.vectors, touched, false)), lifecycle := DeleteRaised(seen))
    case DeletingParents(seen) => x.(lifecycle := DeleteRaised(seen))
    case CountingRemaining(seen) => x.(lifecycle := DeleteRaised(seen))
    case FinishingDelete(seen) => x.(lifecycle := DeleteRaised(seen))
    case ReportingDelete(seen) => x.(lifecycle := DeleteRaised(seen))
    case RestoringVectors(_, _) =>
      x.(storage := st.(vectors := Flag(st.vectors, touched, true)), lifecycle := RestoreRaised)
    case PurgingVectors =>
      x.(storage := st.(vectors := st.vectors - ((st.vectors.Keys - Live(st.vectors)) * touched)),
         lifecycle := PurgeRaised)
    case PurgingParents => x.(lifecycle := PurgeRaised)
    case CountingPurged => x.(lifecycle := PurgeRaised)
    case FinishingPurge => x.(lifecycle := PurgeRaised)
    case ReportingPurge => x.(lifecycle := PurgeRaised)
    case _ => x.(lifecycle := RestoreRaised)
  }

  predicate HasRaised(l: Lifecycle) {
    l.DeleteRaised? || l.RestoreRaised? || l.PurgeRaised?
  }

  /** Inside the `try` of a lifecycle operation. */
  predicate Guarded(l: Lifecycle) {
    !(l.Unlocked? || l.DeleteBegun? || l.PurgeBegun? || HasRaised(l))
  }

  /** The status written by the `except` branch. */
  function UndoStatus(l: Lifecycle): Status {
    match l
    case DeleteRaised(seen) => if seen in {Retiring, SoftDeleting} then Retiring else Failed
    case PurgeRaised => SoftDeleted
    case _ => Failed
  }

  /** The steps of a lifecycle operation that leave the registry alone. */
  predicate LifecycleLocal(x: State, a: Action) {
    a.BeginDelete? || a.BeginRestore? || a.BeginPurge? || a.Fail? || a.CrashLifecycle?
    || (a.Proceed? && StatusOfStep(x.lifecycle).None? && !x.lifecycle.Republishing?)
  }

  /** The upload job can no longer run, and no worker holds it. */
  predicate Quiet(x: State) {
    Terminal(x.job) && x.worker.Idle?
  }

  predicate LifecycleEnabled(x: State, row: Document, a: Action)
    requires LifecycleLocal(x, a)
  {
    match a
    case BeginDelete(_, retiringOnly) =>
      && x.lifecycle.Unlocked?
      && (if retiringOnly then row.status in {Retiring, SoftDeleting}
          else x.history.everActive && row.status !in {SoftDeleted, Purging, Purged})
    case BeginRestore(_) => x.lifecycle.Unlocked? && row.status !in {Active, Purged}
    case BeginPurge(_) => x.lifecycle.Unlocked? && row.status == SoftDeleted
    case Fail(_, _) => Guarded(x.lifecycle)
    case CrashLifecycle(_) => !x.lifecycle.Unlocked?
    case Proceed(_) => !x.lifecycle.Unlocked? && !HasRaised(x.lifecycle)
  }

  function LifecycleNext(x: State, row: Document, a: Action): State
    requires LifecycleLocal(x, a) && LifecycleEnabled(x, row, a)
  {
    match a
    case BeginDelete(_, _) => x.(lifecycle := DeleteBegun(row.status))
    case BeginRestore(_) =>
      x.(lifecycle := RestoringVectors(row.leafChunkCount, row.parentChunkCount),
         history := x.history.(restored := true))
    case BeginPurge(_) => x.(lifecycle := PurgeBegun)
    case Fail(_, touched) => AfterFailure(x, touched)
    case CrashLifecycle(_) => x.(lifecycle := Unlocked)
    case Proceed(_) => AfterProceed(x)
  }

  /** The steps that commit a status through `set_status`. */
  predicate Commits(x: State, a: Action) {
    a.MarkFailed? || a.Undo? || (a.Proceed? && StatusOfStep(x.lifecycle).Some?)
  }

  predicate CommitEnabled(x: State, a: Action)
    requires Commits(x, a)
  {
    if a.MarkFailed? then x.worker.MarkingFailed?
    else if a.Undo? then HasRaised(x.lifecycle)
    else !x.lifecycle.Unlocked? && !HasRaised(x.lifecycle)
  }

  function CommittedStatus(x: State, a: Action): Status
    requires Commits(x, a)
  {
    if a.MarkFailed? then Failed
    else if a.Undo? then UndoStatus(x.lifecycle)
    else StatusOfStep(x.lifecycle).value
  }

  function CommitNext(x: State, a: Action): State
    requires Commits(x, a)
  {
    if a.MarkFailed? then Enter(x, Idle)
    else if a.Undo? then x.(lifecycle := Unlocked)
    else AfterProceed(x)
  }

  // ---- the transition relation ----

  /** The steps of a worker that touch neither the registry nor another document. */
  predicate WorkerLocal(a: Action) {
    a.Claim? || a.ReadStatus? || a.LoadManifest? || a.UpsertParents? || a.CountParents? || a.WriteBatch?
    || a.EndVectors? || a.CheckParents? || a.CheckLeaves? || a.CompleteJob? || a.Raise? || a.ReadForRetry?
    || a.CommitRetry? || a.Reread? || a.CrashWorker?
  }

  predicate WorkerEnabled(x: State, a: Action)
    requires WorkerLocal(a)
  {
    match a
    case Claim(_) => x.worker.Idle? && Claimable(x.job)
    case ReadStatus(_) => x.worker.ReadingStatus?
    case LoadManifest(_, _) => x.worker.Parsing?
    case UpsertParents(_) => x.worker.WritingParents?
    case CountParents(_) => x.worker.CountingParents?
    case WriteBatch(_, batch) => x.worker.WritingVectors? && batch <= x.worker.m.leaves
    case EndVectors(_) => x.worker.WritingVectors? && x.worker.written == x.worker.m.leaves
    case CheckParents(_) => x.worker.CheckingParents?
    case CheckLeaves(_) => x.worker.CheckingLeaves?
    case CompleteJob(_) => x.worker.Cleaning?
    case Raise(_, _) => InTry(x.worker)
    case ReadForRetry(_) => x.worker.Raised?
    case CommitRetry(_) => x.worker.Retrying?
    case Reread(_) => x.worker.Rereading?
    case CrashWorker(_) => !x.worker.Idle?
  }

  /** Inside the `try` of `process`. */
  predicate InTry(w: Worker) {
    !(w.Idle? || w.Raised? || w.Retrying? || w.Rereading? || w.MarkingFailed?)
  }

  function WorkerNext(x: State, row: Document, a: Action, maxAttempts: int): State
    requires WorkerLocal(a) && WorkerEnabled(x, a)
  {
    match a
    case Claim(_) => x.(job := Claimed(x.job), worker := ReadingStatus)
    case ReadStatus(_) => Enter(x, AfterRead(row.status))
    case LoadManifest(_, parsed) => AfterLoad(x, parsed)
    case UpsertParents(_) => AfterParents(x)
    case CountParents(_) => Enter(x, AfterCount(x))
    case WriteBatch(_, batch) => AfterBatch(x, batch)
    case EndVectors(_) => Enter(x, CheckingParents(x.worker.m))
    case CheckParents(_) =>
      Enter(x, if Live(x.storage.parents) * x.worker.m.parents != x.worker.m.parents
               then Raised(false) else CheckingLeaves(x.worker.m))
    case CheckLeaves(_) =>
      Enter(x, if Live(x.storage.vectors) != x.worker.m.leaves
               then Raised(false) else RecordingCounts(x.worker.m))
    case CompleteJob(_) => x.(job := x.job.(status := JobCompleted), worker := Idle)
    case Raise(_, permanent) => Enter(x, Raised(permanent))
    case ReadForRetry(_) => Enter(x, Retrying(x.worker.permanent, row.status))
    case CommitRetry(_) => AfterRetry(x, maxAttempts)
    case Reread(_) => Enter(x, if x.worker.exhausted && row.status == Staging then MarkingFailed else Idle)
    case CrashWorker(_) => x.(worker := Idle, history := x.history.(crashes := x.history.crashes + 1))
  }

  predicate Enabled(s: System, a: Action) {
    if a.CreateJob? then a.id !in s.docs && a.id !in s.tables.documents
    else
      Known(s, a.id) &&
      var x, row := s.docs[a.id], Row(s, a.id);
      if WorkerLocal(a) then WorkerEnabled(x, a)
      else if LifecycleLocal(x, a) then LifecycleEnabled(x, row, a) && (a.BeginRestore? && s.exclusive ==> Quiet(x))
      else if Commits(x, a) then CommitEnabled(x, a)
      else if a.RecordCounts? then x.worker.RecordingCounts?
      else if a.PublishUpload? then x.worker.Publishing?
      else x.lifecycle.Republishing?
  }

  function Local(s: System, id: DocumentId, x: State): System {
    s.(docs := s.docs[id := x])
  }

  /** The documents' history after `id` has been made the head of its file. */
  function Log(s: System, id: DocumentId): map<string, seq<nat>>
    requires Known(s, id)
  {
    var f := Row(s, id).filename;
    s.published[f := (if f in s.published then s.published[f] else []) + [Row(s, id).version]]
  }

  /** One publication, by a worker (`force` false) or by a restore. */
  function PublishStep(s: System, id: DocumentId, force: bool, x: State): System
    requires Known(s, id)
  {
    var p := Publish(s.tables, id, force);
    var status := p.tables.documents[id].status;
    var moved := Row(s, id).status != Active && status == Active;
    s.(tables := p.tables,
       published := if moved then Log(s, id) else s.published,
       docs := s.docs[id := x.(history := x.history.(
                                 everActive := x.history.everActive || moved,
                                 settled := x.history.settled || (!force && status != Staging)))])
  }

  function Apply(s: System, a: Action): System
    requires Enabled(s, a)
  {
    if a.CreateJob? then
      s.(tables := Reserve(s.tables, a.id, a.filename), docs := s.docs[a.id := FRESH])
    else
      var id := a.id;
      var x, row := s.docs[id], Row(s, id);
      if WorkerLocal(a) then Local(s, id, WorkerNext(x, row, a, s.maxAttempts))
      else if LifecycleLocal(x, a) then Local(s, id, LifecycleNext(x, row, a))
      else if Commits(x, a) then
        Local(s, id, CommitNext(x, a)).(tables := SetStatus(s.tables, id, CommittedStatus(x, a)))
      else if a.RecordCounts? then
        Local(s, id, Enter(x, Publishing)).(
          tables := Upsert(s.tables, id, row.filename, Staging, |x.worker.m.leaves|, |x.worker.m.parents|))
      else if a.PublishUpload? then PublishStep(s, id, false, Enter(x, Cleaning))
      else
        PublishStep(s, id, true, x.(lifecycle := if Publish(s.tables, id, true).published
                                                 then ReportingRestore else RestoreRaised))
  }

  /** A run is a list of actions, each enabled where it happens. */
  ghost predicate Runs(s: System, actions: seq<Action>)
    decreases |actions|
  {
    actions == [] || (Enabled(s, actions[0]) && Runs(Apply(s, actions[0]), actions[1..]))
  }

  ghost function After(s: System, actions: seq<Action>): System
    requires Runs(s, actions)
    decreases |actions|
  {
    if actions == [] then s else After(Apply(s, actions[0]), actions[1..])
  }
}
