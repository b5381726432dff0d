/** The inductive invariant of the publication protocol. */
module PublicationInvariant {
  import opened Wrappers
  import opened Registry
  import opened UploadJobs
  import opened Publication
  import opened Sets

  /** Live chunks are exactly those of the manifest, in both stores. */
  predicate Complete(st: Storage) {
    && st.manifest.Some?
    && Live(st.vectors) == st.manifest.value.leaves
    && Live(st.parents) == st.manifest.value.parents
  }

  /** No store ever holds a chunk that is not in the manifest. */
  predicate Contained(st: Storage) {
    match st.manifest
    case None => st.vectors == NO_ROWS && st.parents == NO_ROWS
    case Some(m) => st.vectors.Keys <= m.leaves && st.parents.Keys <= m.parents
  }

  predicate Building(w: Worker) {
    !(w.Idle? || w.ReadingStatus? || w.Cleaning? || w.Raised? || w.Retrying? || w.Rereading?)
  }

  /** A manifest the ingestor goes on with. */
  predicate Good(m: Manifest) {
    m.accepted && m.leaves != {}
  }

  /** What a build has established by the time it reaches each of its steps. */
  predicate Progress(st: Storage, row: Document, w: Worker) {
    match w
    case WritingParents(m) => st.manifest == Some(m) && Good(m)
    case CountingParents(m) => st.manifest == Some(m) && Good(m) && Live(st.parents) == m.parents
    case WritingVectors(m, written) =>
      st.manifest == Some(m) && Good(m) && Live(st.parents) == m.parents && written <= Live(st.vectors)
    case CheckingParents(m) => st.manifest == Some(m) && Good(m) && Complete(st)
    case CheckingLeaves(m) => st.manifest == Some(m) && Good(m) && Complete(st)
    case RecordingCounts(m) => st.manifest == Some(m) && Good(m) && Complete(st)
    case Publishing => Complete(st) && row.leafChunkCount > 0
    case _ => true
  }

  predicate NothingLive(st: Storage) {
    Live(st.vectors) == {} && Live(st.parents) == {}
  }

  /** What a lifecycle operation knows of its document at each of its steps. */
  predicate Held(x: State, row: Document) {
    var st := x.storage;
    match x.lifecycle
    case Unlocked => true
    case DeleteBegun(_) => true
    case DeletingVectors(_) => row.status == SoftDeleting
    case DeletingParents(_) => row.status == SoftDeleting && Live(st.vectors) == {}
    case CountingRemaining(_) => row.status == SoftDeleting && NothingLive(st)
    case FinishingDelete(_) => row.status == SoftDeleting && NothingLive(st)
    case ReportingDelete(_) => row.status == SoftDeleted && NothingLive(st)
    case DeleteRaised(_) => row.status in {SoftDeleting, SoftDeleted}
    case RestoringVectors(leaves, parents) => leaves == row.leafChunkCount && parents == row.parentChunkCount
    case RestoringParents(leaves, parents) => leaves == row.leafChunkCount && parents == row.parentChunkCount
    case CountingLeaves(leaves, parents) => leaves == row.leafChunkCount && parents == row.parentChunkCount
    case CountingRestored(parents) =>
      && row.leafChunkCount > 0 && parents == row.parentChunkCount
      && st.manifest.Some? && Live(st.vectors) == st.manifest.value.leaves
    case Restaging => Complete(st) && row.leafChunkCount > 0
    case Republishing => Complete(st) && row.leafChunkCount > 0 && row.status == Staging
    case ReportingRestore => true
    case RestoreRaised => true
    case PurgeBegun => row.status == SoftDeleted
    case PurgingVectors => row.status == Purging
    case PurgingParents => row.status == Purging
    case CountingPurged => row.status == Purging && st.parents == NO_ROWS
    case FinishingPurge => row.status == Purging && st.parents == NO_ROWS && st.vectors == NO_ROWS
    case ReportingPurge => row.status == Purged && st.parents == NO_ROWS && st.vectors == NO_ROWS
    case PurgeRaised => row.status in {Purging, Purged}
  }

  predicate Restoring(l: Lifecycle) {
    l.RestoringVectors? || l.RestoringParents? || l.CountingLeaves? || l.CountingRestored? || l.Restaging?
    || l.Republishing? || l.ReportingRestore? || l.RestoreRaised?
  }

  /** Head and row of a document, its stores and its actors agree. */
  predicate RowOk(head: Head, id: DocumentId, row: Document, x: State) {
    && 1 <= row.version <= head.versionCounter
    && row.status != Ingesting
    && (row.status == Active <==> head.current == Some(id))
    && (row.status == Active ==> Complete(x.storage) && row.leafChunkCount > 0 && row.version <= head.publishedVersion && x.history.everActive)
    && Contained(x.storage)
    && (row.leafChunkCount > 0 ==>
          && x.storage.manifest.Some? && Good(x.storage.manifest.value)
          && row.leafChunkCount == |x.storage.manifest.value.leaves|
          && row.parentChunkCount == |x.storage.manifest.value.parents|)
  }

  predicate ActorsOk(row: Document, x: State) {
    && (Building(x.worker) ==> row.status == Staging && !x.history.everActive)
    && Progress(x.storage, row, x.worker)
    && (x.worker.Cleaning? ==> row.status != Staging)
    && (x.worker.Retrying? && row.status == Active ==> x.worker.seen == Active)
    && Held(x, row)
    && (Restoring(x.lifecycle) && x.lifecycle != ReportingRestore && x.lifecycle != RestoreRaised ==>
          row.status != Active)
    && (Restoring(x.lifecycle) ==> x.history.restored)
    && (!x.lifecycle.Unlocked? ==> x.history.restored || row.status != Staging)
  }

  predicate HistoryOk(row: Document, x: State) {
    && (x.history.restored ==> Terminal(x.job) && x.worker.Idle?)
    && (!x.history.restored && (x.history.everActive || x.history.settled) ==> row.status != Staging)
    && (!x.history.restored && !x.history.settled ==>
          row.status in {Staging, Failed} && !x.history.everActive && x.lifecycle.Unlocked?)
  }

  predicate JobOk(row: Document, x: State, maxAttempts: int) {
    && (x.worker.Idle? || x.worker.Rereading? || x.worker.MarkingFailed? || x.job.status == JobRunning)
    && (x.job.status == JobCompleted ==> x.worker.Idle? && (x.history.restored || row.status != Staging))
    && (x.job.status == JobFailed && !x.history.restored ==> row.status != Active)
    && (!x.history.settled ==>
          && x.job.attempts <= AttemptLimit(maxAttempts) + x.history.crashes
          && (Claimable(x.job) && (x.worker.Idle? || x.worker.Rereading? || x.worker.MarkingFailed?) ==>
                x.job.attempts < AttemptLimit(maxAttempts) + x.history.crashes)
          && (x.worker.Cleaning? ==> false)
          && (x.worker.Retrying? ==> x.worker.seen !in PUBLISHED_STATUSES))
  }

  predicate DocOk(head: Head, id: DocumentId, row: Document, x: State, maxAttempts: int) {
    RowOk(head, id, row, x) && ActorsOk(row, x) && HistoryOk(row, x) && JobOk(row, x, maxAttempts)
  }

  predicate HeadsOk(t: Tables) {
    forall f :: f in t.heads && t.heads[f].current.Some? ==>
      t.heads[f].current.value in t.documents && t.documents[t.heads[f].current.value].filename == f
  }

  predicate VersionsUnique(t: Tables) {
    forall d, e :: d in t.documents && e in t.documents && d != e
                   && t.documents[d].filename == t.documents[e].filename ==>
      t.documents[d].version != t.documents[e].version
  }

  predicate CountersOk(t: Tables) {
    forall f :: f in t.heads ==> t.heads[f].publishedVersion <= t.heads[f].versionCounter
  }

  predicate TablesOk(t: Tables) {
    HeadsOk(t) && VersionsUnique(t) && CountersOk(t)
  }

  predicate DocInv(s: System, d: DocumentId)
    requires Known(s, d)
  {
    && Row(s, d).filename in s.tables.heads
    && DocOk(s.tables.heads[Row(s, d).filename], d, Row(s, d), s.docs[d], s.maxAttempts)
  }

  predicate Inv(s: System) {
    && s.exclusive
    && s.docs.Keys == s.tables.documents.Keys
    && TablesOk(s.tables)
    && (forall d :: d in s.docs ==> DocInv(s, d))
  }

  // ---- framing ----

  /** A document does not notice a change of its head that neither gains nor loses it. */
  lemma HeadFrame(h: Head, h': Head, d: DocumentId, row: Document, x: State, maxAttempts: int)
    requires DocOk(h, d, row, x, maxAttempts)
    requires h.versionCounter <= h'.versionCounter && h.publishedVersion <= h'.publishedVersion
    requires h.current == Some(d) <==> h'.current == Some(d)
    ensures DocOk(h', d, row, x, maxAttempts)
  {
  }

  /** A step frames a document whose row and state it leaves alone. */
  predicate Framed(s: System, s': System, d: DocumentId)
    requires Known(s, d) && Row(s, d).filename in s.tables.heads
  {
    var f := Row(s, d).filename;
    && Known(s', d) && s'.docs[d] == s.docs[d] && Row(s', d) == Row(s, d) && s'.maxAttempts == s.maxAttempts
    && f in s'.tables.heads
    && s.tables.heads[f].versionCounter <= s'.tables.heads[f].versionCounter
    && s.tables.heads[f].publishedVersion <= s'.tables.heads[f].publishedVersion
    && (s.tables.heads[f].current == Some(d) <==> s'.tables.heads[f].current == Some(d))
  }

  lemma DocFrame(s: System, s': System, d: DocumentId)
    requires Known(s, d) && DocInv(s, d) && Framed(s, s', d)
    ensures DocInv(s', d)
  {
    var f := Row(s, d).filename;
    HeadFrame(s.tables.heads[f], s'.tables.heads[f], d, Row(s, d), s.docs[d], s.maxAttempts);
  }

  /** A step that changes one document's state only. */
  lemma LocalKeepsInv(s: System, id: DocumentId, x: State)
    requires Inv(s) && Known(s, id)
    requires DocOk(s.tables.heads[Row(s, id).filename], id, Row(s, id), x, s.maxAttempts)
    ensures Inv(Local(s, id, x))
  {
    hide DocOk;
    forall d | d in s.docs ensures DocInv(Local(s, id, x), d) {
      if d != id { DocFrame(s, Local(s, id, x), d); }
    }
  }

  // ---- worker steps ----

  /** The stores only grow inside the manifest, and what was live stays live. */
  lemma WritesAreContained(x: State, row: Document, a: Action, maxAttempts: int)
    requires WorkerLocal(a) && WorkerEnabled(x, a)
    requires Contained(x.storage) && Progress(x.storage, row, x.worker)
    ensures var x' := WorkerNext(x, row, a, maxAttempts);
            Contained(x'.storage) && Progress(x'.storage, row, x'.worker)
  {
    var x' := WorkerNext(x, row, a, maxAttempts);
    match a {
      case UpsertParents(_) => assert Live(x'.storage.parents) == x.worker.m.parents;
      case WriteBatch(_, batch) => assert Live(x.storage.vectors) <= Live(x'.storage.vectors);
      case EndVectors(_) => assert Live(x.storage.vectors) <= x.storage.vectors.Keys;
      case _ =>
    }
  }

  lemma WorkerKeepsRow(head: Head, row: Document, x: State, a: Action, maxAttempts: int)
    requires WorkerLocal(a) && WorkerEnabled(x, a) && DocOk(head, a.id, row, x, maxAttempts)
    ensures RowOk(head, a.id, row, WorkerNext(x, row, a, maxAttempts))
  {
    WritesAreContained(x, row, a, maxAttempts);
  }

  lemma WorkerKeepsActors(row: Document, x: State, a: Action, maxAttempts: int)
    requires WorkerLocal(a) && WorkerEnabled(x, a)
    requires Contained(x.storage) && ActorsOk(row, x) && HistoryOk(row, x)
    ensures ActorsOk(row, WorkerNext(x, row, a, maxAttempts))
  {
    WritesAreContained(x, row, a, maxAttempts);
  }

  lemma WorkerKeepsJob(row: Document, x: State, a: Action, maxAttempts: int)
    requires WorkerLocal(a) && WorkerEnabled(x, a)
    requires ActorsOk(row, x) && HistoryOk(row, x) && JobOk(row, x, maxAttempts)
    ensures HistoryOk(row, WorkerNext(x, row, a, maxAttempts))
    ensures JobOk(row, WorkerNext(x, row, a, maxAttempts), maxAttempts)
  {
  }

  lemma WorkerKeepsDoc(head: Head, row: Document, x: State, a: Action, maxAttempts: int)
    requires WorkerLocal(a) && WorkerEnabled(x, a) && DocOk(head, a.id, row, x, maxAttempts)
    ensures DocOk(head, a.id, row, WorkerNext(x, row, a, maxAttempts), maxAttempts)
  {
    WorkerKeepsRow(head, row, x, a, maxAttempts);
    WorkerKeepsActors(row, x, a, maxAttempts);
    WorkerKeepsJob(row, x, a, maxAttempts);
  }

  lemma WorkerKeepsInv(s: System, a: Action)
    requires Inv(s) && Enabled(s, a) && WorkerLocal(a)
    ensures Inv(Apply(s, a))
  {
    var x, row := s.docs[a.id], Row(s, a.id);
    assert DocInv(s, a.id);
    WorkerKeepsDoc(s.tables.heads[row.filename], row, x, a, s.maxAttempts);
    LocalKeepsInv(s, a.id, WorkerNext(x, row, a, s.maxAttempts));
  }

  // ---- lifecycle steps ----

  /** A verified count is a verified set, because the rows never leave the manifest. */
  lemma CountsDecide(head: Head, row: Document, x: State, id: DocumentId)
    requires RowOk(head, id, row, x) && Held(x, row)
    requires StatusOfStep(x.lifecycle).None? && !x.lifecycle.Republishing?
    ensures Held(AfterProceed(x), row)
  {
    if x.storage.manifest.Some? {
      var m := x.storage.manifest.value;
      match x.lifecycle {
        case CountingLeaves(leaves, _) =>
          if leaves > 0 && |Live(x.storage.vectors)| == leaves { SubsetOfSameSize(Live(x.storage.vectors), m.leaves); }
        case CountingRestored(parents) =>
          if |Live(x.storage.parents)| == parents { SubsetOfSameSize(Live(x.storage.parents), m.parents); }
        case _ =>
      }
    }
  }

  lemma LifecycleKeepsRow(head: Head, row: Document, x: State, a: Action, maxAttempts: int)
    requires LifecycleLocal(x, a) && LifecycleEnabled(x, row, a) && DocOk(head, a.id, row, x, maxAttempts)
    requires a.BeginRestore? ==> Quiet(x)
    ensures RowOk(head, a.id, row, LifecycleNext(x, row, a))
  {
  }

  lemma LifecycleKeepsHeld(head: Head, row: Document, x: State, a: Action, maxAttempts: int)
    requires LifecycleLocal(x, a) && LifecycleEnabled(x, row, a) && DocOk(head, a.id, row, x, maxAttempts)
    requires a.BeginRestore? ==> Quiet(x)
    ensures Held(LifecycleNext(x, row, a), row)
  {
    if a.Proceed? { CountsDecide(head, row, x, a.id); }
  }

  /** A step that leaves the worker alone keeps what the worker knows. */
  lemma LifecycleKeepsWorker(head: Head, row: Document, x: State, a: Action, maxAttempts: int)
    requires LifecycleLocal(x, a) && LifecycleEnabled(x, row, a) && DocOk(head, a.id, row, x, maxAttempts)
    requires a.BeginRestore? ==> Quiet(x)
    ensures LifecycleNext(x, row, a).worker == x.worker
    ensures Building(x.worker) ==> LifecycleNext(x, row, a) == x
  {
  }

  lemma NothingBuilt(st: Storage, row: Document, w: Worker)
    requires !Building(w)
    ensures Progress(st, row, w)
  {
  }

  lemma LifecycleKeepsActors(head: Head, row: Document, x: State, a: Action, maxAttempts: int)
    requires LifecycleLocal(x, a) && LifecycleEnabled(x, row, a) && DocOk(head, a.id, row, x, maxAttempts)
    requires a.BeginRestore? ==> Quiet(x)
    requires Held(LifecycleNext(x, row, a), row)
    ensures ActorsOk(row, LifecycleNext(x, row, a))
  {
    LifecycleKeepsWorker(head, row, x, a, maxAttempts);
    if !Building(x.worker) { NothingBuilt(LifecycleNext(x, row, a).storage, row, x.worker); }
    hide Progress, Building, RowOk, JobOk, Flag, Live, Complete;
  }

  lemma LifecycleKeepsDoc(head: Head, row: Document, x: State, a: Action, maxAttempts: int)
    requires LifecycleLocal(x, a) && LifecycleEnabled(x, row, a) && DocOk(head, a.id, row, x, maxAttempts)
    requires a.BeginRestore? ==> Quiet(x)
    ensures DocOk(head, a.id, row, LifecycleNext(x, row, a), maxAttempts)
  {
    LifecycleKeepsRow(head, row, x, a, maxAttempts);
    LifecycleKeepsHeld(head, row, x, a, maxAttempts);
    LifecycleKeepsActors(head, row, x, a, maxAttempts);
  }

  lemma LifecycleKeepsInv(s: System, a: Action)
    requires Inv(s) && Enabled(s, a) && !a.CreateJob? && !WorkerLocal(a) && LifecycleLocal(s.docs[a.id], a)
    ensures Inv(Apply(s, a))
  {
    var x, row := s.docs[a.id], Row(s, a.id);
    assert DocInv(s, a.id);
    LifecycleKeepsDoc(s.tables.heads[row.filename], row, x, a, s.maxAttempts);
    LocalKeepsInv(s, a.id, LifecycleNext(x, row, a));
  }

  // ---- steps that commit a status ----

  function Detached(head: Head, id: DocumentId): Head {
    if head.current == Some(id) then head.(current := None) else head
  }

  lemma SetStatusKeepsTables(t: Tables, id: DocumentId, status: Status)
    requires TablesOk(t) && id in t.documents && status != Active && t.documents[id].filename in t.heads
    ensures TablesOk(SetStatus(t, id, status))
    ensures var f := t.documents[id].filename;
            SetStatus(t, id, status).heads == t.heads[f := Detached(t.heads[f], id)]
  {
  }

  lemma StatusKeepsInv(s: System, id: DocumentId, status: Status, x: State)
    requires Inv(s) && Known(s, id) && status != Active
    requires DocOk(Detached(s.tables.heads[Row(s, id).filename], id), id, Row(s, id).(status := status), x, s.maxAttempts)
    ensures Inv(Local(s, id, x).(tables := SetStatus(s.tables, id, status)))
  {
    hide DocOk;
    var s' := Local(s, id, x).(tables := SetStatus(s.tables, id, status));
    SetStatusKeepsTables(s.tables, id, status);
    forall d | d in s'.docs ensures DocInv(s', d) {
      if d != id { DocFrame(s, s', d); }
    }
  }

  lemma CommitKeepsRow(head: Head, row: Document, x: State, a: Action, maxAttempts: int)
    requires Commits(x, a) && CommitEnabled(x, a) && DocOk(head, a.id, row, x, maxAttempts)
    ensures RowOk(Detached(head, a.id), a.id, row.(status := CommittedStatus(x, a)), CommitNext(x, a))
  {
  }

  lemma CommitKeepsActors(head: Head, row: Document, x: State, a: Action, maxAttempts: int)
    requires Commits(x, a) && CommitEnabled(x, a) && DocOk(head, a.id, row, x, maxAttempts)
    ensures ActorsOk(row.(status := CommittedStatus(x, a)), CommitNext(x, a))
  {
    if !Building(x.worker) { NothingBuilt(x.storage, row.(status := CommittedStatus(x, a)), x.worker); }
    hide RowOk, JobOk, Flag, Live, Complete, Contained;
  }

  lemma CommitKeepsJob(head: Head, row: Document, x: State, a: Action, maxAttempts: int)
    requires Commits(x, a) && CommitEnabled(x, a) && DocOk(head, a.id, row, x, maxAttempts)
    ensures HistoryOk(row.(status := CommittedStatus(x, a)), CommitNext(x, a))
    ensures JobOk(row.(status := CommittedStatus(x, a)), CommitNext(x, a), maxAttempts)
  {
  }

  lemma CommitKeepsInv(s: System, a: Action)
    requires Inv(s) && Enabled(s, a) && !a.CreateJob? && !WorkerLocal(a)
    requires !LifecycleLocal(s.docs[a.id], a) && Commits(s.docs[a.id], a)
    ensures Inv(Apply(s, a))
  {
    var x, row := s.docs[a.id], Row(s, a.id);
    var head := s.tables.heads[row.filename];
    assert DocInv(s, a.id);
    CommitKeepsRow(head, row, x, a, s.maxAttempts);
    CommitKeepsActors(head, row, x, a, s.maxAttempts);
    CommitKeepsJob(head, row, x, a, s.maxAttempts);
    StatusKeepsInv(s, a.id, CommittedStatus(x, a), CommitNext(x, a));
  }

  // ---- recording the counts, publishing, creating ----

  lemma RecordedDoc(head: Head, row: Document, x: State, id: DocumentId, maxAttempts: int)
    requires DocOk(head, id, row, x, maxAttempts) && x.worker.RecordingCounts?
    ensures var m := x.worker.m;
            DocOk(head, id, Document(row.filename, row.version, Staging, |m.leaves|, |m.parents|),
                  Enter(x, Publishing), maxAttempts)
  {
    var row' := Document(row.filename, row.version, Staging, |x.worker.m.leaves|, |x.worker.m.parents|);
    assert RowOk(head, id, row', Enter(x, Publishing));
    assert HistoryOk(row', Enter(x, Publishing)) && x.lifecycle.Unlocked?;
    assert ActorsOk(row', Enter(x, Publishing));
  }

  /** A state in which one document is replaced: its row, and its stores and actors. */
  function With(s: System, id: DocumentId, row: Document, x: State): System {
    s.(tables := s.tables.(documents := s.tables.documents[id := row]), docs := s.docs[id := x])
  }

  /** Replacing a row under its name and version keeps heads, versions and counters in order. */
  lemma WithKeepsTables(s: System, id: DocumentId, row: Document, x: State)
    requires TablesOk(s.tables) && Known(s, id)
    requires row.filename == Row(s, id).filename && row.version == Row(s, id).version
    ensures TablesOk(With(s, id, row, x).tables)
  {
  }

  lemma WithKeepsInv(s: System, id: DocumentId, row: Document, x: State)
    requires Inv(s) && Known(s, id)
    requires row.filename == Row(s, id).filename && row.version == Row(s, id).version
    requires DocOk(s.tables.heads[row.filename], id, row, x, s.maxAttempts)
    ensures Inv(With(s, id, row, x))
  {
    hide DocOk, TablesOk;
    var s' := With(s, id, row, x);
    WithKeepsTables(s, id, row, x);
    forall d | d in s'.docs ensures DocInv(s', d) {
      if d != id { DocFrame(s, s', d); }
    }
  }

  lemma RecordIsWith(s: System, a: Action)
    requires Enabled(s, a) && a.RecordCounts?
    ensures Known(s, a.id) && s.docs[a.id].worker.RecordingCounts?
    ensures var row, x := Row(s, a.id), s.docs[a.id];
            Apply(s, a) == With(s, a.id, Document(row.filename, row.version, Staging, |x.worker.m.leaves|, |x.worker.m.parents|),
                                Enter(x, Publishing))
  {
  }

  lemma RecordKeepsInv(s: System, a: Action)
    requires Inv(s) && Enabled(s, a) && a.RecordCounts?
    ensures Inv(Apply(s, a))
  {
    RecordIsWith(s, a);
    hide DocOk, TablesOk, Enabled, Apply, With;
    var row, x := Row(s, a.id), s.docs[a.id];
    assert DocInv(s, a.id);
    RecordedDoc(s.tables.heads[row.filename], row, x, a.id, s.maxAttempts);
    WithKeepsInv(s, a.id, Document(row.filename, row.version, Staging, |x.worker.m.leaves|, |x.worker.m.parents|),
                 Enter(x, Publishing));
  }

  /** Publishing keeps heads, versions and counters in order. */
  lemma PublishKeepsTables(t: Tables, id: DocumentId, force: bool)
    requires TablesOk(t) && id in t.documents && t.documents[id].filename in t.heads
    requires t.documents[id].version <= t.heads[t.documents[id].filename].versionCounter
    ensures TablesOk(Publish(t, id, force).tables)
  {
  }

  /** The new current document: all stores were verified before this commit. */
  lemma PublishedDoc(head: Head, head': Head, row: Document, x: State, x': State, id: DocumentId, maxAttempts: int)
    requires DocOk(head, id, row, x, maxAttempts) && row.status == Staging && Complete(x.storage)
    requires x' == x.(worker := x'.worker, lifecycle := x'.lifecycle, history := x'.history)
    requires head'.versionCounter == head.versionCounter && head'.current == Some(id)
    requires row.version <= head'.publishedVersion
    requires x'.history == x.history.(everActive := true, settled := x'.history.settled)
    requires || (x.worker.Publishing? && x'.worker.Cleaning? && x'.lifecycle == x.lifecycle && x'.history.settled)
             || (x.lifecycle.Republishing? && x'.lifecycle.ReportingRestore? && x'.worker == x.worker
                 && x'.history.settled == x.history.settled)
    ensures DocOk(head', id, row.(status := Active), x', maxAttempts)
  {
    var row' := row.(status := Active);
    assert RowOk(head', id, row', x');
    assert HistoryOk(row', x');
    assert JobOk(row', x', maxAttempts);
  }

  /** An upload that finishes after a newer version was published retires. */
  lemma SupersededDoc(head: Head, row: Document, x: State, x': State, id: DocumentId, maxAttempts: int)
    requires DocOk(head, id, row, x, maxAttempts) && x.worker.Publishing?
    requires x' == x.(worker := Cleaning, history := x.history.(settled := true))
    ensures DocOk(head, id, row.(status := Retiring), x', maxAttempts)
  {
    var row' := row.(status := Retiring);
    assert RowOk(head, id, row', x');
    assert HistoryOk(row', x') && x.lifecycle.Unlocked?;
  }

  /** The document that was current goes to retiring. */
  lemma RetiredDoc(head: Head, head': Head, row: Document, x: State, id: DocumentId, maxAttempts: int)
    requires DocOk(head, id, row, x, maxAttempts) && row.status == Active
    requires head'.versionCounter == head.versionCounter && head'.current != Some(id)
    ensures DocOk(head', id, row.(status := Retiring), x, maxAttempts)
  {
  }

  /** What a publication does to another document: its row stays, or retires if it was current. */
  lemma PublishedElsewhere(s: System, id: DocumentId, force: bool, d: DocumentId)
    requires Known(s, id) && Known(s, d) && d != id && HeadsOk(s.tables)
    requires Row(s, id).filename in s.tables.heads && Row(s, d).filename in s.tables.heads
    ensures var t, f := Publish(s.tables, id, force).tables, Row(s, d).filename;
            && d in t.documents && t.documents[d].filename == f && f in t.heads
            && t.heads[f].versionCounter == s.tables.heads[f].versionCounter
            && t.heads[f].publishedVersion >= s.tables.heads[f].publishedVersion
            && (t.heads[f].current == Some(d) ==> s.tables.heads[f].current == Some(d))
            && t.documents[d] == (if s.tables.heads[f].current == Some(d) && t.heads[f].current != Some(d)
                                  then Row(s, d).(status := Retiring) else Row(s, d))
  {
  }

  /** Every document other than the one published, after the publication. */
  lemma PublishFrame(s: System, id: DocumentId, force: bool, d: DocumentId)
    requires Inv(s) && Known(s, id) && d in s.docs && d != id
    ensures var t := Publish(s.tables, id, force).tables;
            && d in t.documents && t.documents[d].filename in t.heads
            && DocOk(t.heads[t.documents[d].filename], d, t.documents[d], s.docs[d], s.maxAttempts)
  {
    var t := Publish(s.tables, id, force).tables;
    assert DocInv(s, d) && DocInv(s, id);
    var f := Row(s, d).filename;
    assert s.tables.heads[f].current == Some(d) ==> Row(s, d).status == Active;
    PublishedElsewhere(s, id, force, d);
    hide DocOk, Publish, TablesOk;
    if s.tables.heads[f].current == Some(d) && t.heads[f].current != Some(d) {
      RetiredDoc(s.tables.heads[f], t.heads[f], Row(s, d), s.docs[d], d, s.maxAttempts);
    } else {
      HeadFrame(s.tables.heads[f], t.heads[f], d, Row(s, d), s.docs[d], s.maxAttempts);
    }
  }

  lemma PublishStepParts(s: System, id: DocumentId, force: bool, x: State)
    requires Known(s, id)
    ensures var s' := PublishStep(s, id, force, x);
            && s'.tables == Publish(s.tables, id, force).tables && s'.maxAttempts == s.maxAttempts
            && s'.exclusive == s.exclusive && s'.docs.Keys == s.docs.Keys
            && s'.tables.documents.Keys == s.tables.documents.Keys
            && forall d :: d in s.docs && d != id ==> s'.docs[d] == s.docs[d]
  {
  }

  lemma PublishKeepsInv(s: System, id: DocumentId, force: bool, x: State)
    requires Inv(s) && Known(s, id)
    requires var s' := PublishStep(s, id, force, x); Known(s', id) && DocInv(s', id)
    ensures Inv(PublishStep(s, id, force, x))
  {
    var s' := PublishStep(s, id, force, x);
    assert DocInv(s, id);
    PublishKeepsTables(s.tables, id, force);
    PublishStepParts(s, id, force, x);
    hide DocOk, Publish, TablesOk, PublishStep;
    forall d | d in s'.docs ensures DocInv(s', d) {
      if d != id { PublishFrame(s, id, force, d); }
    }
  }

  /** Publication of a staging document: it retires, or it is current. */
  lemma PublishOutcome(t: Tables, id: DocumentId, force: bool)
    requires id in t.documents && t.documents[id].status == Staging && t.documents[id].filename in t.heads
    ensures var p, row := Publish(t, id, force), t.documents[id];
            var head := t.heads[row.filename];
            if !force && row.version <= head.publishedVersion
            then !p.published && p.tables.heads == t.heads && p.tables.documents[id] == row.(status := Retiring)
            else && p.published && p.tables.documents[id] == row.(status := Active)
                 && row.filename in p.tables.heads
                 && p.tables.heads[row.filename] ==
                    Head(Some(id), head.versionCounter,
                         if head.publishedVersion < row.version then row.version else head.publishedVersion)
  {
  }

  lemma UploadPublishesDoc(s: System, id: DocumentId)
    requires Inv(s) && Known(s, id) && s.docs[id].worker.Publishing?
    ensures var s' := PublishStep(s, id, false, Enter(s.docs[id], Cleaning)); Known(s', id) && DocInv(s', id)
  {
    var x, row := s.docs[id], Row(s, id);
    assert DocInv(s, id);
    var s' := PublishStep(s, id, false, Enter(x, Cleaning));
    PublishOutcome(s.tables, id, false);
    var head, head' := s.tables.heads[row.filename], s'.tables.heads[row.filename];
    if row.version <= head.publishedVersion {
      SupersededDoc(head, row, x, s'.docs[id], id, s.maxAttempts);
    } else {
      PublishedDoc(head, head', row, x, s'.docs[id], id, s.maxAttempts);
    }
  }

  lemma RestorePublishesDoc(s: System, id: DocumentId)
    requires Inv(s) && Known(s, id) && s.docs[id].lifecycle.Republishing?
    ensures Publish(s.tables, id, true).published
    ensures var s' := PublishStep(s, id, true, s.docs[id].(lifecycle := ReportingRestore));
            Known(s', id) && DocInv(s', id)
  {
    var x, row := s.docs[id], Row(s, id);
    assert DocInv(s, id);
    var s' := PublishStep(s, id, true, x.(lifecycle := ReportingRestore));
    PublishOutcome(s.tables, id, true);
    PublishedDoc(s.tables.heads[row.filename], s'.tables.heads[row.filename], row, x, s'.docs[id], id, s.maxAttempts);
  }

  /** A new version number is larger than every version of the file. */
  lemma ReserveKeepsTables(t: Tables, id: DocumentId, filename: string)
    requires TablesOk(t) && id !in t.documents
    requires forall d :: d in t.documents && t.documents[d].filename == filename ==>
               filename in t.heads && t.documents[d].version <= t.heads[filename].versionCounter
    ensures TablesOk(Reserve(t, id, filename))
  {
  }

  lemma FreshDoc(head: Head, id: DocumentId, filename: string, maxAttempts: int)
    requires head.versionCounter >= 1 && head.current != Some(id)
    ensures DocOk(head, id, Document(filename, head.versionCounter, Staging, 0, 0), FRESH, maxAttempts)
  {
  }

  /** What a new version does to heads and rows. */
  lemma ReserveParts(s: System, a: Action)
    requires Enabled(s, a) && a.CreateJob?
    ensures var s', f := Apply(s, a), a.filename;
            var counter := (if f in s.tables.heads then s.tables.heads[f] else EMPTY_HEAD).versionCounter + 1;
            && a.id !in s.docs && a.id !in s.tables.documents
            && s' == s.(tables := s'.tables, docs := s.docs[a.id := FRESH]) && s'.tables == Reserve(s.tables, a.id, f)
            && s'.tables.documents == s.tables.documents[a.id := Document(f, counter, Staging, 0, 0)]
            && s'.tables.heads == s.tables.heads[f :=
                 (if f in s.tables.heads then s.tables.heads[f] else EMPTY_HEAD).(versionCounter := counter)]
  {
  }

  lemma VersionsAreCounted(s: System, f: string)
    requires Inv(s)
    ensures forall d :: d in s.tables.documents && Row(s, d).filename == f ==>
              f in s.tables.heads && Row(s, d).version <= s.tables.heads[f].versionCounter
  {
    forall d | d in s.tables.documents && Row(s, d).filename == f
      ensures f in s.tables.heads && Row(s, d).version <= s.tables.heads[f].versionCounter
    {
      assert DocInv(s, d);
    }
  }

  lemma KnownInInv(s: System, d: DocumentId)
    requires Inv(s) && d in s.docs
    ensures Known(s, d) && DocInv(s, d)
  {
  }

  lemma ReserveFrames(s: System, a: Action, d: DocumentId)
    requires Enabled(s, a) && a.CreateJob? && Known(s, d) && Row(s, d).filename in s.tables.heads
    ensures Framed(s, Apply(s, a), d) && Known(Apply(s, a), d) && Row(Apply(s, a), d) == Row(s, d)
  {
    hide Apply, Enabled, Reserve;
    ReserveParts(s, a);
  }

  /** A document does not notice the version counter of a file going up. */
  lemma CounterFrame(s: System, a: Action, d: DocumentId)
    requires Inv(s) && Enabled(s, a) && a.CreateJob? && d in s.docs
    ensures Known(Apply(s, a), d) && DocInv(Apply(s, a), d)
  {
    hide DocOk, Apply, Enabled, Inv, Framed;
    KnownInInv(s, d);
    ReserveFrames(s, a, d);
    DocFrame(s, Apply(s, a), d);
  }

  lemma CreatedDoc(s: System, a: Action)
    requires Inv(s) && Enabled(s, a) && a.CreateJob?
    ensures Known(Apply(s, a), a.id) && DocInv(Apply(s, a), a.id)
  {
    ReserveParts(s, a);
    assert a.id !in s.tables.documents;
    hide DocOk, VersionsUnique, CountersOk, Apply, Enabled, Reserve;
    FreshDoc(Apply(s, a).tables.heads[a.filename], a.id, a.filename, s.maxAttempts);
  }

  lemma CreatedKeys(s: System, a: Action)
    requires Enabled(s, a) && a.CreateJob? && s.docs.Keys == s.tables.documents.Keys
    ensures var s' := Apply(s, a);
            && s'.tables == Reserve(s.tables, a.id, a.filename) && s'.exclusive == s.exclusive
            && a.id !in s.tables.documents
            && s'.docs.Keys == s.docs.Keys + {a.id} && s'.docs.Keys == s'.tables.documents.Keys
  {
    ReserveParts(s, a);
    hide Apply, Enabled, Reserve;
  }

  lemma CreateKeepsInv(s: System, a: Action)
    requires Inv(s) && Enabled(s, a) && a.CreateJob?
    ensures Inv(Apply(s, a))
  {
    CreatedKeys(s, a);
    VersionsAreCounted(s, a.filename);
    hide DocOk, TablesOk, DocInv, Apply, Enabled, Reserve, Known;
    var s' := Apply(s, a);
    ReserveKeepsTables(s.tables, a.id, a.filename);
    CreatedDoc(s, a);
    forall d | d in s'.docs ensures Known(s', d) && DocInv(s', d) {
      if d != a.id { CounterFrame(s, a, d); }
    }
  }

  /** Every commit, failure and crash keeps the invariant. */
  lemma StepKeepsInv(s: System, a: Action)
    requires Inv(s) && Enabled(s, a)
    ensures Inv(Apply(s, a))
  {
    if a.CreateJob? { CreateKeepsInv(s, a); }
    else if WorkerLocal(a) { WorkerKeepsInv(s, a); }
    else if LifecycleLocal(s.docs[a.id], a) { LifecycleKeepsInv(s, a); }
    else if Commits(s.docs[a.id], a) { CommitKeepsInv(s, a); }
    else if a.RecordCounts? { RecordKeepsInv(s, a); }
    else if a.PublishUpload? {
      UploadPublishesDoc(s, a.id);
      PublishKeepsInv(s, a.id, false, Enter(s.docs[a.id], Cleaning));
    } else {
      RestorePublishesDoc(s, a.id);
      PublishKeepsInv(s, a.id, true, s.docs[a.id].(lifecycle := ReportingRestore));
    }
  }

  lemma {:induction false} RunKeepsInv(s: System, actions: seq<Action>)
    requires Inv(s) && Runs(s, actions)
    ensures Inv(After(s, actions))
    decreases |actions|
  {
    if actions != [] {
      StepKeepsInv(s, actions[0]);
      RunKeepsInv(Apply(s, actions[0]), actions[1..]);
    }
  }
}
