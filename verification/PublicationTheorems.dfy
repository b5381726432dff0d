/**
What every run of the publication protocol guarantees: any interleaving of uploads, partial
writes, failures, crashes, replays, deletes, restores, purges and cleanups.
*/
module PublicationTheorems {
  import opened Wrappers
  import opened Registry
  import opened UploadJobs
  import opened Publication
  import opened PublicationInvariant

  ghost predicate Reachable(s: System) {
    exists actions :: Runs(Init(s.maxAttempts), actions) && After(Init(s.maxAttempts), actions) == s
  }

  lemma ReachableInv(s: System)
    requires Reachable(s)
    ensures Inv(s)
  {
    var actions :| Runs(Init(s.maxAttempts), actions) && After(Init(s.maxAttempts), actions) == s;
    RunKeepsInv(Init(s.maxAttempts), actions);
  }

  // ---- visibility ----

  /** The document a head points to is active, validated and completely stored. */
  lemma HeadsAreComplete(s: System, filename: string, id: DocumentId)
    requires Reachable(s)
    requires filename in s.tables.heads && s.tables.heads[filename].current == Some(id)
    ensures Known(s, id) && Row(s, id).status == Active && Row(s, id).filename == filename
    ensures var st := s.docs[id].storage;
            && st.manifest.Some? && st.manifest.value.accepted && st.manifest.value.leaves != {}
            && Live(st.vectors) == st.manifest.value.leaves
            && Live(st.parents) == st.manifest.value.parents
  {
    ReachableInv(s);
    assert DocInv(s, id);
  }

  /** Active is the same as current, so a filename has at most one active document. */
  lemma ActiveIsCurrent(s: System, id: DocumentId)
    requires Reachable(s) && Known(s, id)
    ensures Row(s, id).filename in s.tables.heads
    ensures Row(s, id).status == Active <==> s.tables.heads[Row(s, id).filename].current == Some(id)
  {
    ReachableInv(s);
    assert DocInv(s, id);
  }

  /** In every reachable state the heads point exactly to the active documents of their names. */
  lemma ReachableCurrentIsActive(s: System)
    requires Reachable(s)
    ensures CurrentIsActive(s.tables)
  {
    ReachableInv(s);
    assert forall id :: id in s.docs ==> DocInv(s, id);
    hide Progress, Held, JobOk, HistoryOk, Complete, Contained, VersionsUnique, CountersOk;
  }

  /** So the row write of an upload, which looks at no head, keeps them together wherever it can happen. */
  lemma RowWriteIsSafe(s: System, a: Action)
    requires Reachable(s) && Enabled(s, a) && a.RecordCounts?
    ensures Row(s, a.id).status == Staging && (forall f :: !PointsTo(s.tables, f, a.id))
    ensures CurrentIsActive(Apply(s, a).tables)
  {
    ReachableCurrentIsActive(s);
    ReachableInv(s);
    assert DocInv(s, a.id) && Building(s.docs[a.id].worker);
    hide Inv, Reachable;
    var row, m := Row(s, a.id), s.docs[a.id].worker.m;
    StagingWriteIsSafe(s.tables, a.id, row.filename, |m.leaves|, |m.parents|);
  }

  // ---- versions ----

  function Versions(s: System, filename: string): seq<nat> {
    if filename in s.published then s.published[filename] else []
  }

  function PublishedVersion(t: Tables, filename: string): nat {
    if filename in t.heads then t.heads[filename].publishedVersion else 0
  }

  predicate Increasing(log: seq<nat>) {
    forall i, j :: 0 <= i < j < |log| ==> log[i] < log[j]
  }

  predicate IsMaximum(log: seq<nat>, n: nat) {
    (forall v :: v in log ==> v <= n) && (if log == [] then n == 0 else n in log)
  }

  /** The published version of a file is the largest version its head has taken. */
  predicate FileLogOk(s: System, f: string) {
    && IsMaximum(Versions(s, f), PublishedVersion(s.tables, f))
    && (forall v :: v in Versions(s, f) ==> v > 0)
    && (f in s.tables.heads && s.tables.heads[f].current.Some? ==> Versions(s, f) != [])
  }

  ghost predicate LogOk(s: System) {
    forall f :: FileLogOk(s, f)
  }

  lemma MaximumOfAppend(log: seq<nat>, n: nat, v: nat)
    requires IsMaximum(log, n)
    ensures IsMaximum(log + [v], if n < v then v else n)
    ensures Increasing(log) && n < v ==> Increasing(log + [v])
  {
    assert forall i :: 0 <= i < |log| ==> log[i] in log;
  }

  predicate LogKept(s: System, s': System, f: string) {
    Versions(s', f) == Versions(s, f) && PublishedVersion(s'.tables, f) == PublishedVersion(s.tables, f)
  }

  /** The head of `f` takes version `v`. */
  predicate HeadTakes(s: System, s': System, f: string, v: nat) {
    var before := PublishedVersion(s.tables, f);
    && Versions(s', f) == Versions(s, f) + [v]
    && PublishedVersion(s'.tables, f) == (if before < v then v else before)
  }

  predicate Republishes(s: System, a: Action) {
    a.Proceed? && Known(s, a.id) && s.docs[a.id].lifecycle.Republishing?
  }

  predicate Points(t: Tables, f: string) {
    f in t.heads && t.heads[f].current.Some?
  }

  /** Nothing is published under `f`, and no head starts to point. */
  predicate Calm(s: System, s': System, f: string) {
    LogKept(s, s', f) && (Points(s'.tables, f) ==> Points(s.tables, f))
  }

  /** The step publishes the document of `a` under `f`: a restore, or an upload newer than all before. */
  predicate Moves(s: System, s': System, a: Action, f: string) {
    && Known(s, a.id) && Row(s, a.id).version > 0 && HeadTakes(s, s', f, Row(s, a.id).version)
    && (Republishes(s, a) || PublishedVersion(s.tables, f) < Row(s, a.id).version)
  }

  lemma PublishesFromStaging(s: System, id: DocumentId)
    requires Inv(s) && Known(s, id) && (s.docs[id].worker.Publishing? || s.docs[id].lifecycle.Republishing?)
    ensures Row(s, id).status == Staging && Row(s, id).version > 0 && Row(s, id).filename in s.tables.heads
  {
    assert DocInv(s, id);
  }

  lemma PublishMovesHead(s: System, id: DocumentId, force: bool, x: State, f: string)
    requires Known(s, id) && Row(s, id).status == Staging && Row(s, id).filename in s.tables.heads
    ensures var s' := PublishStep(s, id, force, x);
            || Calm(s, s', f)
            || (HeadTakes(s, s', f, Row(s, id).version) && (force || PublishedVersion(s.tables, f) < Row(s, id).version))
  {
    PublishOutcome(s.tables, id, force);
  }

  lemma ReserveIsCalm(s: System, a: Action, f: string)
    requires Enabled(s, a) && a.CreateJob?
    ensures Calm(s, Apply(s, a), f)
  {
  }

  lemma LocalIsCalm(s: System, id: DocumentId, x: State, f: string)
    ensures Calm(s, Local(s, id, x), f)
  {
  }

  lemma RecordIsCalm(s: System, a: Action, f: string)
    requires Enabled(s, a) && a.RecordCounts?
    ensures Calm(s, Apply(s, a), f)
  {
    RecordIsWith(s, a);
    hide Enabled, Apply;
  }

  lemma CommitIsCalm(s: System, id: DocumentId, status: Status, x: State, f: string)
    requires Inv(s) && Known(s, id) && status != Active
    ensures Calm(s, Local(s, id, x).(tables := SetStatus(s.tables, id, status)), f)
  {
    assert DocInv(s, id);
    hide DocOk;
    SetStatusKeepsTables(s.tables, id, status);
  }

  lemma PublicationSteps(s: System, a: Action)
    requires Enabled(s, a)
    ensures a.PublishUpload? ==>
              Known(s, a.id) && s.docs[a.id].worker.Publishing?
              && Apply(s, a) == PublishStep(s, a.id, false, Enter(s.docs[a.id], Cleaning))
    ensures Republishes(s, a) ==>
              Apply(s, a) == PublishStep(s, a.id, true, s.docs[a.id].(
                lifecycle := if Publish(s.tables, a.id, true).published then ReportingRestore else RestoreRaised))
  {
    hide PublishStep, Publish;
  }

  lemma PublicationMoves(s: System, a: Action, f: string)
    requires Inv(s) && Enabled(s, a) && (a.PublishUpload? || Republishes(s, a))
    ensures Calm(s, Apply(s, a), f) || Moves(s, Apply(s, a), a, f)
  {
    hide Inv, Enabled, Apply, PublishStep, Publish;
    PublicationSteps(s, a);
    PublishesFromStaging(s, a.id);
    var x := s.docs[a.id];
    if a.PublishUpload? {
      PublishMovesHead(s, a.id, false, Enter(x, Cleaning), f);
    } else {
      PublishMovesHead(s, a.id, true, x.(
        lifecycle := if Publish(s.tables, a.id, true).published then ReportingRestore else RestoreRaised), f);
    }
  }

  /** Only the two publications move a head, and an upload never moves it backwards. */
  lemma StepMovesHead(s: System, a: Action, f: string)
    requires Inv(s) && Enabled(s, a)
    ensures Calm(s, Apply(s, a), f) || Moves(s, Apply(s, a), a, f)
  {
    hide Inv, SetStatus, Publish, LifecycleNext, WorkerNext;
    if a.CreateJob? {
      ReserveIsCalm(s, a, f);
    } else if WorkerLocal(a) {
      LocalIsCalm(s, a.id, WorkerNext(s.docs[a.id], Row(s, a.id), a, s.maxAttempts), f);
    } else if LifecycleLocal(s.docs[a.id], a) {
      LocalIsCalm(s, a.id, LifecycleNext(s.docs[a.id], Row(s, a.id), a), f);
    } else if Commits(s.docs[a.id], a) {
      CommitIsCalm(s, a.id, CommittedStatus(s.docs[a.id], a), CommitNext(s.docs[a.id], a), f);
    } else if a.RecordCounts? {
      RecordIsCalm(s, a, f);
    } else {
      PublicationMoves(s, a, f);
    }
  }

  lemma StepKeepsFileLog(s: System, a: Action, f: string)
    requires Inv(s) && Enabled(s, a) && FileLogOk(s, f)
    ensures FileLogOk(Apply(s, a), f)
  {
    hide Inv, Enabled, Apply, Republishes;
    var s' := Apply(s, a);
    StepMovesHead(s, a, f);
    if Moves(s, s', a, f) {
      MaximumOfAppend(Versions(s, f), PublishedVersion(s.tables, f), Row(s, a.id).version);
    }
  }

  lemma StepKeepsLog(s: System, a: Action)
    requires Inv(s) && Enabled(s, a) && LogOk(s)
    ensures LogOk(Apply(s, a))
  {
    hide Inv, Enabled, Apply, FileLogOk;
    forall f ensures FileLogOk(Apply(s, a), f) {
      StepKeepsFileLog(s, a, f);
    }
  }

  lemma {:induction false} RunKeepsLog(s: System, actions: seq<Action>)
    requires Inv(s) && LogOk(s) && Runs(s, actions)
    ensures LogOk(After(s, actions))
    decreases |actions|
  {
    if actions != [] {
      StepKeepsInv(s, actions[0]);
      StepKeepsLog(s, actions[0]);
      RunKeepsLog(Apply(s, actions[0]), actions[1..]);
    }
  }

  lemma ReachableLog(s: System)
    requires Reachable(s)
    ensures Inv(s) && LogOk(s)
  {
    var actions :| Runs(Init(s.maxAttempts), actions) && After(Init(s.maxAttempts), actions) == s;
    RunKeepsInv(Init(s.maxAttempts), actions);
    assert forall f :: FileLogOk(Init(s.maxAttempts), f);
    RunKeepsLog(Init(s.maxAttempts), actions);
  }

  /** The published version never goes down, and the log only grows. */
  lemma {:induction false} PublishedVersionIsMonotone(s: System, actions: seq<Action>, f: string)
    requires Inv(s) && Runs(s, actions)
    ensures PublishedVersion(s.tables, f) <= PublishedVersion(After(s, actions).tables, f)
    ensures Versions(s, f) <= Versions(After(s, actions), f)
    decreases |actions|
  {
    if actions != [] {
      StepKeepsInv(s, actions[0]);
      StepMovesHead(s, actions[0], f);
      hide Inv, Enabled, Apply, Republishes;
      PublishedVersionIsMonotone(Apply(s, actions[0]), actions[1..], f);
    }
  }

  /** Once a head has published, the legacy chunks stored under its very name are hidden for good. */
  lemma LegacyStaysHidden(s: System, actions: seq<Action>, f: string)
    requires Reachable(s) && Runs(s, actions) && Versions(s, f) != []
    ensures !Admits(RetrievalFilter(After(s, actions).tables), StoredChunk(None, f))
  {
    ReachableLog(s);
    assert FileLogOk(s, f);
    PublishedVersionIsMonotone(s, actions, f);
    assert Versions(s, f)[0] in Versions(s, f);
  }

  /** Legacy chunks stored under a name are admitted exactly until a head of that very name publishes. */
  lemma LegacyIsAdmittedUntilPublication(s: System, f: string)
    requires Reachable(s)
    ensures Admits(RetrievalFilter(s.tables), StoredChunk(None, f)) <==> Versions(s, f) == []
  {
    ReachableLog(s);
    assert FileLogOk(s, f);
    if Versions(s, f) != [] { assert Versions(s, f)[0] in Versions(s, f); }
  }

  /** Version numbers are unique per filename and bounded by the counter. */
  lemma VersionsIdentifyUploads(s: System, d: DocumentId, e: DocumentId)
    requires Reachable(s) && Known(s, d) && Known(s, e) && Row(s, d).filename == Row(s, e).filename
    ensures Row(s, d).version == Row(s, e).version ==> d == e
    ensures var head := LockHead(s.tables, Row(s, d).filename).heads[Row(s, d).filename];
            1 <= Row(s, d).version <= head.versionCounter && head.publishedVersion <= head.versionCounter
  {
    ReachableInv(s);
    assert DocInv(s, d) && DocInv(s, e);
  }

  predicate NoLater(h: History, h': History) {
    (h.settled ==> h'.settled) && (h.everActive ==> h'.everActive) && (h.restored ==> h'.restored)
  }

  predicate SameHistoryOf(h: History, h': History) {
    NoLater(h, h') && h'.restored == h.restored
  }

  lemma WorkerHistory(x: State, row: Document, a: Action, maxAttempts: int)
    requires WorkerLocal(a) && WorkerEnabled(x, a)
    ensures SameHistoryOf(x.history, WorkerNext(x, row, a, maxAttempts).history)
  {
  }

  lemma LifecycleHistory(x: State, row: Document, a: Action)
    requires LifecycleLocal(x, a) && LifecycleEnabled(x, row, a)
    ensures NoLater(x.history, LifecycleNext(x, row, a).history)
    ensures !a.BeginRestore? ==> SameHistoryOf(x.history, LifecycleNext(x, row, a).history)
  {
  }

  lemma CommitHistory(x: State, a: Action)
    requires Commits(x, a)
    ensures SameHistoryOf(x.history, CommitNext(x, a).history)
  {
  }

  lemma OtherDocumentsStay(s: System, a: Action)
    requires Enabled(s, a)
    ensures a.id in Apply(s, a).docs && Apply(s, a).docs == s.docs[a.id := Apply(s, a).docs[a.id]]
  {
    hide Publish, SetStatus, WorkerNext, LifecycleNext, CommitNext, CommittedStatus, WorkerEnabled, LifecycleEnabled, Known;
  }

  lemma OwnHistory(s: System, a: Action)
    requires Enabled(s, a)
    ensures a.id in Apply(s, a).docs
    ensures a.CreateJob? ==> !Apply(s, a).docs[a.id].history.restored
    ensures !a.CreateJob? ==> a.id in s.docs && NoLater(s.docs[a.id].history, Apply(s, a).docs[a.id].history)
    ensures !a.CreateJob? && !a.BeginRestore? ==>
              Apply(s, a).docs[a.id].history.restored == s.docs[a.id].history.restored
  {
    if a.CreateJob? {
    } else if WorkerLocal(a) {
      WorkerHistory(s.docs[a.id], Row(s, a.id), a, s.maxAttempts);
    } else if LifecycleLocal(s.docs[a.id], a) {
      LifecycleHistory(s.docs[a.id], Row(s, a.id), a);
    } else if Commits(s.docs[a.id], a) {
      CommitHistory(s.docs[a.id], a);
    }
  }

  /** History flags are never cleared, and only a restore sets `restored`. */
  lemma StepHistory(s: System, a: Action, d: DocumentId)
    requires Enabled(s, a) && d in s.docs
    ensures d in Apply(s, a).docs && NoLater(s.docs[d].history, Apply(s, a).docs[d].history)
    ensures !a.BeginRestore? ==> Apply(s, a).docs[d].history.restored == s.docs[d].history.restored
  {
    OtherDocumentsStay(s, a);
    if d == a.id { OwnHistory(s, a); }
  }

  ghost predicate NoRestore(s: System, actions: seq<Action>) {
    (forall d :: d in s.docs ==> !s.docs[d].history.restored) && (forall a :: a in actions ==> !a.BeginRestore?)
  }

  lemma NoRestoreStep(s: System, actions: seq<Action>)
    requires Inv(s) && Runs(s, actions) && actions != [] && NoRestore(s, actions)
    ensures NoRestore(Apply(s, actions[0]), actions[1..])
    ensures !Republishes(s, actions[0])
  {
    var a := actions[0];
    OtherDocumentsStay(s, a);
    OwnHistory(s, a);
    forall d | d in Apply(s, a).docs ensures !Apply(s, a).docs[d].history.restored {
      if d in s.docs { StepHistory(s, a, d); }
    }
    assert !a.CreateJob? ==> DocInv(s, a.id);
  }

  /** Without restores, a head takes strictly increasing versions, also across deletions. */
  lemma {:induction false} HeadVersionsIncrease(s: System, actions: seq<Action>, f: string)
    requires Inv(s) && LogOk(s) && Runs(s, actions) && NoRestore(s, actions) && Increasing(Versions(s, f))
    ensures Increasing(Versions(After(s, actions), f))
    decreases |actions|
  {
    if actions != [] {
      var a, s' := actions[0], Apply(s, actions[0]);
      StepKeepsInv(s, a);
      StepKeepsLog(s, a);
      StepMovesHead(s, a, f);
      NoRestoreStep(s, actions);
      assert FileLogOk(s, f);
      if Moves(s, s', a, f) {
        MaximumOfAppend(Versions(s, f), PublishedVersion(s.tables, f), Row(s, a.id).version);
      }
      HeadVersionsIncrease(s', actions[1..], f);
    }
  }

  lemma FreshRunVersionsIncrease(maxAttempts: int, actions: seq<Action>, f: string)
    requires Runs(Init(maxAttempts), actions) && forall a :: a in actions ==> !a.BeginRestore?
    ensures Increasing(Versions(After(Init(maxAttempts), actions), f))
  {
    assert forall g :: FileLogOk(Init(maxAttempts), g);
    HeadVersionsIncrease(Init(maxAttempts), actions, f);
  }

  /** An upload replaces the head exactly when no newer version has been published before it. */
  lemma LateUploadRetires(s: System, a: Action)
    requires Reachable(s) && Enabled(s, a) && a.PublishUpload?
    ensures Row(s, a.id).filename in s.tables.heads
    ensures var row, s' := Row(s, a.id), Apply(s, a);
            if PublishedVersion(s.tables, row.filename) < row.version
            then Row(s', a.id).status == Active && s'.tables.heads[row.filename].current == Some(a.id)
            else Row(s', a.id).status == Retiring && s'.tables.heads == s.tables.heads
  {
    ReachableInv(s);
    assert DocInv(s, a.id);
    PublishOutcome(s.tables, a.id, false);
  }

  // ---- the job queue ----

  /** Claims are bounded by the attempt limit plus the crashes until the upload leaves staging. */
  lemma ClaimsAreBounded(s: System, id: DocumentId)
    requires Reachable(s) && Known(s, id) && !s.docs[id].history.settled
    ensures s.docs[id].job.attempts <= (if s.maxAttempts < 1 then 1 else s.maxAttempts) + s.docs[id].history.crashes
  {
    ReachableInv(s);
    assert DocInv(s, id);
  }

  /** The bookkeeping of a failed attempt, in numbers, by the status that was read for it. */
  lemma RetryDecides(s: System, a: Action)
    requires Enabled(s, a) && a.CommitRetry?
    ensures var x, x' := s.docs[a.id], Apply(s, a).docs[a.id];
            && x.worker.Retrying? && x'.job.attempts == x.job.attempts
            && x'.job.status ==
               if (x.worker.permanent || (x.job.attempts >= s.maxAttempts && x.job.attempts >= 1))
                  && x.worker.seen !in {Active, Retiring, SoftDeleting, SoftDeleted}
               then JobFailed else JobPending
  {
  }

  /** A job is never marked failed while its document is active. */
  lemma ActiveJobIsNotFailed(s: System, a: Action)
    requires Reachable(s) && Enabled(s, a) && a.CommitRetry?
    ensures Apply(s, a).docs[a.id].job.status == JobFailed ==> Row(s, a.id).status != Active
  {
    ReachableInv(s);
    assert DocInv(s, a.id);
  }

  /** Nor is there, in any reachable state, a failed job beside its active document. */
  lemma FailedJobIsNotActive(s: System, id: DocumentId)
    requires Reachable(s) && Known(s, id) && s.docs[id].job.status == JobFailed && !s.docs[id].history.restored
    ensures Row(s, id).status != Active
  {
    ReachableInv(s);
    assert DocInv(s, id);
  }

  /** A completed job's document has left staging, unless a restore has taken it back there. */
  lemma CompletedHasLeftStaging(s: System, id: DocumentId)
    requires Reachable(s) && Known(s, id) && s.docs[id].job.status == JobCompleted && !s.docs[id].history.restored
    ensures Row(s, id).status != Staging
  {
    ReachableInv(s);
    assert DocInv(s, id);
  }

  lemma CreatesNew(s: System, a: Action)
    requires Enabled(s, a) && a.CreateJob?
    ensures a.id !in s.docs
  {
  }

  predicate SameJob(s: System, s': System, id: DocumentId) {
    id in s.docs && id in s'.docs && s'.docs[id].job == s.docs[id].job
  }

  lemma WorkerKeepsTerminal(x: State, row: Document, a: Action, maxAttempts: int)
    requires WorkerLocal(a) && WorkerEnabled(x, a) && Terminal(x.job) && JobOk(row, x, maxAttempts)
    ensures WorkerNext(x, row, a, maxAttempts).job == x.job
  {
  }

  lemma LifecycleKeepsJob(x: State, row: Document, a: Action)
    requires LifecycleLocal(x, a) && LifecycleEnabled(x, row, a)
    ensures LifecycleNext(x, row, a).job == x.job
  {
  }

  lemma CommitKeepsJob(x: State, a: Action)
    requires Commits(x, a)
    ensures CommitNext(x, a).job == x.job
  {
  }

  /** What a step makes of the state of its own document. */
  lemma OwnState(s: System, a: Action)
    requires Enabled(s, a) && !a.CreateJob?
    ensures Known(s, a.id) && a.id in Apply(s, a).docs
    ensures var x, row, x' := s.docs[a.id], Row(s, a.id), Apply(s, a).docs[a.id];
            if WorkerLocal(a) then WorkerEnabled(x, a) && x' == WorkerNext(x, row, a, s.maxAttempts)
            else if LifecycleLocal(x, a) then LifecycleEnabled(x, row, a) && x' == LifecycleNext(x, row, a)
            else if Commits(x, a) then CommitEnabled(x, a) && x' == CommitNext(x, a)
            else x'.job == x.job && x'.history.crashes == x.history.crashes
                 && (x'.worker == x.worker || (InTry(x.worker) && InTry(x'.worker)))
  {
    hide Publish, SetStatus, Upsert, WorkerEnabled, WorkerNext, LifecycleEnabled, LifecycleNext, LifecycleLocal,
         CommitEnabled, CommitNext, Commits, CommittedStatus, Log, Quiet;
  }

  lemma OwnTerminalJob(s: System, a: Action)
    requires Enabled(s, a) && a.id in s.docs && Known(s, a.id) && Terminal(s.docs[a.id].job)
    requires JobOk(Row(s, a.id), s.docs[a.id], s.maxAttempts)
    ensures a.id in Apply(s, a).docs && Apply(s, a).docs[a.id].job == s.docs[a.id].job
  {
    if a.CreateJob? { CreatesNew(s, a); }
    hide JobOk, Enabled, Apply, Terminal, WorkerNext, LifecycleNext, CommitNext, WorkerEnabled, LifecycleEnabled,
         CommitEnabled, WorkerLocal, LifecycleLocal, Commits, InTry;
    OwnState(s, a);
    if WorkerLocal(a) {
      WorkerKeepsTerminal(s.docs[a.id], Row(s, a.id), a, s.maxAttempts);
    } else if LifecycleLocal(s.docs[a.id], a) {
      LifecycleKeepsJob(s.docs[a.id], Row(s, a.id), a);
    } else if Commits(s.docs[a.id], a) {
      CommitKeepsJob(s.docs[a.id], a);
    }
  }

  lemma JobInInv(s: System, id: DocumentId)
    requires Inv(s) && id in s.docs
    ensures Known(s, id) && JobOk(Row(s, id), s.docs[id], s.maxAttempts)
  {
    hide JobOk, RowOk, ActorsOk, HistoryOk, TablesOk;
    assert DocInv(s, id);
  }

  lemma StepKeepsTerminalJob(s: System, a: Action, id: DocumentId)
    requires Inv(s) && Enabled(s, a) && Known(s, id) && Terminal(s.docs[id].job)
    ensures SameJob(s, Apply(s, a), id)
  {
    hide Inv, JobOk, Enabled, Apply, Terminal;
    JobInInv(s, id);
    OtherDocumentsStay(s, a);
    if id == a.id { OwnTerminalJob(s, a); }
  }

  /** Completed and failed jobs are final: nothing claims them again, and their attempts stay as they are. */
  lemma {:induction false} TerminalJobsAreFinal(s: System, actions: seq<Action>, id: DocumentId)
    requires Inv(s) && Runs(s, actions) && Known(s, id) && Terminal(s.docs[id].job)
    ensures SameJob(s, After(s, actions), id)
    decreases |actions|
  {
    if actions != [] {
      StepKeepsInv(s, actions[0]);
      StepKeepsTerminalJob(s, actions[0], id);
      StepHistory(s, actions[0], id);
      assert Known(Apply(s, actions[0]), id);
      hide Enabled, Apply;
      TerminalJobsAreFinal(Apply(s, actions[0]), actions[1..], id);
    }
  }

  lemma {:induction false} HistoryGrows(s: System, actions: seq<Action>, id: DocumentId)
    requires Inv(s) && Runs(s, actions) && Known(s, id)
    ensures Known(After(s, actions), id)
    ensures NoLater(s.docs[id].history, After(s, actions).docs[id].history)
    decreases |actions|
  {
    if actions != [] {
      var s' := Apply(s, actions[0]);
      StepKeepsInv(s, actions[0]);
      StepHistory(s, actions[0], id);
      HistoryGrows(s', actions[1..], id);
    }
  }

  /** No replay sends a published upload back to staging. */
  lemma ReplayNeverUnpublishes(s: System, actions: seq<Action>, id: DocumentId)
    requires Reachable(s) && Known(s, id) && (s.docs[id].history.settled || s.docs[id].history.everActive)
    requires Runs(s, actions)
    ensures var s' := After(s, actions);
            Known(s', id) && (!s'.docs[id].history.restored ==> Row(s', id).status != Staging)
  {
    ReachableInv(s);
    RunKeepsInv(s, actions);
    HistoryGrows(s, actions, id);
    assert DocInv(After(s, actions), id);
  }
}
