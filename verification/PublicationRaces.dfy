/** Restores during a build: the guard without which heads lose what they promise. */
module PublicationRaces {
  import opened Wrappers
  import opened Registry
  import opened UploadJobs
  import opened Publication
  import opened PublicationInvariant
  import opened PublicationTheorems
  import opened PublicationRuns

  // ---- a restore during a build ----

  /** The protocol in which a restore waits for the upload job, or does not. */
  function Open(maxAttempts: int, exclusive: bool): System {
    Init(maxAttempts).(exclusive := exclusive)
  }

  /** What heads promise: the document they point to is active and completely stored. */
  ghost predicate HeadsHold(s: System) {
    forall f :: f in s.tables.heads && s.tables.heads[f].current.Some? ==>
      var id := s.tables.heads[f].current.value;
      Known(s, id) && Row(s, id).status == Active && Complete(s.docs[id].storage)
  }

  /** The protocol after a first attempt has recorded its counts. */
  function Base(maxAttempts: int, id: DocumentId, f: string, m: Manifest): System {
    Built(Open(maxAttempts, false), id, f, m)
  }

  /** The second attempt before its row write, and the restore at some stage. */
  function Racing(m: Manifest, lifecycle: Lifecycle, restored: bool): State {
    State(Stored(m), Job(JobRunning, 2), RecordingCounts(m), lifecycle, History(1, false, false, restored))
  }

  lemma BaseFacts(maxAttempts: int, id: DocumentId, f: string, m: Manifest)
    ensures var b := Base(maxAttempts, id, f, m);
            && Known(b, id) && Row(b, id) == Document(f, 1, Staging, |m.leaves|, |m.parents|)
            && b.docs[id] == State(Stored(m), Job(JobRunning, 1), Publishing, Unlocked, History(0, false, false, false))
            && b.tables.heads == map[f := Head(None, 1, 0)] && !b.exclusive && b.maxAttempts == maxAttempts
  {
  }

  /** The first attempt crashes after its row write, the second comes as far as its own. */
  lemma SecondAttempt(maxAttempts: int, id: DocumentId, f: string, m: Manifest)
    requires m.accepted && m.leaves != {}
    ensures Reaches(Open(maxAttempts, false), Local(Base(maxAttempts, id, f, m), id, Racing(m, Unlocked, false)))
  {
    var b := Base(maxAttempts, id, f, m);
    BaseFacts(maxAttempts, id, f, m);
    var x := b.docs[id].(worker := Idle, history := History(1, false, false, false));
    FirstBuild(Open(maxAttempts, false), id, f, m);
    LocalTwice(b, id, x, x);
    WorkerStep(b, CrashWorker(id), b.docs[id], x);
    AttemptToRecord(b, id, x, m);
    hide Leads, Reaches, Base, Built, Stored, Local, Known;
    ReachesThen(Open(maxAttempts, false), b, CrashWorker(id), Local(b, id, x));
    ReachesTrans(Open(maxAttempts, false), Local(b, id, x), Local(b, id, Racing(m, Unlocked, false)));
  }

  /** The stage a restore is at, between its begin and its status change. */
  function Stage(m: Manifest, n: nat): Lifecycle {
    match n
    case 0 => RestoringVectors(|m.leaves|, |m.parents|)
    case 1 => RestoringParents(|m.leaves|, |m.parents|)
    case 2 => CountingLeaves(|m.leaves|, |m.parents|)
    case 3 => CountingRestored(|m.parents|)
    case _ => Restaging
  }

  lemma FlagStage(m: Manifest, n: nat)
    requires n < 2
    ensures AfterProceed(Racing(m, Stage(m, n), true)) == Racing(m, Stage(m, n + 1), true)
  {
    LiveWhole(m.leaves);
    LiveWhole(m.parents);
    hide Whole, Flag, Live;
  }

  lemma CountStage(m: Manifest, n: nat)
    requires 2 <= n < 4 && m.leaves != {}
    ensures AfterProceed(Racing(m, Stage(m, n), true)) == Racing(m, Stage(m, n + 1), true)
  {
    LiveWhole(m.leaves);
    LiveWhole(m.parents);
    hide Whole, Flag, Live;
  }

  lemma StageStep(s: System, id: DocumentId, m: Manifest, n: nat)
    requires Known(s, id) && m.leaves != {} && n < 4
    ensures Leads(Local(s, id, Racing(m, Stage(m, n), true)), Proceed(id), Local(s, id, Racing(m, Stage(m, n + 1), true)))
  {
    if n < 2 { FlagStage(m, n); } else { CountStage(m, n); }
    hide AfterProceed, Stored, Local, Leads, Known;
    LifecycleStep(s, Proceed(id), Racing(m, Stage(m, n), true), Racing(m, Stage(m, n + 1), true));
  }

  /** Nothing but the guard keeps a restore from beginning here. */
  lemma RestoreBegins(s: System, id: DocumentId, m: Manifest)
    requires Known(s, id) && !s.exclusive
    requires Row(s, id).status == Staging && Row(s, id).leafChunkCount == |m.leaves| && Row(s, id).parentChunkCount == |m.parents|
    ensures Leads(Local(s, id, Racing(m, Unlocked, false)), BeginRestore(id), Local(s, id, Racing(m, Stage(m, 0), true)))
  {
    hide Stored, Local, Leads;
    LifecycleStep(s, BeginRestore(id), Racing(m, Unlocked, false), Racing(m, Stage(m, 0), true));
  }

  /** Its checks succeed. */
  lemma {:induction false} RestoreCounts(s: System, id: DocumentId, m: Manifest, n: nat)
    requires Known(s, id) && !s.exclusive && m.leaves != {} && n <= 4
    requires Row(s, id).status == Staging && Row(s, id).leafChunkCount == |m.leaves| && Row(s, id).parentChunkCount == |m.parents|
    ensures Reaches(Local(s, id, Racing(m, Unlocked, false)), Local(s, id, Racing(m, Stage(m, n), true)))
    decreases n
  {
    hide Leads, Reaches, Local, Known, Racing, Stage;
    var start := Local(s, id, Racing(m, Unlocked, false));
    if n == 0 {
      RestoreBegins(s, id, m);
      ReachesStep(start, BeginRestore(id), Local(s, id, Racing(m, Stage(m, 0), true)));
    } else {
      RestoreCounts(s, id, m, n - 1);
      StageStep(s, id, m, n - 1);
      ReachesThen(start, Local(s, id, Racing(m, Stage(m, n - 1), true)), Proceed(id), Local(s, id, Racing(m, Stage(m, n), true)));
    }
  }

  lemma SameStatus(t: Tables, id: DocumentId)
    requires id in t.documents && t.documents[id].status == Staging
    requires t.documents[id].filename in t.heads && t.heads[t.documents[id].filename].current != Some(id)
    ensures SetStatus(t, id, Staging) == t
  {
    assert t.documents[id := t.documents[id]] == t.documents;
  }

  /** Setting a document that no head points to back to staging changes no table. */
  lemma RestageStep(s: System, id: DocumentId, x: State)
    requires Known(s, id) && Row(s, id).status == Staging && x.lifecycle.Restaging?
    requires Row(s, id).filename in s.tables.heads && s.tables.heads[Row(s, id).filename].current != Some(id)
    ensures Leads(Local(s, id, x), Proceed(id), Local(s, id, x.(lifecycle := Republishing)))
  {
    SameStatus(s.tables, id);
    hide SetStatus;
  }

  /** The restore publishes, and then the row write takes the document back to staging, under its head. */
  lemma RowWriteFollows(s: System, id: DocumentId, m: Manifest) returns (s': System)
    requires Known(s, id) && s.docs[id] == Racing(m, Republishing, true) && Row(s, id).status == Staging
    requires Row(s, id).filename in s.tables.heads && s.tables.heads[Row(s, id).filename].current == None
    requires s.tables.heads[Row(s, id).filename].publishedVersion <= Row(s, id).version
    ensures Reaches(s, s') && s'.maxAttempts == s.maxAttempts && Known(s', id) && Row(s', id).status == Staging
    ensures var f := Row(s, id).filename; f in s'.tables.heads && s'.tables.heads[f].current == Some(id)
  {
    Republish(s, id);
    var t := Apply(s, Proceed(id));
    RecordStep(t, id, t.docs[id], m);
    LocalTwice(t, id, t.docs[id], t.docs[id]);
    s' := With(t, id, Counted(Row(t, id), m), Enter(t.docs[id], Publishing));
    hide Reaches, Enabled, Apply, Log, Counted;
    ReachesStep(s, Proceed(id), t);
    ReachesThen(s, t, RecordCounts(id), s');
  }

  /**
  A restore that begins while the job may still run: the first attempt crashes after recording its
  counts, the restore republishes while the second stands before its row write, and the row write
  leaves the head on a staging document.
  */
  lemma RestoreMustNotRace(maxAttempts: int, id: DocumentId, f: string, m: Manifest) returns (s: System)
    requires m.accepted && m.leaves != {}
    ensures Reaches(Open(maxAttempts, false), s) && s.maxAttempts == maxAttempts
    ensures f in s.tables.heads && s.tables.heads[f].current == Some(id)
    ensures Known(s, id) && Row(s, id).status == Staging
  {
    var start, b := Open(maxAttempts, false), Base(maxAttempts, id, f, m);
    BaseFacts(maxAttempts, id, f, m);
    SecondAttempt(maxAttempts, id, f, m);
    hide Reaches, Leads, Base, Stored;
    RestoreCounts(b, id, m, 4);
    RestageStep(b, id, Racing(m, Restaging, true));
    var t := Local(b, id, Racing(m, Republishing, true));
    s := RowWriteFollows(t, id, m);
    hide Local, Known;
    ReachesTrans(start, Local(b, id, Racing(m, Unlocked, false)), Local(b, id, Racing(m, Restaging, true)));
    ReachesThen(start, Local(b, id, Racing(m, Restaging, true)), Proceed(id), t);
    ReachesTrans(start, t, s);
  }

  /** Every reachable head holds what it promises if and only if restores wait for the upload job. */
  lemma RestoreGuardDecides(maxAttempts: int, exclusive: bool)
    ensures (forall s :: Reaches(Open(maxAttempts, exclusive), s) ==> HeadsHold(s)) <==> exclusive
  {
    if exclusive {
      assert Open(maxAttempts, true) == Init(maxAttempts);
      forall s | Reaches(Open(maxAttempts, exclusive), s) ensures HeadsHold(s) {
        GuardedHeadsHold(maxAttempts, s);
      }
    } else {
      var s := RestoreMustNotRace(maxAttempts, "d", "f", Manifest({}, {"leaf"}, true));
      assert !HeadsHold(s);
    }
  }

  lemma GuardedHeadsHold(maxAttempts: int, s: System)
    requires Reaches(Init(maxAttempts), s)
    ensures HeadsHold(s)
  {
    RunKeepsMaxAttempts(maxAttempts, s);
    ReachableByRun(s);
    forall f | f in s.tables.heads && s.tables.heads[f].current.Some?
      ensures var id := s.tables.heads[f].current.value;
              Known(s, id) && Row(s, id).status == Active && Complete(s.docs[id].storage)
    {
      HeadsAreComplete(s, f, s.tables.heads[f].current.value);
    }
  }

  lemma RunKeepsMaxAttempts(maxAttempts: int, s: System)
    requires Reaches(Init(maxAttempts), s)
    ensures s.maxAttempts == maxAttempts
  {
    var actions :| Runs(Init(maxAttempts), actions) && After(Init(maxAttempts), actions) == s;
    LimitStays(Init(maxAttempts), actions);
  }
}
