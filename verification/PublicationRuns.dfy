/** Runs of the publication protocol, put together step by step. */
module PublicationRuns {
  import opened Wrappers
  import opened Registry
  import opened UploadJobs
  import opened Publication
  import opened PublicationInvariant
  import opened PublicationTheorems

  lemma {:induction false} RunsAppend(s: System, a: seq<Action>, b: seq<Action>)
    requires Runs(s, a) && Runs(After(s, a), b)
    ensures Runs(s, a + b) && After(s, a + b) == After(After(s, a), b)
    decreases |a|
  {
    hide Enabled, Apply;
    if a == [] {
      assert a + b == b;
    } else {
      assert (a + b)[1..] == a[1..] + b;
      RunsAppend(Apply(s, a[0]), a[1..], b);
    }
  }

  lemma OneStep(s: System, a: Action, s': System)
    requires Enabled(s, a) && Apply(s, a) == s'
    ensures Runs(s, [a]) && After(s, [a]) == s'
  {
    hide Enabled, Apply;
    assert [a][1..] == [];
    assert Runs(s', []);
  }

  lemma LocalTwice(s: System, id: DocumentId, x: State, y: State)
    requires id in s.docs
    ensures Local(Local(s, id, x), id, y) == Local(s, id, y) && Local(s, id, s.docs[id]) == s
  {
  }

  ghost predicate Reaches(s: System, t: System) {
    exists actions :: Runs(s, actions) && After(s, actions) == t
  }

  predicate Leads(s: System, a: Action, t: System) {
    Enabled(s, a) && Apply(s, a) == t
  }

  lemma ReachesSelf(s: System)
    ensures Reaches(s, s)
  {
    assert Runs(s, []) && After(s, []) == s;
  }

  lemma ReachesStep(s: System, a: Action, t: System)
    requires Leads(s, a, t)
    ensures Reaches(s, t)
  {
    OneStep(s, a, t);
  }

  lemma ReachesTrans(s: System, t: System, u: System)
    requires Reaches(s, t) && Reaches(t, u)
    ensures Reaches(s, u)
  {
    var a :| Runs(s, a) && After(s, a) == t;
    var b :| Runs(t, b) && After(t, b) == u;
    RunsAppend(s, a, b);
  }

  lemma ReachesThen(s: System, t: System, a: Action, u: System)
    requires Reaches(s, t) && Leads(t, a, u)
    ensures Reaches(s, u)
  {
    hide Reaches, Leads;
    ReachesStep(t, a, u);
    ReachesTrans(s, t, u);
  }

  lemma ReachesTwice(s: System, a: Action, t: System, b: Action, u: System)
    requires Leads(s, a, t) && Leads(t, b, u)
    ensures Reaches(s, u)
  {
    hide Reaches, Leads;
    ReachesStep(s, a, t);
    ReachesThen(s, t, b, u);
  }

  lemma ReachesThrice(s: System, a: Action, t: System, b: Action, u: System, c: Action, v: System)
    requires Leads(s, a, t) && Leads(t, b, u) && Leads(u, c, v)
    ensures Reaches(s, v)
  {
    hide Reaches, Leads;
    ReachesStep(s, a, t);
    ReachesThen(s, t, b, u);
    ReachesThen(s, u, c, v);
  }

  lemma ReachableByRun(s: System)
    requires Reaches(Init(s.maxAttempts), s)
    ensures Reachable(s)
  {
  }

  lemma {:induction false} LimitStays(s: System, actions: seq<Action>)
    requires Runs(s, actions)
    ensures After(s, actions).maxAttempts == s.maxAttempts
    decreases |actions|
  {
    if actions != [] {
      StepKeepsLimit(s, actions[0]);
      LimitStays(Apply(s, actions[0]), actions[1..]);
    }
  }

  lemma StepKeepsLimit(s: System, a: Action)
    requires Enabled(s, a)
    ensures Apply(s, a).maxAttempts == s.maxAttempts
  {
  }

  // ---- one attempt of an upload ----

  /** A step of the worker of `id`, seen on the state of `id` alone. */
  lemma WorkerStep(s: System, a: Action, x: State, x': State)
    requires Known(s, a.id) && WorkerLocal(a) && WorkerEnabled(x, a)
    requires WorkerNext(x, Row(s, a.id), a, s.maxAttempts) == x'
    ensures Leads(Local(s, a.id, x), a, Local(s, a.id, x'))
  {
    hide WorkerEnabled, WorkerNext;
  }

  /** A step of the lifecycle service on `id` that leaves the registry alone. */
  lemma LifecycleStep(s: System, a: Action, x: State, x': State)
    requires Known(s, a.id) && !WorkerLocal(a) && !a.CreateJob? && LifecycleLocal(x, a)
    requires LifecycleEnabled(x, Row(s, a.id), a) && (a.BeginRestore? && s.exclusive ==> Quiet(x))
    requires LifecycleNext(x, Row(s, a.id), a) == x'
    ensures Leads(Local(s, a.id, x), a, Local(s, a.id, x'))
  {
    hide LifecycleEnabled, LifecycleNext;
  }

  lemma LiveAfterWrite(rows: Rows, keys: set<ChunkId>)
    requires rows.Keys <= keys
    ensures Live(Write(rows, keys)) == keys && Write(rows, keys) == Whole(keys)
  {
  }

  /** All rows of `keys`, live. */
  function Whole(keys: set<ChunkId>): Rows {
    map k | k in keys :: true
  }

  lemma LiveWhole(keys: set<ChunkId>)
    ensures Live(Whole(keys)) == keys && Flag(Whole(keys), Whole(keys).Keys, true) == Whole(keys)
  {
  }

  function Stored(m: Manifest): Storage {
    Storage(Some(m), Whole(m.parents), Whole(m.leaves))
  }

  /** Nothing stored yet, or everything, by an earlier attempt. */
  predicate Startable(x: State, m: Manifest) {
    && x.worker.Idle? && Claimable(x.job) && m.accepted && m.leaves != {}
    && (x.storage == Storage(None, NO_ROWS, NO_ROWS) || x.storage == Stored(m))
  }

  lemma ClaimToParse(s: System, id: DocumentId, x: State, m: Manifest)
    requires Known(s, id) && Row(s, id).status == Staging && Startable(x, m)
    ensures Reaches(Local(s, id, x), Local(s, id, x.(job := Claimed(x.job), worker := Parsing)))
  {
    var x1 := x.(job := Claimed(x.job), worker := ReadingStatus);
    var x2 := x1.(worker := Parsing);
    WorkerStep(s, Claim(id), x, x1);
    WorkerStep(s, ReadStatus(id), x1, x2);
    hide Leads, Reaches, Local, Known;
    ReachesStep(Local(s, id, x), Claim(id), Local(s, id, x1));
    ReachesThen(Local(s, id, x), Local(s, id, x1), ReadStatus(id), Local(s, id, x2));
  }

  lemma ParseToVectors(s: System, id: DocumentId, x: State, m: Manifest)
    requires Known(s, id) && x.worker.Parsing? && m.accepted && m.leaves != {}
    requires x.storage == Storage(None, NO_ROWS, NO_ROWS) || x.storage == Stored(m)
    ensures Reaches(Local(s, id, x), Local(s, id, x.(
              storage := x.storage.(manifest := Some(m), parents := Whole(m.parents)), worker := WritingVectors(m, {}))))
  {
    var x1 := x.(storage := x.storage.(manifest := Some(m)), worker := WritingParents(m));
    var x2 := x1.(storage := x1.storage.(parents := Whole(m.parents)), worker := CountingParents(m));
    var x3 := x2.(worker := WritingVectors(m, {}));
    LiveAfterWrite(x.storage.parents, m.parents);
    LiveWhole(m.parents);
    WorkerStep(s, LoadManifest(id, Some(m)), x, x1);
    WorkerStep(s, UpsertParents(id), x1, x2);
    WorkerStep(s, CountParents(id), x2, x3);
    hide Leads, Reaches, Local, Known;
    ReachesStep(Local(s, id, x), LoadManifest(id, Some(m)), Local(s, id, x1));
    ReachesThen(Local(s, id, x), Local(s, id, x1), UpsertParents(id), Local(s, id, x2));
    ReachesThen(Local(s, id, x), Local(s, id, x2), CountParents(id), Local(s, id, x3));
  }

  lemma CheckStores(s: System, id: DocumentId, x: State, m: Manifest)
    requires Known(s, id) && x.worker == CheckingParents(m) && x.storage == Stored(m)
    ensures Reaches(Local(s, id, x), Local(s, id, x.(worker := RecordingCounts(m))))
  {
    var x1 := x.(worker := CheckingLeaves(m));
    var x2 := x.(worker := RecordingCounts(m));
    LiveWhole(m.parents);
    LiveWhole(m.leaves);
    assert m.parents * m.parents == m.parents;
    hide Whole, Live, Leads, Reaches, Local, Known;
    WorkerStep(s, CheckParents(id), x, x1);
    WorkerStep(s, CheckLeaves(id), x1, x2);
    ReachesStep(Local(s, id, x), CheckParents(id), Local(s, id, x1));
    ReachesThen(Local(s, id, x), Local(s, id, x1), CheckLeaves(id), Local(s, id, x2));
  }

  lemma VectorsToRecord(s: System, id: DocumentId, x: State, m: Manifest)
    requires Known(s, id) && x.worker == WritingVectors(m, {})
    requires x.storage.manifest == Some(m) && x.storage.parents == Whole(m.parents)
    requires x.storage.vectors == NO_ROWS || x.storage.vectors == Whole(m.leaves)
    ensures Reaches(Local(s, id, x), Local(s, id, x.(storage := Stored(m), worker := RecordingCounts(m))))
  {
    var x1 := x.(storage := Stored(m), worker := WritingVectors(m, m.leaves));
    var x2 := x1.(worker := CheckingParents(m));
    LiveAfterWrite(x.storage.vectors, m.leaves);
    assert {} + m.leaves == m.leaves;
    hide Whole, Live, Write, Leads, Reaches, Local, Known;
    WorkerStep(s, WriteBatch(id, m.leaves), x, x1);
    WorkerStep(s, EndVectors(id), x1, x2);
    CheckStores(s, id, x2, m);
    ReachesStep(Local(s, id, x), WriteBatch(id, m.leaves), Local(s, id, x1));
    ReachesThen(Local(s, id, x), Local(s, id, x1), EndVectors(id), Local(s, id, x2));
    ReachesTrans(Local(s, id, x), Local(s, id, x2), Local(s, id, x.(storage := Stored(m), worker := RecordingCounts(m))));
  }

  /** An attempt, up to the point where its stores are verified. */
  lemma AttemptToRecord(s: System, id: DocumentId, x: State, m: Manifest)
    requires Known(s, id) && Row(s, id).status == Staging && Startable(x, m)
    ensures Reaches(Local(s, id, x), Local(s, id, x.(
              storage := Stored(m), job := Claimed(x.job), worker := RecordingCounts(m))))
  {
    var x1 := x.(job := Claimed(x.job), worker := Parsing);
    var x2 := x1.(storage := x1.storage.(manifest := Some(m), parents := Whole(m.parents)), worker := WritingVectors(m, {}));
    ClaimToParse(s, id, x, m);
    ParseToVectors(s, id, x1, m);
    VectorsToRecord(s, id, x2, m);
    hide Reaches, Local, Known;
    ReachesTrans(Local(s, id, x), Local(s, id, x1), Local(s, id, x2));
    ReachesTrans(Local(s, id, x), Local(s, id, x2), Local(s, id, x2.(storage := Stored(m), worker := RecordingCounts(m))));
  }

  function Counted(row: Document, m: Manifest): Document {
    Document(row.filename, row.version, Staging, |m.leaves|, |m.parents|)
  }

  lemma RecordStep(s: System, id: DocumentId, x: State, m: Manifest)
    requires Known(s, id) && x.worker == RecordingCounts(m)
    ensures Leads(Local(s, id, x), RecordCounts(id), With(s, id, Counted(Row(s, id), m), Enter(x, Publishing)))
  {
  }

  /** An attempt, up to the point of publication. */
  lemma AttemptToPublish(s: System, id: DocumentId, m: Manifest)
    requires Known(s, id) && Row(s, id).status == Staging && Startable(s.docs[id], m)
    ensures Reaches(s, With(s, id, Counted(Row(s, id), m),
                            s.docs[id].(storage := Stored(m), job := Claimed(s.docs[id].job), worker := Publishing)))
  {
    var x := s.docs[id];
    var x' := x.(storage := Stored(m), job := Claimed(x.job), worker := RecordingCounts(m));
    AttemptToRecord(s, id, x, m);
    RecordStep(s, id, x', m);
    LocalTwice(s, id, x, x');
    hide Reaches, Leads, Local, Known, Startable;
    ReachesThen(s, Local(s, id, x'), RecordCounts(id), With(s, id, Counted(Row(s, id), m), Enter(x', Publishing)));
  }

  function Created(s: System, id: DocumentId, filename: string): System {
    s.(tables := Reserve(s.tables, id, filename), docs := s.docs[id := FRESH])
  }

  lemma CreateStep(s: System, id: DocumentId, filename: string)
    requires id !in s.docs && id !in s.tables.documents
    ensures Leads(s, CreateJob(id, filename), Created(s, id, filename))
    ensures Known(Created(s, id, filename), id)
  {
  }

  /** The publication of a built upload that is newer than anything published of its file. */
  lemma PublishNewer(s: System, id: DocumentId)
    requires Known(s, id) && s.docs[id].worker.Publishing? && Row(s, id).status == Staging
    requires Row(s, id).filename in s.tables.heads
    requires s.tables.heads[Row(s, id).filename].publishedVersion < Row(s, id).version
    requires s.tables.heads[Row(s, id).filename].current == None
    ensures var f, x := Row(s, id).filename, s.docs[id];
            Leads(s, PublishUpload(id), s.(
              tables := Tables(
                s.tables.heads[f := Head(Some(id), s.tables.heads[f].versionCounter, Row(s, id).version)],
                s.tables.documents[id := Row(s, id).(status := Active)]),
              docs := s.docs[id := x.(worker := Cleaning, history := x.history.(everActive := true, settled := true))],
              published := Log(s, id)))
  {
  }

  /** The publication of a built upload that comes too late. */
  lemma PublishOlder(s: System, id: DocumentId)
    requires Known(s, id) && s.docs[id].worker.Publishing? && Row(s, id).status == Staging
    requires Row(s, id).filename in s.tables.heads
    requires Row(s, id).version <= s.tables.heads[Row(s, id).filename].publishedVersion
    requires s.tables.heads[Row(s, id).filename].current != Some(id)
    ensures var x := s.docs[id];
            Leads(s, PublishUpload(id),
                  With(s, id, Row(s, id).(status := Retiring),
                       x.(worker := Cleaning, history := x.history.(settled := true))))
  {
  }

  /** The forced publication at the end of a restore, where nothing is current. */
  lemma Republish(s: System, id: DocumentId)
    requires Known(s, id) && s.docs[id].lifecycle.Republishing? && Row(s, id).status == Staging
    requires Row(s, id).filename in s.tables.heads && s.tables.heads[Row(s, id).filename].current == None
    requires s.tables.heads[Row(s, id).filename].publishedVersion <= Row(s, id).version
    ensures var f, x := Row(s, id).filename, s.docs[id];
            Leads(s, Proceed(id), s.(
              tables := Tables(
                s.tables.heads[f := Head(Some(id), s.tables.heads[f].versionCounter, Row(s, id).version)],
                s.tables.documents[id := Row(s, id).(status := Active)]),
              docs := s.docs[id := x.(lifecycle := ReportingRestore, history := x.history.(everActive := true))],
              published := Log(s, id)))
  {
  }

  // ---- a first upload ----

  /** The state after an upload under a name that is new. */
  function Uploaded(s: System, id: DocumentId, filename: string, m: Manifest): System {
    s.(tables := Tables(
         s.tables.heads[filename := Head(Some(id), 1, 1)],
         s.tables.documents[id := Document(filename, 1, Active, |m.leaves|, |m.parents|)]),
       docs := s.docs[id := State(Stored(m), Job(JobRunning, 1), Cleaning, Unlocked, History(0, true, true, false))],
       published := s.published[filename := [1]])
  }

  /** The same just before its publication. */
  function Built(s: System, id: DocumentId, filename: string, m: Manifest): System {
    s.(tables := Tables(
         s.tables.heads[filename := Head(None, 1, 0)],
         s.tables.documents[id := Document(filename, 1, Staging, |m.leaves|, |m.parents|)]),
       docs := s.docs[id := State(Stored(m), Job(JobRunning, 1), Publishing, Unlocked, History(0, false, false, false))])
  }

  lemma BuiltIsWith(s: System, id: DocumentId, filename: string, m: Manifest)
    requires id !in s.docs && id !in s.tables.documents && filename !in s.tables.heads
    ensures var s1 := Created(s, id, filename);
            && Known(s1, id) && Row(s1, id).status == Staging && s1.docs[id] == FRESH
            && With(s1, id, Counted(Row(s1, id), m), FRESH.(storage := Stored(m), job := Claimed(FRESH.job), worker := Publishing))
               == Built(s, id, filename, m)
  {
    hide Stored;
  }

  lemma FirstBuild(s: System, id: DocumentId, filename: string, m: Manifest)
    requires id !in s.docs && id !in s.tables.documents && m.accepted && m.leaves != {}
    requires filename !in s.tables.heads
    ensures Reaches(s, Built(s, id, filename, m))
  {
    var s1 := Created(s, id, filename);
    CreateStep(s, id, filename);
    AttemptToPublish(s1, id, m);
    BuiltIsWith(s, id, filename, m);
    hide Leads, Reaches, Created, Built, Stored, Known, With, Counted;
    ReachesStep(s, CreateJob(id, filename), s1);
    ReachesTrans(s, s1, Built(s, id, filename, m));
  }

  lemma FirstPublication(s: System, id: DocumentId, filename: string, m: Manifest)
    requires filename !in s.published
    ensures Leads(Built(s, id, filename, m), PublishUpload(id), Uploaded(s, id, filename, m))
  {
    var b := Built(s, id, filename, m);
    hide Stored, Publish, Enabled, Apply;
    PublishNewer(b, id);
    assert [] + [1] == [1];
    assert b.published == s.published && Log(b, id) == s.published[filename := [1]];
  }

  lemma FirstUpload(s: System, id: DocumentId, filename: string, m: Manifest)
    requires id !in s.docs && id !in s.tables.documents && m.accepted && m.leaves != {}
    requires filename !in s.tables.heads && filename !in s.published
    ensures Reaches(s, Uploaded(s, id, filename, m))
  {
    hide Leads, Reaches, Built, Uploaded;
    FirstBuild(s, id, filename, m);
    FirstPublication(s, id, filename, m);
    ReachesThen(s, Built(s, id, filename, m), PublishUpload(id), Uploaded(s, id, filename, m));
  }
}
