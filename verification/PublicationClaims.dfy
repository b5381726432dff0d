/** How often the job of an upload is claimed, in terms of its row. */
module PublicationClaims {
  import opened Wrappers
  import opened Registry
  import opened UploadJobs
  import opened Publication
  import opened PublicationInvariant
  import opened PublicationTheorems
  import opened PublicationRuns

  // ---- runs along which the row keeps its status ----

  ghost predicate StatusStays(s: System, actions: seq<Action>, id: DocumentId)
    requires Runs(s, actions) && Known(s, id)
    decreases |actions|
  {
    actions == [] ||
    (var s' := Apply(s, actions[0]);
     Known(s', id) && Row(s', id).status == Row(s, id).status && StatusStays(s', actions[1..], id))
  }

  /** Some run leads from `s` to `t` while the row of `id` keeps its status. */
  ghost predicate Stays(s: System, t: System, id: DocumentId) {
    Known(s, id) && exists actions :: Runs(s, actions) && After(s, actions) == t && StatusStays(s, actions, id)
  }

  lemma StaysSelf(s: System, id: DocumentId)
    requires Known(s, id)
    ensures Stays(s, s, id)
  {
    assert Runs(s, []) && After(s, []) == s && StatusStays(s, [], id);
  }

  lemma StaysReaches(s: System, t: System, id: DocumentId)
    requires Stays(s, t, id)
    ensures Reaches(s, t)
  {
  }

  lemma {:induction false} StatusAppend(s: System, actions: seq<Action>, a: Action, t: System, u: System, id: DocumentId)
    requires Runs(s, actions) && After(s, actions) == t && Known(s, id) && StatusStays(s, actions, id)
    requires Leads(t, a, u) && Known(u, id) && Row(u, id).status == Row(s, id).status
    ensures Runs(s, actions + [a]) && After(s, actions + [a]) == u && StatusStays(s, actions + [a], id)
    decreases |actions|
  {
    hide Enabled, Apply, Known, Row;
    if actions == [] {
      assert actions + [a] == [a] && [a][1..] == [];
      assert Runs(u, []);
    } else {
      assert (actions + [a])[1..] == actions[1..] + [a];
      StatusAppend(Apply(s, actions[0]), actions[1..], a, t, u, id);
    }
  }

  lemma StaysThen(s: System, t: System, a: Action, u: System, id: DocumentId)
    requires Stays(s, t, id) && Leads(t, a, u) && Known(u, id) && Row(u, id).status == Row(s, id).status
    ensures Stays(s, u, id)
  {
    hide Leads;
    var actions :| Runs(s, actions) && After(s, actions) == t && StatusStays(s, actions, id);
    StatusAppend(s, actions, a, t, u, id);
  }

  /** A step of the worker of the document leaves its row alone. */
  lemma StaysWithWorker(start: System, s: System, a: Action, x: State, x': State)
    requires Known(s, a.id) && WorkerLocal(a) && WorkerEnabled(x, a)
    requires WorkerNext(x, Row(s, a.id), a, s.maxAttempts) == x'
    requires Stays(start, Local(s, a.id, x), a.id) && Row(start, a.id).status == Row(s, a.id).status
    ensures Stays(start, Local(s, a.id, x'), a.id)
  {
    WorkerStep(s, a, x, x');
    assert Known(Local(s, a.id, x'), a.id) && Row(Local(s, a.id, x'), a.id) == Row(s, a.id);
    hide Stays, Leads, Local, WorkerNext, WorkerEnabled;
    StaysThen(start, Local(s, a.id, x), a, Local(s, a.id, x'), a.id);
  }

  // ---- a job whose document counts as published is claimed without bound ----

  function ClaimedAgain(x: State, n: nat): State {
    x.(job := Job(JobRunning, x.job.attempts + n))
  }

  /** The cleanup raises, and the job goes back to pending, since its document counts as published. */
  lemma CleanupFails(start: System, s: System, id: DocumentId, x: State)
    requires Known(s, id) && x.worker.Cleaning? && Row(s, id).status in PUBLISHED_STATUSES
    requires Stays(start, Local(s, id, x), id) && Row(start, id).status == Row(s, id).status
    ensures Stays(start, Local(s, id, x.(job := x.job.(status := JobPending), worker := Idle)), id)
  {
    hide Stays, Local;
    var x1 := x.(worker := Raised(false));
    var x2 := x.(worker := Retrying(false, Row(s, id).status));
    StaysWithWorker(start, s, Raise(id, false), x, x1);
    StaysWithWorker(start, s, ReadForRetry(id), x1, x2);
    RetryReturns(start, s, id, x2);
  }

  lemma RetryReturns(start: System, s: System, id: DocumentId, x: State)
    requires Known(s, id) && x.worker == Retrying(false, Row(s, id).status) && Row(s, id).status in PUBLISHED_STATUSES
    requires Stays(start, Local(s, id, x), id) && Row(start, id).status == Row(s, id).status
    ensures Stays(start, Local(s, id, x.(job := x.job.(status := JobPending), worker := Idle)), id)
  {
    hide Stays, Local;
    var x1 := x.(job := x.job.(status := JobPending), worker := Rereading(false));
    StaysWithWorker(start, s, CommitRetry(id), x, x1);
    StaysWithWorker(start, s, Reread(id), x1, x1.(worker := Idle));
  }

  lemma ClaimReachesCleanup(start: System, s: System, id: DocumentId, x: State)
    requires Known(s, id) && x.worker.Idle? && Claimable(x.job) && Row(s, id).status in PUBLISHED_STATUSES
    requires Stays(start, Local(s, id, x), id) && Row(start, id).status == Row(s, id).status
    ensures Stays(start, Local(s, id, x.(job := Claimed(x.job), worker := Cleaning)), id)
  {
    hide Stays, Local;
    var x1 := x.(job := Claimed(x.job), worker := ReadingStatus);
    StaysWithWorker(start, s, Claim(id), x, x1);
    StaysWithWorker(start, s, ReadStatus(id), x1, x1.(worker := Cleaning));
  }

  /** From a failing cleanup any number of further claims follows, without a crash. */
  lemma {:induction false} CleanupsRepeat(start: System, s: System, id: DocumentId, x: State, n: nat)
    requires Known(s, id) && x.worker.Cleaning? && x.job.status == JobRunning && Row(s, id).status in PUBLISHED_STATUSES
    requires Stays(start, Local(s, id, x), id) && Row(start, id).status == Row(s, id).status
    ensures Stays(start, Local(s, id, ClaimedAgain(x, n)), id)
    decreases n
  {
    hide Stays, Local, Row, Known;
    if n == 0 {
      assert ClaimedAgain(x, 0) == x;
    } else {
      CleanupsRepeat(start, s, id, x, n - 1);
      var y := ClaimedAgain(x, n - 1);
      var z := y.(job := y.job.(status := JobPending), worker := Idle);
      CleanupFails(start, s, id, y);
      ClaimReachesCleanup(start, s, id, z);
      assert z.(job := Claimed(z.job), worker := Cleaning) == ClaimedAgain(x, n);
    }
  }

  /** Standing in the cleanup of an attempt, with a status that any later attempt finds published. */
  predicate Cleanable(s: System, id: DocumentId) {
    && Known(s, id) && s.docs[id].worker.Cleaning? && s.docs[id].job.status == JobRunning
    && Row(s, id).status in PUBLISHED_STATUSES
  }

  function Repeated(s: System, id: DocumentId, n: nat): System
    requires id in s.docs
  {
    Local(s, id, ClaimedAgain(s.docs[id], n))
  }

  lemma SettledClaimsAreUnbounded(s: System, id: DocumentId, n: nat)
    requires Cleanable(s, id)
    ensures Reaches(s, Repeated(s, id, n)) && Repeated(s, id, n).docs[id].job.attempts == s.docs[id].job.attempts + n
  {
    LocalTwice(s, id, s.docs[id], s.docs[id]);
    hide Stays, Reaches;
    StaysSelf(s, id);
    CleanupsRepeat(s, s, id, s.docs[id], n);
    StaysReaches(s, Repeated(s, id, n), id);
  }

  function Resting(x: State): State {
    if x.worker.Idle? then x else x.(worker := Idle, history := x.history.(crashes := x.history.crashes + 1))
  }

  lemma WorkerRests(s: System, id: DocumentId)
    requires Known(s, id)
    ensures Stays(s, Local(s, id, Resting(s.docs[id])), id)
  {
    var x := s.docs[id];
    LocalTwice(s, id, x, x);
    StaysSelf(s, id);
    hide Stays, Local;
    if !x.worker.Idle? { StaysWithWorker(s, s, CrashWorker(id), x, Resting(x)); }
  }

  /** Whoever holds the job, after at most one crash it is claimed as often as one likes. */
  lemma ClaimsGrow(s: System, id: DocumentId, n: nat) returns (t: System)
    requires Known(s, id) && !Terminal(s.docs[id].job) && Row(s, id).status in PUBLISHED_STATUSES
    ensures Stays(s, t, id) && t.maxAttempts == s.maxAttempts && Known(t, id) && Row(t, id) == Row(s, id)
    ensures t.docs[id].job.attempts == s.docs[id].job.attempts + 1 + n
    ensures t.docs[id].history == Resting(s.docs[id]).history
  {
    var x := Resting(s.docs[id]);
    var y := x.(job := Claimed(x.job), worker := Cleaning);
    t := Local(s, id, ClaimedAgain(y, n));
    assert Known(t, id) && Row(t, id) == Row(s, id) && t.docs[id] == ClaimedAgain(y, n);
    ClaimableOrTerminal(x.job);
    hide Stays, Local, Known, Row;
    WorkerRests(s, id);
    ClaimReachesCleanup(s, s, id, x);
    CleanupsRepeat(s, s, id, y, n);
  }

  // ---- any other job is claimed a bounded number of times ----

  /** At the limit the job is over, or in an attempt that will end it. */
  predicate Limited(x: State, k: nat) {
    && x.job.attempts <= k + x.history.crashes
    && (x.job.attempts == k + x.history.crashes ==>
          || Terminal(x.job) || InTry(x.worker) || x.worker.Raised?
          || (x.worker.Retrying? && x.worker.seen !in PUBLISHED_STATUSES))
  }

  lemma WorkerStaysLimited(x: State, row: Document, a: Action, maxAttempts: int, k: nat)
    requires WorkerLocal(a) && WorkerEnabled(x, a) && JobOk(row, x, maxAttempts)
    requires row.status !in PUBLISHED_STATUSES && AttemptLimit(maxAttempts) <= k && Limited(x, k)
    ensures Limited(WorkerNext(x, row, a, maxAttempts), k)
  {
  }

  lemma LifecycleStaysLimited(x: State, row: Document, a: Action, k: nat)
    requires LifecycleLocal(x, a) && LifecycleEnabled(x, row, a) && Limited(x, k)
    ensures Limited(LifecycleNext(x, row, a), k)
  {
  }

  lemma CommitStaysLimited(x: State, a: Action, k: nat)
    requires Commits(x, a) && CommitEnabled(x, a) && Limited(x, k)
    ensures Limited(CommitNext(x, a), k)
  {
  }

  lemma OwnStaysLimited(s: System, a: Action, k: nat)
    requires Enabled(s, a) && Known(s, a.id) && Row(s, a.id).status !in PUBLISHED_STATUSES
    requires JobOk(Row(s, a.id), s.docs[a.id], s.maxAttempts)
    requires AttemptLimit(s.maxAttempts) <= k && Limited(s.docs[a.id], k)
    ensures a.id in Apply(s, a).docs && Limited(Apply(s, a).docs[a.id], k)
  {
    if a.CreateJob? { CreatesNew(s, a); }
    hide JobOk, Enabled, Apply, Terminal, WorkerNext, LifecycleNext, CommitNext, WorkerEnabled, LifecycleEnabled,
         CommitEnabled, WorkerLocal, LifecycleLocal, Commits, InTry;
    OwnState(s, a);
    if WorkerLocal(a) {
      WorkerStaysLimited(s.docs[a.id], Row(s, a.id), a, s.maxAttempts, k);
    } else if LifecycleLocal(s.docs[a.id], a) {
      LifecycleStaysLimited(s.docs[a.id], Row(s, a.id), a, k);
    } else if Commits(s.docs[a.id], a) {
      CommitStaysLimited(s.docs[a.id], a, k);
    }
  }

  lemma StepStaysLimited(s: System, a: Action, id: DocumentId, k: nat)
    requires Inv(s) && Enabled(s, a) && Known(s, id) && Row(s, id).status !in PUBLISHED_STATUSES
    requires AttemptLimit(s.maxAttempts) <= k && Limited(s.docs[id], k)
    ensures id in Apply(s, a).docs && Limited(Apply(s, a).docs[id], k)
  {
    hide Inv, JobOk, Enabled, Apply, Limited;
    JobInInv(s, id);
    OtherDocumentsStay(s, a);
    if id == a.id { OwnStaysLimited(s, a, k); }
  }

  lemma {:induction false} RunStaysLimited(s: System, actions: seq<Action>, id: DocumentId, k: nat)
    requires Inv(s) && Runs(s, actions) && Known(s, id) && StatusStays(s, actions, id)
    requires Row(s, id).status !in PUBLISHED_STATUSES && AttemptLimit(s.maxAttempts) <= k && Limited(s.docs[id], k)
    ensures id in After(s, actions).docs && Limited(After(s, actions).docs[id], k)
    decreases |actions|
  {
    if actions != [] {
      StepKeepsInv(s, actions[0]);
      StepKeepsLimit(s, actions[0]);
      StepStaysLimited(s, actions[0], id, k);
      hide Inv, Enabled, Apply, Limited;
      RunStaysLimited(Apply(s, actions[0]), actions[1..], id, k);
    }
  }

  /** The claims of `id` never exceed the crashes by more than `bound` while its row keeps its status. */
  ghost predicate ClaimsWithin(s: System, id: DocumentId, bound: nat) {
    forall t :: Stays(s, t, id) ==>
      id in t.docs && t.docs[id].job.attempts <= bound + t.docs[id].history.crashes
  }

  lemma UnpublishedClaims(s: System, id: DocumentId) returns (bound: nat)
    requires Inv(s) && Known(s, id) && Row(s, id).status !in PUBLISHED_STATUSES
    ensures ClaimsWithin(s, id, bound)
  {
    var n := s.docs[id].job.attempts + 1;
    bound := if n < AttemptLimit(s.maxAttempts) then AttemptLimit(s.maxAttempts) else n;
    forall t | Stays(s, t, id)
      ensures id in t.docs && t.docs[id].job.attempts <= bound + t.docs[id].history.crashes
    {
      var actions :| Runs(s, actions) && After(s, actions) == t && StatusStays(s, actions, id);
      RunStaysLimited(s, actions, id, bound);
    }
  }

  lemma TerminalClaims(s: System, id: DocumentId)
    requires Inv(s) && Known(s, id) && Terminal(s.docs[id].job)
    ensures ClaimsWithin(s, id, s.docs[id].job.attempts)
  {
    forall t | Stays(s, t, id)
      ensures id in t.docs && t.docs[id].job.attempts <= s.docs[id].job.attempts + t.docs[id].history.crashes
    {
      var actions :| Runs(s, actions) && After(s, actions) == t && StatusStays(s, actions, id);
      TerminalJobsAreFinal(s, actions, id);
    }
  }

  /**
  While the row of an upload keeps its status, its claims less its crashes are bounded if and only if
  the job is over or the row does not count as published, whatever all actors do.
  */
  lemma ClaimsFollowTheRow(s: System, id: DocumentId)
    requires Reachable(s) && Known(s, id)
    ensures (exists bound: nat :: ClaimsWithin(s, id, bound))
       <==> Terminal(s.docs[id].job) || Row(s, id).status !in PUBLISHED_STATUSES
  {
    ReachableInv(s);
    hide Inv, Stays;
    if Terminal(s.docs[id].job) {
      TerminalClaims(s, id);
    } else if Row(s, id).status !in PUBLISHED_STATUSES {
      var bound := UnpublishedClaims(s, id);
    } else {
      forall bound: nat ensures !ClaimsWithin(s, id, bound) {
        var t := ClaimsGrow(s, id, bound + Resting(s.docs[id]).history.crashes);
      }
    }
  }

  // ---- an upload that is never published ----

  /** A fresh upload in staging. */
  predicate Fresh(s: System, id: DocumentId) {
    Known(s, id) && Row(s, id).status == Staging && s.docs[id] == FRESH
  }

  /** Two fresh uploads of one file, nothing published. */
  predicate TwoFresh(s: System, older: DocumentId, newer: DocumentId, f: string) {
    && older != newer && Fresh(s, older) && Fresh(s, newer)
    && s.tables.documents[older] == Document(f, 1, Staging, 0, 0)
    && s.tables.documents[newer] == Document(f, 2, Staging, 0, 0)
    && f in s.tables.heads && s.tables.heads[f] == Head(None, 2, 0)
  }

  lemma CreatedRow(s: System, id: DocumentId, f: string)
    ensures var s' := Created(s, id, f);
            var version := (if f in s.tables.heads then s.tables.heads[f] else EMPTY_HEAD).versionCounter + 1;
            && s'.maxAttempts == s.maxAttempts
            && s'.docs == s.docs[id := FRESH]
            && s'.tables.documents == s.tables.documents[id := Document(f, version, Staging, 0, 0)]
            && s'.tables.heads == s.tables.heads[f :=
                 (if f in s.tables.heads then s.tables.heads[f] else EMPTY_HEAD).(versionCounter := version)]
  {
  }

  lemma TwoCreated(maxAttempts: int, older: DocumentId, newer: DocumentId, f: string)
    requires older != newer
    ensures TwoFresh(Created(Created(Init(maxAttempts), older, f), newer, f), older, newer, f)
  {
    CreatedRow(Init(maxAttempts), older, f);
    CreatedRow(Created(Init(maxAttempts), older, f), newer, f);
    hide Created;
  }

  lemma TwoUploads(maxAttempts: int, older: DocumentId, newer: DocumentId, f: string) returns (s: System)
    requires older != newer
    ensures Reaches(Init(maxAttempts), s) && s.maxAttempts == maxAttempts && TwoFresh(s, older, newer, f)
  {
    hide Created, Leads, Reaches, TwoFresh;
    var s1 := Created(Init(maxAttempts), older, f);
    s := Created(s1, newer, f);
    CreatedRow(Init(maxAttempts), older, f);
    CreatedRow(s1, newer, f);
    TwoCreated(maxAttempts, older, newer, f);
    CreateStep(Init(maxAttempts), older, f);
    CreateStep(s1, newer, f);
    ReachesStep(Init(maxAttempts), CreateJob(older, f), s1);
    ReachesThen(Init(maxAttempts), s1, CreateJob(newer, f), s);
  }

  /** The older upload is too late. */
  predicate Overtaken(s: System, older: DocumentId) {
    && Fresh(s, older) && Row(s, older).filename in s.tables.heads
    && Row(s, older).version <= s.tables.heads[Row(s, older).filename].publishedVersion
    && s.tables.heads[Row(s, older).filename].current != Some(older)
  }

  lemma NewerIsPublished(s: System, older: DocumentId, newer: DocumentId, f: string, m: Manifest) returns (s': System)
    requires TwoFresh(s, older, newer, f) && m.accepted && m.leaves != {}
    ensures Reaches(s, s') && s'.maxAttempts == s.maxAttempts && Overtaken(s', older)
  {
    var t := With(s, newer, Counted(Row(s, newer), m), FRESH.(storage := Stored(m), job := Claimed(NEW_JOB), worker := Publishing));
    AttemptToPublish(s, newer, m);
    PublishNewer(t, newer);
    s' := Apply(t, PublishUpload(newer));
    hide Reaches, Stored, Enabled, Apply, Log;
    ReachesThen(s, t, PublishUpload(newer), s');
  }

  lemma OlderRetires(s: System, older: DocumentId, m: Manifest) returns (s': System)
    requires Overtaken(s, older) && m.accepted && m.leaves != {}
    ensures Reaches(s, s') && s'.maxAttempts == s.maxAttempts && Cleanable(s', older)
    ensures Row(s', older).status == Retiring && s'.docs[older].history == History(0, false, true, false)
  {
    var x := FRESH.(storage := Stored(m), job := Claimed(NEW_JOB), worker := Publishing);
    var t := With(s, older, Counted(Row(s, older), m), x);
    AttemptToPublish(s, older, m);
    PublishOlder(t, older);
    s' := With(t, older, Row(t, older).(status := Retiring),
               x.(worker := Cleaning, history := x.history.(settled := true)));
    hide Reaches, Stored, Leads;
    ReachesThen(s, t, PublishUpload(older), s');
  }

  /**
  For every bound there is a reachable state in which an upload that was never active has been claimed
  more often, without a crash: its document was superseded, and its cleanup keeps failing.
  */
  lemma SupersededClaimsAreUnbounded(
    maxAttempts: int, older: DocumentId, newer: DocumentId, f: string, m: Manifest, bound: nat) returns (s: System)
    requires older != newer && m.accepted && m.leaves != {}
    ensures Reachable(s) && s.maxAttempts == maxAttempts && Known(s, older) && Row(s, older).status == Retiring
    ensures !s.docs[older].history.everActive && s.docs[older].history.crashes == 0
    ensures s.docs[older].job.attempts > bound
  {
    hide Reaches, Reachable, TwoFresh, Overtaken;
    var start := Init(maxAttempts);
    var s1 := TwoUploads(maxAttempts, older, newer, f);
    var s2 := NewerIsPublished(s1, older, newer, f, m);
    var s3 := OlderRetires(s2, older, m);
    s := Repeated(s3, older, bound + 1);
    SettledClaimsAreUnbounded(s3, older, bound + 1);
    hide Cleanable;
    ReachesTrans(start, s1, s2);
    ReachesTrans(start, s2, s3);
    ReachesTrans(start, s3, s);
    ReachableByRun(s);
  }
}
