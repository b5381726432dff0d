/** What the checks of an upload decide, what a failure of it comes to, and when a lifecycle operation may start. */
module PublicationChecks {
  import opened Wrappers
  import opened Registry
  import opened UploadJobs
  import opened Publication
  import opened PublicationRuns

  // ---- the checks of `process` ----

  predicate OnlyWorker(s: System, s': System, id: DocumentId) {
    && Known(s, id) && id in s'.docs && s'.tables == s.tables && s'.published == s.published && s'.maxAttempts == s.maxAttempts
    && s'.exclusive == s.exclusive && s'.docs == s.docs[id := s.docs[id].(worker := s'.docs[id].worker)]
  }

  /** A document whose publication has committed is only cleaned up after; one that is not staging is refused for good. */
  lemma StatusDecides(s: System, id: DocumentId)
    requires Enabled(s, ReadStatus(id))
    ensures var s', status := Apply(s, ReadStatus(id)), Row(s, id).status;
            && OnlyWorker(s, s', id)
            && s'.docs[id].worker == if status in {Active, Retiring, SoftDeleting, SoftDeleted} then Cleaning
                                     else if status == Staging then Parsing
                                     else Raised(true)
  {
  }

  /** A saved manifest is taken before a parsed one; one that is not validated or has no leaf is refused for good. */
  lemma ManifestDecides(s: System, id: DocumentId, parsed: Option<Manifest>)
    requires Enabled(s, LoadManifest(id, parsed))
    ensures var s', saved := Apply(s, LoadManifest(id, parsed)), s.docs[id].storage.manifest;
            && id in s'.docs && s'.tables == s.tables
            && s'.docs[id].storage.manifest == (if saved == None then parsed else saved)
            && s'.docs[id].storage.parents == s.docs[id].storage.parents
            && s'.docs[id].storage.vectors == s.docs[id].storage.vectors
            && (s'.docs[id].worker == Raised(true) || s'.docs[id].worker.WritingParents?)
            && (s'.docs[id].worker.WritingParents? <==>
                  && s'.docs[id].storage.manifest.Some? && s'.docs[id].storage.manifest.value.accepted
                  && s'.docs[id].storage.manifest.value.leaves != {})
            && (s'.docs[id].worker.WritingParents? ==> Some(s'.docs[id].worker.m) == s'.docs[id].storage.manifest)
  {
  }

  /** The checks of what is stored let the upload go on, or fail it for this time: as many live parents as expected, */
  lemma ParentCountDecides(s: System, id: DocumentId)
    requires Enabled(s, CountParents(id))
    ensures var s', x := Apply(s, CountParents(id)), s.docs[id];
            && OnlyWorker(s, s', id)
            && s'.docs[id].worker == if |Live(x.storage.parents)| == |x.worker.m.parents|
                                     then WritingVectors(x.worker.m, {}) else Raised(false)
  {
  }

  /** all of them live, */
  lemma LiveParentsDecide(s: System, id: DocumentId)
    requires Enabled(s, CheckParents(id))
    ensures var s', x := Apply(s, CheckParents(id)), s.docs[id];
            && OnlyWorker(s, s', id)
            && s'.docs[id].worker == if x.worker.m.parents <= Live(x.storage.parents)
                                     then CheckingLeaves(x.worker.m) else Raised(false)
  {
    var live, needed := Live(s.docs[id].storage.parents), s.docs[id].worker.m.parents;
    hide Live;
    if live * needed == needed { assert forall k :: k in needed ==> k in live * needed; }
  }

  /** and exactly the expected leaves. */
  lemma LiveLeavesDecide(s: System, id: DocumentId)
    requires Enabled(s, CheckLeaves(id))
    ensures var s', x := Apply(s, CheckLeaves(id)), s.docs[id];
            && OnlyWorker(s, s', id)
            && s'.docs[id].worker == if Live(x.storage.vectors) == x.worker.m.leaves
                                     then RecordingCounts(x.worker.m) else Raised(false)
  {
  }

  // ---- what a failure comes to ----

  /** The failed attempt is beyond another try. */
  predicate Hopeless(s: System, id: DocumentId, permanent: bool)
    requires Known(s, id)
  {
    && (permanent || (s.docs[id].job.attempts >= 1 && s.docs[id].job.attempts >= s.maxAttempts))
    && Row(s, id).status !in {Active, Retiring, SoftDeleting, SoftDeleted}
  }

  /** The state after the failure of an attempt has been dealt with. */
  function Settled(s: System, id: DocumentId, permanent: bool): System
    requires Known(s, id)
  {
    var status := if Hopeless(s, id, permanent) then JobFailed else JobPending;
    var t := Local(s, id, s.docs[id].(job := s.docs[id].job.(status := status), worker := Idle));
    if Hopeless(s, id, permanent) && Row(s, id).status == Staging
    then t.(tables := SetStatus(s.tables, id, Failed)) else t
  }

  /** The last step of `retry_job` that is taken in any case. */
  lemma RetrySteps(s: System, id: DocumentId, permanent: bool)
    requires Known(s, id) && s.docs[id].worker == Raised(permanent)
    ensures var x, status := s.docs[id], if Hopeless(s, id, permanent) then JobFailed else JobPending;
            && Leads(s, ReadForRetry(id), Local(s, id, x.(worker := Retrying(permanent, Row(s, id).status))))
            && Leads(Local(s, id, x.(worker := Retrying(permanent, Row(s, id).status))), CommitRetry(id),
                     Local(s, id, x.(job := x.job.(status := status), worker := Rereading(Hopeless(s, id, permanent)))))
  {
    var x, seen := s.docs[id], Row(s, id).status;
    LocalTwice(s, id, x, x);
    RetryOutcome(x.job, Some(seen), permanent, s.maxAttempts);
    hide Leads, Local, Exhausted;
    WorkerStep(s, ReadForRetry(id), x, x.(worker := Retrying(permanent, seen)));
    var x' := AfterRetry(x.(worker := Retrying(permanent, seen)), s.maxAttempts);
    WorkerStep(s, CommitRetry(id), x.(worker := Retrying(permanent, seen)), x');
    assert Exhausted(x.job, Some(seen), permanent, s.maxAttempts) <==> Hopeless(s, id, permanent);
  }

  lemma RereadStep(s: System, id: DocumentId, y: State, exhausted: bool)
    requires Known(s, id) && y.worker == Rereading(exhausted)
    ensures Leads(Local(s, id, y), Reread(id),
                  Local(s, id, y.(worker := if exhausted && Row(s, id).status == Staging then MarkingFailed else Idle)))
  {
    hide Leads, Local;
    WorkerStep(s, Reread(id), y, y.(worker := if exhausted && Row(s, id).status == Staging then MarkingFailed else Idle));
  }

  lemma MarkStep(s: System, id: DocumentId, y: State)
    requires Known(s, id) && y.worker == MarkingFailed
    ensures Leads(Local(s, id, y), MarkFailed(id), Local(s, id, y.(worker := Idle)).(tables := SetStatus(s.tables, id, Failed)))
  {
    hide SetStatus;
  }

  /**
  A failed attempt, left to itself, ends with the worker idle and the job failed if it was beyond
  another try, pending otherwise; a staging document fails with its job, and nothing else changes.
  */
  lemma FaultIsSettled(s: System, id: DocumentId, permanent: bool)
    requires Known(s, id) && s.docs[id].worker == Raised(permanent)
    ensures Reaches(s, Settled(s, id, permanent))
  {
    var x, hopeless := s.docs[id], Hopeless(s, id, permanent);
    var x1 := x.(worker := Retrying(permanent, Row(s, id).status));
    var x2 := x.(job := x.job.(status := if hopeless then JobFailed else JobPending), worker := Rereading(hopeless));
    var x3 := x2.(worker := if hopeless && Row(s, id).status == Staging then MarkingFailed else Idle);
    RetrySteps(s, id, permanent);
    RereadStep(s, id, x2, hopeless);
    if x3.worker == MarkingFailed { MarkStep(s, id, x3); }
    hide Leads, Reaches, Local, SetStatus, Hopeless;
    ReachesThrice(s, ReadForRetry(id), Local(s, id, x1), CommitRetry(id), Local(s, id, x2), Reread(id), Local(s, id, x3));
    if x3.worker == MarkingFailed { ReachesThen(s, Local(s, id, x3), MarkFailed(id), Settled(s, id, permanent)); }
  }

  // ---- the lifecycle lock ----

  /** One operation at a time, each from the statuses it is meant for. */
  lemma OperationsBegin(s: System, id: DocumentId, retiringOnly: bool)
    requires Known(s, id)
    ensures var x, status := s.docs[id], Row(s, id).status;
            && (Enabled(s, BeginDelete(id, retiringOnly)) <==>
                  && x.lifecycle == Unlocked
                  && (retiringOnly ==> status in {Retiring, SoftDeleting})
                  && (!retiringOnly ==> x.history.everActive && status !in {SoftDeleted, Purging, Purged}))
            && (Enabled(s, BeginRestore(id)) <==>
                  && x.lifecycle == Unlocked && status != Active && status != Purged
                  && (s.exclusive ==> x.worker == Idle && x.job.status in {JobCompleted, JobFailed}))
            && (Enabled(s, BeginPurge(id)) <==> x.lifecycle == Unlocked && status == SoftDeleted)
  {
  }

  /** An operation that has raised does nothing more than undo itself; one that has not, does not undo. */
  lemma OperationsGoOn(s: System, id: DocumentId)
    requires Known(s, id)
    ensures var l := s.docs[id].lifecycle;
            var raised := l.DeleteRaised? || l.RestoreRaised? || l.PurgeRaised?;
            && (Enabled(s, Proceed(id)) <==> l != Unlocked && !raised)
            && (Enabled(s, Undo(id)) <==> raised)
            && (Enabled(s, CrashLifecycle(id)) <==> l != Unlocked)
  {
    hide SetStatus, AfterProceed;
  }

  /** Every step behind the `try` may fail, of an operation and of an upload. */
  lemma AnyStepMayFail(s: System, id: DocumentId, touched: set<ChunkId>, permanent: bool)
    requires Known(s, id)
    ensures var l := s.docs[id].lifecycle;
            Enabled(s, Fail(id, touched)) <==>
              l != Unlocked && !l.DeleteBegun? && !l.PurgeBegun? && !l.DeleteRaised? && !l.RestoreRaised? && !l.PurgeRaised?
    ensures var w := s.docs[id].worker;
            Enabled(s, Raise(id, permanent)) <==>
              || w.ReadingStatus? || w.Parsing? || w.WritingParents? || w.CountingParents? || w.WritingVectors?
              || w.CheckingParents? || w.CheckingLeaves? || w.RecordingCounts? || w.Publishing? || w.Cleaning?
    ensures Enabled(s, CrashWorker(id)) <==> s.docs[id].worker != Idle
  {
  }

  /** How workers and operations end, well or by a crash: their place is given up, and the rest stays as it is. */
  lemma PlacesAreGivenUp(s: System, id: DocumentId)
    requires Known(s, id)
    ensures Enabled(s, CompleteJob(id)) <==> s.docs[id].worker == Cleaning
    ensures Enabled(s, CompleteJob(id)) ==>
              Apply(s, CompleteJob(id)) ==
              s.(docs := s.docs[id := s.docs[id].(worker := Idle, job := s.docs[id].job.(status := JobCompleted))])
    ensures Enabled(s, CrashWorker(id)) ==>
              var h := s.docs[id].history;
              Apply(s, CrashWorker(id)) ==
              s.(docs := s.docs[id := s.docs[id].(worker := Idle, history := h.(crashes := h.crashes + 1))])
    ensures Enabled(s, CrashLifecycle(id)) ==>
              Apply(s, CrashLifecycle(id)) == s.(docs := s.docs[id := s.docs[id].(lifecycle := Unlocked)])
  {
  }
}
