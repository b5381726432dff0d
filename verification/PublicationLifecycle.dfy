/** Whole operations of the lifecycle service, carried through: what a delete, a restore and a purge leave. */
module PublicationLifecycle {
  import opened Wrappers
  import opened Registry
  import opened UploadJobs
  import opened Publication
  import opened PublicationInvariant
  import opened PublicationTheorems
  import opened PublicationRuns
  import opened PublicationChecks

  // ---- what a completed operation leaves, whatever ran beside it ----

  predicate At(s: System, a: Action, l: Lifecycle) {
    a.Proceed? && Known(s, a.id) && s.docs[a.id].lifecycle == l
  }

  /** A soft delete commits only when no chunk of the document is live, and no head points to it. */
  lemma DeletedHasNothingLive(s: System, a: Action, seen: Status)
    requires Reachable(s) && Enabled(s, a) && At(s, a, FinishingDelete(seen))
    ensures var s' := Apply(s, a);
            && Known(s', a.id) && Row(s', a.id).status == SoftDeleted
            && (forall k :: k in s'.docs[a.id].storage.vectors ==> !s'.docs[a.id].storage.vectors[k])
            && (forall k :: k in s'.docs[a.id].storage.parents ==> !s'.docs[a.id].storage.parents[k])
            && (forall f :: !PointsTo(s'.tables, f, a.id))
  {
    hide Inv, Reachable, Enabled, Apply, CurrentIsActive, SetStatus, NothingLive;
    ReachableInv(s);
    ReachableCurrentIsActive(s);
    HeldInInv(s, a.id);
    CommitApplies(s, a, SoftDeleted);
    NothingLiveRows(s.docs[a.id].storage);
    NotPointedTo(s.tables, a.id, SoftDeleted);
  }

  lemma HeldInInv(s: System, id: DocumentId)
    requires Inv(s) && id in s.docs
    ensures Known(s, id) && Held(s.docs[id], Row(s, id))
  {
    hide Held, RowOk, JobOk, HistoryOk, TablesOk;
    assert DocInv(s, id);
  }

  /** A lifecycle step that commits a status. */
  lemma CommitApplies(s: System, a: Action, status: Status)
    requires Enabled(s, a) && a.Proceed? && a.id in s.docs && StatusOfStep(s.docs[a.id].lifecycle) == Some(status)
    ensures Known(s, a.id)
    ensures Apply(s, a) == Local(s, a.id, AfterProceed(s.docs[a.id])).(tables := SetStatus(s.tables, a.id, status))
  {
    hide SetStatus, AfterProceed;
  }

  lemma NothingLiveRows(st: Storage)
    requires NothingLive(st)
    ensures forall k :: k in st.vectors ==> !st.vectors[k]
    ensures forall k :: k in st.parents ==> !st.parents[k]
  {
    assert forall k :: k in st.vectors && st.vectors[k] ==> k in Live(st.vectors);
    assert forall k :: k in st.parents && st.parents[k] ==> k in Live(st.parents);
  }

  lemma NotPointedTo(t: Tables, id: DocumentId, status: Status)
    requires CurrentIsActive(t) && id in t.documents && t.documents[id].status != Active && status != Active
    ensures var t' := SetStatus(t, id, status);
            && id in t'.documents && t'.documents[id].status == status
            && forall f :: !PointsTo(t', f, id)
  {
    forall f ensures !PointsTo(SetStatus(t, id, status), f, id) { assert !PointsTo(t, f, id); }
  }

  /** A purge commits only when neither store has a chunk of the document left. */
  lemma PurgedHasNothing(s: System, a: Action)
    requires Reachable(s) && Enabled(s, a) && At(s, a, FinishingPurge)
    ensures var s' := Apply(s, a);
            && Known(s', a.id) && Row(s', a.id).status == Purged
            && s'.docs[a.id].storage.vectors == map[] && s'.docs[a.id].storage.parents == map[]
  {
    hide Inv, Reachable, Enabled, Apply, SetStatus, CurrentIsActive;
    ReachableInv(s);
    ReachableCurrentIsActive(s);
    HeldInInv(s, a.id);
    CommitApplies(s, a, Purged);
    NotPointedTo(s.tables, a.id, Purged);
  }

  // ---- operations that fail part-way ----

  /** What a failing operation may have done to the rows it was working on, one by one. */
  predicate PartOf(l: Lifecycle, rows: Rows, rows': Rows, touched: set<ChunkId>, k: ChunkId) {
    if k !in rows || k !in touched then k in rows' <==> k in rows
    else if l.PurgingVectors? then k in rows' <==> rows[k]
    else k in rows'
  }

  /**
  A failure leaves the registry and the parents as they are. Of the vector rows at most those touched
  are changed: taken down by a delete, put up by a restore, and by a purge dropped if they are dead.
  */
  lemma FailureIsPartial(s: System, id: DocumentId, touched: set<ChunkId>)
    requires Enabled(s, Fail(id, touched))
    ensures var s', l := Apply(s, Fail(id, touched)), s.docs[id].lifecycle;
            && s'.tables == s.tables && s'.docs == s.docs[id := s'.docs[id]] && HasRaised(s'.docs[id].lifecycle)
            && s'.docs[id].job == s.docs[id].job && s'.docs[id].worker == s.docs[id].worker
            && var rows, rows' := s.docs[id].storage.vectors, s'.docs[id].storage.vectors;
               && s'.docs[id].storage == s.docs[id].storage.(vectors := rows')
               && (forall k :: PartOf(l, rows, rows', touched, k))
               && (forall k :: k in rows && k in rows' ==>
                     rows'[k] == if k in touched && l.DeletingVectors? then false
                                 else if k in touched && l.RestoringVectors? then true
                                 else rows[k])
  {
  }

  /**
  The handler writes a status under which readers see nothing of the document, gives the lock back,
  and changes no other document.
  */
  lemma FailedOperationHides(s: System, id: DocumentId)
    requires Reachable(s) && Enabled(s, Undo(id))
    ensures var s', x := Apply(s, Undo(id)), s.docs[id];
            && Known(s', id) && s'.docs == s.docs[id := x.(lifecycle := Unlocked)] && s'.exclusive == s.exclusive
            && (forall f :: !PointsTo(s'.tables, f, id))
            && Row(s', id).status == if x.lifecycle.PurgeRaised? then SoftDeleted
                                     else if x.lifecycle.DeleteRaised? && x.lifecycle.seen in {Retiring, SoftDeleting}
                                     then Retiring
                                     else Failed
  {
    hide CurrentIsActive, SetStatus, Reachable, Apply;
    ReachableCurrentIsActive(s);
    UndoApplies(s, id);
    TakenOff(s.tables, id, UndoStatus(s.docs[id].lifecycle));
  }

  /** What failed can be tried again: a cleanup, a delete, a restore or a purge. */
  lemma FailedOperationCanBeRetried(s: System, id: DocumentId)
    requires Reachable(s) && Enabled(s, Undo(id))
    ensures var s', x := Apply(s, Undo(id)), s.docs[id];
            && (x.lifecycle.PurgeRaised? ==> Enabled(s', BeginPurge(id)))
            && (x.lifecycle.RestoreRaised? && Quiet(x) ==> Enabled(s', BeginRestore(id)))
            && (x.lifecycle.DeleteRaised? && x.lifecycle.seen in {Retiring, SoftDeleting} ==> Enabled(s', BeginDelete(id, true)))
            && (x.lifecycle.DeleteRaised? && x.lifecycle.seen !in {Retiring, SoftDeleting} && x.history.everActive ==>
                  Enabled(s', BeginDelete(id, false)))
  {
    FailedOperationHides(s, id);
    hide Reachable, Enabled, Apply;
    OperationsBegin(Apply(s, Undo(id)), id, true);
    OperationsBegin(Apply(s, Undo(id)), id, false);
  }

  lemma UndoApplies(s: System, id: DocumentId)
    requires Enabled(s, Undo(id))
    ensures var x := s.docs[id];
            Apply(s, Undo(id)) == s.(docs := s.docs[id := x.(lifecycle := Unlocked)],
                                     tables := SetStatus(s.tables, id, UndoStatus(x.lifecycle)))
  {
    hide SetStatus, UndoStatus;
  }

  lemma TakenOff(t: Tables, id: DocumentId, status: Status)
    requires CurrentIsActive(t) && id in t.documents && status != Active
    ensures var t' := SetStatus(t, id, status);
            && id in t'.documents && t'.documents[id] == t.documents[id].(status := status)
            && forall f :: !PointsTo(t', f, id)
  {
    forall f ensures !PointsTo(SetStatus(t, id, status), f, id) {
      if f != t.documents[id].filename { assert !PointsTo(t, f, id); }
    }
  }

  // ---- a document under its head, and taken off it ----

  /** The system with `id` off its head and in another status. */
  function Hidden(s: System, id: DocumentId, status: Status): System
    requires Known(s, id) && Row(s, id).filename in s.tables.heads
  {
    var f := Row(s, id).filename;
    s.(tables := Tables(
         s.tables.heads[f := s.tables.heads[f].(current := None)],
         s.tables.documents[id := Row(s, id).(status := status)]))
  }

  /** An active, completely stored document whose job is over and whose lifecycle lock is free. */
  predicate Resting(s: System, id: DocumentId) {
    && Known(s, id) && PointsTo(s.tables, Row(s, id).filename, id) && Row(s, id).status == Active
    && Row(s, id).version <= s.tables.heads[Row(s, id).filename].publishedVersion
    && s.docs[id].lifecycle.Unlocked? && Quiet(s.docs[id]) && s.docs[id].history.everActive
    && AllLive(s, id)
  }

  /** Every row of both stores is live, and the counts of the row are those of the stores. */
  predicate AllLive(s: System, id: DocumentId)
    requires Known(s, id)
  {
    var st, row := s.docs[id].storage, Row(s, id);
    && Live(st.vectors) == st.vectors.Keys && Live(st.parents) == st.parents.Keys
    && row.leafChunkCount == |st.vectors| > 0 && row.parentChunkCount == |st.parents|
  }

  /** In a reachable state that is all an active document needs besides. */
  lemma ActiveRests(s: System, id: DocumentId)
    requires Reachable(s) && Known(s, id) && Row(s, id).status == Active
    requires s.docs[id].lifecycle.Unlocked? && Quiet(s.docs[id])
    ensures Resting(s, id)
  {
    hide Reachable, Quiet, ActorsOk, JobOk, HistoryOk, TablesOk, AllLive;
    ReachableInv(s);
    KnownInInv(s, id);
    hide Inv;
    StoredIsLive(s, id);
  }

  lemma StoredIsLive(s: System, id: DocumentId)
    requires Known(s, id) && Complete(s.docs[id].storage) && Contained(s.docs[id].storage)
    requires var m, row := s.docs[id].storage.manifest.value, Row(s, id);
             row.leafChunkCount == |m.leaves| > 0 && row.parentChunkCount == |m.parents|
    ensures AllLive(s, id)
  {
    var st := s.docs[id].storage;
    assert Live(st.vectors) <= st.vectors.Keys && Live(st.parents) <= st.parents.Keys;
    LiveCounts(st);
    assert st.vectors.Keys == st.manifest.value.leaves && st.parents.Keys == st.manifest.value.parents;
  }

  lemma HideOnce(s: System, id: DocumentId, status: Status)
    requires Known(s, id) && PointsTo(s.tables, Row(s, id).filename, id) && status != Active
    ensures SetStatus(s.tables, id, status) == Hidden(s, id, status).tables
  {
  }

  lemma HideAgain(s: System, id: DocumentId, status: Status, next: Status)
    requires Known(s, id) && PointsTo(s.tables, Row(s, id).filename, id) && next != Active
    ensures SetStatus(Hidden(s, id, status).tables, id, next) == Hidden(s, id, next).tables
  {
    var t := Hidden(s, id, status).tables;
    assert t.documents[id := Row(s, id).(status := next)] == Hidden(s, id, next).tables.documents;
  }

  /** A lifecycle step that commits a status, once the document is off its head. */
  lemma HiddenCommit(s: System, id: DocumentId, status: Status, next: Status, x: State)
    requires Known(s, id) && PointsTo(s.tables, Row(s, id).filename, id)
    requires StatusOfStep(x.lifecycle) == Some(next) && !x.lifecycle.Unlocked? && !HasRaised(x.lifecycle)
    ensures Leads(Local(Hidden(s, id, status), id, x), Proceed(id), Local(Hidden(s, id, next), id, AfterProceed(x)))
  {
    HideAgain(s, id, status, next);
    HiddenKnown(s, id, status);
    hide Hidden, AfterProceed, SetStatus;
    CommitLeads(Hidden(s, id, status), id, next, x);
    assert Local(Hidden(s, id, status), id, AfterProceed(x)).(tables := Hidden(s, id, next).tables)
        == Local(Hidden(s, id, next), id, AfterProceed(x)) by { HiddenFrame(s, id, status, next); }
  }

  lemma HiddenKnown(s: System, id: DocumentId, status: Status)
    requires Known(s, id) && Row(s, id).filename in s.tables.heads
    ensures Known(Hidden(s, id, status), id) && Row(Hidden(s, id, status), id) == Row(s, id).(status := status)
    ensures Hidden(s, id, status).exclusive == s.exclusive && Hidden(s, id, status).docs == s.docs
  {
  }

  lemma HiddenFrame(s: System, id: DocumentId, status: Status, next: Status)
    requires Known(s, id) && Row(s, id).filename in s.tables.heads
    ensures Hidden(s, id, status).(tables := Hidden(s, id, next).tables) == Hidden(s, id, next)
  {
  }

  lemma CommitLeads(s: System, id: DocumentId, next: Status, x: State)
    requires Known(s, id) && StatusOfStep(x.lifecycle) == Some(next) && !x.lifecycle.Unlocked? && !HasRaised(x.lifecycle)
    ensures Leads(Local(s, id, x), Proceed(id), Local(s, id, AfterProceed(x)).(tables := SetStatus(s.tables, id, next)))
  {
    hide SetStatus, AfterProceed;
  }

  /** A lifecycle step that leaves the registry alone. */
  lemma ProceedLeads(s: System, id: DocumentId, x: State, x': State)
    requires Known(s, id) && !x.lifecycle.Unlocked? && !HasRaised(x.lifecycle)
    requires StatusOfStep(x.lifecycle).None? && !x.lifecycle.Republishing? && AfterProceed(x) == x'
    ensures Leads(Local(s, id, x), Proceed(id), Local(s, id, x'))
  {
    hide AfterProceed, Local, Leads;
    LifecycleStep(s, Proceed(id), x, x');
  }

  // ---- deleting ----

  function Dead(st: Storage): Storage {
    st.(vectors := Flag(st.vectors, st.vectors.Keys, false), parents := Flag(st.parents, st.parents.Keys, false))
  }

  lemma DeadFacts(st: Storage)
    ensures var d := Dead(st);
            && d.vectors.Keys == st.vectors.Keys && d.parents.Keys == st.parents.Keys
            && Live(d.vectors) == {} && Live(d.parents) == {}
  {
  }

  /** Standing where `l` says, with the store as it is. */
  function Standing(x: State, l: Lifecycle): State {
    x.(lifecycle := l)
  }

  lemma BeginDeletes(s: System, id: DocumentId)
    requires Resting(s, id)
    ensures var x := s.docs[id];
            Reaches(s, Local(Hidden(s, id, SoftDeleting), id, Standing(x, DeletingVectors(Active))))
  {
    var x := s.docs[id];
    var x1 := Standing(x, DeleteBegun(Active));
    LocalTwice(s, id, x, x);
    LifecycleStep(s, BeginDelete(id, false), x, x1);
    HideOnce(s, id, SoftDeleting);
    CommitLeads(s, id, SoftDeleting, x1);
    BegunHidden(s, id, x1);
    hide Leads, Reaches, Local, Known, Hidden, Resting, SetStatus;
    ReachesStep(s, BeginDelete(id, false), Local(s, id, x1));
    ReachesThen(s, Local(s, id, x1), Proceed(id), Local(Hidden(s, id, SoftDeleting), id, Standing(x, DeletingVectors(Active))));
  }

  lemma BegunHidden(s: System, id: DocumentId, x: State)
    requires Known(s, id) && PointsTo(s.tables, Row(s, id).filename, id) && x.lifecycle == DeleteBegun(Active)
    ensures Local(s, id, AfterProceed(x)).(tables := Hidden(s, id, SoftDeleting).tables)
         == Local(Hidden(s, id, SoftDeleting), id, Standing(x, DeletingVectors(Active)))
  {
  }

  /** The flags of both stores are taken down and counted. */
  lemma DeleteFlags(h: System, id: DocumentId, x: State, seen: Status)
    requires Known(h, id) && x.lifecycle == DeletingVectors(seen)
    ensures Reaches(Local(h, id, x), Local(h, id, Standing(x.(storage := Dead(x.storage)), FinishingDelete(seen))))
  {
    var x1 := x.(storage := x.storage.(vectors := Flag(x.storage.vectors, x.storage.vectors.Keys, false)),
                 lifecycle := DeletingParents(seen));
    var x2 := Standing(x.(storage := Dead(x.storage)), CountingRemaining(seen));
    var x3 := Standing(x2, FinishingDelete(seen));
    DeadFacts(x.storage);
    hide Flag, Live, Leads, Reaches, Local, Known;
    ProceedLeads(h, id, x, x1);
    ProceedLeads(h, id, x1, x2);
    ProceedLeads(h, id, x2, x3);
    ReachesStep(Local(h, id, x), Proceed(id), Local(h, id, x1));
    ReachesThen(Local(h, id, x), Local(h, id, x1), Proceed(id), Local(h, id, x2));
    ReachesThen(Local(h, id, x), Local(h, id, x2), Proceed(id), Local(h, id, x3));
  }

  /** The document after a soft delete: hidden, with its rows in place but dead. */
  function Deleted(s: System, id: DocumentId): System
    requires Known(s, id) && Row(s, id).filename in s.tables.heads
  {
    Local(Hidden(s, id, SoftDeleted), id, s.docs[id].(storage := Dead(s.docs[id].storage)))
  }

  lemma DeleteEnds(s: System, id: DocumentId)
    requires Resting(s, id)
    ensures var y := s.docs[id].(storage := Dead(s.docs[id].storage));
            Reaches(Local(Hidden(s, id, SoftDeleting), id, Standing(y, FinishingDelete(Active))), Deleted(s, id))
  {
    var y := s.docs[id].(storage := Dead(s.docs[id].storage));
    var h, d := Hidden(s, id, SoftDeleting), Hidden(s, id, SoftDeleted);
    HiddenKnown(s, id, SoftDeleted);
    hide Hidden, Dead, Leads, Reaches, Local, AllLive;
    assert AfterProceed(Standing(y, FinishingDelete(Active))) == Standing(y, ReportingDelete(Active));
    assert AfterProceed(Standing(y, ReportingDelete(Active))) == Standing(y, Unlocked) == y;
    HiddenCommit(s, id, SoftDeleting, SoftDeleted, Standing(y, FinishingDelete(Active)));
    ProceedLeads(d, id, Standing(y, ReportingDelete(Active)), y);
    hide Known, Resting, Standing, AfterProceed;
    ReachesTwice(Local(h, id, Standing(y, FinishingDelete(Active))), Proceed(id), Local(d, id, Standing(y, ReportingDelete(Active))),
                 Proceed(id), Local(d, id, y));
  }

  lemma SoftDelete(s: System, id: DocumentId)
    requires Resting(s, id)
    ensures Reaches(s, Deleted(s, id))
  {
    var x1 := Standing(s.docs[id], DeletingVectors(Active));
    var x2 := Standing(s.docs[id].(storage := Dead(s.docs[id].storage)), FinishingDelete(Active));
    var h := Hidden(s, id, SoftDeleting);
    HiddenKnown(s, id, SoftDeleting);
    BeginDeletes(s, id);
    DeleteEnds(s, id);
    hide Hidden, Reaches, Resting, Dead, Deleted;
    DeleteFlags(h, id, x1, Active);
    hide Local, Known;
    ReachesTrans(s, Local(h, id, x1), Local(h, id, x2));
    ReachesTrans(s, Local(h, id, x2), Deleted(s, id));
  }

  // ---- restoring ----

  lemma FlagsBack(rows: Rows)
    requires Live(rows) == rows.Keys
    ensures Flag(Flag(rows, rows.Keys, false), rows.Keys, true) == rows
  {
    forall k | k in rows ensures rows[k] { assert k in Live(rows); }
  }

  /** The document being restored, with the storage of `s` again. */
  function Restored(x: State, l: Lifecycle): State {
    x.(lifecycle := l, history := x.history.(restored := true))
  }

  /** A document whose storage was taken down, as the restore begins and when it has put half of it back. */
  function Reviving(x: State, l: Lifecycle): State {
    Restored(x.(storage := Dead(x.storage)), l)
  }

  function HalfRevived(x: State, l: Lifecycle): State {
    Restored(x.(storage := Dead(x.storage).(vectors := x.storage.vectors)), l)
  }

  lemma FlagsReturn(x: State, leaves: nat, parents: nat)
    requires Live(x.storage.vectors) == x.storage.vectors.Keys && Live(x.storage.parents) == x.storage.parents.Keys
    ensures AfterProceed(Reviving(x, RestoringVectors(leaves, parents))) == HalfRevived(x, RestoringParents(leaves, parents))
    ensures AfterProceed(HalfRevived(x, RestoringParents(leaves, parents))) == Restored(x, CountingLeaves(leaves, parents))
  {
    FlagsBack(x.storage.vectors);
    FlagsBack(x.storage.parents);
    DeadFacts(x.storage);
    hide Live, Flag;
  }

  lemma RestoreBegins(s: System, id: DocumentId)
    requires Resting(s, id)
    ensures var l := RestoringVectors(Row(s, id).leafChunkCount, Row(s, id).parentChunkCount);
            Leads(Deleted(s, id), BeginRestore(id), Local(Hidden(s, id, SoftDeleted), id, Reviving(s.docs[id], l)))
  {
    var x, d := s.docs[id], Hidden(s, id, SoftDeleted);
    var l := RestoringVectors(Row(s, id).leafChunkCount, Row(s, id).parentChunkCount);
    HiddenKnown(s, id, SoftDeleted);
    hide Hidden, Dead, Leads, Local, Known, AllLive;
    LifecycleStep(d, BeginRestore(id), x.(storage := Dead(x.storage)), Reviving(x, l));
  }

  lemma RestoreFlags(s: System, id: DocumentId)
    requires Resting(s, id)
    ensures var d, leaves, parents := Hidden(s, id, SoftDeleted), Row(s, id).leafChunkCount, Row(s, id).parentChunkCount;
            Reaches(Deleted(s, id), Local(d, id, Restored(s.docs[id], CountingLeaves(leaves, parents))))
  {
    var x, d := s.docs[id], Hidden(s, id, SoftDeleted);
    var leaves, parents := Row(s, id).leafChunkCount, Row(s, id).parentChunkCount;
    HiddenKnown(s, id, SoftDeleted);
    FlagsReturn(x, leaves, parents);
    RestoreBegins(s, id);
    hide Hidden, Leads, Reaches, Local, Known, Resting, Deleted, AfterProceed, Dead;
    ProceedLeads(d, id, Reviving(x, RestoringVectors(leaves, parents)), HalfRevived(x, RestoringParents(leaves, parents)));
    ProceedLeads(d, id, HalfRevived(x, RestoringParents(leaves, parents)), Restored(x, CountingLeaves(leaves, parents)));
    ReachesThrice(Deleted(s, id), BeginRestore(id), Local(d, id, Reviving(x, RestoringVectors(leaves, parents))),
                  Proceed(id), Local(d, id, HalfRevived(x, RestoringParents(leaves, parents))),
                  Proceed(id), Local(d, id, Restored(x, CountingLeaves(leaves, parents))));
  }

  /** The counts agree, so the document goes back to staging. */
  lemma CountsAgree(x: State, leaves: nat, parents: nat)
    requires Live(x.storage.vectors) == x.storage.vectors.Keys && Live(x.storage.parents) == x.storage.parents.Keys
    requires leaves == |x.storage.vectors| > 0 && parents == |x.storage.parents|
    ensures AfterProceed(Restored(x, CountingLeaves(leaves, parents))) == Restored(x, CountingRestored(parents))
    ensures AfterProceed(Restored(x, CountingRestored(parents))) == Restored(x, Restaging)
    ensures AfterProceed(Restored(x, Restaging)) == Restored(x, Republishing)
  {
    LiveCounts(x.storage);
    assert |Live(x.storage.vectors)| == leaves && |Live(x.storage.parents)| == parents;
  }

  lemma RestoreCounts(h: System, id: DocumentId, x: State, leaves: nat, parents: nat)
    requires Known(h, id) && AfterProceed(Restored(x, CountingLeaves(leaves, parents))) == Restored(x, CountingRestored(parents))
    requires AfterProceed(Restored(x, CountingRestored(parents))) == Restored(x, Restaging)
    ensures Leads(Local(h, id, Restored(x, CountingLeaves(leaves, parents))), Proceed(id),
                  Local(h, id, Restored(x, CountingRestored(parents))))
    ensures Leads(Local(h, id, Restored(x, CountingRestored(parents))), Proceed(id), Local(h, id, Restored(x, Restaging)))
  {
    hide Leads, Local, AfterProceed;
    ProceedLeads(h, id, Restored(x, CountingLeaves(leaves, parents)), Restored(x, CountingRestored(parents)));
    ProceedLeads(h, id, Restored(x, CountingRestored(parents)), Restored(x, Restaging));
  }

  lemma RestoreCommits(s: System, id: DocumentId, x: State)
    requires Known(s, id) && PointsTo(s.tables, Row(s, id).filename, id)
    ensures Leads(Local(Hidden(s, id, SoftDeleted), id, Restored(x, Restaging)), Proceed(id),
                  Local(Hidden(s, id, Staging), id, Restored(x, Republishing)))
  {
    hide Hidden, Leads, Local;
    HiddenCommit(s, id, SoftDeleted, Staging, Restored(x, Restaging));
  }

  lemma RestoreStages(s: System, id: DocumentId)
    requires Resting(s, id)
    ensures var d, g := Hidden(s, id, SoftDeleted), Hidden(s, id, Staging);
            var leaves, parents := Row(s, id).leafChunkCount, Row(s, id).parentChunkCount;
            Reaches(Local(d, id, Restored(s.docs[id], CountingLeaves(leaves, parents))),
                    Local(g, id, Restored(s.docs[id], Republishing)))
  {
    var x, d, g := s.docs[id], Hidden(s, id, SoftDeleted), Hidden(s, id, Staging);
    var leaves, parents := Row(s, id).leafChunkCount, Row(s, id).parentChunkCount;
    HiddenKnown(s, id, SoftDeleted);
    CountsAgree(x, leaves, parents);
    hide Hidden, Leads, Reaches, Local, AfterProceed, AllLive, Restored, Quiet;
    RestoreCounts(d, id, x, leaves, parents);
    RestoreCommits(s, id, x);
    hide Known, Resting;
    ReachesThrice(Local(d, id, Restored(x, CountingLeaves(leaves, parents))), Proceed(id),
                  Local(d, id, Restored(x, CountingRestored(parents))), Proceed(id),
                  Local(d, id, Restored(x, Restaging)), Proceed(id), Local(g, id, Restored(x, Republishing)));
  }

  lemma LiveCounts(st: Storage)
    ensures |st.vectors| == |st.vectors.Keys| && |st.parents| == |st.parents.Keys|
  {
  }

  /** The forced publication puts tables and head back as they were. */
  lemma PublishBack(s: System, id: DocumentId)
    requires Resting(s, id)
    ensures var g := Hidden(s, id, Staging); Publish(g.tables, id, true) == Publication(s.tables, true)
  {
    var t, f := Hidden(s, id, Staging).tables, Row(s, id).filename;
    assert s.tables.documents[id := Row(s, id)] == s.tables.documents;
    assert s.tables.heads[f := s.tables.heads[f]] == s.tables.heads;
    assert t.heads[f := s.tables.heads[f]] == s.tables.heads;
    assert t.documents[id := Row(s, id)] == s.tables.documents;
  }

  /** What remains of the trip: the history knows of the restore and of one more publication. */
  function Back(s: System, id: DocumentId): System
    requires Known(s, id)
  {
    Local(s, id, Restored(s.docs[id], Unlocked)).(published := Log(s, id))
  }

  lemma BackFacts(s: System, id: DocumentId)
    requires Known(s, id)
    ensures var t := Back(s, id);
            && t.tables == s.tables && t.docs.Keys == s.docs.Keys && t.docs[id].lifecycle.Unlocked?
            && forall d :: d in s.docs ==> t.docs[d].storage == s.docs[d].storage && t.docs[d].job == s.docs[d].job
  {
  }

  /** As `Back`, before the lock is given back. */
  function Reporting(s: System, id: DocumentId): System
    requires Known(s, id)
  {
    Local(s, id, Restored(s.docs[id], ReportingRestore)).(published := Log(s, id))
  }

  lemma ReportsBack(s: System, id: DocumentId)
    requires Known(s, id)
    ensures Leads(Reporting(s, id), Proceed(id), Back(s, id))
  {
    var r := s.(published := Log(s, id));
    hide Log, Leads;
    ProceedLeads(r, id, Restored(s.docs[id], ReportingRestore), Restored(s.docs[id], Unlocked));
    hide Restored;
    assert Local(r, id, Restored(s.docs[id], ReportingRestore)) == Reporting(s, id);
    assert Local(r, id, Restored(s.docs[id], Unlocked)) == Back(s, id);
  }

  lemma RestorePublishes(s: System, id: DocumentId)
    requires Resting(s, id)
    ensures Reaches(Local(Hidden(s, id, Staging), id, Restored(s.docs[id], Republishing)), Back(s, id))
  {
    PublishBack(s, id);
    RepublishLeads(s, id);
    ReportsBack(s, id);
    hide Leads, Reaches, Local, Back, Reporting, Hidden, Resting, Restored;
    var g := Local(Hidden(s, id, Staging), id, Restored(s.docs[id], Republishing));
    ReachesStep(g, Proceed(id), Reporting(s, id));
    ReachesThen(g, Reporting(s, id), Proceed(id), Back(s, id));
  }

  lemma RepublishApplies(h: System, id: DocumentId, x: State)
    requires Known(h, id) && x.lifecycle.Republishing? && Publish(h.tables, id, true).published
    ensures Leads(Local(h, id, x), Proceed(id), PublishStep(Local(h, id, x), id, true, x.(lifecycle := ReportingRestore)))
  {
    hide Publish, PublishStep;
  }

  lemma RepublishLeads(s: System, id: DocumentId)
    requires Resting(s, id) && Publish(Hidden(s, id, Staging).tables, id, true) == Publication(s.tables, true)
    ensures Leads(Local(Hidden(s, id, Staging), id, Restored(s.docs[id], Republishing)), Proceed(id), Reporting(s, id))
  {
    var h, x := Hidden(s, id, Staging), Restored(s.docs[id], Republishing);
    HiddenKnown(s, id, Staging);
    hide Publish, AllLive, Leads;
    RepublishApplies(h, id, x);
    assert PublishStep(Local(h, id, x), id, true, x.(lifecycle := ReportingRestore)) == Reporting(s, id);
  }

  /**
  Deleting a document softly and restoring it is a round trip: registry and stores are exactly what
  they were.
  */
  lemma DeleteThenRestore(s: System, id: DocumentId) returns (t: System)
    requires Reachable(s) && Known(s, id) && Row(s, id).status == Active
    requires s.docs[id].lifecycle.Unlocked? && Quiet(s.docs[id])
    ensures Reaches(s, t) && t.tables == s.tables && t.docs.Keys == s.docs.Keys
    ensures forall d :: d in s.docs ==> t.docs[d].storage == s.docs[d].storage && t.docs[d].job == s.docs[d].job
    ensures t.docs[id].lifecycle.Unlocked?
  {
    ActiveRests(s, id);
    t := Back(s, id);
    var leaves, parents := Row(s, id).leafChunkCount, Row(s, id).parentChunkCount;
    SoftDelete(s, id);
    RestoreFlags(s, id);
    RestoreStages(s, id);
    RestorePublishes(s, id);
    BackFacts(s, id);
    hide Reaches, Resting, Deleted, Hidden, Reachable, Quiet, Local, Restored, Back;
    var counting := Local(Hidden(s, id, SoftDeleted), id, Restored(s.docs[id], CountingLeaves(leaves, parents)));
    var staged := Local(Hidden(s, id, Staging), id, Restored(s.docs[id], Republishing));
    ReachesTrans(s, Deleted(s, id), counting);
    ReachesTrans(s, counting, staged);
    ReachesTrans(s, staged, t);
  }

  // ---- purging ----

  lemma NothingKept(rows: Rows)
    requires Live(rows) == {}
    ensures rows - (rows.Keys - Live(rows)) == NO_ROWS && |NO_ROWS| == 0
  {
  }

  function PurgedState(x: State, l: Lifecycle): State {
    x.(storage := x.storage.(vectors := NO_ROWS, parents := NO_ROWS), lifecycle := l)
  }

  lemma PurgesRows(y: State)
    requires y.lifecycle == PurgingVectors && Live(y.storage.vectors) == {}
    ensures AfterProceed(y) == y.(storage := y.storage.(vectors := NO_ROWS), lifecycle := PurgingParents)
    ensures AfterProceed(AfterProceed(y)) == PurgedState(y, CountingPurged)
    ensures AfterProceed(PurgedState(y, CountingPurged)) == PurgedState(y, FinishingPurge)
  {
    NothingKept(y.storage.vectors);
    hide Live;
  }

  lemma PurgeRows(h: System, id: DocumentId, y: State)
    requires Known(h, id) && y.lifecycle == PurgingVectors && Live(y.storage.vectors) == {}
    ensures Reaches(Local(h, id, y), Local(h, id, PurgedState(y, FinishingPurge)))
  {
    var y1 := y.(storage := y.storage.(vectors := NO_ROWS), lifecycle := PurgingParents);
    PurgesRows(y);
    hide Live, Leads, Reaches, Local, Known, AfterProceed;
    ProceedLeads(h, id, y, y1);
    ProceedLeads(h, id, y1, PurgedState(y, CountingPurged));
    ProceedLeads(h, id, PurgedState(y, CountingPurged), PurgedState(y, FinishingPurge));
    ReachesThrice(Local(h, id, y), Proceed(id), Local(h, id, y1), Proceed(id), Local(h, id, PurgedState(y, CountingPurged)),
                  Proceed(id), Local(h, id, PurgedState(y, FinishingPurge)));
  }

  lemma PurgeTaken(s: System, id: DocumentId)
    requires Resting(s, id)
    ensures var y := s.docs[id].(storage := Dead(s.docs[id].storage));
            Leads(Deleted(s, id), BeginPurge(id), Local(Hidden(s, id, SoftDeleted), id, Standing(y, PurgeBegun)))
  {
    var y := s.docs[id].(storage := Dead(s.docs[id].storage));
    HiddenKnown(s, id, SoftDeleted);
    hide Hidden, Dead, Leads, Local, AllLive;
    LifecycleStep(Hidden(s, id, SoftDeleted), BeginPurge(id), y, Standing(y, PurgeBegun));
  }

  lemma PurgeBegins(s: System, id: DocumentId)
    requires Resting(s, id)
    ensures var y := s.docs[id].(storage := Dead(s.docs[id].storage));
            Reaches(Deleted(s, id), Local(Hidden(s, id, Purging), id, Standing(y, PurgingVectors)))
  {
    var y := s.docs[id].(storage := Dead(s.docs[id].storage));
    PurgeTaken(s, id);
    hide Hidden, Dead, Leads, Reaches, Local, Deleted, AllLive;
    HiddenCommit(s, id, SoftDeleted, Purging, Standing(y, PurgeBegun));
    assert AfterProceed(Standing(y, PurgeBegun)) == Standing(y, PurgingVectors);
    hide Known, Resting, Standing, AfterProceed;
    ReachesTwice(Deleted(s, id), BeginPurge(id), Local(Hidden(s, id, SoftDeleted), id, Standing(y, PurgeBegun)),
                 Proceed(id), Local(Hidden(s, id, Purging), id, Standing(y, PurgingVectors)));
  }

  lemma PurgeEnds(s: System, id: DocumentId)
    requires Resting(s, id)
    ensures Reaches(Local(Hidden(s, id, Purging), id, PurgedState(s.docs[id], FinishingPurge)),
                    Local(Hidden(s, id, Purged), id, PurgedState(s.docs[id], Unlocked)))
  {
    var x, p := s.docs[id], Hidden(s, id, Purged);
    HiddenKnown(s, id, Purged);
    hide Hidden, Leads, Reaches, Local, AllLive;
    assert AfterProceed(PurgedState(x, FinishingPurge)) == PurgedState(x, ReportingPurge);
    assert AfterProceed(PurgedState(x, ReportingPurge)) == PurgedState(x, Unlocked);
    HiddenCommit(s, id, Purging, Purged, PurgedState(x, FinishingPurge));
    ProceedLeads(p, id, PurgedState(x, ReportingPurge), PurgedState(x, Unlocked));
    hide Known, Resting, AfterProceed, PurgedState;
    ReachesTwice(Local(Hidden(s, id, Purging), id, PurgedState(x, FinishingPurge)), Proceed(id),
                 Local(p, id, PurgedState(x, ReportingPurge)), Proceed(id), Local(p, id, PurgedState(x, Unlocked)));
  }

  lemma Purge(s: System, id: DocumentId)
    requires Resting(s, id)
    ensures Reaches(Deleted(s, id), Local(Hidden(s, id, Purged), id, PurgedState(s.docs[id], Unlocked)))
  {
    var x := s.docs[id];
    var y := x.(storage := Dead(x.storage));
    var h := Hidden(s, id, Purging);
    HiddenKnown(s, id, Purging);
    DeadFacts(x.storage);
    PurgeBegins(s, id);
    PurgeEnds(s, id);
    hide Hidden, Live, Reaches, Deleted, Resting;
    PurgeRows(h, id, Standing(y, PurgingVectors));
    assert PurgedState(y, FinishingPurge) == PurgedState(x, FinishingPurge);
    hide Local, Known, Dead, PurgedState;
    ReachesTrans(Deleted(s, id), Local(h, id, Standing(y, PurgingVectors)), Local(h, id, PurgedState(x, FinishingPurge)));
    ReachesTrans(Deleted(s, id), Local(h, id, PurgedState(x, FinishingPurge)), Local(Hidden(s, id, Purged), id, PurgedState(x, Unlocked)));
  }

  /** Deleting and purging takes the document off its head and out of both stores, and touches nothing else. */
  lemma DeleteThenPurge(s: System, id: DocumentId) returns (t: System)
    requires Reachable(s) && Known(s, id) && Row(s, id).status == Active
    requires s.docs[id].lifecycle.Unlocked? && Quiet(s.docs[id])
    ensures Reaches(s, t) && Known(t, id) && Row(t, id) == Row(s, id).(status := Purged)
    ensures var f := Row(s, id).filename;
            && f in s.tables.heads && t.tables.heads == s.tables.heads[f := s.tables.heads[f].(current := None)]
            && t.tables.documents == s.tables.documents[id := Row(t, id)]
    ensures t.docs == s.docs[id := t.docs[id]]
    ensures t.docs[id].storage.vectors == map[] && t.docs[id].storage.parents == map[]
  {
    ActiveRests(s, id);
    SoftDelete(s, id);
    Purge(s, id);
    t := Local(Hidden(s, id, Purged), id, PurgedState(s.docs[id], Unlocked));
    hide Reaches, Reachable, Quiet, Deleted, AllLive;
    ReachesTrans(s, Deleted(s, id), t);
  }
}
