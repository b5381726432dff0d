/**
Which chunks a reader sees when the chunk stores and the heads name a file differently. Heads hold
the name of the upload, chunk rows the name `stored` makes of it (`sanitize_metadata`).
*/
module PublicationNames {
  import opened Wrappers
  import opened Registry
  import opened Publication
  import opened PublicationInvariant
  import opened PublicationTheorems
  import opened PublicationRuns

  /** A chunk of a document carries the stored name of its file; a legacy chunk any name. */
  predicate Labelled(s: System, stored: string -> string, chunk: StoredChunk) {
    chunk.document.Some? ==>
      Known(s, chunk.document.value) && chunk.filename == stored(Row(s, chunk.document.value).filename)
  }

  predicate Admitted(s: System, stored: string -> string, chunk: StoredChunk) {
    Labelled(s, stored, chunk) && Admits(RetrievalFilter(s.tables), chunk)
  }

  /** All admitted chunks under one stored name are of one generation. */
  ghost predicate SingleGeneration(s: System, stored: string -> string) {
    forall c, c' :: Admitted(s, stored, c) && Admitted(s, stored, c') && c.filename == c'.filename
      ==> c.document == c'.document
  }

  predicate HasCurrent(s: System, f: string) {
    f in s.tables.heads && s.tables.heads[f].current.Some?
  }

  function CurrentChunk(s: System, stored: string -> string, f: string): StoredChunk
    requires HasCurrent(s, f)
  {
    StoredChunk(s.tables.heads[f].current, stored(f))
  }

  /** The admitted chunks of documents are those of current documents. */
  lemma AdmittedIsCurrent(s: System, stored: string -> string, c: StoredChunk)
    requires Reachable(s) && Admitted(s, stored, c) && c.document.Some?
    ensures Known(s, c.document.value)
    ensures var f := Row(s, c.document.value).filename;
            HasCurrent(s, f) && s.tables.heads[f].current == c.document && stored(f) == c.filename
  {
    ReachableInv(s);
    var f :| f in s.tables.heads && s.tables.heads[f].current == c.document;
    assert Row(s, c.document.value).filename == f;
  }

  lemma CurrentIsAdmitted(s: System, stored: string -> string, f: string)
    requires Reachable(s) && HasCurrent(s, f)
    ensures Admitted(s, stored, CurrentChunk(s, stored, f))
    ensures Row(s, s.tables.heads[f].current.value).filename == f
  {
    HeadsAreComplete(s, f, s.tables.heads[f].current.value);
  }

  /** No two current files are stored under one name, and no stored name of one still shows legacy chunks. */
  ghost predicate NamesApart(s: System, stored: string -> string) {
    && (forall f, g :: HasCurrent(s, f) && HasCurrent(s, g) && stored(f) == stored(g) ==> f == g)
    && (forall f :: HasCurrent(s, f) ==> Versions(s, stored(f)) != [])
  }

  lemma ApartIsSingle(s: System, stored: string -> string, c: StoredChunk, c': StoredChunk)
    requires Reachable(s) && NamesApart(s, stored)
    requires Admitted(s, stored, c) && Admitted(s, stored, c') && c.filename == c'.filename
    ensures c.document == c'.document
  {
    if c.document.Some? { AdmittedIsCurrent(s, stored, c); }
    if c'.document.Some? { AdmittedIsCurrent(s, stored, c'); }
    if c.document.None? || c'.document.None? {
      LegacyIsAdmittedUntilPublication(s, c.filename);
      assert StoredChunk(None, c.filename) in {c, c'};
    }
  }

  /** In a reachable state readers see one generation per stored name if and only if the names are apart. */
  lemma GenerationsAreSingle(s: System, stored: string -> string)
    requires Reachable(s)
    ensures SingleGeneration(s, stored) <==> NamesApart(s, stored)
  {
    if NamesApart(s, stored) {
      forall c, c' | Admitted(s, stored, c) && Admitted(s, stored, c') && c.filename == c'.filename
        ensures c.document == c'.document
      {
        ApartIsSingle(s, stored, c, c');
      }
    } else if SingleGeneration(s, stored) {
      forall f, g | HasCurrent(s, f) && HasCurrent(s, g) && stored(f) == stored(g) ensures f == g {
        CurrentIsAdmitted(s, stored, f);
        CurrentIsAdmitted(s, stored, g);
        assert CurrentChunk(s, stored, f).document == CurrentChunk(s, stored, g).document;
      }
      forall f | HasCurrent(s, f) ensures Versions(s, stored(f)) != [] {
        CurrentIsAdmitted(s, stored, f);
        LegacyIsAdmittedUntilPublication(s, stored(f));
        assert CurrentChunk(s, stored, f).document != StoredChunk(None, stored(f)).document;
      }
    }
  }

  /** Legacy chunks under the stored name of a published file are hidden if and only if a head of that very name published. */
  lemma LegacyOfUpload(s: System, stored: string -> string, f: string)
    requires Reachable(s) && Versions(s, f) != []
    ensures !Admits(RetrievalFilter(s.tables), StoredChunk(None, stored(f))) <==> Versions(s, stored(f)) != []
    ensures stored(f) == f ==> !Admits(RetrievalFilter(s.tables), StoredChunk(None, stored(f)))
  {
    LegacyIsAdmittedUntilPublication(s, stored(f));
  }

  /** When the names in use are stored as they are, two admitted chunks of one name are of one generation. */
  lemma OneGenerationIsAdmitted(s: System, stored: string -> string, c: StoredChunk, c': StoredChunk)
    requires Reachable(s) && forall f :: f in s.tables.heads ==> stored(f) == f
    requires Admitted(s, stored, c) && Admitted(s, stored, c') && c.filename == c'.filename
    ensures c.document == c'.document
    ensures c.document.Some? ==> c.filename in s.tables.heads && s.tables.heads[c.filename].current == c.document
  {
    UnchangedNamesAreApart(s, stored);
    ApartIsSingle(s, stored, c, c');
    if c.document.Some? { AdmittedIsCurrent(s, stored, c); }
  }

  lemma UnchangedNamesAreApart(s: System, stored: string -> string)
    requires Reachable(s) && forall f :: f in s.tables.heads ==> stored(f) == f
    ensures NamesApart(s, stored)
  {
    ReachableLog(s);
    forall f | HasCurrent(s, f) ensures Versions(s, stored(f)) != [] { assert FileLogOk(s, f); }
  }

  // ---- the failing inputs ----

  const ONE := Manifest({}, {"leaf"}, true)

  /** One upload, published. */
  lemma PublishedAlone(maxAttempts: int, id: DocumentId, f: string) returns (s: System)
    ensures Reachable(s) && s.maxAttempts == maxAttempts && s == Uploaded(Init(maxAttempts), id, f, ONE)
    ensures s.tables.heads == map[f := Head(Some(id), 1, 1)] && s.published == map[f := [1]]
  {
    s := Uploaded(Init(maxAttempts), id, f, ONE);
    FirstUpload(Init(maxAttempts), id, f, ONE);
    hide Reaches;
    ReachableByRun(s);
  }

  /** A published name that is stored differently leaves the legacy chunks beside the current version. */
  lemma ChangedNameShowsLegacy(maxAttempts: int, stored: string -> string, id: DocumentId, f: string) returns (s: System)
    requires stored(f) != f
    ensures Reachable(s) && s.maxAttempts == maxAttempts && s.tables.heads.Keys == {f} && Versions(s, f) != []
    ensures Admitted(s, stored, StoredChunk(None, stored(f))) && Admitted(s, stored, StoredChunk(Some(id), stored(f)))
  {
    s := PublishedAlone(maxAttempts, id, f);
    hide Uploaded;
    LegacyIsAdmittedUntilPublication(s, stored(f));
    CurrentIsAdmitted(s, stored, f);
  }

  /** Two names stored alike show two documents under one name. */
  lemma TwoNamesShowTwoDocuments(
    maxAttempts: int, stored: string -> string, d: DocumentId, e: DocumentId, f: string, g: string) returns (s: System)
    requires f != g && stored(f) == stored(g) && d != e
    ensures Reachable(s) && s.maxAttempts == maxAttempts && s.tables.heads.Keys == {f, g}
    ensures Admitted(s, stored, StoredChunk(Some(d), stored(f))) && Admitted(s, stored, StoredChunk(Some(e), stored(f)))
  {
    var first := PublishedAlone(maxAttempts, d, f);
    s := SecondUpload(maxAttempts, first, d, e, f, g);
    CurrentIsAdmitted(s, stored, f);
    CurrentIsAdmitted(s, stored, g);
  }

  lemma SecondUpload(maxAttempts: int, first: System, d: DocumentId, e: DocumentId, f: string, g: string) returns (s: System)
    requires f != g && d != e && Reachable(first) && first == Uploaded(Init(maxAttempts), d, f, ONE)
    ensures Reachable(s) && s.maxAttempts == maxAttempts
    ensures s.tables.heads == map[f := Head(Some(d), 1, 1), g := Head(Some(e), 1, 1)]
  {
    s := Uploaded(first, e, g, ONE);
    FirstUpload(first, e, g, ONE);
    ReachesTrans(Init(maxAttempts), first, s);
    ReachableByRun(s);
  }

  // ---- which names may be used ----

  ghost predicate UsesOnly(s: System, inUse: string -> bool) {
    forall f :: f in s.tables.heads ==> inUse(f)
  }

  /**
  Readers of every reachable state see one generation per stored name if and only if every name in
  use is stored as it is.
  */
  lemma StoredNamesDecide(maxAttempts: int, stored: string -> string, inUse: string -> bool)
    ensures (forall f :: inUse(f) ==> stored(f) == f)
       <==> (forall s :: Reachable(s) && s.maxAttempts == maxAttempts && UsesOnly(s, inUse) ==> SingleGeneration(s, stored))
  {
    hide Reachable;
    if forall f :: inUse(f) ==> stored(f) == f {
      forall s | Reachable(s) && s.maxAttempts == maxAttempts && UsesOnly(s, inUse) ensures SingleGeneration(s, stored) {
        UnchangedNamesAreApart(s, stored);
        GenerationsAreSingle(s, stored);
      }
    } else {
      var f :| inUse(f) && stored(f) != f;
      var s := ChangedNameShowsLegacy(maxAttempts, stored, "d", f);
      assert UsesOnly(s, inUse) && !SingleGeneration(s, stored);
    }
  }
}
