/**
The lifecycle registry of knowledge-base documents (backend/document/document_registry.py).

`Tables` is the content of the two PostgreSQL tables; the functions on it say what one
transaction of each registry operation does. The class `DocumentRegistry` updates the rows
in place and is proved against those functions.
*/
module Registry {
  import opened Wrappers

  type DocumentId = string

  datatype Status =
    | Active | Ingesting | SoftDeleting | Staging | Retiring
    | SoftDeleted | Purging | Purged | Failed

  /** One visibility pointer and version counter per filename. */
  datatype Head = Head(current: Option<DocumentId>, versionCounter: nat, publishedVersion: nat)

  datatype Document = Document(
    filename: string,
    version: nat,
    status: Status,
    leafChunkCount: nat,
    parentChunkCount: nat)

  datatype Tables = Tables(heads: map<string, Head>, documents: map<DocumentId, Document>)

  datatype RegistryError = UnknownDocument | DuplicateDocument

  const EMPTY_HEAD := Head(None, 0, 0)

  /** Insert-or-ignore followed by a row lock: the head row exists afterwards. */
  function LockHead(t: Tables, filename: string): Tables {
    if filename in t.heads then t else t.(heads := t.heads[filename := EMPTY_HEAD])
  }

  /** A new version number and its staging row, in one transaction. */
  function Reserve(t: Tables, id: DocumentId, filename: string): Tables {
    var head := LockHead(t, filename).heads[filename];
    var version := head.versionCounter + 1;
    Tables(
      t.heads[filename := head.(versionCounter := version)],
      t.documents[id := Document(filename, version, Staging, 0, 0)])
  }

  /** Status change; every status but ACTIVE first takes the head off the document. */
  function SetStatus(t: Tables, id: DocumentId, status: Status): Tables
    requires id in t.documents
  {
    var filename := t.documents[id].filename;
    var locked := if status == Active then t else LockHead(t, filename);
    var heads :=
      if status != Active && locked.heads[filename].current == Some(id)
      then locked.heads[filename := locked.heads[filename].(current := None)]
      else locked.heads;
    Tables(heads, t.documents[id := t.documents[id].(status := status)])
  }

  /** The row written by `upsert`: it does not look at the status that is there. */
  function Upsert(t: Tables, id: DocumentId, filename: string, status: Status, leaves: nat, parents: nat): Tables {
    var version := if id in t.documents then t.documents[id].version else 0;
    t.(documents := t.documents[id := Document(filename, version, status, leaves, parents)])
  }

  datatype Publication = Publication(tables: Tables, published: bool)

  /** The transaction of `publish`, with its four ways out. */
  function Publish(t: Tables, id: DocumentId, force: bool): Publication
    requires id in t.documents
  {
    var row := t.documents[id];
    var locked := LockHead(t, row.filename);
    var head := locked.heads[row.filename];
    if head.current == Some(id) && row.status == Active then Publication(t, true)
    else if row.status !in {Staging, Ingesting} then Publication(t, false)
    else if !force && row.version <= head.publishedVersion then
      Publication(locked.(documents := t.documents[id := row.(status := Retiring)]), false)
    else
      var documents :=
        if head.current.Some? && head.current.value in t.documents
        then t.documents[head.current.value := t.documents[head.current.value].(status := Retiring)]
        else t.documents;
      var published := if head.publishedVersion < row.version then row.version else head.publishedVersion;
      Publication(
        Tables(locked.heads[row.filename := Head(Some(id), head.versionCounter, published)],
               documents[id := row.(status := Active)]),
        true)
  }

  /** What `retrieval_filter` freezes: the current ids, and the filenames whose legacy chunks are hidden. */
  datatype Filter = Filter(activeIds: set<DocumentId>, managed: set<string>)

  function RetrievalFilter(t: Tables): Filter {
    Filter(
      set f | f in t.heads && t.heads[f].current.Some? :: t.heads[f].current.value,
      set f | f in t.heads && (t.heads[f].publishedVersion > 0 || t.heads[f].current.Some?))
  }

  /** A stored chunk; legacy chunks belong to no document. */
  datatype StoredChunk = StoredChunk(document: Option<DocumentId>, filename: string)

  predicate Admits(filter: Filter, chunk: StoredChunk) {
    match chunk.document
    case Some(id) => id in filter.activeIds
    case None => chunk.filename !in filter.managed
  }

  // ---- heads and active documents ----

  predicate PointsTo(t: Tables, f: string, id: DocumentId) {
    f in t.heads && t.heads[f].current == Some(id)
  }

  /** The heads point exactly to the active documents of their names. */
  ghost predicate CurrentIsActive(t: Tables) {
    forall f, id :: PointsTo(t, f, id) <==>
      id in t.documents && t.documents[id].filename == f && t.documents[id].status == Active
  }

  /**
  The row write looks at no head: it keeps heads and active documents together if and only if the
  heads that point to the document are those the new row calls for.
  */
  lemma UpsertAgainstHeads(t: Tables, id: DocumentId, filename: string, status: Status, leaves: nat, parents: nat)
    requires CurrentIsActive(t)
    ensures CurrentIsActive(Upsert(t, id, filename, status, leaves, parents))
       <==> forall f :: PointsTo(t, f, id) <==> f == filename && status == Active
  {
    var t' := Upsert(t, id, filename, status, leaves, parents);
    assert forall f, d :: PointsTo(t', f, d) == PointsTo(t, f, d);
    assert forall d :: d != id ==> (d in t'.documents <==> d in t.documents);
    assert t'.documents[id].filename == filename && t'.documents[id].status == status;
  }

  /** So a staging row may be written exactly while no head points to the document. */
  lemma StagingWriteIsSafe(t: Tables, id: DocumentId, filename: string, leaves: nat, parents: nat)
    requires CurrentIsActive(t)
    ensures CurrentIsActive(Upsert(t, id, filename, Staging, leaves, parents)) <==> !exists f :: PointsTo(t, f, id)
  {
    UpsertAgainstHeads(t, id, filename, Staging, leaves, parents);
  }

  class DocumentRegistry {
    var heads: map<string, Head>
    var documents: map<DocumentId, Document>

    function Value(): Tables
      reads this
    {
      Tables(heads, documents)
    }

    constructor ()
      ensures Value() == Tables(map[], map[])
    {
      heads, documents := map[], map[];
    }

    method LockHeadRow(filename: string) returns (head: Head)
      modifies this`heads
      ensures Value() == LockHead(old(Value()), filename)
      ensures filename in heads && head == heads[filename]
    {
      if filename !in heads {
        heads := heads[filename := EMPTY_HEAD];
      }
      head := heads[filename];
    }

    method ReserveUpload(id: DocumentId, filename: string) returns (r: Result<nat, RegistryError>)
      modifies this
      ensures r.Ok? <==> id !in old(documents)
      ensures r.Ok? ==> Value() == Reserve(old(Value()), id, filename) && r.value == documents[id].version
      ensures r.Err? ==> Value() == old(Value())
    {
      if id in documents {
        return Err(DuplicateDocument);
      }
      var head := LockHeadRow(filename);
      head := head.(versionCounter := head.versionCounter + 1);
      heads := heads[filename := head];
      documents := documents[id := Document(filename, head.versionCounter, Staging, 0, 0)];
      r := Ok(head.versionCounter);
    }

    method ChangeStatus(id: DocumentId, status: Status) returns (r: Result<(), RegistryError>)
      modifies this
      ensures r.Ok? <==> id in old(documents)
      ensures r.Ok? ==> Value() == SetStatus(old(Value()), id, status)
      ensures r.Err? ==> Value() == old(Value())
    {
      if id !in documents {
        return Err(UnknownDocument);
      }
      var item := documents[id];
      if status != Active {
        var head := LockHeadRow(item.filename);
        if head.current == Some(id) {
          heads := heads[item.filename := head.(current := None)];
        }
      }
      documents := documents[id := item.(status := status)];
      r := Ok(());
    }

    method PublishDocument(id: DocumentId, force: bool) returns (r: Result<bool, RegistryError>)
      modifies this
      ensures r.Ok? <==> id in old(documents)
      ensures r.Ok? ==> Publication(Value(), r.value) == Publish(old(Value()), id, force)
      ensures r.Err? ==> Value() == old(Value())
    {
      if id !in documents {
        return Err(UnknownDocument);
      }
      var current := documents[id];
      var before := heads;
      var head := LockHeadRow(current.filename);
      if head.current == Some(id) && current.status == Active {
        heads := before;  // nothing is committed on the early ways out
        return Ok(true);
      }
      if current.status !in {Staging, Ingesting} {
        heads := before;
        return Ok(false);
      }
      if !force && current.version <= head.publishedVersion {
        documents := documents[id := current.(status := Retiring)];
        return Ok(false);
      }
      if head.current.Some? && head.current.value in documents {
        var previous := documents[head.current.value];
        documents := documents[head.current.value := previous.(status := Retiring)];
      }
      documents := documents[id := current.(status := Active)];
      var published := if head.publishedVersion < current.version then current.version else head.publishedVersion;
      heads := heads[current.filename := Head(Some(id), head.versionCounter, published)];
      r := Ok(true);
    }

    method UpsertDocument(id: DocumentId, filename: string, status: Status, leaves: nat, parents: nat)
      modifies this`documents
      ensures Value() == Upsert(old(Value()), id, filename, status, leaves, parents)
      ensures CurrentIsActive(old(Value())) ==>
                (CurrentIsActive(Value()) <==> forall f :: PointsTo(old(Value()), f, id) <==> f == filename && status == Active)
    {
      ghost var before := Value();
      var version := 0;
      if id in documents {
        version := documents[id].version;
      }
      documents := documents[id := Document(filename, version, status, leaves, parents)];
      if CurrentIsActive(before) { UpsertAgainstHeads(before, id, filename, status, leaves, parents); }
    }
  }
}
