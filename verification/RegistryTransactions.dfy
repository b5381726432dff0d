/** The transactions of the registry, by the rows they change. */
module RegistryTransactions {
  import opened Wrappers
  import opened Registry

  /** Everything of the tables but the row of `id` and the head of `f` is as before. */
  predicate OnlyThese(t: Tables, t': Tables, id: DocumentId, f: string) {
    && t'.documents.Keys == t.documents.Keys + {id} && t'.heads.Keys == t.heads.Keys + {f}
    && (forall d :: d in t.documents && d != id ==> t'.documents[d] == t.documents[d])
    && (forall g :: g in t.heads && g != f ==> t'.heads[g] == t.heads[g])
  }

  /** The numbers of a head; a file without one counts from zero. */
  function HeadOf(t: Tables, f: string): Head {
    if f in t.heads then t.heads[f] else Head(None, 0, 0)
  }

  /** A reservation takes the next version number of its file, and moves no head. */
  lemma ReserveSpelledOut(t: Tables, id: DocumentId, f: string)
    ensures var t', head := Reserve(t, id, f), HeadOf(t, f);
            && OnlyThese(t, t', id, f)
            && t'.documents[id] == Document(f, head.versionCounter + 1, Staging, 0, 0)
            && t'.heads[f] == Head(head.current, head.versionCounter + 1, head.publishedVersion)
  {
  }

  /** A row write keeps the version of a known document, and gives a new one version zero. */
  lemma UpsertSpelledOut(t: Tables, id: DocumentId, f: string, status: Status, leaves: nat, parents: nat)
    ensures var t' := Upsert(t, id, f, status, leaves, parents);
            && t'.heads == t.heads && t'.documents.Keys == t.documents.Keys + {id}
            && (forall d :: d in t.documents && d != id ==> t'.documents[d] == t.documents[d])
            && t'.documents[id].version == (if id in t.documents then t.documents[id].version else 0)
            && t'.documents[id].filename == f && t'.documents[id].status == status
            && t'.documents[id].leafChunkCount == leaves && t'.documents[id].parentChunkCount == parents
  {
  }

  /** A status change takes the head off a document that is not active any more, and no other. */
  lemma SetStatusSpelledOut(t: Tables, id: DocumentId, status: Status)
    requires id in t.documents
    ensures var t', row, f := SetStatus(t, id, status), t.documents[id], t.documents[id].filename;
            && t'.documents == t.documents[id := row.(status := status)]
            && (status == Active ==> t'.heads == t.heads)
            && (status != Active ==>
                  && OnlyThese(t, t', id, f)
                  && t'.heads[f] == if HeadOf(t, f).current == Some(id) then HeadOf(t, f).(current := None) else HeadOf(t, f))
  {
  }

  /** The document a file showed before. */
  predicate Showed(t: Tables, f: string, d: DocumentId) {
    f in t.heads && t.heads[f].current == Some(d)
  }

  /** A publication that goes through: the document is shown, the one shown before retires, no other changes. */
  predicate Shown(t: Tables, t': Tables, id: DocumentId)
    requires id in t.documents
  {
    var row, f := t.documents[id], t.documents[id].filename;
    && t'.documents.Keys == t.documents.Keys && t'.heads.Keys == t.heads.Keys + {f}
    && t'.documents[id] == row.(status := Active)
    && t'.heads[f] == Head(Some(id), HeadOf(t, f).versionCounter,
                           if row.version > HeadOf(t, f).publishedVersion then row.version else HeadOf(t, f).publishedVersion)
    && (forall g :: g in t.heads && g != f ==> t'.heads[g] == t.heads[g])
    && (forall d :: d in t.documents && d != id ==>
          t'.documents[d] == if Showed(t, f, d) then t.documents[d].(status := Retiring) else t.documents[d])
  }

  /**
  Publishing a document that is shown already says so and changes nothing; one that is not staging is
  left alone; one that is too late retires, unless it is forced; any other one is shown.
  */
  lemma PublishSpelledOut(t: Tables, id: DocumentId, force: bool)
    requires id in t.documents
    ensures var p, row, f := Publish(t, id, force), t.documents[id], t.documents[id].filename;
            if Showed(t, f, id) && row.status == Active then p == Publication(t, true)
            else if row.status != Staging && row.status != Ingesting then p == Publication(t, false)
            else if !force && row.version <= HeadOf(t, f).publishedVersion then
              && !p.published && OnlyThese(t, p.tables, id, f)
              && p.tables.documents[id] == row.(status := Retiring) && p.tables.heads[f] == HeadOf(t, f)
            else p.published && Shown(t, p.tables, id)
  {
  }

  /** What readers are shown: chunks of documents under a head, and legacy chunks of names never published. */
  lemma FilterSpelledOut(t: Tables, chunk: StoredChunk)
    ensures Admits(RetrievalFilter(t), chunk) <==>
            if chunk.document.Some? then exists f :: Showed(t, f, chunk.document.value)
            else HeadOf(t, chunk.filename).publishedVersion == 0 && HeadOf(t, chunk.filename).current == None
  {
    if chunk.document.Some? {
      var id := chunk.document.value;
      if Admits(RetrievalFilter(t), chunk) {
        var f :| f in t.heads && t.heads[f].current.Some? && t.heads[f].current.value == id;
        assert Showed(t, f, id);
      }
      if f :| Showed(t, f, id) { assert t.heads[f].current.value in RetrievalFilter(t).activeIds; }
    }
  }
}
