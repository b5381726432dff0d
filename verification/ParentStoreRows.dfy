/** The operations of the parent store, row by row. */
module ParentStoreRows {
  import opened Wrappers
  import opened Text
  import opened ParentStore
  import opened Positions

  // ---- writing ----

  /** The last document of a list whose id is `k` once it is trimmed. */
  predicate LastOf(docs: seq<Row>, k: string, j: nat) {
    j < |docs| && Trim(docs[j].id) == k && forall i :: j < i < |docs| ==> Trim(docs[i].id) != k
  }

  /** A written row is the last document of its id, trimmed and without a deletion time. */
  lemma {:induction false} UpsertSpelledOut(db: Rows, docs: seq<Row>, k: string, j: nat)
    requires k != "" && LastOf(docs, k, j)
    ensures var t := WriteAll(db, Updates(docs)); k in t && t[k] == docs[j].(id := k, deletedAt := None)
    decreases |docs|
  {
    hide Trim;
    var n := |docs| - 1;
    var before := Updates(docs[..n]);
    UpdatesNext(docs, n);
    if j < n {
      UpsertSpelledOut(db, docs[..n], k, j);
      if Trim(docs[n].id) != "" { WriteNext(db, before, docs[n].(id := Trim(docs[n].id), deletedAt := None)); }
    } else {
      WriteNext(db, before, docs[n].(id := k, deletedAt := None));
    }
  }

  /** Rows of other ids stay, and blank ids write nothing. */
  lemma {:induction false} OthersStay(db: Rows, docs: seq<Row>, k: string)
    requires k == "" || forall i :: 0 <= i < |docs| ==> Trim(docs[i].id) != k
    ensures var t := WriteAll(db, Updates(docs)); (k in t <==> k in db) && (k in t ==> t[k] == db[k])
    decreases |docs|
  {
    hide Trim;
    if docs != [] {
      var n := |docs| - 1;
      UpdatesNext(docs, n);
      OthersStay(db, docs[..n], k);
      if Trim(docs[n].id) != "" { WriteNext(db, Updates(docs[..n]), docs[n].(id := Trim(docs[n].id), deletedAt := None)); }
    }
  }

  lemma UpdatesNext(docs: seq<Row>, n: nat)
    requires n == |docs| - 1
    ensures Updates(docs) ==
            if Trim(docs[n].id) == "" then Updates(docs[..n])
            else Updates(docs[..n]) + [docs[n].(id := Trim(docs[n].id), deletedAt := None)]
  {
    hide Trim;
  }

  lemma WriteNext(db: Rows, updates: seq<Row>, row: Row)
    ensures WriteAll(db, updates + [row]) == WriteAll(db, updates)[row.id := row]
  {
    assert (updates + [row])[..|updates|] == updates;
  }

  /** The positions of the documents with an id. */
  ghost function Named(docs: seq<Row>, n: nat): set<nat>
    requires n <= |docs|
  {
    set i: nat | i < n && Trim(docs[i].id) != ""
  }

  /** As many rows are written as there are documents with an id. */
  lemma {:induction false} UpsertCounts(docs: seq<Row>, n: nat)
    requires n <= |docs|
    ensures |Updates(docs[..n])| == |Named(docs, n)|
  {
    hide Trim;
    if n == 0 {
      assert Named(docs, 0) == {};
    } else {
      UpsertCounts(docs, n - 1);
      assert docs[..n][..n - 1] == docs[..n - 1];
      UpdatesNext(docs[..n], n - 1);
      assert Named(docs, n) == if Trim(docs[n - 1].id) == "" then Named(docs, n - 1) else Named(docs, n - 1) + {n - 1};
    }
  }

  // ---- reading ----

  /** What a lookup finds for an id: a readable live cache entry, or else the live row. */
  function Answer(db: Rows, cache: Rows, readable: set<string>, id: string): Option<Row> {
    if id in readable && id in cache && !cache[id].isDeleted then Some(cache[id])
    else if id in db && !db[id].isDeleted then Some(db[id])
    else None
  }

  /** `rows` are the answers for the ids at the positions `at`, in order. */
  predicate Answers(db: Rows, cache: Rows, readable: set<string>, ids: seq<string>, rows: seq<Row>, at: seq<nat>) {
    && |at| == |rows| && Ascending(at, |ids|)
    && forall j :: 0 <= j < |at| ==> Answer(db, cache, readable, ids[at[j]]) == Some(rows[j])
  }

  lemma AnswersNext(db: Rows, cache: Rows, readable: set<string>, ids: seq<string>, n: nat, rows: seq<Row>, at: seq<nat>)
    requires n == |ids| - 1 && Answers(db, cache, readable, ids[..n], rows, at)
    ensures n !in at && Answers(db, cache, readable, ids, rows, at)
    ensures var a := Answer(db, cache, readable, ids[n]);
            a.Some? ==> Answers(db, cache, readable, ids, rows + [a.value], at + [n])
  {
    hide Answer;
    forall j | 0 <= j < |at| ensures ids[at[j]] == ids[..n][at[j]] { }
  }

  lemma InOrderNext(found: Rows, ids: seq<string>, n: nat)
    requires n == |ids| - 1
    ensures InOrder(found, ids) == if ids[n] in found then InOrder(found, ids[..n]) + [found[ids[n]]] else InOrder(found, ids[..n])
  {
  }

  lemma {:induction false} InOrderAnswers(found: Rows, db: Rows, cache: Rows, readable: set<string>, ids: seq<string>)
    returns (at: seq<nat>)
    requires forall id :: id in ids && id in found ==> Answer(db, cache, readable, id) == Some(found[id])
    ensures Answers(db, cache, readable, ids, InOrder(found, ids), at)
    ensures forall i :: 0 <= i < |ids| ==> (i in at <==> ids[i] in found)
    decreases |ids|
  {
    hide Answer;
    if ids == [] {
      at := [];
    } else {
      var n := |ids| - 1;
      assert ids == ids[..n] + [ids[n]];
      var before := InOrderAnswers(found, db, cache, readable, ids[..n]);
      InOrderNext(found, ids, n);
      hide InOrder, Also, Answers;
      AnswersNext(db, cache, readable, ids, n, InOrder(found, ids[..n]), before);
      AlsoIs(before, n, ids[n] in found);
      at := Also(before, n, ids[n] in found);
      forall i | 0 <= i < n ensures i in at <==> ids[i] in found { assert ids[..n][i] == ids[i]; }
    }
  }

  lemma AlsoIs(at: seq<nat>, n: nat, keep: bool)
    ensures Also(at, n, keep) == if keep then at + [n] else at
  {
  }

  /** A lookup answers, in the order of the request, every id given as it is stored that has an answer. */
  lemma LookupSpelledOut(db: Rows, cache: Rows, readable: set<string>, ids: seq<string>) returns (at: seq<nat>)
    requires forall k :: k in db || k in cache ==> Trim(k) == k && k != ""
    ensures Answers(db, cache, readable, ids, CachedLookup(db, cache, readable, ids), at)
    ensures forall i :: 0 <= i < |ids| ==> (i in at <==> Answer(db, cache, readable, ids[i]).Some?)
  {
    hide Trim, InOrder, Answers;
    var found := Found(db, cache, readable, ids);
    forall id | id in ids
      ensures id in found <==> Answer(db, cache, readable, id).Some?
      ensures id in found ==> Answer(db, cache, readable, id) == Some(found[id])
    {
      FoundKeys(db, cache, readable, ids, id);
    }
    hide Answer, Found;
    at := InOrderAnswers(found, db, cache, readable, ids);
  }

  lemma FoundKeys(db: Rows, cache: Rows, readable: set<string>, ids: seq<string>, id: string)
    requires (id in db || id in cache) ==> Trim(id) == id && id != ""
    requires id in ids
    ensures id in Found(db, cache, readable, ids) <==> Answer(db, cache, readable, id).Some?
    ensures id in Found(db, cache, readable, ids) ==>
              Answer(db, cache, readable, id) == Some(Found(db, cache, readable, ids)[id])
  {
    hide Trim;
    if id in db || id in cache { assert id in Wanted(ids); }
  }

  /** After a lookup the cache has, besides, the live rows it had to ask for, as far as writes get through. */
  lemma RefillSpelledOut(db: Rows, cache: Rows, readable: set<string>, ids: seq<string>, stored: set<string>, k: string)
    ensures var after := Refilled(db, cache, readable, ids, stored);
            var asked := (exists id :: id in ids && Trim(id) == k) && k != ""
                         && !(k in readable && k in cache && !cache[k].isDeleted);
            if asked && k in stored && k in db && !db[k].isDeleted then k in after && after[k] == db[k]
            else (k in after <==> k in cache) && (k in after ==> after[k] == cache[k])
  {
    hide Trim;
  }

  // ---- deleting ----

  /** Flags of a document are set on all of its rows and on no other, with or without the time. */
  lemma FlagsSpelledOut(db: Rows, documentId: string, isDeleted: bool, now: int, k: string)
    ensures var t := Flagged(db, OfDocument(db, documentId), isDeleted, now);
            && (k in t <==> k in db)
            && (k in db && documentId != "" && db[k].documentId == documentId ==>
                  t[k] == db[k].(isDeleted := isDeleted, deletedAt := if isDeleted then Some(now) else None))
            && (k in db && (documentId == "" || db[k].documentId != documentId) ==> t[k] == db[k])
  {
  }

  /** A purge and a removal by name take away exactly the rows that are meant. */
  lemma RemovalsSpelledOut(db: Rows, documentId: string, filename: string, legacyOnly: bool, k: string)
    ensures k in db - OfDocument(db, documentId) <==> k in db && (documentId == "" || db[k].documentId != documentId)
    ensures k in db - OfFilename(db, filename, legacyOnly) <==>
            k in db && (filename == "" || db[k].filename != filename || (legacyOnly && db[k].documentId != ""))
  {
  }
}
