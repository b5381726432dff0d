/**
The parent chunk store of backend/document/parent_chunk_store.py: database rows behind a cache
(backend/infra/cache.py) whose entries may expire and whose calls may fail without a word.
*/
module ParentStore {
  import opened Wrappers
  import opened Text

  /** A row; `body` stands for the text and the remaining columns. */
  datatype Row = Row(id: string, documentId: string, filename: string, isDeleted: bool, deletedAt: Option<int>, body: string)

  type Rows = map<string, Row>

  predicate LiveIn(db: Rows, k: string) {
    k in db && !db[k].isDeleted
  }

  // ---- what the operations do to the rows and to the cache ----

  /** The row an upsert writes for a document, if its id is not blank. */
  function Written(doc: Row): Option<Row> {
    if Trim(doc.id) == "" then None else Some(doc.(id := Trim(doc.id), deletedAt := None))
  }

  /** The rows an upsert writes, in order. */
  function Updates(docs: seq<Row>): seq<Row> {
    if docs == [] then []
    else
      var w := Written(docs[|docs| - 1]);
      Updates(docs[..|docs| - 1]) + (if w.Some? then [w.value] else [])
  }

  function WriteAll(rows: Rows, updates: seq<Row>): Rows {
    if updates == [] then rows
    else WriteAll(rows, updates[..|updates| - 1])[updates[|updates| - 1].id := updates[|updates| - 1]]
  }

  /** The same on the cache, where only the writes of some keys get through. */
  function CacheAll(cache: Rows, updates: seq<Row>, stored: set<string>): Rows {
    if updates == [] then cache
    else
      var before := CacheAll(cache, updates[..|updates| - 1], stored);
      var row := updates[|updates| - 1];
      if row.id in stored then before[row.id := row] else before
  }

  /** The rows of a document; a blank name means none. */
  function OfDocument(db: Rows, documentId: string): set<string> {
    set k | k in db && documentId != "" && db[k].documentId == documentId
  }

  function OfFilename(db: Rows, filename: string, legacyOnly: bool): set<string> {
    set k | k in db && filename != "" && db[k].filename == filename && (legacyOnly ==> db[k].documentId == "")
  }

  function Flagged(db: Rows, ks: set<string>, isDeleted: bool, now: int): Rows {
    map k | k in db ::
      if k in ks then db[k].(isDeleted := isDeleted, deletedAt := if isDeleted then Some(now) else None) else db[k]
  }

  // ---- lookups ----

  /** The ids a lookup searches for. */
  function Wanted(ids: seq<string>): set<string> {
    set id | id in ids && Trim(id) != "" :: Trim(id)
  }

  /** The wanted ids answered from the cache; a failing read hides an entry. */
  function Hits(cache: Rows, readable: set<string>, ids: seq<string>): set<string> {
    set k | k in Wanted(ids) && k in readable && LiveIn(cache, k)
  }

  function Found(db: Rows, cache: Rows, readable: set<string>, ids: seq<string>): Rows {
    var hits := Hits(cache, readable, ids);
    map k | k in Wanted(ids) && (k in hits || LiveIn(db, k)) :: if k in hits then cache[k] else db[k]
  }

  /** The found rows in request order; ids are taken as they were given. */
  function InOrder(found: Rows, ids: seq<string>): seq<Row> {
    if ids == [] then []
    else
      var id := ids[|ids| - 1];
      InOrder(found, ids[..|ids| - 1]) + (if id in found then [found[id]] else [])
  }

  function CachedLookup(db: Rows, cache: Rows, readable: set<string>, ids: seq<string>): seq<Row> {
    InOrder(Found(db, cache, readable, ids), ids)
  }

  /** The reference: the live row of every id that is already trimmed, in request order. */
  function DatabaseLookup(db: Rows, ids: seq<string>): seq<Row> {
    if ids == [] then []
    else
      var id := ids[|ids| - 1];
      DatabaseLookup(db, ids[..|ids| - 1]) + (if Trim(id) == id && id != "" && LiveIn(db, id) then [db[id]] else [])
  }

  /** The cache after a lookup: what the database answered, where the writes get through. */
  function Refilled(db: Rows, cache: Rows, readable: set<string>, ids: seq<string>, stored: set<string>): Rows {
    var refills := set k | k in Wanted(ids) && k !in Hits(cache, readable, ids) && LiveIn(db, k) && k in stored;
    map k | k in cache.Keys + refills :: if k in refills then db[k] else cache[k]
  }

  // ---- the store ----

  function LiveRows(db: Rows, ks: set<string>): Rows {
    map k | k in ks && LiveIn(db, k) :: db[k]
  }

  lemma FoundInParts(db: Rows, cache: Rows, readable: set<string>, ids: seq<string>)
    ensures (map k | k in Hits(cache, readable, ids) :: cache[k]) + LiveRows(db, Wanted(ids) - Hits(cache, readable, ids))
         == Found(db, cache, readable, ids)
  {
  }

  lemma RefilledInParts(db: Rows, cache: Rows, readable: set<string>, ids: seq<string>, stored: set<string>)
    ensures cache + LiveRows(db, (Wanted(ids) - Hits(cache, readable, ids)) * stored)
         == Refilled(db, cache, readable, ids, stored)
  {
  }

  lemma WantedAppend(ids: seq<string>, i: nat)
    requires i < |ids|
    ensures Wanted(ids[..i + 1]) == Wanted(ids[..i]) + (if Trim(ids[i]) == "" then {} else {Trim(ids[i])})
  {
    assert ids[..i + 1] == ids[..i] + [ids[i]];
  }

  lemma FlaggedStep(db: Rows, ks: set<string>, k: string, isDeleted: bool, now: int)
    requires k in db && k !in ks
    ensures k in Flagged(db, ks, isDeleted, now) && Flagged(db, ks, isDeleted, now)[k] == db[k]
    ensures Flagged(db, ks + {k}, isDeleted, now)
         == Flagged(db, ks, isDeleted, now)[
              k := db[k].(isDeleted := isDeleted, deletedAt := if isDeleted then Some(now) else None)]
  {
  }

  lemma FlaggedNone(db: Rows, isDeleted: bool, now: int)
    ensures Flagged(db, {}, isDeleted, now) == db
  {
  }

  lemma DropStep(cache: Rows, ks: set<string>, k: string, removed: set<string>)
    ensures cache - ((ks + {k}) * removed) == if k in removed then cache - (ks * removed) - {k} else cache - (ks * removed)
  {
  }

  class ParentChunkStore {
    var db: Rows
    var cache: Rows

    constructor ()
      ensures db == map[] && cache == map[]
    {
      db, cache := map[], map[];
    }

    method UpsertDocuments(docs: seq<Row>, stored: set<string>) returns (upserted: nat)
      modifies this
      ensures db == WriteAll(old(db), Updates(docs)) && cache == CacheAll(old(cache), Updates(docs), stored)
      ensures upserted == |Updates(docs)|
    {
      hide Trim;
      upserted := 0;
      var updates: seq<Row> := [];
      for i := 0 to |docs|
        invariant updates == Updates(docs[..i]) && upserted == |updates|
        invariant db == WriteAll(old(db), updates) && cache == old(cache)
      {
        assert docs[..i + 1][..i] == docs[..i];
        var id := Trim(docs[i].id);
        if id != "" {
          var row := docs[i].(id := id, deletedAt := None);
          assert (updates + [row])[..|updates|] == updates;
          db := db[id := row];
          updates := updates + [row];
          upserted := upserted + 1;
        }
      }
      assert docs[..|docs|] == docs;
      for i := 0 to |updates|
        invariant cache == CacheAll(old(cache), updates[..i], stored) && db == WriteAll(old(db), updates)
      {
        assert updates[..i + 1][..i] == updates[..i];
        if updates[i].id in stored { cache := cache[updates[i].id := updates[i]]; }
      }
      assert updates[..|updates|] == updates;
    }

    /** The first half of a lookup: what the cache has, and what remains to be asked for. */
    method ReadCache(ids: seq<string>, readable: set<string>) returns (ordered: Rows, missing: set<string>)
      ensures ordered == map k | k in Hits(cache, readable, ids) :: cache[k]
      ensures missing == Wanted(ids) - Hits(cache, readable, ids)
    {
      hide Trim;
      ordered, missing := map[], {};
      for i := 0 to |ids|
        invariant ordered == map k | k in Hits(cache, readable, ids[..i]) :: cache[k]
        invariant missing == Wanted(ids[..i]) - Hits(cache, readable, ids[..i])
      {
        WantedAppend(ids, i);
        var key := Trim(ids[i]);
        if key != "" {
          if key in readable && key in cache && !cache[key].isDeleted {
            ordered := ordered[key := cache[key]];
          } else {
            missing := missing + {key};
          }
        }
      }
      assert ids[..|ids|] == ids;
    }

    method GetDocumentsByIds(ids: seq<string>, readable: set<string>, stored: set<string>) returns (rows: seq<Row>)
      modifies this`cache
      ensures rows == CachedLookup(db, old(cache), readable, ids)
      ensures cache == Refilled(db, old(cache), readable, ids, stored)
    {
      var ordered, missing := ReadCache(ids, readable);
      FoundInParts(db, cache, readable, ids);
      RefilledInParts(db, cache, readable, ids, stored);
      var answered := LiveRows(db, missing);
      cache := cache + LiveRows(db, missing * stored);
      rows := Arrange(ordered + answered, ids);
    }

    static method Arrange(found: Rows, ids: seq<string>) returns (rows: seq<Row>)
      ensures rows == InOrder(found, ids)
    {
      rows := [];
      for i := 0 to |ids|
        invariant rows == InOrder(found, ids[..i])
      {
        assert ids[..i + 1][..i] == ids[..i];
        if ids[i] in found { rows := rows + [found[ids[i]]]; }
      }
      assert ids[..|ids|] == ids;
    }

    method SetDocumentDeleted(documentId: string, isDeleted: bool, now: int, removed: set<string>) returns (count: nat)
      modifies this
      ensures var ks := OfDocument(old(db), documentId);
              count == |ks| && db == Flagged(old(db), ks, isDeleted, now) && cache == old(cache) - (ks * removed)
    {
      var rows := OfDocument(db, documentId);
      assert rows <= db.Keys;
      FlaggedNone(db, isDeleted, now);
      hide OfDocument, Flagged;
      var pending := rows;
      var table := db; // the transaction, committed at the end
      var left := cache;
      ghost var done: set<string> := {};
      while pending != {}
        invariant db == old(db) && cache == old(cache)
        invariant done + pending == rows && done !! pending && rows <= db.Keys
        invariant table == Flagged(db, done, isDeleted, now) && left == cache - (done * removed)
        decreases |pending|
      {
        var k :| k in pending;
        FlaggedStep(db, done, k, isDeleted, now);
        DropStep(cache, done, k, removed);
        pending := pending - {k};
        done := done + {k};
        table := table[k := table[k].(isDeleted := isDeleted, deletedAt := if isDeleted then Some(now) else None)];
        if k in removed { left := left - {k}; }
      }
      assert done == rows;
      cache := left;
      db := table;
      count := |rows|;
    }

    /** The cache deletions after rows are gone. */
    method Evict(ks: set<string>, removed: set<string>)
      modifies this`cache
      ensures cache == old(cache) - (ks * removed)
    {
      var pending := ks;
      while pending != {}
        invariant pending <= ks && cache == old(cache) - ((ks - pending) * removed)
        decreases |pending|
      {
        var k :| k in pending;
        pending := pending - {k};
        if k in removed { cache := cache - {k}; }
      }
    }

    method PurgeByDocumentId(documentId: string, removed: set<string>) returns (count: nat)
      modifies this
      ensures var ks := OfDocument(old(db), documentId);
              count == |ks| && db == old(db) - ks && cache == old(cache) - (ks * removed)
    {
      var ks := OfDocument(db, documentId);
      db := db - ks;
      Evict(ks, removed);
      count := |ks|;
    }

    method DeleteByFilename(filename: string, legacyOnly: bool, removed: set<string>) returns (count: nat)
      modifies this
      ensures var ks := OfFilename(old(db), filename, legacyOnly);
              count == |ks| && db == old(db) - ks && cache == old(cache) - (ks * removed)
    {
      var ks := OfFilename(db, filename, legacyOnly);
      db := db - ks;
      Evict(ks, removed);
      count := |ks|;
    }
  }
}
