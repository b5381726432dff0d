/** When the cached parent store answers as the database alone would. */
module ParentStoreTheorems {
  import opened Wrappers
  import opened Text
  import opened ParentStore

  datatype State = State(db: Rows, cache: Rows)

  /** One operation, with the cache calls that get through; `Expire` is the cache forgetting entries. */
  datatype Op =
    | Upsert(docs: seq<Row>, stored: set<string>)
    | Lookup(ids: seq<string>, readable: set<string>, stored: set<string>)
    | SetDeleted(documentId: string, isDeleted: bool, now: int, removed: set<string>)
    | Purge(documentId: string, removed: set<string>)
    | DeleteFile(filename: string, legacyOnly: bool, removed: set<string>)
    | Expire(keys: set<string>)

  function Next(s: State, op: Op): State {
    match op
    case Upsert(docs, stored) => State(WriteAll(s.db, Updates(docs)), CacheAll(s.cache, Updates(docs), stored))
    case Lookup(ids, readable, stored) => State(s.db, Refilled(s.db, s.cache, readable, ids, stored))
    case SetDeleted(documentId, isDeleted, now, removed) =>
      var ks := OfDocument(s.db, documentId);
      State(Flagged(s.db, ks, isDeleted, now), s.cache - (ks * removed))
    case Purge(documentId, removed) =>
      var ks := OfDocument(s.db, documentId);
      State(s.db - ks, s.cache - (ks * removed))
    case DeleteFile(filename, legacyOnly, removed) =>
      var ks := OfFilename(s.db, filename, legacyOnly);
      State(s.db - ks, s.cache - (ks * removed))
    case Expire(keys) => State(s.db, s.cache - keys)
  }

  function Run(s: State, ops: seq<Op>): State {
    if ops == [] then s else Next(Run(s, ops[..|ops| - 1]), ops[|ops| - 1])
  }

  // ---- what holds of every state ----

  predicate SoundRow(k: string, row: Row) {
    k != "" && Trim(k) == k && row.id == k && (!row.isDeleted ==> row.deletedAt == None)
  }

  ghost predicate Sound(s: State) {
    && (forall k :: k in s.db ==> SoundRow(k, s.db[k]))
    && (forall k :: k in s.cache ==> SoundRow(k, s.cache[k]))
  }

  lemma {:induction false} UpdatesAreSound(docs: seq<Row>)
    ensures forall row :: row in Updates(docs) ==> SoundRow(row.id, row)
  {
    if docs != [] {
      var n := |docs| - 1;
      UpdatesAreSound(docs[..n]);
      TrimIdempotent(docs[n].id);
    }
  }

  function UpdatedIds(updates: seq<Row>): set<string> {
    set row | row in updates :: row.id
  }

  predicate SameAt(a: Rows, b: Rows, k: string) {
    (k in a <==> k in b) && (k in a ==> a[k] == b[k])
  }

  /** An upsert at one key: untouched, written on both sides, or written on the database side only. */
  lemma {:induction false} UpsertAt(db: Rows, cache: Rows, updates: seq<Row>, stored: set<string>, k: string)
    ensures k !in UpdatedIds(updates) ==>
              SameAt(WriteAll(db, updates), db, k) && SameAt(CacheAll(cache, updates, stored), cache, k)
    ensures k in UpdatedIds(updates) ==> k in WriteAll(db, updates) && WriteAll(db, updates)[k] in updates
    ensures k in UpdatedIds(updates) && k in stored ==> SameAt(CacheAll(cache, updates, stored), WriteAll(db, updates), k)
    ensures k !in stored ==> SameAt(CacheAll(cache, updates, stored), cache, k)
  {
    if updates != [] {
      var n := |updates| - 1;
      UpsertAt(db, cache, updates[..n], stored, k);
      assert forall row :: row in updates <==> row in updates[..n] || row == updates[n];
      if updates[n].id != k {
        assert k in UpdatedIds(updates) ==> k in UpdatedIds(updates[..n]);
      }
    }
  }

  lemma UpsertKeepsSound(s: State, docs: seq<Row>, stored: set<string>)
    requires Sound(s)
    ensures Sound(Next(s, Upsert(docs, stored)))
  {
    var updates := Updates(docs);
    var t := Next(s, Upsert(docs, stored));
    UpdatesAreSound(docs);
    forall k | k in t.db || k in t.cache
      ensures k in t.db ==> SoundRow(k, t.db[k])
      ensures k in t.cache ==> SoundRow(k, t.cache[k])
    {
      UpsertAt(s.db, s.cache, updates, stored, k);
      if k in UpdatedIds(updates) { WrittenUnderOwnId(s.db, updates, k); }
    }
  }

  lemma {:induction false} WrittenUnderOwnId(db: Rows, updates: seq<Row>, k: string)
    requires k in UpdatedIds(updates)
    ensures k in WriteAll(db, updates) && WriteAll(db, updates)[k].id == k && WriteAll(db, updates)[k] in updates
  {
    var n := |updates| - 1;
    if updates[n].id != k {
      assert forall row :: row in updates <==> row in updates[..n] || row == updates[n];
      assert k in UpdatedIds(updates[..n]);
      WrittenUnderOwnId(db, updates[..n], k);
    }
  }

  lemma StepKeepsSound(s: State, op: Op)
    requires Sound(s)
    ensures Sound(Next(s, op))
  {
    match op
    case Upsert(docs, stored) => UpsertKeepsSound(s, docs, stored);
    case _ =>
  }

  // ---- coherence ----

  /** A live cache entry is the live row. */
  ghost predicate Coherent(s: State) {
    forall k :: LiveIn(s.cache, k) ==> LiveIn(s.db, k) && s.cache[k] == s.db[k]
  }

  lemma FoundWhereLive(s: State, readable: set<string>, ids: seq<string>, id: string)
    requires Sound(s) && Coherent(s) && id in ids
    ensures var found := Found(s.db, s.cache, readable, ids);
            && (id in found <==> Trim(id) == id && id != "" && LiveIn(s.db, id))
            && (id in found ==> found[id] == s.db[id])
  {
    if id in Wanted(ids) {
      var raw :| raw in ids && Trim(raw) != "" && Trim(raw) == id;
      TrimIdempotent(raw);
    }
  }

  lemma {:induction false} LookupsAgreeOn(s: State, readable: set<string>, ids: seq<string>, part: seq<string>)
    requires Sound(s) && Coherent(s) && forall id :: id in part ==> id in ids
    ensures InOrder(Found(s.db, s.cache, readable, ids), part) == DatabaseLookup(s.db, part)
  {
    if part != [] {
      LookupsAgreeOn(s, readable, ids, part[..|part| - 1]);
      FoundWhereLive(s, readable, ids, part[|part| - 1]);
    }
  }

  lemma LookupShowsEntry(s: State, k: string)
    requires Sound(s) && LiveIn(s.cache, k)
    ensures CachedLookup(s.db, s.cache, {k}, [k]) == [s.cache[k]]
    ensures DatabaseLookup(s.db, [k]) == if LiveIn(s.db, k) then [s.db[k]] else []
  {
    assert SoundRow(k, s.cache[k]);
    assert k in [k];
    assert k in Wanted([k]) && k in Hits(s.cache, {k}, [k]);
    var found := Found(s.db, s.cache, {k}, [k]);
    assert k in found && found[k] == s.cache[k];
    assert [k][..0] == [] && InOrder(found, [k]) == InOrder(found, [k][..0]) + [found[k]];
  }

  /**
  The cached lookup answers every request as the database alone does, whichever reads fail, if and
  only if the cache is coherent.
  */
  lemma CoherentMeansTransparent(s: State)
    requires Sound(s)
    ensures Coherent(s) <==> forall ids, readable :: CachedLookup(s.db, s.cache, readable, ids) == DatabaseLookup(s.db, ids)
  {
    if Coherent(s) {
      forall ids, readable ensures CachedLookup(s.db, s.cache, readable, ids) == DatabaseLookup(s.db, ids) {
        LookupsAgreeOn(s, readable, ids, ids);
      }
    } else {
      var k :| LiveIn(s.cache, k) && !(LiveIn(s.db, k) && s.cache[k] == s.db[k]);
      LookupShowsEntry(s, k);
      assert CachedLookup(s.db, s.cache, {k}, [k]) != DatabaseLookup(s.db, [k]);
    }
  }

  // ---- which failures a coherent cache survives ----

  /**
  A write or delete that does not reach the cache is harmless when the entry it should have replaced
  or removed is not live, or already says the same.
  */
  ghost predicate Tolerable(s: State, op: Op) {
    match op
    case Upsert(docs, stored) =>
      forall k :: k in UpdatedIds(Updates(docs)) && k !in stored && LiveIn(s.cache, k)
        ==> k in Next(s, op).db && s.cache[k] == Next(s, op).db[k]
    case Lookup(_, _, _) => true
    case SetDeleted(documentId, isDeleted, _, removed) =>
      isDeleted ==> forall k :: k in OfDocument(s.db, documentId) && k !in removed ==> !LiveIn(s.cache, k)
    case Purge(documentId, removed) =>
      forall k :: k in OfDocument(s.db, documentId) && k !in removed ==> !LiveIn(s.cache, k)
    case DeleteFile(filename, legacyOnly, removed) =>
      forall k :: k in OfFilename(s.db, filename, legacyOnly) && k !in removed ==> !LiveIn(s.cache, k)
    case Expire(_) => true
  }

  lemma UpsertCoherence(s: State, docs: seq<Row>, stored: set<string>)
    requires Sound(s) && Coherent(s)
    ensures Coherent(Next(s, Upsert(docs, stored))) <==> Tolerable(s, Upsert(docs, stored))
  {
    var op := Upsert(docs, stored);
    var t := Next(s, op);
    var updates := Updates(docs);
    forall k
      ensures k in UpdatedIds(updates) && k !in stored ==> k in t.db && SameAt(t.cache, s.cache, k)
      ensures k in UpdatedIds(updates) && k in stored ==> SameAt(t.cache, t.db, k)
      ensures k !in UpdatedIds(updates) ==> SameAt(t.cache, s.cache, k) && SameAt(t.db, s.db, k)
    {
      UpsertAt(s.db, s.cache, updates, stored, k);
    }
    if Tolerable(s, op) {
      forall k | LiveIn(t.cache, k) ensures LiveIn(t.db, k) && t.cache[k] == t.db[k] {
        if k in UpdatedIds(updates) && k !in stored { assert LiveIn(s.cache, k); }
      }
    }
    if Coherent(t) {
      forall k | k in UpdatedIds(updates) && k !in stored && LiveIn(s.cache, k)
        ensures k in t.db && s.cache[k] == t.db[k]
      {
        assert SameAt(t.cache, s.cache, k) && LiveIn(t.cache, k);
      }
    }
  }

  lemma DropCoherence(s: State, ks: set<string>, removed: set<string>)
    requires Coherent(s)
    ensures Coherent(State(s.db - ks, s.cache - (ks * removed)))
       <==> forall k :: k in ks && k !in removed ==> !LiveIn(s.cache, k)
  {
    var t := State(s.db - ks, s.cache - (ks * removed));
    if Coherent(t) {
      forall k | k in ks && k !in removed ensures !LiveIn(s.cache, k) {
        assert LiveIn(s.cache, k) ==> LiveIn(t.cache, k) && !LiveIn(t.db, k);
      }
    }
    if forall k :: k in ks && k !in removed ==> !LiveIn(s.cache, k) {
      forall k | LiveIn(t.cache, k) ensures LiveIn(t.db, k) && t.cache[k] == t.db[k] {
        assert LiveIn(s.cache, k);
      }
    }
  }

  lemma FlagCoherence(s: State, ks: set<string>, isDeleted: bool, now: int, removed: set<string>)
    requires Sound(s) && Coherent(s) && ks <= s.db.Keys
    ensures Coherent(State(Flagged(s.db, ks, isDeleted, now), s.cache - (ks * removed)))
       <==> (isDeleted ==> forall k :: k in ks && k !in removed ==> !LiveIn(s.cache, k))
  {
    var t := State(Flagged(s.db, ks, isDeleted, now), s.cache - (ks * removed));
    if isDeleted {
      if Coherent(t) {
        forall k | k in ks && k !in removed ensures !LiveIn(s.cache, k) {
          assert LiveIn(s.cache, k) ==> LiveIn(t.cache, k) && !LiveIn(t.db, k);
        }
      }
      if forall k :: k in ks && k !in removed ==> !LiveIn(s.cache, k) {
        forall k | LiveIn(t.cache, k) ensures LiveIn(t.db, k) && t.cache[k] == t.db[k] { assert LiveIn(s.cache, k); }
      }
    } else {
      forall k | LiveIn(t.cache, k) ensures LiveIn(t.db, k) && t.cache[k] == t.db[k] {
        assert LiveIn(s.cache, k) && SoundRow(k, s.db[k]);
      }
    }
  }

  lemma RefillCoherence(s: State, ids: seq<string>, readable: set<string>, stored: set<string>)
    requires Coherent(s)
    ensures Coherent(State(s.db, Refilled(s.db, s.cache, readable, ids, stored)))
  {
    hide Hits, Wanted;
    var t := State(s.db, Refilled(s.db, s.cache, readable, ids, stored));
    forall k | LiveIn(t.cache, k) ensures LiveIn(t.db, k) && t.cache[k] == t.db[k] {
      assert LiveIn(s.cache, k) || (LiveIn(s.db, k) && t.cache[k] == s.db[k]);
    }
  }

  /** From a coherent state a step leads to a coherent one exactly when its failures are tolerable. */
  lemma StepCoherence(s: State, op: Op)
    requires Sound(s) && Coherent(s)
    ensures Coherent(Next(s, op)) <==> Tolerable(s, op)
  {
    match op
    case Upsert(docs, stored) => UpsertCoherence(s, docs, stored);
    case Lookup(ids, readable, stored) => RefillCoherence(s, ids, readable, stored);
    case SetDeleted(documentId, isDeleted, now, removed) =>
      FlagCoherence(s, OfDocument(s.db, documentId), isDeleted, now, removed);
    case Purge(documentId, removed) => DropCoherence(s, OfDocument(s.db, documentId), removed);
    case DeleteFile(filename, legacyOnly, removed) => DropCoherence(s, OfFilename(s.db, filename, legacyOnly), removed);
    case Expire(keys) =>
      forall k | LiveIn(s.cache - keys, k) ensures LiveIn(s.db, k) && s.cache[k] == s.db[k] { assert LiveIn(s.cache, k); }
  }

  ghost predicate TolerableRun(s: State, ops: seq<Op>) {
    forall i :: 0 <= i < |ops| ==> Tolerable(Run(s, ops[..i]), ops[i])
  }

  lemma {:induction false} RunIsCoherent(s: State, ops: seq<Op>)
    requires Sound(s) && Coherent(s) && TolerableRun(s, ops)
    ensures Sound(Run(s, ops)) && Coherent(Run(s, ops))
  {
    if ops != [] {
      var n := |ops| - 1;
      forall i | 0 <= i < n ensures Tolerable(Run(s, ops[..n][..i]), ops[..n][i]) {
        assert ops[..n][..i] == ops[..i];
      }
      RunIsCoherent(s, ops[..n]);
      StepKeepsSound(Run(s, ops[..n]), ops[n]);
      StepCoherence(Run(s, ops[..n]), ops[n]);
    }
  }

  const EMPTY := State(map[], map[])

  /** A state that operations with tolerable failures lead to from the empty store. */
  ghost predicate Reachable(s: State) {
    exists ops :: TolerableRun(EMPTY, ops) && Run(EMPTY, ops) == s
  }

  /**
  After any operations from an empty store, expiring entries and failing calls included as far as
  they are tolerable, every lookup returns the live rows in request order.
  */
  lemma EveryLookupIsTransparent(s: State, ids: seq<string>, readable: set<string>)
    requires Reachable(s)
    ensures CachedLookup(s.db, s.cache, readable, ids) == DatabaseLookup(s.db, ids)
  {
    var ops :| TolerableRun(EMPTY, ops) && Run(EMPTY, ops) == s;
    RunIsCoherent(EMPTY, ops);
    CoherentMeansTransparent(s);
  }

  /** A rewrite whose cache write is lost keeps answering with the old row. */
  lemma LostWriteShowsOldRow(before: Row, after: Row)
    requires before.id == after.id && before.id != "" && Trim(before.id) == before.id
    requires before.deletedAt == None && after.deletedAt == None && !before.isDeleted && !after.isDeleted && before != after
    ensures var s := Run(EMPTY, [Upsert([before], {before.id}), Upsert([after], {})]);
            CachedLookup(s.db, s.cache, {before.id}, [before.id]) == [before] && DatabaseLookup(s.db, [before.id]) == [after]
  {
    var start := EMPTY;
    var ops := [Upsert([before], {before.id}), Upsert([after], {})];
    var k := before.id;
    assert ops[..1] == [ops[0]] && ops[..1][..0] == [];
    OneRow(start, before, {k});
    var first := State(map[k := before], map[k := before]);
    assert Next(start, ops[0]) == first;
    OneRow(first, after, {});
    var s := State(map[k := after], map[k := before]);
    assert Next(first, ops[1]) == s;
    assert Run(start, ops[..1][..0]) == start;
    assert Run(start, ops[..1]) == Next(start, ops[0]) && Run(start, ops) == Next(first, ops[1]);
    assert SoundRow(k, before) && SoundRow(k, after);
    LookupShowsEntry(s, k);
  }

  lemma OneRow(s: State, row: Row, stored: set<string>)
    requires row.id != "" && Trim(row.id) == row.id && row.deletedAt == None
    ensures Next(s, Upsert([row], stored))
         == State(s.db[row.id := row], if row.id in stored then s.cache[row.id := row] else s.cache)
  {
    assert [row][..0] == [];
    assert row.(id := Trim(row.id), deletedAt := None) == row;
    assert Updates([row]) == Updates([row][..0]) + [row];
    assert WriteAll(s.db, [row][..0]) == s.db && CacheAll(s.cache, [row][..0], stored) == s.cache;
  }
}
