/** What one merge pass returns, in terms of the positions of the hits and of the rows of the store. */
module AutoMergePass {
  import opened Wrappers
  import opened Text
  import opened AutoMerge
  import opened AutoMergeTheorems
  import opened Positions

  // ---- what is kept of a list with repeated keys ----

  ghost predicate IsFirst(hits: seq<Hit>, i: nat)
    requires i < |hits|
  {
    forall j :: 0 <= j < i ==> KeyOf(hits[j]) != KeyOf(hits[i])
  }

  /** `kept` holds the elements at the positions `at`: exactly the first ones of every key, in order. */
  ghost predicate KeepsFirsts(hits: seq<Hit>, kept: seq<Hit>, at: seq<nat>) {
    && |at| == |kept| && Ascending(at, |hits|)
    && (forall j :: 0 <= j < |at| ==> kept[j] == hits[at[j]])
    && (forall i :: 0 <= i < |hits| ==> (i in at <==> IsFirst(hits, i)))
  }

  lemma FirstsOfPrefix(hits: seq<Hit>, n: nat, i: nat)
    requires i < n <= |hits|
    ensures IsFirst(hits[..n], i) <==> IsFirst(hits, i)
  {
  }

  lemma LastIsFirst(hits: seq<Hit>, n: nat)
    requires n == |hits| - 1
    ensures IsFirst(hits, n) <==> KeyOf(hits[n]) !in Keys(hits[..n])
  {
    if IsFirst(hits, n) {
      forall h | h in hits[..n] ensures KeyOf(h) != KeyOf(hits[n]) {
        var j :| 0 <= j < n && hits[..n][j] == h;
        assert hits[j] == h;
      }
    } else {
      var j :| 0 <= j < n && KeyOf(hits[j]) == KeyOf(hits[n]);
      assert hits[..n][j] in hits[..n];
    }
  }

  /** One element more: it is kept if its key is new. */
  lemma FirstsNext(hits: seq<Hit>, n: nat, kept: seq<Hit>, at: seq<nat>)
    requires n == |hits| - 1 && KeepsFirsts(hits[..n], kept, at)
    ensures KeepsFirsts(hits, if IsFirst(hits, n) then kept + [hits[n]] else kept,
                        if IsFirst(hits, n) then at + [n] else at)
  {
    hide KeyOf, IsFirst;
    forall i | 0 <= i < n ensures IsFirst(hits[..n], i) <==> IsFirst(hits, i) { FirstsOfPrefix(hits, n, i); }
    forall j | 0 <= j < |at| ensures kept[j] == hits[at[j]] { assert hits[..n][at[j]] == hits[at[j]]; }
  }

  lemma {:induction false} DedupKeepsFirsts(hits: seq<Hit>) returns (at: seq<nat>)
    ensures KeepsFirsts(hits, Dedup(hits), at)
    decreases |hits|
  {
    hide KeyOf, Keys, Dedup, IsFirst, Ascending;
    if hits == [] {
      at := [];
      NothingKept();
    } else {
      var n := |hits| - 1;
      var before := DedupKeepsFirsts(hits[..n]);
      assert hits == hits[..n] + [hits[n]];
      DedupAppend(hits[..n], hits[n]);
      LastIsFirst(hits, n);
      FirstsNext(hits, n, Dedup(hits[..n]), before);
      at := if IsFirst(hits, n) then before + [n] else before;
    }
  }

  lemma NothingKept()
    ensures KeepsFirsts([], Dedup([]), [])
  {
  }

  // ---- the pass ----

  /** The positions of the hits that name `p` as their parent. */
  ghost function Siblings(docs: seq<Hit>, p: string): set<nat> {
    set i: nat | i < |docs| && Trim(docs[i].parentId) == p
  }

  lemma {:induction false} ChildrenAreSiblings(docs: seq<Hit>, p: string)
    ensures Children(docs, p) == |Siblings(docs, p)|
    decreases |docs|
  {
    hide Trim;
    if docs == [] {
      assert Siblings(docs, p) == {};
    } else {
      var n := |docs| - 1;
      ChildrenAreSiblings(docs[..n], p);
      if Trim(docs[n].parentId) == p {
        assert Siblings(docs, p) == Siblings(docs[..n], p) + {n};
      } else {
        assert Siblings(docs, p) == Siblings(docs[..n], p);
      }
    }
  }

  /** Enough siblings were hit, and the store has the parent they name. */
  ghost predicate Gathered(docs: seq<Hit>, store: Store, threshold: int, i: nat)
    requires i < |docs|
  {
    var p := Trim(docs[i].parentId);
    p != "" && p in store && |Siblings(docs, p)| >= threshold
  }

  /** The row of the parent, with the better of its own score and the child's, and the number of children. */
  predicate StandsIn(r: Hit, row: Hit, child: Hit, count: nat) {
    && r == row.(score := r.score, mergedChildCount := Some(count))
    && (child.score.None? ==> r.score == row.score)
    && (child.score.Some? ==>
          && r.score.Some? && r.score in {row.score, child.score} && r.score.value >= child.score.value
          && (row.score.Some? ==> r.score.value >= row.score.value))
  }

  lemma GatheredRises(docs: seq<Hit>, store: Store, threshold: int, i: nat)
    requires i < |docs|
    ensures Gathered(docs, store, threshold, i) <==> Merges(docs, store, threshold, ParentOf(docs[i]))
  {
    hide Trim;
    ChildrenAreSiblings(docs, ParentOf(docs[i]));
    ChildrenOfMember(docs, docs[i]);
  }

  lemma {:induction false} LiftAllAt(docs: seq<Hit>, store: Store, threshold: int, hits: seq<Hit>)
    ensures var lifted := LiftAll(docs, store, threshold, hits);
            |lifted| == |hits| && forall i :: 0 <= i < |hits| ==> lifted[i] == Lift(docs, store, threshold, hits[i])
  {
    hide Lift;
    if hits != [] { LiftAllAt(docs, store, threshold, hits[..|hits| - 1]); }
  }

  /** What the pass puts in the place of one hit. */
  lemma LiftStandsIn(docs: seq<Hit>, store: Store, threshold: int, i: nat)
    requires i < |docs|
    ensures var h, r := docs[i], Lift(docs, store, threshold, docs[i]);
            if Gathered(docs, store, threshold, i)
            then var p := Trim(h.parentId); StandsIn(r, store[p], h, |Siblings(docs, p)|)
            else r == h
  {
    GatheredRises(docs, store, threshold, i);
    ChildrenAreSiblings(docs, ParentOf(docs[i]));
    hide Merges, Trim;
  }

  /** Ids of the store are the ids of its rows. */
  ghost predicate RowsNamed(store: Store) {
    forall p :: p in store ==> p != "" && store[p].chunkId == p
  }

  /** The key of what stands in for a hit. */
  lemma LiftedKey(docs: seq<Hit>, store: Store, threshold: int, i: nat)
    requires i < |docs| && RowsNamed(store) && docs[i].chunkId != ""
    ensures KeyOf(Lift(docs, store, threshold, docs[i]))
         == ById(if Gathered(docs, store, threshold, i) then Trim(docs[i].parentId) else docs[i].chunkId)
  {
    LiftStandsIn(docs, store, threshold, i);
    hide Lift, Gathered, Trim;
  }

  /** The hits that are still there after the pass, or whose parent appears in their place. */
  ghost predicate Leads(docs: seq<Hit>, store: Store, threshold: int, i: nat)
    requires i < |docs|
  {
    Gathered(docs, store, threshold, i) ==> forall j :: 0 <= j < i ==> Trim(docs[j].parentId) != Trim(docs[i].parentId)
  }

  lemma SameParentGathers(docs: seq<Hit>, store: Store, threshold: int, i: nat, j: nat)
    requires i < |docs| && j < |docs| && Trim(docs[i].parentId) == Trim(docs[j].parentId)
    ensures Gathered(docs, store, threshold, i) <==> Gathered(docs, store, threshold, j)
  {
  }

  lemma LeadsIsFirst(docs: seq<Hit>, store: Store, threshold: int, lifted: seq<Hit>, i: nat)
    requires Distinct(docs) && NoParentBesideChild(docs) && RowsNamed(store) && i < |docs| == |lifted|
    requires forall k :: 0 <= k < |docs| ==> lifted[k] == Lift(docs, store, threshold, docs[k])
    ensures IsFirst(lifted, i) <==> Leads(docs, store, threshold, i)
  {
    hide Lift, Gathered, Trim, KeyOf, StoreOk;
    LiftedKey(docs, store, threshold, i);
    forall j | 0 <= j < i
      ensures KeyOf(lifted[j]) == KeyOf(lifted[i]) <==>
              Gathered(docs, store, threshold, i) && Trim(docs[j].parentId) == Trim(docs[i].parentId)
    {
      LiftedKey(docs, store, threshold, j);
      if Trim(docs[j].parentId) == Trim(docs[i].parentId) { SameParentGathers(docs, store, threshold, i, j); }
      assert docs[i] in docs && docs[j] in docs;
    }
  }

  /**
  One pass, position by position. In the place of the first of the children of a parent that enough
  hits name stands the parent; the other children are gone; every other hit stays, and the order is
  that of the hits.
  */
  lemma PassSpelledOut(docs: seq<Hit>, store: Store, threshold: int) returns (at: seq<nat>)
    requires Distinct(docs) && NoParentBesideChild(docs) && RowsNamed(store)
    ensures var out := MergePass(docs, store, threshold).docs;
            && |at| == |out| && Ascending(at, |docs|)
            && (forall i :: 0 <= i < |docs| ==> (i in at <==> Leads(docs, store, threshold, i)))
            && (forall j :: 0 <= j < |at| ==>
                  if Gathered(docs, store, threshold, at[j])
                  then var p := Trim(docs[at[j]].parentId);
                       StandsIn(out[j], store[p], docs[at[j]], |Siblings(docs, p)|)
                  else out[j] == docs[at[j]])
  {
    var lifted := LiftAll(docs, store, threshold, docs);
    LiftAllAt(docs, store, threshold, docs);
    PassIsDedup(docs, store, threshold);
    at := DedupKeepsFirsts(lifted);
    hide MergePass, Dedup, LiftAll, Lift, Gathered, Trim, StandsIn, IsFirst, Leads, Siblings;
    forall i | 0 <= i < |docs| ensures IsFirst(lifted, i) <==> Leads(docs, store, threshold, i) {
      LeadsIsFirst(docs, store, threshold, lifted, i);
    }
    forall j | 0 <= j < |at|
      ensures if Gathered(docs, store, threshold, at[j])
              then StandsIn(lifted[at[j]], store[Trim(docs[at[j]].parentId)], docs[at[j]],
                            |Siblings(docs, Trim(docs[at[j]].parentId))|)
              else lifted[at[j]] == docs[at[j]]
    {
      GatheredInStore(docs, store, threshold, at[j]);
      LiftStandsIn(docs, store, threshold, at[j]);
    }
  }

  lemma GatheredInStore(docs: seq<Hit>, store: Store, threshold: int, i: nat)
    requires i < |docs|
    ensures Gathered(docs, store, threshold, i) ==> Trim(docs[i].parentId) in store
  {
  }

  /** The early way out returns what the long way would have. */
  lemma PassIsDedup(docs: seq<Hit>, store: Store, threshold: int)
    requires Distinct(docs)
    ensures MergePass(docs, store, threshold).docs == Dedup(LiftAll(docs, store, threshold, docs))
  {
    hide Trim, KeyOf, Dedup;
    if !(exists h :: h in docs && Reaches(docs, threshold, ParentOf(h))) {
      NothingLifted(docs, store, threshold, docs);
      DedupOfDistinct(docs);
    }
  }

  lemma FirstSibling(docs: seq<Hit>, p: string, i: nat) returns (first: nat)
    requires i < |docs| && Trim(docs[i].parentId) == p
    ensures first <= i && Trim(docs[first].parentId) == p
    ensures forall j :: 0 <= j < first ==> Trim(docs[j].parentId) != p
    decreases i
  {
    if j :| 0 <= j < i && Trim(docs[j].parentId) == p { first := FirstSibling(docs, p, j); } else { first := i; }
  }

  /**
  A parent in the store that at least `threshold` hits name is returned with their number, and none of
  them is returned itself; otherwise all of them are.
  */
  lemma ParentsGather(docs: seq<Hit>, store: Store, threshold: int, p: string)
    requires Distinct(docs) && NoParentBesideChild(docs) && RowsNamed(store) && p != ""
    ensures var out := MergePass(docs, store, threshold).docs;
            var k := |set i: nat | i < |docs| && Trim(docs[i].parentId) == p|;
            if p in store && k > 0 && k >= threshold
            then (exists r :: r in out && r.chunkId == p && r.mergedChildCount == Some(k))
                 && (forall h :: h in docs && Trim(h.parentId) == p ==> h !in out)
            else forall h :: h in docs && Trim(h.parentId) == p ==> h in out
  {
    hide MergePass, Trim, StandsIn;
    var out := MergePass(docs, store, threshold).docs;
    var siblings := set i: nat | i < |docs| && Trim(docs[i].parentId) == p;
    assert siblings == Siblings(docs, p);
    var at := PassSpelledOut(docs, store, threshold);
    if p in store && |siblings| > 0 && |siblings| >= threshold {
      var i :| i in siblings;
      var first := FirstSibling(docs, p, i);
      assert Gathered(docs, store, threshold, first) && Leads(docs, store, threshold, first);
      var j :| 0 <= j < |at| && at[j] == first;
      StandInNamed(out[j], store[p], docs[first], |siblings|);
      assert out[j] in out && out[j].chunkId == p;
      forall h | h in docs && Trim(h.parentId) == p ensures h !in out { GatheredIsGone(docs, store, threshold, out, at, h); }
    } else {
      forall h | h in docs && Trim(h.parentId) == p ensures h in out {
        var i :| 0 <= i < |docs| && docs[i] == h;
        assert i in siblings && !Gathered(docs, store, threshold, i);
        assert Leads(docs, store, threshold, i);
        var j :| 0 <= j < |at| && at[j] == i;
        assert out[j] in out;
      }
    }
  }

  lemma StandInNamed(r: Hit, row: Hit, child: Hit, count: nat)
    requires StandsIn(r, row, child, count)
    ensures r.chunkId == row.chunkId && r.mergedChildCount == Some(count)
  {
  }

  lemma GatheredIsGone(docs: seq<Hit>, store: Store, threshold: int, out: seq<Hit>, at: seq<nat>, h: Hit)
    requires Distinct(docs) && NoParentBesideChild(docs) && RowsNamed(store) && |at| == |out| && Ascending(at, |docs|)
    requires h in docs && forall i :: 0 <= i < |docs| && docs[i] == h ==> Gathered(docs, store, threshold, i)
    requires forall j :: 0 <= j < |at| ==>
               if Gathered(docs, store, threshold, at[j])
               then var p := Trim(docs[at[j]].parentId);
                    p in store && StandsIn(out[j], store[p], docs[at[j]], |Siblings(docs, p)|)
               else out[j] == docs[at[j]]
    ensures h !in out
  {
    hide StandsIn, Gathered, Trim;
    forall j | 0 <= j < |out| ensures out[j] != h {
      if Gathered(docs, store, threshold, at[j]) {
        var child := docs[at[j]];
        StandInNamed(out[j], store[Trim(child.parentId)], child, |Siblings(docs, Trim(child.parentId))|);
        assert child in docs && ParentOf(child) == out[j].chunkId;
      }
    }
  }

  ghost function GatheredBelow(docs: seq<Hit>, store: Store, threshold: int, n: nat): set<nat>
    requires n <= |docs|
  {
    set i: nat | i < n && Gathered(docs, store, threshold, i)
  }

  /** The hits that are replaced are counted one by one. */
  lemma {:induction false} ReplacedAreGathered(docs: seq<Hit>, store: Store, threshold: int, n: nat)
    requires n <= |docs|
    ensures ReplacedCount(docs, store, threshold, docs[..n])
         == |GatheredBelow(docs, store, threshold, n)|
  {
    hide Gathered, ParentOf, Merges, Lift;
    if n == 0 {
      assert GatheredBelow(docs, store, threshold, n) == {};
    } else {
      ReplacedAreGathered(docs, store, threshold, n - 1);
      LiftNext(docs, store, threshold, n - 1);
      GatheredRises(docs, store, threshold, n - 1);
      assert GatheredBelow(docs, store, threshold, n)
          == GatheredBelow(docs, store, threshold, n - 1)
             + (if Gathered(docs, store, threshold, n - 1) then {n - 1} else {});
    }
  }

  /** Both passes over leaf hits are of this form. */
  lemma BothPassesSpelledOut(docs: seq<Hit>, store: Store, threshold: int)
    requires LeavesOk(docs, store) && StoreOk(store)
    ensures RowsNamed(store) && Distinct(docs) && NoParentBesideChild(docs)
    ensures var first := MergePass(docs, store, threshold).docs; Distinct(first) && NoParentBesideChild(first)
  {
    LeavesAreLayered(docs, store, threshold);
    FirstPassSeparates(docs, store, threshold);
  }
}
