/** Two merge passes over leaf hits reach a fixpoint without a chunk beside its parent. */
module AutoMergeTheorems {
  import opened Wrappers
  import opened Text
  import opened AutoMerge
  import opened Sets

  ghost predicate Distinct(docs: seq<Hit>) {
    && (forall i :: 0 <= i < |docs| ==> docs[i].chunkId != "")
    && (forall i, j :: 0 <= i < j < |docs| ==> docs[i].chunkId != docs[j].chunkId)
  }

  /** Parent rows are of level 1 or 2, and parents of level 2 rows are of level 1. */
  ghost predicate StoreOk(store: Store) {
    forall p :: p in store ==>
      && p != "" && store[p].chunkId == p && store[p].level in {1, 2}
      && (store[p].level == 1 ==> ParentOf(store[p]) == "")
      && (ParentOf(store[p]) in store ==> store[ParentOf(store[p])].level == 1)
  }

  predicate IsLeaf(h: Hit, store: Store) {
    h.level == 3 && h.chunkId !in store && (ParentOf(h) in store ==> store[ParentOf(h)].level == 2)
  }

  predicate IsRow(h: Hit, store: Store) {
    h.chunkId in store && h.parentId == store[h.chunkId].parentId && h.level == store[h.chunkId].level
  }

  /** Distinct leaf hits, none of which is anybody's parent. */
  ghost predicate LeavesOk(docs: seq<Hit>, store: Store) {
    && Distinct(docs)
    && (forall h :: h in docs ==> IsLeaf(h, store))
    && (forall h, g :: h in docs && g in docs ==> ParentOf(h) != g.chunkId)
    && (forall p, g :: p in store && g in docs ==> ParentOf(store[p]) != g.chunkId)
  }

  /** What a list looks like between the passes. */
  ghost predicate Layered(docs: seq<Hit>, store: Store) {
    Distinct(docs) && forall h :: h in docs ==> IsLeaf(h, store) || IsRow(h, store)
  }

  // ---- the elements of a pass ----

  lemma {:induction false} LiftAllMembers(docs: seq<Hit>, store: Store, threshold: int, hits: seq<Hit>)
    ensures forall r :: r in LiftAll(docs, store, threshold, hits) ==>
              exists h :: h in hits && r == Lift(docs, store, threshold, h)
    ensures forall h :: h in hits ==> Lift(docs, store, threshold, h) in LiftAll(docs, store, threshold, hits)
  {
    if hits != [] {
      var n := |hits| - 1;
      LiftAllMembers(docs, store, threshold, hits[..n]);
      assert hits == hits[..n] + [hits[n]];
    }
  }

  lemma {:induction false} DedupMembers(hits: seq<Hit>)
    requires forall h :: h in hits ==> h.chunkId != ""
    ensures Distinct(Dedup(hits))
    ensures forall r :: r in Dedup(hits) ==> r in hits
  {
    if hits != [] {
      var n := |hits| - 1;
      assert hits == hits[..n] + [hits[n]];
      DedupMembers(hits[..n]);
      var rest := Dedup(hits[..n]);
      assert forall i :: 0 <= i < |rest| ==> KeyOf(rest[i]) in Keys(rest);
    }
  }

  lemma DedupCovers(hits: seq<Hit>, h: Hit)
    requires h in hits && forall g :: g in hits ==> g.chunkId != ""
    ensures exists r :: r in Dedup(hits) && r.chunkId == h.chunkId
  {
    DedupKeys(hits);
    assert KeyOf(h) in Keys(Dedup(hits));
    DedupMembers(hits);
  }

  lemma LastIsNew(hits: seq<Hit>, n: nat, h: Hit)
    requires Distinct(hits) && n == |hits| - 1 && h in hits[..n]
    ensures h.chunkId != hits[n].chunkId && KeyOf(h) != KeyOf(hits[n])
  {
    var i :| 0 <= i < n && hits[..n][i] == h;
    assert hits[i] == h;
  }

  lemma LastKeyIsNew(hits: seq<Hit>, n: nat)
    requires Distinct(hits) && n == |hits| - 1
    ensures Distinct(hits[..n]) && KeyOf(hits[n]) !in Keys(hits[..n])
  {
    forall h | h in hits[..n] ensures KeyOf(h) != KeyOf(hits[n]) { LastIsNew(hits, n, h); }
  }

  lemma DedupNothing()
    ensures Dedup([]) == []
  {
  }

  lemma {:induction false} DedupOfDistinct(hits: seq<Hit>)
    requires Distinct(hits)
    ensures Dedup(hits) == hits
  {
    hide Dedup, KeyOf, Keys, Distinct;
    if hits == [] {
      DedupNothing();
    } else {
      var n := |hits| - 1;
      LastKeyIsNew(hits, n);
      DedupOfDistinct(hits[..n]);
      assert hits == hits[..n] + [hits[n]];
      DedupAppend(hits[..n], hits[n]);
    }
  }

  lemma {:induction false} NothingLifted(docs: seq<Hit>, store: Store, threshold: int, hits: seq<Hit>)
    requires forall h :: h in hits ==> !Merges(docs, store, threshold, ParentOf(h))
    ensures LiftAll(docs, store, threshold, hits) == hits && ReplacedCount(docs, store, threshold, hits) == 0
  {
    if hits != [] {
      var n := |hits| - 1;
      assert hits == hits[..n] + [hits[n]];
      NothingLifted(docs, store, threshold, hits[..n]);
    }
  }

  lemma LiftedIsLayered(docs: seq<Hit>, store: Store, threshold: int, h: Hit)
    requires Layered(docs, store) && StoreOk(store) && h in docs
    ensures var r := Lift(docs, store, threshold, h); r.chunkId != "" && (IsLeaf(r, store) || IsRow(r, store))
  {
  }

  /** Every returned chunk is a hit or the parent of hits; every hit is stood for. */
  lemma PassElements(docs: seq<Hit>, store: Store, threshold: int)
    requires Layered(docs, store) && StoreOk(store)
    ensures var out := MergePass(docs, store, threshold).docs;
            && Layered(out, store)
            && (forall r :: r in out ==> exists h :: h in docs && r == Lift(docs, store, threshold, h))
            && (forall h :: h in docs ==> exists r :: r in out && r.chunkId == Lift(docs, store, threshold, h).chunkId)
  {
    var out := MergePass(docs, store, threshold).docs;
    if exists h :: h in docs && Reaches(docs, threshold, ParentOf(h)) {
      var lifted := LiftAll(docs, store, threshold, docs);
      LiftAllMembers(docs, store, threshold, docs);
      forall r | r in lifted ensures r.chunkId != "" && (IsLeaf(r, store) || IsRow(r, store)) {
        var h :| h in docs && r == Lift(docs, store, threshold, h);
        LiftedIsLayered(docs, store, threshold, h);
      }
      hide Lift, LiftAll, IsLeaf, IsRow, StoreOk, Reaches, Dedup, ParentOf;
      DedupMembers(lifted);
      forall h | h in docs ensures exists r :: r in out && r.chunkId == Lift(docs, store, threshold, h).chunkId {
        DedupCovers(lifted, Lift(docs, store, threshold, h));
      }
    } else {
      forall h | h in docs ensures Lift(docs, store, threshold, h) == h {
        assert !Reaches(docs, threshold, ParentOf(h));
      }
    }
  }

  // ---- counting children of distinct hits ----

  ghost function Kids(docs: seq<Hit>, p: string): set<string> {
    set h | h in docs && ParentOf(h) == p :: h.chunkId
  }

  lemma KidsAppend(docs: seq<Hit>, n: nat, p: string)
    requires Distinct(docs) && n == |docs| - 1
    ensures Kids(docs, p) == Kids(docs[..n], p) + (if ParentOf(docs[n]) == p then {docs[n].chunkId} else {})
    ensures docs[n].chunkId !in Kids(docs[..n], p)
  {
    hide ParentOf;
    assert forall h :: h in docs <==> h in docs[..n] || h == docs[n];
    forall h | h in docs[..n] ensures h.chunkId != docs[n].chunkId { LastIsNew(docs, n, h); }
  }

  lemma {:induction false} ChildrenAreKids(docs: seq<Hit>, p: string)
    requires Distinct(docs)
    ensures Children(docs, p) == |Kids(docs, p)|
  {
    if docs != [] {
      var n := |docs| - 1;
      ChildrenAreKids(docs[..n], p);
      KidsAppend(docs, n, p);
      hide Kids, ParentOf, Distinct;
    }
  }

  /** If the children of `p` after a pass were all there before, `p` merges no more. */
  lemma FewerChildren(docs: seq<Hit>, out: seq<Hit>, store: Store, threshold: int, p: string)
    requires Distinct(docs) && Distinct(out)
    requires forall r :: r in out && ParentOf(r) == p ==> r in docs && !Merges(docs, store, threshold, p)
    ensures !Merges(out, store, threshold, p)
  {
    if Merges(out, store, threshold, p) {
      var r := MemberOfChildren(out, p);
      ChildrenOfMember(docs, r);
      ChildrenAreKids(docs, p);
      ChildrenAreKids(out, p);
      SubsetIsNoLarger(Kids(out, p), Kids(docs, p));
      assert false;
    }
  }

  // ---- what one hit becomes ----

  predicate Rises(docs: seq<Hit>, store: Store, threshold: int, h: Hit) {
    Merges(docs, store, threshold, ParentOf(h))
  }

  lemma PassOrigin(docs: seq<Hit>, store: Store, threshold: int, r: Hit) returns (h: Hit)
    requires Layered(docs, store) && StoreOk(store) && r in MergePass(docs, store, threshold).docs
    ensures h in docs && r == Lift(docs, store, threshold, h) && (IsLeaf(h, store) || IsRow(h, store))
  {
    PassElements(docs, store, threshold);
    h :| h in docs && r == Lift(docs, store, threshold, h);
  }

  lemma PassImage(docs: seq<Hit>, store: Store, threshold: int, h: Hit) returns (r: Hit)
    requires Layered(docs, store) && StoreOk(store) && h in docs
    ensures r in MergePass(docs, store, threshold).docs && r.chunkId == Lift(docs, store, threshold, h).chunkId
  {
    PassElements(docs, store, threshold);
    r :| r in MergePass(docs, store, threshold).docs && r.chunkId == Lift(docs, store, threshold, h).chunkId;
  }

  /** A risen hit is a row of the level above; its parent, if stored, is of level 1. */
  lemma RisenHit(docs: seq<Hit>, store: Store, threshold: int, h: Hit)
    requires StoreOk(store) && Rises(docs, store, threshold, h)
    ensures var p := ParentOf(h);
            var r := Lift(docs, store, threshold, h);
            && p in store && p != "" && r.chunkId == p && ParentOf(r) == ParentOf(store[p])
            && store[p].level in {1, 2}
            && (store[p].level == 1 ==> ParentOf(r) == "")
            && (ParentOf(r) in store ==> store[ParentOf(r)].level == 1)
  {
  }

  // ---- the fixpoint ----

  ghost predicate Settled(docs: seq<Hit>, store: Store, threshold: int, level: nat) {
    forall p :: p in store && store[p].level == level ==> !Merges(docs, store, threshold, p)
  }

  /** A chunk below `p` after a pass was there before, unless it rose from two levels below. */
  lemma ChildWasThere(docs: seq<Hit>, store: Store, threshold: int, h: Hit, p: string)
    requires StoreOk(store) && p in store && ParentOf(Lift(docs, store, threshold, h)) == p
    requires store[p].level == 2 || Settled(docs, store, threshold, 2)
    ensures Lift(docs, store, threshold, h) == h && !Merges(docs, store, threshold, p)
  {
    if Rises(docs, store, threshold, h) { RisenHit(docs, store, threshold, h); assert false; }
  }

  /** A pass settles level 2, and one in which no parent of level 2 merges settles both. */
  lemma PassSettles(docs: seq<Hit>, store: Store, threshold: int)
    requires Layered(docs, store) && StoreOk(store)
    ensures Settled(MergePass(docs, store, threshold).docs, store, threshold, 2)
    ensures Settled(docs, store, threshold, 2) ==> Settled(MergePass(docs, store, threshold).docs, store, threshold, 1)
  {
    var out := MergePass(docs, store, threshold).docs;
    PassElements(docs, store, threshold);
    forall p | p in store && (store[p].level == 2 || Settled(docs, store, threshold, 2))
      ensures !Merges(out, store, threshold, p)
    {
      forall r | r in out && ParentOf(r) == p ensures r in docs && !Merges(docs, store, threshold, p) {
        var h := PassOrigin(docs, store, threshold, r);
        ChildWasThere(docs, store, threshold, h, p);
      }
      FewerChildren(docs, out, store, threshold, p);
    }
  }

  function TwoPasses(docs: seq<Hit>, store: Store, threshold: int): seq<Hit> {
    MergePass(MergePass(docs, store, threshold).docs, store, threshold).docs
  }

  lemma LeavesAreLayered(docs: seq<Hit>, store: Store, threshold: int)
    requires LeavesOk(docs, store) && StoreOk(store)
    ensures Layered(docs, store) && Layered(MergePass(docs, store, threshold).docs, store)
    ensures Settled(MergePass(docs, store, threshold).docs, store, threshold, 2)
    ensures Layered(TwoPasses(docs, store, threshold), store)
    ensures Settled(TwoPasses(docs, store, threshold), store, threshold, 1)
    ensures Settled(TwoPasses(docs, store, threshold), store, threshold, 2)
  {
    var first := MergePass(docs, store, threshold).docs;
    PassElements(docs, store, threshold);
    PassSettles(docs, store, threshold);
    PassElements(first, store, threshold);
    PassSettles(first, store, threshold);
  }

  /** A third pass changes nothing. */
  lemma TwoPassesReachFixpoint(docs: seq<Hit>, store: Store, threshold: int)
    requires LeavesOk(docs, store) && StoreOk(store)
    ensures var out := TwoPasses(docs, store, threshold); MergePass(out, store, threshold) == Pass(out, 0)
  {
    var out := TwoPasses(docs, store, threshold);
    LeavesAreLayered(docs, store, threshold);
    forall h | h in out ensures !Merges(out, store, threshold, ParentOf(h)) {
      if ParentOf(h) in store { assert store[ParentOf(h)].level in {1, 2}; }
    }
    NothingLifted(out, store, threshold, out);
    DedupOfDistinct(out);
  }

  // ---- no chunk beside its parent ----

  ghost predicate NoParentBesideChild(docs: seq<Hit>) {
    forall a, b :: a in docs && b in docs ==> ParentOf(a) != b.chunkId
  }

  /** The parent of a hit that stays is not what another hit rises to. */
  lemma StayingBesideRisen(docs: seq<Hit>, store: Store, threshold: int, h: Hit, g: Hit)
    requires StoreOk(store) && !Rises(docs, store, threshold, h) && Rises(docs, store, threshold, g)
    ensures ParentOf(Lift(docs, store, threshold, h)) != Lift(docs, store, threshold, g).chunkId
  {
    RisenHit(docs, store, threshold, g);
  }

  lemma FirstPassSeparates(docs: seq<Hit>, store: Store, threshold: int)
    requires LeavesOk(docs, store) && StoreOk(store)
    ensures NoParentBesideChild(MergePass(docs, store, threshold).docs)
  {
    var out := MergePass(docs, store, threshold).docs;
    assert Layered(docs, store);
    forall a, b | a in out && b in out ensures ParentOf(a) != b.chunkId {
      var h := PassOrigin(docs, store, threshold, a);
      var g := PassOrigin(docs, store, threshold, b);
      if Rises(docs, store, threshold, h) {
        RisenHit(docs, store, threshold, h);
        if Rises(docs, store, threshold, g) {
          RisenHit(docs, store, threshold, g);
          assert IsLeaf(g, store) && store[b.chunkId].level == 2;
        }
      } else if Rises(docs, store, threshold, g) {
        StayingBesideRisen(docs, store, threshold, h, g);
      }
    }
  }

  lemma SecondPassSeparates(docs: seq<Hit>, store: Store, threshold: int)
    requires Layered(docs, store) && StoreOk(store) && Settled(docs, store, threshold, 2) && NoParentBesideChild(docs)
    ensures NoParentBesideChild(MergePass(docs, store, threshold).docs)
  {
    var out := MergePass(docs, store, threshold).docs;
    PassElements(docs, store, threshold);
    forall a, b | a in out && b in out ensures ParentOf(a) != b.chunkId {
      var h := PassOrigin(docs, store, threshold, a);
      var g := PassOrigin(docs, store, threshold, b);
      if Rises(docs, store, threshold, h) {
        RisenHit(docs, store, threshold, h);
        assert ParentOf(a) == "" && b.chunkId != "";
      } else if Rises(docs, store, threshold, g) {
        StayingBesideRisen(docs, store, threshold, h, g);
      }
    }
  }

  lemma TwoPassesSeparate(docs: seq<Hit>, store: Store, threshold: int)
    requires LeavesOk(docs, store) && StoreOk(store)
    ensures NoParentBesideChild(TwoPasses(docs, store, threshold)) && Distinct(TwoPasses(docs, store, threshold))
  {
    LeavesAreLayered(docs, store, threshold);
    FirstPassSeparates(docs, store, threshold);
    SecondPassSeparates(MergePass(docs, store, threshold).docs, store, threshold);
  }

  /** Every leaf is represented by itself, its parent or its grandparent. */
  lemma TwoPassesCover(docs: seq<Hit>, store: Store, threshold: int, h: Hit)
    requires LeavesOk(docs, store) && StoreOk(store) && h in docs
    ensures exists r :: r in TwoPasses(docs, store, threshold) &&
              (r.chunkId == h.chunkId
               || r.chunkId == ParentOf(h)
               || (ParentOf(h) in store && r.chunkId == ParentOf(store[ParentOf(h)])))
  {
    var first := MergePass(docs, store, threshold).docs;
    LeavesAreLayered(docs, store, threshold);
    var m := PassImage(docs, store, threshold, h);
    var g := PassOrigin(docs, store, threshold, m);
    var r := PassImage(first, store, threshold, m);
    if Rises(docs, store, threshold, g) { RisenHit(docs, store, threshold, g); }
    if Rises(docs, store, threshold, h) { RisenHit(docs, store, threshold, h); }
    if Rises(first, store, threshold, m) { RisenHit(first, store, threshold, m); }
    SameStanding(docs, store, threshold, h, g);
    assert r in TwoPasses(docs, store, threshold);
  }

  /** Hits with one image have one parent above it. */
  lemma SameStanding(docs: seq<Hit>, store: Store, threshold: int, h: Hit, g: Hit)
    requires LeavesOk(docs, store) && StoreOk(store) && h in docs && g in docs
    requires Lift(docs, store, threshold, h).chunkId == Lift(docs, store, threshold, g).chunkId
    ensures ParentOf(Lift(docs, store, threshold, h)) == ParentOf(Lift(docs, store, threshold, g))
  {
    assert IsLeaf(h, store) && IsLeaf(g, store);
    if h.chunkId == g.chunkId { SameChunk(docs, h, g); }
  }

  lemma SameChunk(docs: seq<Hit>, h: Hit, g: Hit)
    requires Distinct(docs) && h in docs && g in docs && h.chunkId == g.chunkId
    ensures h == g
  {
  }
}
