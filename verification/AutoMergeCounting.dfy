/** How much a merge pass shrinks the list, and where the replaced chunks went. */
module AutoMergeCounting {
  import opened Wrappers
  import opened Text
  import opened AutoMerge
  import opened AutoMergeTheorems

  /** The list a pass makes of `docs[..n]`. */
  function Sofar(docs: seq<Hit>, store: Store, threshold: int, n: nat): seq<Hit>
    requires n <= |docs|
  {
    Dedup(LiftAll(docs, store, threshold, docs[..n]))
  }

  /** The parents of `docs` that a pass brought into `rs`. */
  function Newcomers(docs: seq<Hit>, store: Store, threshold: int, rs: seq<Hit>): nat {
    if rs == [] then 0
    else
      var n := |rs| - 1;
      Newcomers(docs, store, threshold, rs[..n]) + (if Merges(docs, store, threshold, rs[n].chunkId) then 1 else 0)
  }

  /** The sum of the `merged_child_count` values of those parents. */
  function MergedCounts(docs: seq<Hit>, store: Store, threshold: int, rs: seq<Hit>): nat {
    if rs == [] then 0
    else
      var n := |rs| - 1;
      MergedCounts(docs, store, threshold, rs[..n]) +
      (if Merges(docs, store, threshold, rs[n].chunkId) && rs[n].mergedChildCount.Some?
       then rs[n].mergedChildCount.value else 0)
  }

  /** The sum of the children those parents have among `hits`. */
  ghost function ChildSum(docs: seq<Hit>, store: Store, threshold: int, rs: seq<Hit>, hits: seq<Hit>): nat {
    if rs == [] then 0
    else
      var n := |rs| - 1;
      ChildSum(docs, store, threshold, rs[..n], hits) +
      (if Merges(docs, store, threshold, rs[n].chunkId) then Children(hits, rs[n].chunkId) else 0)
  }

  ghost predicate HasId(rs: seq<Hit>, p: string) {
    exists r :: r in rs && r.chunkId == p
  }

  lemma {:induction false} NoChildNoSum(docs: seq<Hit>, store: Store, threshold: int, rs: seq<Hit>)
    ensures ChildSum(docs, store, threshold, rs, []) == 0
  {
    if rs != [] { NoChildNoSum(docs, store, threshold, rs[..|rs| - 1]); }
  }

  lemma NoIdInNothing(p: string)
    ensures !HasId([], p)
  {
  }

  lemma IdOfLast(rs: seq<Hit>, n: nat, p: string)
    requires Distinct(rs) && n == |rs| - 1
    ensures Distinct(rs[..n])
    ensures HasId(rs, p) <==> HasId(rs[..n], p) || rs[n].chunkId == p
    ensures !(HasId(rs[..n], p) && rs[n].chunkId == p)
  {
    assert rs == rs[..n] + [rs[n]];
    assert rs[n] in rs;
    forall r | r in rs[..n] ensures r.chunkId != rs[n].chunkId { LastIsNew(rs, n, r); }
  }

  /** One more child adds one to the sum when its parent is counted, once. */
  lemma {:induction false} OneMoreChild(docs: seq<Hit>, store: Store, threshold: int, rs: seq<Hit>, hits: seq<Hit>, h: Hit)
    requires Distinct(rs)
    ensures ChildSum(docs, store, threshold, rs, hits + [h])
         == ChildSum(docs, store, threshold, rs, hits)
            + (if Rises(docs, store, threshold, h) && HasId(rs, ParentOf(h)) then 1 else 0)
  {
    hide Merges, Children, ParentOf, Distinct, HasId;
    NoIdInNothing(ParentOf(h));
    if rs != [] {
      var n := |rs| - 1;
      IdOfLast(rs, n, ParentOf(h));
      OneMoreChild(docs, store, threshold, rs[..n], hits, h);
      ChildrenAppend(hits, h, rs[n].chunkId);
    }
  }

  lemma {:induction false} NoLiftNoChild(docs: seq<Hit>, store: Store, threshold: int, hits: seq<Hit>, p: string)
    requires StoreOk(store) && Merges(docs, store, threshold, p)
    requires !HasId(LiftAll(docs, store, threshold, hits), p)
    ensures Children(hits, p) == 0
  {
    if Children(hits, p) > 0 {
      var h := MemberOfChildren(hits, p);
      LiftAllMembers(docs, store, threshold, hits);
      RisenHit(docs, store, threshold, h);
      assert false;
    }
  }

  /** The state of the counters after the first `n` hits. */
  ghost predicate Counted(docs: seq<Hit>, store: Store, threshold: int, n: nat)
    requires n <= |docs|
  {
    var rs := Sofar(docs, store, threshold, n);
    && ChildSum(docs, store, threshold, rs, docs[..n]) == ReplacedCount(docs, store, threshold, docs[..n])
    && |rs| + ReplacedCount(docs, store, threshold, docs[..n]) == n + Newcomers(docs, store, threshold, rs)
  }

  lemma LiftedNonEmpty(docs: seq<Hit>, store: Store, threshold: int, hits: seq<Hit>)
    requires StoreOk(store) && forall h :: h in hits ==> h.chunkId != ""
    ensures forall r :: r in LiftAll(docs, store, threshold, hits) ==> r.chunkId != ""
  {
    LiftAllMembers(docs, store, threshold, hits);
  }

  /** In a prefix, an id is there if and only if some lifted hit has it. */
  lemma SofarIds(docs: seq<Hit>, store: Store, threshold: int, n: nat, p: string)
    requires Distinct(docs) && StoreOk(store) && n <= |docs|
    ensures Distinct(Sofar(docs, store, threshold, n))
    ensures HasId(Sofar(docs, store, threshold, n), p) == HasId(LiftAll(docs, store, threshold, docs[..n]), p)
    ensures p != "" ==> (HasId(Sofar(docs, store, threshold, n), p) <==> ById(p) in Keys(Sofar(docs, store, threshold, n)))
  {
    var lifted := LiftAll(docs, store, threshold, docs[..n]);
    LiftedNonEmpty(docs, store, threshold, docs[..n]);
    DedupMembers(lifted);
    if r :| r in lifted && r.chunkId == p { DedupCovers(lifted, r); }
  }

  lemma SofarNext(docs: seq<Hit>, store: Store, threshold: int, n: nat)
    requires Distinct(docs) && StoreOk(store) && n < |docs|
    ensures var rs := Sofar(docs, store, threshold, n);
            var r := Lift(docs, store, threshold, docs[n]);
            Sofar(docs, store, threshold, n + 1) == if HasId(rs, r.chunkId) then rs else rs + [r]
  {
    var rs := Sofar(docs, store, threshold, n);
    var r := Lift(docs, store, threshold, docs[n]);
    assert docs[..n + 1][..n] == docs[..n];
    var lifted := LiftAll(docs, store, threshold, docs[..n]);
    assert LiftAll(docs, store, threshold, docs[..n + 1]) == lifted + [r];
    assert (lifted + [r])[..|lifted|] == lifted;
    SofarIds(docs, store, threshold, n, r.chunkId);
    assert r.chunkId != "";
  }

  /** A hit that stays meets no earlier hit of its own id. */
  lemma StayingIsNew(docs: seq<Hit>, store: Store, threshold: int, n: nat)
    requires Distinct(docs) && StoreOk(store) && NoParentBesideChild(docs) && n < |docs|
    requires !Rises(docs, store, threshold, docs[n])
    ensures !HasId(Sofar(docs, store, threshold, n), docs[n].chunkId)
    ensures !Merges(docs, store, threshold, docs[n].chunkId)
  {
    var id := docs[n].chunkId;
    SofarIds(docs, store, threshold, n, id);
    LiftAllMembers(docs, store, threshold, docs[..n]);
    if HasId(LiftAll(docs, store, threshold, docs[..n]), id) {
      var r :| r in LiftAll(docs, store, threshold, docs[..n]) && r.chunkId == id;
      var h :| h in docs[..n] && r == Lift(docs, store, threshold, h);
      if Rises(docs, store, threshold, h) { RisenHit(docs, store, threshold, h); }
      assert false;
    }
    if Merges(docs, store, threshold, id) {
      var h := MemberOfChildren(docs, id);
      assert false;
    }
  }

  lemma SumWithOneMore(docs: seq<Hit>, store: Store, threshold: int, rs: seq<Hit>, r: Hit, hits: seq<Hit>)
    ensures ChildSum(docs, store, threshold, rs + [r], hits)
         == ChildSum(docs, store, threshold, rs, hits)
            + (if Merges(docs, store, threshold, r.chunkId) then Children(hits, r.chunkId) else 0)
    ensures Newcomers(docs, store, threshold, rs + [r])
         == Newcomers(docs, store, threshold, rs) + (if Merges(docs, store, threshold, r.chunkId) then 1 else 0)
  {
    hide Merges, Children;
    assert (rs + [r])[..|rs|] == rs;
  }

  lemma ReplacedNext(docs: seq<Hit>, store: Store, threshold: int, n: nat)
    requires n < |docs|
    ensures docs[..n + 1] == docs[..n] + [docs[n]]
    ensures ReplacedCount(docs, store, threshold, docs[..n + 1])
         == ReplacedCount(docs, store, threshold, docs[..n]) + (if Rises(docs, store, threshold, docs[n]) then 1 else 0)
  {
    hide Merges, ParentOf;
    assert docs[..n + 1][..n] == docs[..n];
  }

  lemma CountRisen(docs: seq<Hit>, store: Store, threshold: int, n: nat)
    requires Distinct(docs) && StoreOk(store) && n < |docs| && Rises(docs, store, threshold, docs[n])
    requires Counted(docs, store, threshold, n)
    ensures Counted(docs, store, threshold, n + 1)
  {
    hide Sofar, ChildSum, Newcomers, ReplacedCount, HasId, Distinct, StoreOk, Children, ParentOf, Lift, Merges;
    var h := docs[n];
    var rs := Sofar(docs, store, threshold, n);
    ReplacedNext(docs, store, threshold, n);
    SofarNext(docs, store, threshold, n);
    SofarIds(docs, store, threshold, n, ParentOf(h));
    OneMoreChild(docs, store, threshold, rs, docs[..n], h);
    RisenHit(docs, store, threshold, h);
    if !HasId(rs, ParentOf(h)) {
      SumWithOneMore(docs, store, threshold, rs, Lift(docs, store, threshold, h), docs[..n + 1]);
      NewParentHasOneChild(docs, store, threshold, n);
    }
  }

  lemma NewParentHasOneChild(docs: seq<Hit>, store: Store, threshold: int, n: nat)
    requires Distinct(docs) && StoreOk(store) && n < |docs| && Rises(docs, store, threshold, docs[n])
    requires !HasId(Sofar(docs, store, threshold, n), ParentOf(docs[n]))
    ensures Children(docs[..n + 1], ParentOf(docs[n])) == 1
  {
    hide HasId, Distinct, StoreOk, Children, ParentOf, Merges, Sofar;
    assert docs[..n + 1] == docs[..n] + [docs[n]];
    SofarIds(docs, store, threshold, n, ParentOf(docs[n]));
    NoLiftNoChild(docs, store, threshold, docs[..n], ParentOf(docs[n]));
    ChildrenAppend(docs[..n], docs[n], ParentOf(docs[n]));
  }

  lemma CountStaying(docs: seq<Hit>, store: Store, threshold: int, n: nat)
    requires Distinct(docs) && StoreOk(store) && NoParentBesideChild(docs)
    requires n < |docs| && !Rises(docs, store, threshold, docs[n])
    requires Counted(docs, store, threshold, n)
    ensures Counted(docs, store, threshold, n + 1)
  {
    var h := docs[n];
    var rs := Sofar(docs, store, threshold, n);
    assert Lift(docs, store, threshold, h) == h;
    hide Sofar, ChildSum, Newcomers, ReplacedCount, HasId, Distinct, StoreOk, Children, ParentOf, Lift, Merges, NoParentBesideChild;
    ReplacedNext(docs, store, threshold, n);
    SofarNext(docs, store, threshold, n);
    SofarIds(docs, store, threshold, n, ParentOf(h));
    OneMoreChild(docs, store, threshold, rs, docs[..n], h);
    StayingIsNew(docs, store, threshold, n);
    SumWithOneMore(docs, store, threshold, rs, h, docs[..n + 1]);
  }

  lemma {:induction false} CountUpTo(docs: seq<Hit>, store: Store, threshold: int, n: nat)
    requires Distinct(docs) && StoreOk(store) && NoParentBesideChild(docs) && n <= |docs|
    ensures Counted(docs, store, threshold, n)
  {
    if n > 0 {
      CountUpTo(docs, store, threshold, n - 1);
      if Rises(docs, store, threshold, docs[n - 1]) {
        CountRisen(docs, store, threshold, n - 1);
      } else {
        CountStaying(docs, store, threshold, n - 1);
      }
    }
  }

  lemma Times(t: int, k: int)
    ensures t * (k + 1) == t * k + t && (t - 1) * k == t * k - k
  {
  }

  /** Each newcomer stands for as many children as it says, and for at least `threshold`. */
  lemma {:induction false} CountsAddUp(docs: seq<Hit>, store: Store, threshold: int, rs: seq<Hit>)
    requires forall r :: r in rs && Merges(docs, store, threshold, r.chunkId)
                     ==> r.mergedChildCount == Some(Children(docs, r.chunkId))
    ensures MergedCounts(docs, store, threshold, rs) == ChildSum(docs, store, threshold, rs, docs)
    ensures MergedCounts(docs, store, threshold, rs) >= threshold * Newcomers(docs, store, threshold, rs)
  {
    if rs != [] {
      var n := |rs| - 1;
      CountsAddUp(docs, store, threshold, rs[..n]);
      assert forall r :: r in rs[..n] ==> r in rs;
      Times(threshold, Newcomers(docs, store, threshold, rs[..n]));
      assert rs[n] in rs;
    }
  }

  lemma NewcomerCounts(docs: seq<Hit>, store: Store, threshold: int, r: Hit)
    requires Layered(docs, store) && StoreOk(store) && NoParentBesideChild(docs)
    requires r in MergePass(docs, store, threshold).docs && Merges(docs, store, threshold, r.chunkId)
    ensures r.mergedChildCount == Some(Children(docs, r.chunkId))
  {
    var h := PassOrigin(docs, store, threshold, r);
    var child := MemberOfChildren(docs, r.chunkId);
    if Rises(docs, store, threshold, h) { RisenHit(docs, store, threshold, h); } else { assert false; }
  }

  lemma PassIsSofar(docs: seq<Hit>, store: Store, threshold: int)
    requires Distinct(docs)
    ensures MergePass(docs, store, threshold)
         == Pass(Sofar(docs, store, threshold, |docs|), ReplacedCount(docs, store, threshold, docs))
  {
    assert docs[..|docs|] == docs;
    if !(exists h :: h in docs && Reaches(docs, threshold, ParentOf(h))) {
      NothingLifted(docs, store, threshold, docs);
      DedupOfDistinct(docs);
    }
  }

  lemma AllCounted(docs: seq<Hit>, store: Store, threshold: int)
    requires Distinct(docs) && StoreOk(store) && NoParentBesideChild(docs)
    ensures var pass := MergePass(docs, store, threshold);
            && ChildSum(docs, store, threshold, pass.docs, docs) == pass.replaced
            && |pass.docs| + pass.replaced == |docs| + Newcomers(docs, store, threshold, pass.docs)
  {
    PassIsSofar(docs, store, threshold);
    CountUpTo(docs, store, threshold, |docs|);
    assert docs[..|docs|] == docs;
  }

  /**
  One pass: the counts its new parents carry add up to the chunks it replaced, and it shrinks
  the list by at least `threshold - 1` for each of them.
  */
  lemma PassCounts(docs: seq<Hit>, store: Store, threshold: int)
    requires Layered(docs, store) && StoreOk(store) && NoParentBesideChild(docs)
    ensures var pass := MergePass(docs, store, threshold);
            var parents := Newcomers(docs, store, threshold, pass.docs);
            && MergedCounts(docs, store, threshold, pass.docs) == pass.replaced
            && |pass.docs| + pass.replaced == |docs| + parents
            && |pass.docs| + (threshold - 1) * parents <= |docs|
  {
    var pass := MergePass(docs, store, threshold);
    Times(threshold, Newcomers(docs, store, threshold, pass.docs));
    AllCounted(docs, store, threshold);
    forall r | r in pass.docs && Merges(docs, store, threshold, r.chunkId)
      ensures r.mergedChildCount == Some(Children(docs, r.chunkId))
    {
      NewcomerCounts(docs, store, threshold, r);
    }
    CountsAddUp(docs, store, threshold, pass.docs);
  }

  /** Both passes of a retrieval meet the condition of `PassCounts`. */
  lemma BothPassesCount(docs: seq<Hit>, store: Store, threshold: int)
    requires LeavesOk(docs, store) && StoreOk(store)
    ensures var first := MergePass(docs, store, threshold);
            var second := MergePass(first.docs, store, threshold);
            && MergedCounts(docs, store, threshold, first.docs) == first.replaced
            && MergedCounts(first.docs, store, threshold, second.docs) == second.replaced
            && |first.docs| + (threshold - 1) * Newcomers(docs, store, threshold, first.docs) <= |docs|
            && |second.docs| + (threshold - 1) * Newcomers(first.docs, store, threshold, second.docs) <= |first.docs|
  {
    LeavesAreLayered(docs, store, threshold);
    FirstPassSeparates(docs, store, threshold);
    PassCounts(docs, store, threshold);
    PassCounts(MergePass(docs, store, threshold).docs, store, threshold);
  }
}
