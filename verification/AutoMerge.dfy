/**
Auto-merging of retrieved chunks (backend/rag/rag_utils.py): when enough children of a parent
chunk are hit, the parent replaces them; leaves first, then the level above.
*/
module AutoMerge {
  import opened Wrappers
  import opened Text

  datatype Hit = Hit(
    chunkId: string,
    parentId: string,
    level: nat,
    score: Option<real>,
    mergedChildCount: Option<nat>,
    filename: string,
    page: int,
    text: string)

  /** The live rows of the parent store, by chunk id. */
  type Store = map<string, Hit>

  datatype Key = ById(id: string) | ByContent(filename: string, page: int, text: string)

  function KeyOf(h: Hit): Key {
    if h.chunkId != "" then ById(h.chunkId) else ByContent(h.filename, h.page, h.text)
  }

  function ParentOf(h: Hit): string {
    Trim(h.parentId)
  }

  // ---- one pass, declaratively ----

  /** How many hits name `p` as their parent. */
  function Children(docs: seq<Hit>, p: string): nat {
    if docs == [] then 0
    else Children(docs[..|docs| - 1], p) + (if ParentOf(docs[|docs| - 1]) == p then 1 else 0)
  }

  predicate Reaches(docs: seq<Hit>, threshold: int, p: string) {
    p != "" && Children(docs, p) > 0 && Children(docs, p) >= threshold
  }

  /** `p` replaces its children: there are enough of them and the store has it. */
  predicate Merges(docs: seq<Hit>, store: Store, threshold: int, p: string) {
    Reaches(docs, threshold, p) && p in store
  }

  function BestScore(parent: Option<real>, child: Option<real>): Option<real> {
    if child.None? then parent
    else if parent.Some? && parent.value > child.value then parent
    else child
  }

  /** The parent row as it stands in for one child. */
  function Stand(parent: Hit, child: Hit, count: nat): Hit {
    parent.(score := BestScore(parent.score, child.score), mergedChildCount := Some(count))
  }

  function Lift(docs: seq<Hit>, store: Store, threshold: int, h: Hit): Hit {
    if Merges(docs, store, threshold, ParentOf(h)) then Stand(store[ParentOf(h)], h, Children(docs, ParentOf(h))) else h
  }

  function LiftAll(docs: seq<Hit>, store: Store, threshold: int, hits: seq<Hit>): seq<Hit> {
    if hits == [] then []
    else LiftAll(docs, store, threshold, hits[..|hits| - 1]) + [Lift(docs, store, threshold, hits[|hits| - 1])]
  }

  function ReplacedCount(docs: seq<Hit>, store: Store, threshold: int, hits: seq<Hit>): nat {
    if hits == [] then 0
    else
      var n := |hits| - 1;
      ReplacedCount(docs, store, threshold, hits[..n]) +
      (if Merges(docs, store, threshold, ParentOf(hits[n])) then 1 else 0)
  }

  function Keys(hits: seq<Hit>): set<Key> {
    set h | h in hits :: KeyOf(h)
  }

  /** The first hit of every key. */
  function Dedup(hits: seq<Hit>): seq<Hit> {
    if hits == [] then []
    else
      var n := |hits| - 1;
      var rest := Dedup(hits[..n]);
      if KeyOf(hits[n]) in Keys(rest) then rest else rest + [hits[n]]
  }

  datatype Pass = Pass(docs: seq<Hit>, replaced: nat)

  function MergePass(docs: seq<Hit>, store: Store, threshold: int): Pass {
    if !(exists h :: h in docs && Reaches(docs, threshold, ParentOf(h))) then Pass(docs, 0)
    else Pass(Dedup(LiftAll(docs, store, threshold, docs)), ReplacedCount(docs, store, threshold, docs))
  }

  // ---- one pass, as it is run ----

  lemma ChildrenAppend(docs: seq<Hit>, h: Hit, p: string)
    ensures Children(docs + [h], p) == Children(docs, p) + (if ParentOf(h) == p then 1 else 0)
  {
    assert (docs + [h])[..|docs|] == docs;
  }

  lemma {:induction false} ChildrenOfMember(docs: seq<Hit>, h: Hit)
    requires h in docs
    ensures Children(docs, ParentOf(h)) > 0
  {
    var n := |docs| - 1;
    assert docs == docs[..n] + [docs[n]];
    if docs[n] != h { ChildrenOfMember(docs[..n], h); }
  }

  lemma {:induction false} MemberOfChildren(docs: seq<Hit>, p: string) returns (h: Hit)
    requires Children(docs, p) > 0
    ensures h in docs && ParentOf(h) == p
  {
    var n := |docs| - 1;
    if ParentOf(docs[n]) == p { h := docs[n]; } else { h := MemberOfChildren(docs[..n], p); }
  }

  ghost predicate GroupsOf(groups: map<string, seq<Hit>>, docs: seq<Hit>) {
    && (forall p :: p in groups <==> p != "" && Children(docs, p) > 0)
    && (forall p :: p in groups ==> |groups[p]| == Children(docs, p))
  }

  method GroupByParent(docs: seq<Hit>) returns (groups: map<string, seq<Hit>>)
    ensures GroupsOf(groups, docs)
  {
    groups := map[];
    var i := 0;
    while i < |docs|
      invariant 0 <= i <= |docs| && GroupsOf(groups, docs[..i])
    {
      var doc := docs[i];
      assert docs[..i + 1] == docs[..i] + [doc];
      forall p ensures Children(docs[..i + 1], p) == Children(docs[..i], p) + (if ParentOf(doc) == p then 1 else 0) {
        ChildrenAppend(docs[..i], doc, p);
      }
      if ParentOf(doc) != "" {
        var sofar := if ParentOf(doc) in groups then groups[ParentOf(doc)] else [];
        groups := groups[ParentOf(doc) := sofar + [doc]];
      }
      i := i + 1;
    }
    assert docs[..i] == docs;
  }

  lemma DedupKeys(hits: seq<Hit>)
    ensures Keys(Dedup(hits)) == Keys(hits)
  {
    if hits != [] {
      var n := |hits| - 1;
      DedupKeys(hits[..n]);
      assert hits == hits[..n] + [hits[n]];
      assert Keys(hits) == Keys(hits[..n]) + {KeyOf(hits[n])};
      var rest := Dedup(hits[..n]);
      assert Keys(rest + [hits[n]]) == Keys(rest) + {KeyOf(hits[n])};
    }
  }

  lemma DedupAppend(hits: seq<Hit>, h: Hit)
    ensures Dedup(hits + [h]) == if KeyOf(h) in Keys(hits) then Dedup(hits) else Dedup(hits) + [h]
    ensures Keys(hits + [h]) == Keys(hits) + {KeyOf(h)}
  {
    assert (hits + [h])[..|hits|] == hits;
    DedupKeys(hits);
  }

  method DropDuplicates(hits: seq<Hit>) returns (deduped: seq<Hit>)
    ensures deduped == Dedup(hits)
  {
    deduped := [];
    var seen: set<Key> := {};
    var i := 0;
    while i < |hits|
      invariant 0 <= i <= |hits| && deduped == Dedup(hits[..i]) && seen == Keys(hits[..i])
    {
      assert hits[..i + 1][..i] == hits[..i] && hits[..i + 1] == hits[..i] + [hits[i]];
      DedupKeys(hits[..i]);
      assert Keys(hits[..i + 1]) == Keys(hits[..i]) + {KeyOf(hits[i])};
      if KeyOf(hits[i]) !in seen {
        deduped := deduped + [hits[i]];
      }
      seen := seen + {KeyOf(hits[i])};
      i := i + 1;
    }
    assert hits[..i] == hits;
  }

  lemma LiftNothing(docs: seq<Hit>, store: Store, threshold: int)
    ensures LiftAll(docs, store, threshold, []) == [] && ReplacedCount(docs, store, threshold, []) == 0
  {
  }

  lemma LiftNext(docs: seq<Hit>, store: Store, threshold: int, i: nat)
    requires i < |docs|
    ensures LiftAll(docs, store, threshold, docs[..i + 1])
         == LiftAll(docs, store, threshold, docs[..i]) + [Lift(docs, store, threshold, docs[i])]
    ensures ReplacedCount(docs, store, threshold, docs[..i + 1])
         == ReplacedCount(docs, store, threshold, docs[..i])
            + (if Merges(docs, store, threshold, ParentOf(docs[i])) then 1 else 0)
  {
    hide Lift, Merges, ParentOf;
    assert docs[..i + 1][..i] == docs[..i];
  }

  /** The loop over the hits, with the groups and the parents at hand. */
  method ReplaceChildren(docs: seq<Hit>, store: Store, threshold: int, groups: map<string, seq<Hit>>, parentMap: Store)
    returns (merged: seq<Hit>, replaced: nat)
    requires GroupsOf(groups, docs)
    requires forall p :: p in parentMap <==> Merges(docs, store, threshold, p)
    requires forall p :: p in parentMap ==> p in store && parentMap[p] == store[p]
    ensures merged == LiftAll(docs, store, threshold, docs)
    ensures replaced == ReplacedCount(docs, store, threshold, docs)
  {
    hide LiftAll, ReplacedCount, Children, ParentOf;
    LiftNothing(docs, store, threshold);
    merged, replaced := [], 0;
    var i := 0;
    while i < |docs|
      invariant 0 <= i <= |docs|
      invariant merged == LiftAll(docs, store, threshold, docs[..i])
      invariant replaced == ReplacedCount(docs, store, threshold, docs[..i])
    {
      var doc := docs[i];
      LiftNext(docs, store, threshold, i);
      if ParentOf(doc) == "" || ParentOf(doc) !in parentMap {
        merged := merged + [doc];
      } else {
        var parent := parentMap[ParentOf(doc)];
        if doc.score.Some? {
          var best := if parent.score.Some? && parent.score.value > doc.score.value then parent.score else doc.score;
          parent := parent.(score := best);
        }
        merged := merged + [parent.(mergedChildCount := Some(|groups[ParentOf(doc)]|))];
        replaced := replaced + 1;
      }
      i := i + 1;
    }
    assert docs[..i] == docs;
  }

  method MergeToParentLevel(docs: seq<Hit>, store: Store, threshold: int) returns (merged: seq<Hit>, replaced: nat)
    ensures Pass(merged, replaced) == MergePass(docs, store, threshold)
  {
    var groups := GroupByParent(docs);
    var mergeIds := set p | p in groups && |groups[p]| >= threshold;
    if mergeIds == {} {
      assert forall h :: h in docs && Reaches(docs, threshold, ParentOf(h)) ==> ParentOf(h) in mergeIds;
      return docs, 0;
    }
    var id :| id in mergeIds;
    ghost var child := MemberOfChildren(docs, id);
    assert child in docs && Reaches(docs, threshold, ParentOf(child));
    var parentMap := map p | p in mergeIds && p in store :: store[p];
    merged, replaced := ReplaceChildren(docs, store, threshold, groups, parentMap);
    merged := DropDuplicates(merged);
  }
}
