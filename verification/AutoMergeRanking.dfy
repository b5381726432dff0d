/** The whole of `_auto_merge_documents`: two passes, a stable sort by score and a cut. */
module AutoMergeRanking {
  import opened Wrappers
  import opened Text
  import opened AutoMerge
  import opened AutoMergeTheorems
  import opened AutoMergeCounting

  datatype Meta = Meta(enabled: bool, applied: bool, threshold: int, replaced: nat, steps: nat)

  function ScoreOf(h: Hit): real {
    if h.score.Some? then h.score.value else 0.0
  }

  /** `h` goes behind everything that scores at least as much. */
  function Insert(ranked: seq<Hit>, h: Hit): seq<Hit> {
    if ranked == [] || ScoreOf(ranked[|ranked| - 1]) >= ScoreOf(h) then ranked + [h]
    else Insert(ranked[..|ranked| - 1], h) + [ranked[|ranked| - 1]]
  }

  /** The stable sort by descending score. */
  function Ranked(hits: seq<Hit>): seq<Hit> {
    if hits == [] then [] else Insert(Ranked(hits[..|hits| - 1]), hits[|hits| - 1])
  }

  /** `xs[:k]`, where a negative `k` counts from the end. */
  function Head<T>(xs: seq<T>, k: int): (r: seq<T>)
    ensures r <= xs && |r| <= |xs|
    ensures k >= 0 ==> |r| == if k <= |xs| then k else |xs|
    ensures k < 0 ==> |r| == if |xs| + k >= 0 then |xs| + k else 0
  {
    if k >= |xs| then xs else if k >= 0 then xs[..k] else if |xs| + k >= 0 then xs[..|xs| + k] else []
  }

  ghost predicate Descending(hits: seq<Hit>) {
    forall i, j :: 0 <= i < j < |hits| ==> ScoreOf(hits[i]) >= ScoreOf(hits[j])
  }

  /** The hits of one score, in order. */
  function Tied(hits: seq<Hit>, score: real): seq<Hit> {
    if hits == [] then []
    else
      var n := |hits| - 1;
      Tied(hits[..n], score) + (if ScoreOf(hits[n]) == score then [hits[n]] else [])
  }

  lemma {:induction false} InsertPermutes(ranked: seq<Hit>, h: Hit)
    ensures multiset(Insert(ranked, h)) == multiset(ranked) + multiset{h}
    ensures |Insert(ranked, h)| == |ranked| + 1
  {
    if ranked != [] && ScoreOf(ranked[|ranked| - 1]) < ScoreOf(h) {
      InsertPermutes(ranked[..|ranked| - 1], h);
      assert ranked == ranked[..|ranked| - 1] + [ranked[|ranked| - 1]];
    }
  }

  lemma DescendingAppend(hits: seq<Hit>, h: Hit)
    requires Descending(hits) && forall x :: x in hits ==> ScoreOf(x) >= ScoreOf(h)
    ensures Descending(hits + [h])
  {
    assert forall i :: 0 <= i < |hits| ==> hits[i] in hits;
  }

  lemma {:induction false} InsertDescends(ranked: seq<Hit>, h: Hit)
    requires Descending(ranked)
    ensures Descending(Insert(ranked, h))
  {
    if ranked != [] && ScoreOf(ranked[|ranked| - 1]) < ScoreOf(h) {
      var n := |ranked| - 1;
      InsertDescends(ranked[..n], h);
      InsertPermutes(ranked[..n], h);
      forall x | x in Insert(ranked[..n], h) ensures ScoreOf(x) >= ScoreOf(ranked[n]) {
        assert x in multiset(Insert(ranked[..n], h));
      }
      DescendingAppend(Insert(ranked[..n], h), ranked[n]);
    } else {
      DescendingAppend(ranked, h);
    }
  }

  lemma {:induction false} TiedAppend(hits: seq<Hit>, h: Hit, score: real)
    ensures Tied(hits + [h], score) == Tied(hits, score) + (if ScoreOf(h) == score then [h] else [])
  {
    assert (hits + [h])[..|hits|] == hits;
  }

  lemma {:induction false} InsertIsStable(ranked: seq<Hit>, h: Hit, score: real)
    ensures Tied(Insert(ranked, h), score) == Tied(ranked + [h], score)
  {
    hide Tied, ScoreOf;
    if ranked != [] && ScoreOf(ranked[|ranked| - 1]) < ScoreOf(h) {
      var before, last := ranked[..|ranked| - 1], ranked[|ranked| - 1];
      InsertIsStable(before, h, score);
      hide Insert;
      assert ranked == before + [last];
      TiedAppend(before + [last], h, score);
      TiedAppend(before, last, score);
      TiedAppend(before, h, score);
      TiedAppend(Insert(before, h), last, score);
    }
  }

  lemma {:induction false} RankedIsStable(hits: seq<Hit>, score: real)
    ensures Tied(Ranked(hits), score) == Tied(hits, score)
  {
    if hits != [] {
      var n := |hits| - 1;
      RankedIsStable(hits[..n], score);
      InsertIsStable(Ranked(hits[..n]), hits[n], score);
      TiedAppend(Ranked(hits[..n]), hits[n], score);
      TiedAppend(hits[..n], hits[n], score);
    }
  }

  lemma {:induction false} RankedDescends(hits: seq<Hit>)
    ensures Descending(Ranked(hits)) && multiset(Ranked(hits)) == multiset(hits) && |Ranked(hits)| == |hits|
  {
    hide Insert, Descending;
    if hits == [] {
      NothingDescends();
    } else {
      var n := |hits| - 1;
      RankedDescends(hits[..n]);
      InsertDescends(Ranked(hits[..n]), hits[n]);
      InsertPermutes(Ranked(hits[..n]), hits[n]);
      assert hits == hits[..n] + [hits[n]];
    }
  }

  lemma NothingDescends()
    ensures Descending([])
  {
  }

  /** `Ranked` is a permutation in descending order. */
  lemma RankedFacts(hits: seq<Hit>)
    ensures Descending(Ranked(hits)) && multiset(Ranked(hits)) == multiset(hits)
    ensures |Ranked(hits)| == |hits|
    ensures forall i, j :: 0 <= i < j < |hits| ==>
              (if Ranked(hits)[i].score.Some? then Ranked(hits)[i].score.value else 0.0)
              >= (if Ranked(hits)[j].score.Some? then Ranked(hits)[j].score.value else 0.0)
  {
    RankedDescends(hits);
    hide Ranked;
  }

  method AutoMergeDocuments(docs: seq<Hit>, topK: int, enabled: bool, threshold: int, store: Store)
    returns (out: seq<Hit>, meta: Meta)
    ensures !enabled || docs == [] ==> out == Head(docs, topK) && meta == Meta(enabled, false, threshold, 0, 0)
    ensures enabled && docs != [] ==>
              && out == Head(Ranked(TwoPasses(docs, store, threshold)), topK)
              && var first := MergePass(docs, store, threshold);
                 var second := MergePass(first.docs, store, threshold);
                 meta == Meta(true, first.replaced + second.replaced > 0, threshold, first.replaced + second.replaced,
                              (if first.replaced > 0 then 1 else 0) + (if second.replaced > 0 then 1 else 0))
  {
    if !enabled || docs == [] {
      return Head(docs, topK), Meta(enabled, false, threshold, 0, 0);
    }
    var merged, low := MergeToParentLevel(docs, store, threshold);
    var high;
    merged, high := MergeToParentLevel(merged, store, threshold);
    var ranked := Ranked(merged);
    out := Head(ranked, topK);
    meta := Meta(enabled, low + high > 0, threshold, low + high,
                 (if low > 0 then 1 else 0) + (if high > 0 then 1 else 0));
  }

  /** What is cut away scores no more than anything returned, and nothing is invented. */
  lemma CutKeepsTheBest(hits: seq<Hit>, topK: int, i: nat, j: nat)
    requires i < |Head(Ranked(hits), topK)| <= j < |hits|
    ensures |Ranked(hits)| == |hits| && ScoreOf(Head(Ranked(hits), topK)[i]) >= ScoreOf(Ranked(hits)[j])
    ensures Head(Ranked(hits), topK)[i] in hits
  {
    RankedFacts(hits);
    assert Head(Ranked(hits), topK)[i] == Ranked(hits)[i];
    assert Ranked(hits)[i] in multiset(Ranked(hits));
  }

  lemma {:induction false} ReplacedMeansRisen(docs: seq<Hit>, store: Store, threshold: int, hits: seq<Hit>)
    ensures ReplacedCount(docs, store, threshold, hits) == 0
       <==> forall h :: h in hits ==> !Rises(docs, store, threshold, h)
  {
    if hits != [] {
      var n := |hits| - 1;
      ReplacedMeansRisen(docs, store, threshold, hits[..n]);
      assert forall h :: h in hits <==> h in hits[..n] || h == hits[n];
      assert Rises(docs, store, threshold, hits[n]) <==> Merges(docs, store, threshold, ParentOf(hits[n]));
      assert hits[n] in hits;
    }
  }

  /** A pass reports replacements if and only if it changed the list. */
  lemma ReplacedMeansChanged(docs: seq<Hit>, store: Store, threshold: int)
    requires Layered(docs, store) && StoreOk(store) && NoParentBesideChild(docs)
    ensures MergePass(docs, store, threshold).replaced == 0 <==> MergePass(docs, store, threshold).docs == docs
  {
    PassIsSofar(docs, store, threshold);
    ReplacedMeansRisen(docs, store, threshold, docs);
    assert docs[..|docs|] == docs;
    if h :| h in docs && Rises(docs, store, threshold, h) {
      RisenHit(docs, store, threshold, h);
      var r := PassImage(docs, store, threshold, h);
    } else {
      NothingLifted(docs, store, threshold, docs);
      DedupOfDistinct(docs);
    }
  }
}
