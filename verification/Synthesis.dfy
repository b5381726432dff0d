/**
Parallel sub-questions of backend/rag/rag_pipeline.py: branch results are merged by sub-task id as
they arrive, then read off in planning order, round robin, without duplicates.
*/
module Synthesis {
  import opened Wrappers
  import opened AutoMerge
  import opened ChunkTree
  import opened ChunkTreeTheorems

  datatype Status = Ok | Empty | Failed

  datatype SubResult = SubResult(docs: seq<Hit>, status: Status)

  datatype Arrival = Arrival(id: string, result: SubResult)

  /** `{**left, **right}` */
  function MergeSubResults(left: map<string, SubResult>, right: map<string, SubResult>): map<string, SubResult> {
    left + right
  }

  /** The dictionary after the branches have arrived in some order. */
  function Merged(arrivals: seq<Arrival>): map<string, SubResult> {
    if arrivals == [] then map[]
    else
      var a := arrivals[|arrivals| - 1];
      MergeSubResults(Merged(arrivals[..|arrivals| - 1]), map[a.id := a.result])
  }

  /** `str(index)` */
  function SubtaskId(index: nat): string {
    Decimal(index)
  }

  /** The branch results in planning order; a missing branch counts as one without documents. */
  function Ordered(results: map<string, SubResult>, n: nat): seq<SubResult> {
    seq(n, i requires 0 <= i < n => if SubtaskId(i) in results then results[SubtaskId(i)] else SubResult([], Empty))
  }

  /** The documents of one rank, branch by branch. */
  function Round(ordered: seq<SubResult>, rank: nat): seq<Hit> {
    if ordered == [] then []
    else
      var docs := ordered[|ordered| - 1].docs;
      Round(ordered[..|ordered| - 1], rank) + (if rank < |docs| then [docs[rank]] else [])
  }

  /** The documents of all ranks below `k`. */
  function Rounds(ordered: seq<SubResult>, k: nat): seq<Hit> {
    if k == 0 then [] else Rounds(ordered, k - 1) + Round(ordered, k - 1)
  }

  function Longest(ordered: seq<SubResult>): nat {
    if ordered == [] then 0
    else
      var before := Longest(ordered[..|ordered| - 1]);
      var docs := ordered[|ordered| - 1].docs;
      if |docs| > before then |docs| else before
  }

  /** A document with the rank shown to the reader. */
  datatype Evidence = Evidence(hit: Hit, rrfRank: nat)

  function Numbered(hits: seq<Hit>): seq<Evidence> {
    seq(|hits|, i requires 0 <= i < |hits| => Evidence(hits[i], i + 1))
  }

  function Synthesized(ordered: seq<SubResult>): seq<Evidence> {
    Numbered(Dedup(Rounds(ordered, Longest(ordered))))
  }

  // ---- as it is run ----

  predicate NoDocs(r: SubResult) {
    r.docs == []
  }

  predicate HasFailed(r: SubResult) {
    r.status == Failed
  }

  /** What the double loop has seen: all rounds below `rank` and the first `j` branches of that round. */
  ghost predicate Seen(ordered: seq<SubResult>, rank: nat, j: nat, merged: seq<Hit>, seen: set<Key>)
    requires j <= |ordered|
  {
    var read := Rounds(ordered, rank) + Round(ordered[..j], rank);
    merged == Dedup(read) && seen == Keys(read)
  }

  lemma SeenStep(ordered: seq<SubResult>, rank: nat, j: nat, merged: seq<Hit>, seen: set<Key>)
    requires j < |ordered| && Seen(ordered, rank, j, merged, seen)
    ensures rank >= |ordered[j].docs| ==> Seen(ordered, rank, j + 1, merged, seen)
    ensures rank < |ordered[j].docs| ==>
              var item := ordered[j].docs[rank];
              Seen(ordered, rank, j + 1, if KeyOf(item) in seen then merged else merged + [item], seen + {KeyOf(item)})
  {
    assert ordered[..j + 1][..j] == ordered[..j];
    var read := Rounds(ordered, rank) + Round(ordered[..j], rank);
    if rank < |ordered[j].docs| {
      var item := ordered[j].docs[rank];
      assert Rounds(ordered, rank) + Round(ordered[..j + 1], rank) == read + [item];
      DedupAppend(read, item);
    } else {
      assert Rounds(ordered, rank) + Round(ordered[..j + 1], rank) == read;
    }
  }

  /** `max(len(docs), default=0)` */
  method MaxDocs(ordered: seq<SubResult>) returns (maxDocs: nat)
    ensures maxDocs == Longest(ordered)
  {
    maxDocs := 0;
    for i := 0 to |ordered|
      invariant maxDocs == Longest(ordered[..i])
    {
      assert ordered[..i + 1][..i] == ordered[..i];
      if |ordered[i].docs| > maxDocs { maxDocs := |ordered[i].docs|; }
    }
    assert ordered[..|ordered|] == ordered;
  }

  lemma SeenEdges(ordered: seq<SubResult>, rank: nat, merged: seq<Hit>, seen: set<Key>)
    ensures Seen(ordered, 0, 0, [], {})
    ensures Seen(ordered, rank, |ordered|, merged, seen) ==> Seen(ordered, rank + 1, 0, merged, seen)
    ensures Seen(ordered, rank, 0, merged, seen) ==> merged == Dedup(Rounds(ordered, rank))
  {
    assert ordered[..|ordered|] == ordered && ordered[..0] == [];
    assert Rounds(ordered, rank + 1) + [] == Rounds(ordered, rank) + Round(ordered, rank);
    assert Rounds(ordered, rank) + [] == Rounds(ordered, rank);
  }

  method SynthesizeSubquestions(questions: seq<string>, results: map<string, SubResult>)
    returns (evidence: seq<Evidence>, missing: seq<string>, failures: seq<string>)
    ensures evidence == Synthesized(Ordered(results, |questions|))
    ensures missing == Where(questions, Ordered(results, |questions|), NoDocs)
    ensures failures == Where(questions, Ordered(results, |questions|), HasFailed)
  {
    hide Seen, KeyOf, Where;
    var ordered := Ordered(results, |questions|);
    var maxDocs := MaxDocs(ordered);
    var merged: seq<Hit> := [];
    var seen: set<Key> := {};
    SeenEdges(ordered, 0, merged, seen);
    for rank := 0 to maxDocs
      invariant Seen(ordered, rank, 0, merged, seen)
    {
      for j := 0 to |ordered|
        invariant Seen(ordered, rank, j, merged, seen)
      {
        SeenStep(ordered, rank, j, merged, seen);
        if rank < |ordered[j].docs| {
          var item := ordered[j].docs[rank];
          if KeyOf(item) !in seen { merged := merged + [item]; }
          seen := seen + {KeyOf(item)};
        }
      }
      SeenEdges(ordered, rank, merged, seen);
    }
    SeenEdges(ordered, maxDocs, merged, seen);
    evidence := Numbered(merged);
    missing := Select(questions, ordered, NoDocs);
    failures := Select(questions, ordered, HasFailed);
  }

  /** The questions whose branch satisfies `p`. */
  function Where(questions: seq<string>, ordered: seq<SubResult>, p: SubResult -> bool): seq<string>
    requires |questions| == |ordered|
  {
    if questions == [] then []
    else
      var n := |questions| - 1;
      Where(questions[..n], ordered[..n], p) + (if p(ordered[n]) then [questions[n]] else [])
  }

  method Select(questions: seq<string>, ordered: seq<SubResult>, p: SubResult -> bool) returns (chosen: seq<string>)
    requires |questions| == |ordered|
    ensures chosen == Where(questions, ordered, p)
  {
    chosen := [];
    for i := 0 to |questions|
      invariant chosen == Where(questions[..i], ordered[..i], p)
    {
      assert questions[..i + 1][..i] == questions[..i] && ordered[..i + 1][..i] == ordered[..i];
      if p(ordered[i]) { chosen := chosen + [questions[i]]; }
    }
    assert questions[..|questions|] == questions && ordered[..|ordered|] == ordered;
  }

  // ---- the order of arrival does not matter ----

  ghost predicate DistinctTasks(arrivals: seq<Arrival>) {
    forall i, j :: 0 <= i < j < |arrivals| ==> arrivals[i].id != arrivals[j].id
  }

  lemma {:induction false} MergedHolds(arrivals: seq<Arrival>, id: string, result: SubResult)
    requires DistinctTasks(arrivals)
    ensures id in Merged(arrivals) && Merged(arrivals)[id] == result <==> Arrival(id, result) in arrivals
  {
    if arrivals != [] {
      var n := |arrivals| - 1;
      MergedHolds(arrivals[..n], id, result);
      assert forall a :: a in arrivals <==> a in arrivals[..n] || a == arrivals[n];
      assert forall a :: a in arrivals[..n] ==> a.id != arrivals[n].id;
    }
  }

  /** Branches with distinct ids merge to one dictionary whatever order they finish in. */
  lemma ArrivalOrderIsIrrelevant(a: seq<Arrival>, b: seq<Arrival>)
    requires DistinctTasks(a) && DistinctTasks(b) && multiset(a) == multiset(b)
    ensures Merged(a) == Merged(b)
  {
    assert forall x :: x in a <==> x in multiset(a);
    assert forall x :: x in b <==> x in multiset(b);
    forall id ensures (id in Merged(a) <==> id in Merged(b)) && (id in Merged(a) ==> Merged(a)[id] == Merged(b)[id]) {
      if id in Merged(a) {
        MergedHolds(a, id, Merged(a)[id]);
        MergedHolds(b, id, Merged(a)[id]);
      }
      if id in Merged(b) {
        MergedHolds(b, id, Merged(b)[id]);
        MergedHolds(a, id, Merged(b)[id]);
      }
    }
  }

  /** The sub-tasks a fan-out sends have distinct ids. */
  lemma SubtaskIdsDiffer(i: nat, j: nat)
    requires i != j
    ensures SubtaskId(i) != SubtaskId(j)
  {
    if SubtaskId(i) == SubtaskId(j) { DecimalInjective(i, j); assert false; }
  }

  // ---- what the reader gets ----

  function BranchKeys(ordered: seq<SubResult>): set<Key> {
    set i, r | 0 <= i < |ordered| && 0 <= r < |ordered[i].docs| :: KeyOf(ordered[i].docs[r])
  }

  lemma {:induction false} RoundMembers(ordered: seq<SubResult>, rank: nat, h: Hit)
    ensures h in Round(ordered, rank)
       <==> exists i :: 0 <= i < |ordered| && rank < |ordered[i].docs| && ordered[i].docs[rank] == h
  {
    if ordered != [] {
      var n := |ordered| - 1;
      RoundMembers(ordered[..n], rank, h);
      var last := if rank < |ordered[n].docs| then [ordered[n].docs[rank]] else [];
      assert Round(ordered, rank) == Round(ordered[..n], rank) + last;
      hide Round;
      if i :| 0 <= i < |ordered| && rank < |ordered[i].docs| && ordered[i].docs[rank] == h {
        if i < n { assert ordered[..n][i] == ordered[i]; }
      }
    }
  }

  /** `h` is in some branch at a rank below `k`. */
  ghost predicate Below(ordered: seq<SubResult>, k: nat, h: Hit) {
    exists i, r :: 0 <= i < |ordered| && 0 <= r < k && r < |ordered[i].docs| && ordered[i].docs[r] == h
  }

  /** And this is at rank `r` exactly. */
  ghost predicate AtRank(ordered: seq<SubResult>, r: nat, h: Hit) {
    exists i :: 0 <= i < |ordered| && r < |ordered[i].docs| && ordered[i].docs[r] == h
  }

  lemma BelowNext(ordered: seq<SubResult>, k: nat, h: Hit)
    ensures !Below(ordered, 0, h)
    ensures Below(ordered, k + 1, h) <==> Below(ordered, k, h) || AtRank(ordered, k, h)
  {
    if AtRank(ordered, k, h) {
      var i :| 0 <= i < |ordered| && k < |ordered[i].docs| && ordered[i].docs[k] == h;
      assert 0 <= k < k + 1;
    }
    if Below(ordered, k + 1, h) {
      var i, r :| 0 <= i < |ordered| && 0 <= r < k + 1 && r < |ordered[i].docs| && ordered[i].docs[r] == h;
      assert r == k ==> AtRank(ordered, k, h);
    }
  }

  lemma {:induction false} RoundsBelow(ordered: seq<SubResult>, k: nat, h: Hit)
    ensures h in Rounds(ordered, k) <==> Below(ordered, k, h)
  {
    hide Below, Round;
    if k == 0 {
      BelowNext(ordered, 0, h);
    } else {
      RoundsBelow(ordered, k - 1, h);
      RoundMembers(ordered, k - 1, h);
      BelowNext(ordered, k - 1, h);
    }
  }

  lemma RoundsMembers(ordered: seq<SubResult>, k: nat, h: Hit)
    ensures h in Rounds(ordered, k)
       <==> exists i, r :: 0 <= i < |ordered| && 0 <= r < k && r < |ordered[i].docs| && ordered[i].docs[r] == h
  {
    hide Rounds;
    RoundsBelow(ordered, k, h);
  }

  lemma {:induction false} LongestBounds(ordered: seq<SubResult>, i: nat)
    requires i < |ordered|
    ensures |ordered[i].docs| <= Longest(ordered)
  {
    var n := |ordered| - 1;
    if i < n {
      LongestBounds(ordered[..n], i);
      assert ordered[..n][i] == ordered[i];
    }
  }

  lemma {:induction false} DedupIsDistinct(hits: seq<Hit>)
    ensures forall i, j :: 0 <= i < j < |Dedup(hits)| ==> KeyOf(Dedup(hits)[i]) != KeyOf(Dedup(hits)[j])
    ensures |Dedup(hits)| <= |hits|
  {
    if hits != [] {
      var n := |hits| - 1;
      DedupIsDistinct(hits[..n]);
      var rest := Dedup(hits[..n]);
      assert forall i :: 0 <= i < |rest| ==> KeyOf(rest[i]) in Keys(rest);
    }
  }

  lemma {:induction false} DedupGrows(a: seq<Hit>, b: seq<Hit>)
    requires a <= b
    ensures Dedup(a) <= Dedup(b)
  {
    if a != b { DedupGrows(a, b[..|b| - 1]); }
  }

  lemma {:induction false} RoundsGrow(ordered: seq<SubResult>, j: nat, k: nat)
    requires j <= k
    ensures Rounds(ordered, j) <= Rounds(ordered, k)
  {
    if j < k { RoundsGrow(ordered, j, k - 1); }
  }

  lemma {:induction false} RoundIsShort(ordered: seq<SubResult>, rank: nat)
    ensures |Round(ordered, rank)| <= |ordered|
  {
    if ordered != [] { RoundIsShort(ordered[..|ordered| - 1], rank); }
  }

  lemma RoundsStep(ordered: seq<SubResult>, k: nat)
    ensures |Rounds(ordered, k)| == if k == 0 then 0 else |Rounds(ordered, k - 1)| + |Round(ordered, k - 1)|
  {
    hide Round;
  }

  lemma ZeroRounds(n: nat)
    ensures 0 * n == 0
  {
  }

  lemma OneMoreRound(k: nat, n: nat)
    ensures (k + 1) * n == k * n + n
  {
  }

  lemma {:induction false} RoundsAreShort(ordered: seq<SubResult>, k: nat)
    ensures |Rounds(ordered, k)| <= k * |ordered|
  {
    RoundsStep(ordered, k);
    hide Rounds, Round;
    if k == 0 {
      ZeroRounds(|ordered|);
    } else {
      RoundsAreShort(ordered, k - 1);
      RoundIsShort(ordered, k - 1);
      OneMoreRound(k - 1, |ordered|);
    }
  }

  /** No key twice, exactly the keys of the branches, numbered from one. */
  lemma SynthesisIsUnion(ordered: seq<SubResult>)
    ensures var out := Synthesized(ordered);
            && (forall i, j :: 0 <= i < j < |out| ==> KeyOf(out[i].hit) != KeyOf(out[j].hit))
            && (set i | 0 <= i < |out| :: KeyOf(out[i].hit)) == BranchKeys(ordered)
            && (forall i :: 0 <= i < |out| ==> out[i].rrfRank == i + 1)
  {
    var all := Rounds(ordered, Longest(ordered));
    var out := Synthesized(ordered);
    DedupIsDistinct(all);
    DedupKeys(all);
    assert (set i | 0 <= i < |out| :: KeyOf(out[i].hit)) == Keys(Dedup(all)) by {
      forall h | h in Dedup(all) ensures exists i :: 0 <= i < |out| && out[i].hit == h {
        var i :| 0 <= i < |Dedup(all)| && Dedup(all)[i] == h;
        assert out[i].hit == h;
      }
      assert forall i :: 0 <= i < |out| ==> out[i].hit in Dedup(all);
    }
    KeysOfRounds(ordered);
  }

  lemma KeysOfRounds(ordered: seq<SubResult>)
    ensures Keys(Rounds(ordered, Longest(ordered))) == BranchKeys(ordered)
  {
    var all := Rounds(ordered, Longest(ordered));
    forall key ensures key in Keys(all) <==> key in BranchKeys(ordered) {
      if key in Keys(all) {
        var h :| h in all && KeyOf(h) == key;
        RoundsMembers(ordered, Longest(ordered), h);
      }
      if key in BranchKeys(ordered) {
        var i, r :| 0 <= i < |ordered| && 0 <= r < |ordered[i].docs| && KeyOf(ordered[i].docs[r]) == key;
        LongestBounds(ordered, i);
        RoundsMembers(ordered, Longest(ordered), ordered[i].docs[r]);
      }
    }
  }

  /** The item at zero-based rank `r` of any branch is among the first `(r + 1) * n` for `n` branches. */
  lemma SynthesisIsFair(ordered: seq<SubResult>, branch: nat, r: nat)
    requires branch < |ordered| && r < |ordered[branch].docs|
    ensures var out := Synthesized(ordered);
            exists i :: 0 <= i < |out| && i < (r + 1) * |ordered| && KeyOf(out[i].hit) == KeyOf(ordered[branch].docs[r])
  {
    var h := ordered[branch].docs[r];
    var early := Rounds(ordered, r + 1);
    var all := Rounds(ordered, Longest(ordered));
    LongestBounds(ordered, branch);
    RoundsGrow(ordered, r + 1, Longest(ordered));
    RoundsAreShort(ordered, r + 1);
    RoundsMembers(ordered, r + 1, h);
    DedupKeys(early);
    DedupIsDistinct(early);
    DedupGrows(early, all);
    assert KeyOf(h) in Keys(Dedup(early));
    var g :| g in Dedup(early) && KeyOf(g) == KeyOf(h);
    var i :| 0 <= i < |Dedup(early)| && Dedup(early)[i] == g;
    assert Dedup(all)[i] == g && Synthesized(ordered)[i].hit == g;
  }
}
