/** What a synthesis reports and shows, in terms of the questions and the dictionary of branch results. */
module SynthesisOrder {
  import opened Wrappers
  import opened AutoMerge
  import opened AutoMergePass
  import opened Synthesis
  import opened Positions

  // ---- the questions reported ----

  lemma {:induction false} WhereAt(questions: seq<string>, ordered: seq<SubResult>, p: SubResult -> bool) returns (at: seq<nat>)
    requires |questions| == |ordered|
    ensures Picks(questions, Where(questions, ordered, p), at, Same)
    ensures forall i :: 0 <= i < |questions| ==> (i in at <==> p(ordered[i]))
    decreases |questions|
  {
    if questions == [] {
      at := [];
    } else {
      var n := |questions| - 1;
      var before := WhereAt(questions[..n], ordered[..n], p);
      hide Picks;
      assert Where(questions[..n], ordered[..n], p) + [] == Where(questions[..n], ordered[..n], p);
      PicksAlso(questions, n, Where(questions[..n], ordered[..n], p), before, Same, p(ordered[n]), Where(questions, ordered, p));
      hide Also, Where;
      at := Also(before, n, p(ordered[n]));
      forall i | 0 <= i < n ensures i in at <==> p(ordered[i]) { assert ordered[..n][i] == ordered[i]; }
    }
  }

  /** The questions reported as failed are those whose branch is there and failed, in planning order. */
  lemma FailuresAreReported(questions: seq<string>, results: map<string, SubResult>) returns (at: seq<nat>)
    ensures Picks(questions, Where(questions, Ordered(results, |questions|), HasFailed), at, Same)
    ensures forall i: nat :: i < |questions| ==>
              (i in at <==> SubtaskId(i) in results && results[SubtaskId(i)].status == Failed)
  {
    hide Where, SubtaskId;
    at := WhereAt(questions, Ordered(results, |questions|), HasFailed);
  }

  /** The questions reported as missing are those whose branch is absent or brought no document. */
  lemma MissingAreReported(questions: seq<string>, results: map<string, SubResult>) returns (at: seq<nat>)
    ensures Picks(questions, Where(questions, Ordered(results, |questions|), NoDocs), at, Same)
    ensures forall i: nat :: i < |questions| ==>
              (i in at <==> SubtaskId(i) !in results || results[SubtaskId(i)].docs == [])
  {
    hide Where, SubtaskId;
    at := WhereAt(questions, Ordered(results, |questions|), NoDocs);
  }

  // ---- the order of the evidence ----

  /** Where a document comes from: its rank in its branch, and the branch. */
  datatype Place = Place(rank: nat, branch: nat)

  predicate Earlier(p: Place, q: Place) {
    p.rank < q.rank || (p.rank == q.rank && p.branch < q.branch)
  }

  predicate In(ordered: seq<SubResult>, p: Place) {
    p.branch < |ordered| && p.rank < |ordered[p.branch].docs|
  }

  ghost predicate Rising(places: seq<Place>) {
    forall i, j :: 0 <= i < j < |places| ==> Earlier(places[i], places[j])
  }

  /** `hits` are the documents at `places`, one by one. */
  ghost predicate Read(ordered: seq<SubResult>, places: seq<Place>, hits: seq<Hit>) {
    && |places| == |hits| && Rising(places)
    && forall i :: 0 <= i < |places| ==> In(ordered, places[i]) && hits[i] == ordered[places[i].branch].docs[places[i].rank]
  }

  lemma ReadNext(ordered: seq<SubResult>, n: nat, rank: nat, places: seq<Place>, hits: seq<Hit>)
    requires n == |ordered| - 1 && Read(ordered[..n], places, hits)
    requires forall i :: 0 <= i < |places| ==> places[i].rank == rank
    ensures Read(ordered, places, hits)
    ensures rank < |ordered[n].docs| ==> Read(ordered, places + [Place(rank, n)], hits + [ordered[n].docs[rank]])
  {
    forall i | 0 <= i < |places|
      ensures places[i].branch < n && In(ordered, places[i]) && hits[i] == ordered[places[i].branch].docs[places[i].rank]
    {
      assert In(ordered[..n], places[i]) && ordered[..n][places[i].branch] == ordered[places[i].branch];
    }
  }

  lemma InNext(ordered: seq<SubResult>, n: nat, p: Place)
    requires n == |ordered| - 1 && In(ordered, p)
    ensures In(ordered[..n], p) || (p.branch == n && p.rank < |ordered[n].docs|)
  {
  }

  lemma {:induction false} RoundIsRead(ordered: seq<SubResult>, rank: nat) returns (places: seq<Place>)
    ensures Read(ordered, places, Round(ordered, rank))
    ensures forall i :: 0 <= i < |places| ==> places[i].rank == rank
    ensures forall p :: In(ordered, p) && p.rank == rank ==> p in places
    decreases |ordered|
  {
    hide Read, In, Round;
    if ordered == [] {
      places := [];
      NoRound(rank);
    } else {
      var n := |ordered| - 1;
      var before := RoundIsRead(ordered[..n], rank);
      ReadNext(ordered, n, rank, before, Round(ordered[..n], rank));
      RoundNext(ordered, n, rank);
      places := if rank < |ordered[n].docs| then before + [Place(rank, n)] else before;
      forall p | In(ordered, p) && p.rank == rank ensures p in places { InNext(ordered, n, p); }
    }
  }

  lemma NoRound(rank: nat)
    ensures Read([], [], Round([], rank)) && forall p :: !In([], p)
  {
  }

  lemma RoundNext(ordered: seq<SubResult>, n: nat, rank: nat)
    requires n == |ordered| - 1
    ensures var before := Round(ordered[..n], rank);
            Round(ordered, rank) == if rank < |ordered[n].docs| then before + [ordered[n].docs[rank]] else before
  {
  }

  lemma ReadConcat(ordered: seq<SubResult>, a: seq<Place>, b: seq<Place>, xs: seq<Hit>, ys: seq<Hit>)
    requires Read(ordered, a, xs) && Read(ordered, b, ys)
    requires forall i, j :: 0 <= i < |a| && 0 <= j < |b| ==> Earlier(a[i], b[j])
    ensures Read(ordered, a + b, xs + ys)
  {
  }

  lemma {:induction false} RoundsAreRead(ordered: seq<SubResult>, k: nat) returns (places: seq<Place>)
    ensures Read(ordered, places, Rounds(ordered, k))
    ensures forall i :: 0 <= i < |places| ==> places[i].rank < k
    ensures forall p :: In(ordered, p) && p.rank < k ==> p in places
    decreases k
  {
    hide Round, Read, In;
    if k == 0 {
      places := [];
      NothingIsRead(ordered);
    } else {
      var before := RoundsAreRead(ordered, k - 1);
      var last := RoundIsRead(ordered, k - 1);
      ReadConcat(ordered, before, last, Rounds(ordered, k - 1), Round(ordered, k - 1));
      places := before + last;
    }
  }

  lemma NothingIsRead(ordered: seq<SubResult>)
    ensures Read(ordered, [], [])
  {
  }

  lemma {:induction false} LongestBounds(ordered: seq<SubResult>, i: nat)
    requires i < |ordered|
    ensures |ordered[i].docs| <= Longest(ordered)
  {
    var n := |ordered| - 1;
    if i < n { LongestBounds(ordered[..n], i); }
  }

  /** The document at a place of the dictionary. */
  predicate Holds(results: map<string, SubResult>, n: nat, p: Place) {
    p.branch < n && SubtaskId(p.branch) in results && p.rank < |results[SubtaskId(p.branch)].docs|
  }

  function DocAt(results: map<string, SubResult>, n: nat, p: Place): Hit
    requires Holds(results, n, p)
  {
    results[SubtaskId(p.branch)].docs[p.rank]
  }

  /** No earlier place holds a document of the same key. */
  ghost predicate Leading(results: map<string, SubResult>, n: nat, p: Place)
    requires Holds(results, n, p)
  {
    forall q :: Holds(results, n, q) && Earlier(q, p) ==> KeyOf(DocAt(results, n, q)) != KeyOf(DocAt(results, n, p))
  }

  lemma OrderedHolds(results: map<string, SubResult>, n: nat, p: Place)
    ensures In(Ordered(results, n), p) <==> Holds(results, n, p)
    ensures Holds(results, n, p) ==> Ordered(results, n)[p.branch].docs[p.rank] == DocAt(results, n, p)
  {
    hide SubtaskId;
  }

  /** A place of the reading order is the first of its key there if and only if it leads in the dictionary. */
  lemma FirstLeads(results: map<string, SubResult>, n: nat, places: seq<Place>, hits: seq<Hit>, i: nat)
    requires Read(Ordered(results, n), places, hits) && i < |places|
    requires forall p :: In(Ordered(results, n), p) ==> p in places
    ensures Holds(results, n, places[i]) && hits[i] == DocAt(results, n, places[i])
    ensures IsFirst(hits, i) <==> Leading(results, n, places[i])
  {
    hide Ordered, SubtaskId, KeyOf, Holds, DocAt;
    forall p ensures In(Ordered(results, n), p) <==> Holds(results, n, p) { OrderedHolds(results, n, p); }
    forall j | 0 <= j < |places| ensures Holds(results, n, places[j]) && hits[j] == DocAt(results, n, places[j]) {
      OrderedHolds(results, n, places[j]);
    }
    if IsFirst(hits, i) {
      forall q | Holds(results, n, q) && Earlier(q, places[i])
        ensures KeyOf(DocAt(results, n, q)) != KeyOf(DocAt(results, n, places[i]))
      {
        var j :| 0 <= j < |places| && places[j] == q;
        assert j < i;
      }
    }
    if Leading(results, n, places[i]) {
      forall j | 0 <= j < i ensures KeyOf(hits[j]) != KeyOf(hits[i]) { assert Earlier(places[j], places[i]); }
    }
  }

  /**
  The evidence: by rank first and by branch second, every document whose key no earlier place holds,
  numbered from one.
  */
  lemma EvidenceIsInOrder(results: map<string, SubResult>, n: nat) returns (at: seq<Place>)
    ensures var out := Synthesized(Ordered(results, n));
            && |at| == |out| && Rising(at)
            && (forall j :: 0 <= j < |at| ==>
                  Holds(results, n, at[j]) && out[j] == Evidence(DocAt(results, n, at[j]), j + 1))
            && (forall p :: Holds(results, n, p) ==> (p in at <==> Leading(results, n, p)))
  {
    var ordered := Ordered(results, n);
    var hits := Rounds(ordered, Longest(ordered));
    var places := RoundsAreRead(ordered, Longest(ordered));
    forall p | In(ordered, p) ensures p in places { LongestBounds(ordered, p.branch); }
    var firsts := DedupKeepsFirsts(hits);
    hide Ordered, SubtaskId, Rounds, Dedup, KeyOf, Longest, IsFirst, Leading, Holds, DocAt, In, Read;
    ReadRises(ordered, places, hits);
    at := Picked(places, firsts);
    PickedRises(places, firsts);
    forall j | 0 <= j < |at| ensures Holds(results, n, at[j]) && Dedup(hits)[j] == DocAt(results, n, at[j]) {
      FirstLeads(results, n, places, hits, firsts[j]);
    }
    forall p | Holds(results, n, p) ensures p in at <==> Leading(results, n, p) {
      OrderedHolds(results, n, p);
      var i :| 0 <= i < |places| && places[i] == p;
      FirstLeads(results, n, places, hits, i);
      PickedOnce(places, firsts, at, i);
    }
  }

  function Picked(places: seq<Place>, firsts: seq<nat>): (at: seq<Place>)
    requires Ascending(firsts, |places|)
    ensures |at| == |firsts| && forall j :: 0 <= j < |at| ==> at[j] == places[firsts[j]]
  {
    seq(|firsts|, j requires 0 <= j < |firsts| => places[firsts[j]])
  }

  lemma PickedRises(places: seq<Place>, firsts: seq<nat>)
    requires Rising(places) && Ascending(firsts, |places|)
    ensures Rising(Picked(places, firsts))
  {
    hide Picked;
  }

  lemma ReadRises(ordered: seq<SubResult>, places: seq<Place>, hits: seq<Hit>)
    requires Read(ordered, places, hits)
    ensures Rising(places) && |places| == |hits|
  {
  }

  lemma PickedOnce(places: seq<Place>, firsts: seq<nat>, at: seq<Place>, i: nat)
    requires Rising(places) && i < |places| && |at| == |firsts| && Ascending(firsts, |places|)
    requires forall j :: 0 <= j < |at| ==> at[j] == places[firsts[j]]
    ensures places[i] in at <==> i in firsts
  {
    if places[i] in at {
      var j :| 0 <= j < |at| && at[j] == places[i];
      var k := firsts[j];
      assert !(k < i) && !(i < k);
    }
    if i in firsts {
      var j :| 0 <= j < |firsts| && firsts[j] == i;
      assert at[j] == places[i];
    }
  }

  /** What counts as the same document. */
  lemma SameKey(a: Hit, b: Hit)
    ensures KeyOf(a) == KeyOf(b) <==>
            if a.chunkId != "" then b.chunkId == a.chunkId
            else b.chunkId == "" && a.filename == b.filename && a.page == b.page && a.text == b.text
  {
  }
}
