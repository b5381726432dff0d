/** What a run of the retrieval graph retrieves and shows, read off the answers of its models at once. */
module RagDecisions {
  import opened Wrappers
  import opened Text
  import opened AutoMerge
  import opened Synthesis
  import opened RagGraph
  import opened Positions

  // ---- lists of questions ----

  lemma StrippedStep(xs: seq<string>, n: nat)
    requires n == |xs| - 1
    ensures Stripped(xs) == Stripped(xs[..n]) + (if Trim(xs[n]) == "" then [] else [Trim(xs[n])])
  {
    hide Trim;
  }

  /** The non-blank ones, trimmed, in order. */
  lemma {:induction false} StrippedSpelledOut(xs: seq<string>) returns (at: seq<nat>)
    ensures Picks(xs, Stripped(xs), at, Trim)
    ensures forall i :: 0 <= i < |xs| ==> (i in at <==> Trim(xs[i]) != "")
    decreases |xs|
  {
    hide Trim, Picks;
    if xs == [] {
      at := [];
      PicksNothing(Trim);
    } else {
      var n := |xs| - 1;
      var before := StrippedSpelledOut(xs[..n]);
      StrippedStep(xs, n);
      hide Stripped;
      assert Stripped(xs[..n]) + [] == Stripped(xs[..n]);
      PicksAlso(xs, n, Stripped(xs[..n]), before, Trim, Trim(xs[n]) != "", Stripped(xs));
      hide Also;
      at := Also(before, n, Trim(xs[n]) != "");
      forall i | 0 <= i < n ensures i in at <==> Trim(xs[i]) != "" { assert xs[..n][i] == xs[i]; }
    }
  }

  lemma FirstsStep(xs: seq<string>, n: nat)
    requires n == |xs| - 1
    ensures FirstOccurrences(xs)
         == if xs[n] in FirstOccurrences(xs[..n]) then FirstOccurrences(xs[..n]) else FirstOccurrences(xs[..n]) + [xs[n]]
    ensures forall x :: x in xs <==> x in xs[..n] || x == xs[n]
  {
    assert xs == xs[..n] + [xs[n]];
  }

  /** No earlier text is the same. */
  ghost predicate New(xs: seq<string>, i: nat)
    requires i < |xs|
  {
    forall k :: 0 <= k < i ==> xs[k] != xs[i]
  }

  lemma NewInPrefix(xs: seq<string>, n: nat, i: nat)
    requires n == |xs| - 1
    ensures i < n ==> (New(xs[..n], i) <==> New(xs, i))
    ensures New(xs, n) <==> xs[n] !in xs[..n]
  {
    if i < n { assert forall k :: 0 <= k <= i ==> xs[..n][k] == xs[k]; }
    if k :| 0 <= k < n && xs[k] == xs[n] { assert xs[..n][k] == xs[n]; }
  }

  /** One text more: it is kept if it is new. */
  lemma FirstsPicked(xs: seq<string>, n: nat, kept: seq<string>, at: seq<nat>, kept': seq<string>)
    requires n == |xs| - 1 && Picks(xs[..n], kept, at, Same)
    requires kept' == if New(xs, n) then kept + [xs[n]] else kept
    requires forall i :: 0 <= i < n ==> (i in at <==> New(xs[..n], i))
    ensures Picks(xs, kept', Also(at, n, New(xs, n)), Same)
    ensures forall i :: 0 <= i < |xs| ==> (i in Also(at, n, New(xs, n)) <==> New(xs, i))
  {
    PicksAlso(xs, n, kept, at, Same, New(xs, n), kept');
    hide Picks, New, Also;
    forall i | 0 <= i < n ensures New(xs[..n], i) <==> New(xs, i) { NewInPrefix(xs, n, i); }
  }

  /** Every text where it occurs first, in order. */
  lemma {:induction false} FirstOccurrencesSpelledOut(xs: seq<string>) returns (at: seq<nat>)
    ensures Picks(xs, FirstOccurrences(xs), at, Same)
    ensures forall i :: 0 <= i < |xs| ==> (i in at <==> New(xs, i))
    decreases |xs|
  {
    hide Picks, New, Also;
    if xs == [] {
      at := [];
      PicksNothing<string, string>(Same);
    } else {
      var n := |xs| - 1;
      var before := FirstOccurrencesSpelledOut(xs[..n]);
      FirstsStep(xs, n);
      FirstsKeepFirsts(xs[..n]);
      NewInPrefix(xs, n, n);
      hide FirstOccurrences;
      FirstsPicked(xs, n, FirstOccurrences(xs[..n]), before, FirstOccurrences(xs));
      at := Also(before, n, New(xs, n));
    }
  }

  /** Three questions at most; of more, the first two, and the others as one. */
  lemma CapSpelledOut(xs: seq<string>)
    ensures |xs| <= 3 ==> Cap(xs) == xs
    ensures |xs| > 3 ==> Cap(xs) == [xs[0], xs[1], Join("\U{FF1B}", xs[2..])]
  {
  }

  // ---- the whole run ----

  /** The question the run works on. */
  function Asked(m: Models, question: string): string {
    if m.plan.None? || Trim(m.plan.value.query) == "" then question else Trim(m.plan.value.query)
  }

  /** The first retrieval is skipped when the plan wants an expansion. */
  predicate Expands(m: Models) {
    m.plan.Some? && m.plan.value.strategy != Direct
  }

  predicate Confident(m: Models) {
    match m.grade
    case None => false
    case Some(Grade(Yes, c)) => c >= 0.6
    case Some(Grade(Unsure, c)) => c >= 0.85
    case Some(Grade(No, _)) => false
  }

  /** The parts of a comparison. */
  function Parts(m: Models, q: string): seq<string> {
    FirstOccurrences(Stripped(m.decompose(q)))
  }

  /** Good evidence does not do for a comparison of several parts. */
  predicate Compares(m: Models, q: string) {
    Confident(m) && m.compares(q) && |Parts(m, q)| > 1
  }

  function Strategy(m: Models, q: string): Strategy {
    if Expands(m) then m.plan.value.strategy
    else if Compares(m, q) then Complex
    else if m.expansion.Some? then m.expansion.value
    else StepBack
  }

  /** The questions of a fan-out; without a usable part it is the question itself, trimmed if there was none at all. */
  function Branches(m: Models, q: string): seq<string> {
    Cap(if Parts(m, q) != [] then Parts(m, q)
        else if m.decompose(q) == [] && Trim(q) != "" then [Trim(q)]
        else [q])
  }

  /** The queries of the second retrieval. */
  function Rewritten(m: Models, q: string): seq<string> {
    match Strategy(m, q)
    case StepBack => [if m.stepBack(q) == "" then q else m.stepBack(q)]
    case Hyde => [m.hypothesis(q)]
    case Complex => Branches(m, q)
    case Direct => []
  }

  /** Everything a run retrieves. */
  function Retrieved(m: Models, question: string): seq<string> {
    var q := Asked(m, question);
    if Expands(m) then Rewritten(m, q)
    else if Confident(m) && !Compares(m, q) then [q]
    else [q] + Rewritten(m, q)
  }

  /** Where a run from here ends. */
  function Finish(m: Models, s: State, node: Node): State
    decreases Rank(node)
  {
    if node == End then s else Finish(m, Step(m, s, node).0, Step(m, s, node).1)
  }

  lemma {:induction false} RunFinishes(m: Models, question: string, path: seq<Visit>, i: nat)
    requires CompleteRun(m, question, path) && i < |path|
    ensures Finish(m, path[i].state, path[i].node) == Last(path).state
    decreases |path| - i
  {
    hide Step;
    if i < |path| - 1 {
      assert Linked(m, path[i], path[i + 1]);
      RunFinishes(m, question, path, i + 1);
    }
  }

  // ---- node by node ----

  lemma FinishStep(m: Models, s: State, node: Node)
    requires node != End
    ensures Finish(m, s, node) == Finish(m, Step(m, s, node).0, Step(m, s, node).1)
  {
    hide Step;
  }

  /** What a finished run shows of its retrievals and its evidence. */
  predicate Ends(m: Models, s: State, retrievals: multiset<string>, calls: nat, evidence: seq<Evidence>) {
    s.retrievals == retrievals && s.calls == calls && s.evidence == evidence
  }

  lemma SingleFinishes(m: Models, s: State)
    requires s.expansion in {Some(StepBack), Some(Hyde)}
    ensures Ends(m, Finish(m, s, RetrieveExpanded), s.retrievals + multiset(ExpandedQueries(m, s)), s.calls + 1, s.evidence)
  {
    FinishStep(m, s, RetrieveExpanded);
    hide ExpandedQueries;
  }

  /** The evidence of a fan-out over `queries`. */
  function Shown(m: Models, queries: seq<string>): seq<Evidence> {
    Synthesized(seq(|queries|, i requires 0 <= i < |queries| => m.retrieve(queries[i])))
  }

  lemma BranchesAreRead(m: Models, s: State, queries: seq<string>)
    requires WellBehaved(m) && Dispatched(s) == queries
    ensures var t := AfterSubquestions(m, s);
            forall k :: 0 <= k < |queries| ==> SubtaskId(k) in t.subResults && t.subResults[SubtaskId(k)] == m.retrieve(queries[k])
  {
    var tasks := Subtasks(m, queries);
    TasksAreDistinct(m, queries);
    ArrangedIsDistinct(m, tasks);
    forall k | 0 <= k < |queries|
      ensures SubtaskId(k) in AfterSubquestions(m, s).subResults
           && AfterSubquestions(m, s).subResults[SubtaskId(k)] == m.retrieve(queries[k])
    {
      assert tasks[k] == Arrival(SubtaskId(k), m.retrieve(queries[k]));
      assert tasks[k] in multiset(tasks) && tasks[k] in multiset(m.arrange(tasks));
      MergedHolds(m.arrange(tasks), SubtaskId(k), m.retrieve(queries[k]));
    }
  }

  lemma FanOutSteps(m: Models, s: State)
    ensures Finish(m, s, RetrieveSubquestions) == AfterSynthesis(AfterSubquestions(m, s))
  {
    FinishStep(m, s, RetrieveSubquestions);
    FinishStep(m, AfterSubquestions(m, s), SynthesizeSubquestions);
    hide AfterSubquestions, AfterSynthesis;
  }

  /** What the synthesis reads back is what the branches found. */
  lemma BranchesAreOrdered(m: Models, s: State, queries: seq<string>)
    requires WellBehaved(m) && Dispatched(s) == queries
    ensures Ordered(AfterSubquestions(m, s).subResults, |queries|)
         == seq(|queries|, i requires 0 <= i < |queries| => m.retrieve(queries[i]))
  {
    BranchesAreRead(m, s, queries);
    hide AfterSubquestions, SubtaskId, Dispatched, WellBehaved;
  }

  lemma FanOutFinishes(m: Models, s: State, queries: seq<string>)
    requires WellBehaved(m) && s.subQuestions == queries && 1 <= |queries| <= MAX_PARALLEL_SUBTASKS
    ensures Ends(m, Finish(m, s, RetrieveSubquestions), s.retrievals + multiset(queries), s.calls + |queries|, Shown(m, queries))
  {
    FanOutSteps(m, s);
    assert Dispatched(s) == queries && Questions(s) == queries;
    BranchesAreOrdered(m, s, queries);
    hide Merged, Subtasks, Synthesized, SubtaskId, Finish, Ordered, WellBehaved;
  }

  /** The sub-questions a rewrite leaves are the branches, whether grading has found them or they are asked for. */
  lemma RewriteBranches(m: Models, q: string, sub: seq<string>)
    requires sub == [] || (sub == Parts(m, q) && |sub| > 1)
    ensures SubQuestionsFor(q, if sub != [] then sub else m.decompose(q)) == Branches(m, q)
  {
    if sub != [] {
      StrippedTwice(m.decompose(q));
      PartsAgain(m.decompose(q));
    } else {
      BlankQuestion(q);
    }
    hide Cap, Trim;
  }

  lemma BlankQuestion(q: string)
    ensures Parts0([]) == []
    ensures Parts0([q]) == if Trim(q) == "" then [] else [Trim(q)]
  {
    assert [q][..0] == [] && [Trim(q)][..0] == [];
  }

  function Parts0(xs: seq<string>): seq<string> {
    FirstOccurrences(Stripped(xs))
  }

  lemma {:induction false} StrippedTwice(xs: seq<string>)
    ensures forall x :: x in Stripped(xs) ==> Trim(x) == x && x != ""
  {
    if xs != [] {
      StrippedTwice(xs[..|xs| - 1]);
      TrimIdempotent(xs[|xs| - 1]);
    }
  }

  lemma {:induction false} StrippedKeeps(xs: seq<string>)
    requires forall x :: x in xs ==> Trim(x) == x && x != ""
    ensures Stripped(xs) == xs
  {
    hide Trim;
    if xs != [] {
      var n := |xs| - 1;
      assert xs == xs[..n] + [xs[n]];
      assert forall x :: x in xs[..n] ==> x in xs;
      StrippedKeeps(xs[..n]);
    }
  }

  lemma {:induction false} FirstsKeepFirsts(xs: seq<string>)
    ensures FirstOccurrences(FirstOccurrences(xs)) == FirstOccurrences(xs)
    ensures forall x :: x in FirstOccurrences(xs) <==> x in xs
  {
    if xs != [] {
      var n := |xs| - 1;
      var before := FirstOccurrences(xs[..n]);
      FirstsKeepFirsts(xs[..n]);
      assert xs == xs[..n] + [xs[n]];
      if xs[n] !in before { assert (before + [xs[n]])[..|before|] == before; }
    }
  }

  lemma PartsAgain(xs: seq<string>)
    requires forall x :: x in Stripped(xs) ==> Trim(x) == x && x != ""
    ensures Parts0(Parts0(xs)) == Parts0(xs)
  {
    FirstsKeepFirsts(Stripped(xs));
    StrippedKeeps(Parts0(xs));
  }

  /** A single expanded retrieval asks for the text the rewrite left, if it left one. */
  lemma ExpandedQueryIs(m: Models, s: State)
    ensures s.expansion == Some(Hyde) && s.hypothetical != "" ==> ExpandedQueries(m, s) == [s.hypothetical]
    ensures s.expansion == Some(Hyde) && s.hypothetical == "" ==> ExpandedQueries(m, s) == [m.hypothesis(s.question)]
    ensures s.expansion in {None, Some(StepBack)} && s.expandedQuery != "" ==> ExpandedQueries(m, s) == [s.expandedQuery]
    ensures s.expansion in {None, Some(StepBack)} && s.expandedQuery == "" ==> ExpandedQueries(m, s) == [s.question]
  {
  }

  /** What a rewrite leaves to the nodes after it. */
  lemma RewriteDecides(m: Models, s: State)
    requires s.plannedStrategy != Some(Direct)
    ensures var t, strategy := AfterRewrite(m, s), ChosenStrategy(m, s);
            && t.expansion == Some(strategy) && t.question == s.question
            && t.retrievals == s.retrievals && t.calls == s.calls && t.evidence == s.evidence
            && Step(m, s, RewriteQuestion) == (t, if strategy == Complex then RetrieveSubquestions else RetrieveExpanded)
            && t.expandedQuery == (if strategy == StepBack then m.stepBack(s.question) else s.question)
            && t.hypothetical == (if strategy == Hyde then m.hypothesis(s.question) else "")
            && (strategy == Complex ==>
                  t.subQuestions == SubQuestionsFor(s.question, if s.subQuestions != [] then s.subQuestions else m.decompose(s.question)))
            && (strategy == StepBack ==> ExpandedQueries(m, t) == [if m.stepBack(s.question) == "" then s.question else m.stepBack(s.question)])
            && (strategy == Hyde ==> ExpandedQueries(m, t) == [m.hypothesis(s.question)])
  {
    hide SubQuestionsFor, ChosenStrategy;
  }

  lemma ComplexFinishes(m: Models, s: State)
    requires WellBehaved(m) && s.plannedStrategy != Some(Direct) && ChosenStrategy(m, s) == Complex
    requires s.subQuestions == [] || (s.subQuestions == Parts(m, s.question) && |s.subQuestions| > 1)
    ensures var queries := Branches(m, s.question);
            Ends(m, Finish(m, s, RewriteQuestion), s.retrievals + multiset(queries), s.calls + |queries|, Shown(m, queries))
  {
    var t, sub := AfterRewrite(m, s), if s.subQuestions != [] then s.subQuestions else m.decompose(s.question);
    FinishStep(m, s, RewriteQuestion);
    RewriteDecides(m, s);
    RewriteBranches(m, s.question, s.subQuestions);
    SubQuestionsAreBounded(s.question, sub);
    hide WellBehaved, Finish, Branches, SubQuestionsFor, Shown, AfterRewrite, Step, ChosenStrategy, Parts, ExpandedQueries;
    FanOutFinishes(m, t, Branches(m, s.question));
  }

  lemma ExpansionFinishes(m: Models, s: State)
    requires WellBehaved(m) && s.plannedStrategy != Some(Direct) && ChosenStrategy(m, s) in {StepBack, Hyde}
    requires ChosenStrategy(m, s) == Strategy(m, s.question)
    ensures var queries := Rewritten(m, s.question);
            && |queries| == 1
            && Ends(m, Finish(m, s, RewriteQuestion), s.retrievals + multiset(queries), s.calls + 1, s.evidence)
  {
    FinishStep(m, s, RewriteQuestion);
    RewriteDecides(m, s);
    hide WellBehaved, Finish, AfterRewrite, Step, ChosenStrategy, ExpandedQueries, Strategy, Branches;
    SingleFinishes(m, AfterRewrite(m, s));
  }

  /** A rewrite under a strategy ends with its queries. */
  lemma RewriteFinishes(m: Models, s: State)
    requires WellBehaved(m) && s.evidence == [] && s.plannedStrategy != Some(Direct)
    requires ChosenStrategy(m, s) == Strategy(m, s.question)
    requires s.subQuestions == [] || (s.subQuestions == Parts(m, s.question) && |s.subQuestions| > 1)
    ensures var queries := Rewritten(m, s.question);
            Ends(m, Finish(m, s, RewriteQuestion), s.retrievals + multiset(queries), s.calls + |queries|,
                 if Strategy(m, s.question) == Complex then Shown(m, queries) else [])
  {
    NeverDirect(m, s);
    hide WellBehaved, Finish, Shown, ChosenStrategy, Parts, Strategy, Branches, Ends;
    if ChosenStrategy(m, s) == Complex {
      ComplexFinishes(m, s);
    } else {
      ExpansionFinishes(m, s);
    }
  }

  lemma NeverDirect(m: Models, s: State)
    requires WellBehaved(m) && s.plannedStrategy != Some(Direct)
    ensures ChosenStrategy(m, s) != Direct
  {
  }

  /** Where the evidence is graded the run ends, or goes on to a rewrite. */
  lemma GradedFinishes(m: Models, s: State)
    requires WellBehaved(m) && s.evidence == [] && !Expands(m)
    ensures var q := s.question;
            if Confident(m) && !Compares(m, q) then Ends(m, Finish(m, s, GradeDocuments), s.retrievals, s.calls, [])
            else Ends(m, Finish(m, s, GradeDocuments), s.retrievals + multiset(Rewritten(m, q)), s.calls + |Rewritten(m, q)|,
                      if Strategy(m, q) == Complex then Shown(m, Rewritten(m, q)) else [])
  {
    var t := AfterGrade(m, s);
    FinishStep(m, s, GradeDocuments);
    GradeDecides(m, s);
    hide Parts, WellBehaved, Finish, Shown, Rewritten, AfterGrade, Confident;
    if !(Confident(m) && !Compares(m, s.question)) { RewriteFinishes(m, t); }
  }

  lemma GradeDecides(m: Models, s: State)
    ensures var t := AfterGrade(m, s);
            && t.accepted == (Confident(m) && !Compares(m, s.question))
            && t.question == s.question && t.retrievals == s.retrievals && t.calls == s.calls && t.evidence == s.evidence
            && t.subQuestions == (if Compares(m, s.question) then Parts(m, s.question) else [])
            && (!t.accepted ==> t.plannedStrategy == None)
            && Step(m, s, GradeDocuments) == (t, if t.accepted then End else RewriteQuestion)
  {
    hide FirstOccurrences, Stripped;
  }

  /**
  Every complete run retrieves what the answers of the models call for, once each, reports as many
  retrievals, and shows the evidence of the fan-out if there was one.
  */
  lemma RunRetrieves(m: Models, question: string, path: seq<Visit>)
    requires WellBehaved(m) && CompleteRun(m, question, path)
    ensures var s, q := Last(path).state, Asked(m, question);
            && s.retrievals == multiset(Retrieved(m, question)) && s.calls == |Retrieved(m, question)|
            && s.evidence == (if (Expands(m) || !(Confident(m) && !Compares(m, q))) && Strategy(m, q) == Complex
                              then Shown(m, Branches(m, q)) else [])
  {
    RunFinishes(m, question, path, 0);
    var s := Start(question);
    var t := AfterPlan(m, s);
    FinishStep(m, s, PlanQuery);
    PlanDecides(m, question);
    hide Finish, AfterPlan, WellBehaved, Shown, Branches, Parts, Confident, Compares, CompleteRun, Rewritten;
    if Expands(m) {
      RewriteFinishes(m, t);
      assert multiset{} + multiset(Rewritten(m, t.question)) == multiset(Rewritten(m, t.question));
    } else {
      FinishStep(m, t, RetrieveInitial);
      GradedFinishes(m, AfterInitial(m, t));
      assert multiset{} + multiset{t.question} == multiset([t.question]);
      assert multiset([t.question] + Rewritten(m, t.question)) == multiset([t.question]) + multiset(Rewritten(m, t.question));
    }
    RewrittenBranches(m, t.question);
  }

  lemma RewrittenBranches(m: Models, q: string)
    ensures Strategy(m, q) == Complex ==> Rewritten(m, q) == Branches(m, q)
  {
    hide Branches;
  }

  lemma PlanDecides(m: Models, question: string)
    ensures var t := AfterPlan(m, Start(question));
            && t == Start(question).(question := Asked(m, question), plannedStrategy := t.plannedStrategy)
            && (Expands(m) ==> t.plannedStrategy == Some(m.plan.value.strategy) && m.plan.value.strategy != Direct
                               && ChosenStrategy(m, t) == Strategy(m, t.question))
            && (!Expands(m) ==> t.plannedStrategy == Some(Direct))
            && Step(m, Start(question), PlanQuery) == (t, if Expands(m) then RewriteQuestion else RetrieveInitial)
  {
    hide Trim, Compares;
  }
}
