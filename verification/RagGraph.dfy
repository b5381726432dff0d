/**
The retrieval graph of backend/rag/rag_pipeline.py. Models and the retriever are arbitrary
functions; the branches of a fan-out may finish in any order.
*/
module RagGraph {
  import opened Wrappers
  import opened Text
  import opened AutoMerge
  import opened Synthesis

  const MAX_PARALLEL_SUBTASKS := 3

  datatype Strategy = Direct | StepBack | Hyde | Complex

  datatype Plan = Plan(strategy: Strategy, query: string)

  datatype Relevance = Yes | No | Unsure

  datatype Grade = Grade(relevant: Relevance, confidence: real)

  /**
  What the surroundings answer. `plan` is absent without a usable plan; `grade` and `expansion` are
  absent when no model answers usably; the rewriting router never answers `Direct`.
  */
  datatype Models = Models(
    plan: Option<Plan>,
    grade: Option<Grade>,
    compares: string -> bool,
    decompose: string -> seq<string>,
    expansion: Option<Strategy>,
    stepBack: string -> string,
    hypothesis: string -> string,
    retrieve: string -> SubResult,
    arrange: seq<Arrival> -> seq<Arrival>)

  ghost predicate WellBehaved(m: Models) {
    && m.expansion != Some(Direct)
    && forall arrivals :: multiset(m.arrange(arrivals)) == multiset(arrivals)
  }

  /** The graph state; `retrievals` records the retrievals made, `calls` is the count the trace reports. */
  datatype State = State(
    question: string,
    plannedStrategy: Option<Strategy>,
    accepted: bool,
    subQuestions: seq<string>,
    expansion: Option<Strategy>,
    expandedQuery: string,
    hypothetical: string,
    subResults: map<string, SubResult>,
    evidence: seq<Evidence>,
    calls: nat,
    retrievals: multiset<string>)

  datatype Node = PlanQuery | RetrieveInitial | GradeDocuments | RewriteQuestion | RetrieveExpanded | RetrieveSubquestions
                | SynthesizeSubquestions | End

  function Rank(node: Node): nat {
    match node
    case PlanQuery => 6
    case RetrieveInitial => 5
    case GradeDocuments => 4
    case RewriteQuestion => 3
    case RetrieveSubquestions => 2
    case RetrieveExpanded => 1
    case SynthesizeSubquestions => 1
    case End => 0
  }

  function Start(question: string): State {
    State(question, None, false, [], None, "", "", map[], [], 0, multiset{})
  }

  // ---- sub-questions ----

  /** `list(dict.fromkeys(...))` */
  function FirstOccurrences(xs: seq<string>): seq<string> {
    if xs == [] then []
    else
      var before := FirstOccurrences(xs[..|xs| - 1]);
      if xs[|xs| - 1] in before then before else before + [xs[|xs| - 1]]
  }

  function Stripped(xs: seq<string>): seq<string> {
    if xs == [] then []
    else
      var x := Trim(xs[|xs| - 1]);
      Stripped(xs[..|xs| - 1]) + (if x == "" then [] else [x])
  }

  /** Beyond the limit the last parallel task takes all remaining questions, joined. */
  function Cap(xs: seq<string>): seq<string> {
    if |xs| > MAX_PARALLEL_SUBTASKS
    then xs[..MAX_PARALLEL_SUBTASKS - 1] + [Join("\U{FF1B}", xs[MAX_PARALLEL_SUBTASKS - 1..])]
    else xs
  }

  function SubQuestionsFor(question: string, decomposed: seq<string>): seq<string> {
    var xs := FirstOccurrences(Stripped(if decomposed == [] then [question] else decomposed));
    Cap(if xs == [] then [question] else xs)
  }

  // ---- the nodes ----

  function AfterPlan(m: Models, s: State): State {
    var strategy := if m.plan.Some? then m.plan.value.strategy else Direct;
    var planned := if m.plan.Some? then Trim(m.plan.value.query) else "";
    s.(question := if planned == "" then s.question else planned, plannedStrategy := Some(strategy))
  }

  function AfterInitial(m: Models, s: State): State {
    s.(calls := s.calls + 1, retrievals := s.retrievals + multiset{s.question})
  }

  predicate Passes(grade: Option<Grade>) {
    && grade.Some?
    && (|| (grade.value.relevant == Yes && grade.value.confidence >= 0.6)
        || (grade.value.relevant == Unsure && grade.value.confidence >= 0.85))
  }

  function AfterGrade(m: Models, s: State): State {
    var decomposed :=
      if Passes(m.grade) && m.compares(s.question) then FirstOccurrences(Stripped(m.decompose(s.question))) else [];
    var planned := if |decomposed| < 2 then [] else decomposed;
    var rewrite := planned != [] || !Passes(m.grade);
    s.(accepted := !rewrite, subQuestions := planned,
       plannedStrategy := if rewrite then None else s.plannedStrategy)
  }

  function ChosenStrategy(m: Models, s: State): Strategy {
    if s.plannedStrategy.Some? then s.plannedStrategy.value
    else if s.subQuestions != [] then (if |s.subQuestions| > 1 then Complex else StepBack)
    else if m.expansion.Some? then m.expansion.value
    else StepBack
  }

  function AfterRewrite(m: Models, s: State): State {
    var strategy := ChosenStrategy(m, s);
    s.(expansion := Some(strategy),
       subQuestions :=
         if strategy == Complex
         then SubQuestionsFor(s.question, if s.subQuestions != [] then s.subQuestions else m.decompose(s.question))
         else [],
       expandedQuery := if strategy == StepBack then m.stepBack(s.question) else s.question,
       hypothetical := if strategy == Hyde then m.hypothesis(s.question) else "")
  }

  function Questions(s: State): seq<string> {
    if s.subQuestions == [] then [s.question] else s.subQuestions
  }

  /** The sub-tasks the fan-out sends. */
  function Dispatched(s: State): seq<string> {
    if |Questions(s)| > MAX_PARALLEL_SUBTASKS then Questions(s)[..MAX_PARALLEL_SUBTASKS] else Questions(s)
  }

  /** The one query of an expanded retrieval, if the strategy has one. */
  function ExpandedQueries(m: Models, s: State): seq<string> {
    if s.expansion == Some(Hyde) then [if s.hypothetical == "" then m.hypothesis(s.question) else s.hypothetical]
    else if s.expansion == Some(StepBack) || s.expansion == None
      then [if s.expandedQuery == "" then s.question else s.expandedQuery]
    else []
  }

  function AfterExpanded(m: Models, s: State): State {
    s.(calls := s.calls + 1, retrievals := s.retrievals + multiset(ExpandedQueries(m, s)))
  }

  function Subtasks(m: Models, queries: seq<string>): seq<Arrival> {
    seq(|queries|, i requires 0 <= i < |queries| => Arrival(SubtaskId(i), m.retrieve(queries[i])))
  }

  function AfterSubquestions(m: Models, s: State): State {
    s.(subResults := MergeSubResults(s.subResults, Merged(m.arrange(Subtasks(m, Dispatched(s))))),
       retrievals := s.retrievals + multiset(Dispatched(s)))
  }

  function AfterSynthesis(s: State): State {
    s.(evidence := Synthesized(Ordered(s.subResults, |Questions(s)|)), calls := s.calls + |Questions(s)|)
  }

  /** A node and the edge taken after it. */
  function Step(m: Models, s: State, node: Node): (next: (State, Node))
    requires node != End
    ensures Rank(next.1) < Rank(node)
  {
    match node
    case PlanQuery =>
      var t := AfterPlan(m, s);
      (t, if t.plannedStrategy == Some(Direct) then RetrieveInitial else RewriteQuestion)
    case RetrieveInitial => (AfterInitial(m, s), GradeDocuments)
    case GradeDocuments =>
      var t := AfterGrade(m, s);
      (t, if t.accepted then End else RewriteQuestion)
    case RewriteQuestion =>
      var t := AfterRewrite(m, s);
      (t, if t.expansion == Some(Complex) then RetrieveSubquestions else RetrieveExpanded)
    case RetrieveExpanded => (AfterExpanded(m, s), End)
    case RetrieveSubquestions => (AfterSubquestions(m, s), SynthesizeSubquestions)
    case SynthesizeSubquestions => (AfterSynthesis(s), End)
  }

  datatype Visit = Visit(node: Node, state: State)

  /** The beginning of a run: nodes linked by their edges, each with the state it is entered in. */
  ghost predicate Walk(m: Models, question: string, path: seq<Visit>) {
    && path != [] && path[0] == Visit(PlanQuery, Start(question))
    && forall i :: 0 <= i < |path| - 1 ==> Linked(m, path[i], path[i + 1])
  }

  predicate Linked(m: Models, v: Visit, w: Visit) {
    v.node != End && Step(m, v.state, v.node) == (w.state, w.node)
  }

  function Last(path: seq<Visit>): Visit
    requires path != []
  {
    path[|path| - 1]
  }

  ghost predicate CompleteRun(m: Models, question: string, path: seq<Visit>) {
    Walk(m, question, path) && Last(path).node == End
  }

  // ---- capping keeps every question ----

  lemma {:induction false} JoinSplit(separator: string, xs: seq<string>, k: nat)
    requires 0 < k < |xs|
    ensures Join(separator, xs[..k] + [Join(separator, xs[k..])]) == Join(separator, xs)
  {
    var capped := xs[..k] + [Join(separator, xs[k..])];
    assert capped[0] == xs[0];
    if k == 1 {
      assert capped[1..] == [Join(separator, xs[1..])];
    } else {
      JoinSplit(separator, xs[1..], k - 1);
      assert capped[1..] == xs[1..][..k - 1] + [Join(separator, xs[1..][k - 1..])] by {
        assert xs[1..][k - 1..] == xs[k..];
      }
    }
  }

  /** Capping bounds the fan-out and loses no text. */
  lemma CapLosesNothing(xs: seq<string>)
    ensures |Cap(xs)| <= MAX_PARALLEL_SUBTASKS && (xs != [] ==> Cap(xs) != [])
    ensures Join("\U{FF1B}", Cap(xs)) == Join("\U{FF1B}", xs)
  {
    if |xs| > MAX_PARALLEL_SUBTASKS { JoinSplit("\U{FF1B}", xs, MAX_PARALLEL_SUBTASKS - 1); }
  }

  // ---- what holds on the way ----

  /** The state a node is entered in. */
  ghost predicate At(m: Models, s: State, node: Node) {
    && (s.accepted ==> node == End && s.calls == 1)
    && match node
       case PlanQuery => s.calls == 0 && s.retrievals == multiset{}
       case RetrieveInitial => s.calls == 0 && s.retrievals == multiset{} && s.plannedStrategy == Some(Direct)
       case GradeDocuments => s.calls == |s.retrievals| == 1
       case RewriteQuestion => s.calls == |s.retrievals| <= 1 && s.plannedStrategy != Some(Direct)
       case RetrieveExpanded => s.calls == |s.retrievals| <= 1 && s.expansion in {Some(StepBack), Some(Hyde)}
       case RetrieveSubquestions =>
         && s.calls == |s.retrievals| <= 1 && s.expansion == Some(Complex)
         && 1 <= |s.subQuestions| <= MAX_PARALLEL_SUBTASKS && Dispatched(s) == s.subQuestions
       case SynthesizeSubquestions =>
         && 1 <= |s.subQuestions| <= MAX_PARALLEL_SUBTASKS
         && |s.retrievals| == s.calls + |s.subQuestions| && s.calls <= 1
       case End => s.calls == |s.retrievals| && 1 <= s.calls <= 1 + MAX_PARALLEL_SUBTASKS
  }

  lemma SubQuestionsAreBounded(question: string, decomposed: seq<string>)
    ensures 1 <= |SubQuestionsFor(question, decomposed)| <= MAX_PARALLEL_SUBTASKS
  {
    var xs := FirstOccurrences(Stripped(if decomposed == [] then [question] else decomposed));
    CapLosesNothing(if xs == [] then [question] else xs);
  }

  lemma RewriteKeepsAt(m: Models, s: State)
    requires m.expansion != Some(Direct) && At(m, s, RewriteQuestion)
    ensures At(m, Step(m, s, RewriteQuestion).0, Step(m, s, RewriteQuestion).1)
  {
    hide SubQuestionsFor;
    SubQuestionsAreBounded(s.question, if s.subQuestions != [] then s.subQuestions else m.decompose(s.question));
  }

  lemma FanOutKeepsAt(m: Models, s: State)
    requires At(m, s, RetrieveSubquestions)
    ensures At(m, Step(m, s, RetrieveSubquestions).0, Step(m, s, RetrieveSubquestions).1)
  {
    hide Merged, Subtasks;
    assert |multiset(s.subQuestions)| == |s.subQuestions|;
  }

  lemma RetrievalKeepsAt(m: Models, s: State, node: Node)
    requires node in {RetrieveInitial, RetrieveExpanded, SynthesizeSubquestions} && At(m, s, node)
    ensures At(m, Step(m, s, node).0, Step(m, s, node).1)
  {
    hide Synthesized, Ordered;
  }

  lemma StepKeepsAt(m: Models, s: State, node: Node)
    requires WellBehaved(m) && node != End && At(m, s, node)
    ensures At(m, Step(m, s, node).0, Step(m, s, node).1)
  {
    assert m.expansion != Some(Direct);
    hide WellBehaved, FirstOccurrences, Stripped;
    match node
    case RewriteQuestion => RewriteKeepsAt(m, s);
    case RetrieveSubquestions => FanOutKeepsAt(m, s);
    case PlanQuery =>
    case GradeDocuments =>
    case _ => RetrievalKeepsAt(m, s, node);
  }

  lemma {:induction false} WalkKeepsAt(m: Models, question: string, path: seq<Visit>, i: nat)
    requires WellBehaved(m) && Walk(m, question, path) && i < |path|
    ensures At(m, path[i].state, path[i].node) && Rank(path[i].node) <= 6 - i
  {
    hide At, Step, WellBehaved;
    if i == 0 {
      StartIsAt(m, question);
    } else {
      WalkKeepsAt(m, question, path, i - 1);
      assert Linked(m, path[i - 1], path[i]);
      StepKeepsAt(m, path[i - 1].state, path[i - 1].node);
    }
  }

  lemma StartIsAt(m: Models, question: string)
    ensures At(m, Start(question), PlanQuery)
  {
  }

  /**
  Every run ends, having made as many retrievals as its trace reports: at least one, at most one
  more than the fan-out limit.
  */
  lemma EveryRunIsCounted(m: Models, question: string, path: seq<Visit>)
    requires WellBehaved(m) && Walk(m, question, path)
    ensures |path| <= 7
    ensures CompleteRun(m, question, path) ==>
              var end := Last(path).state;
              end.calls == |end.retrievals| && 1 <= end.calls <= 1 + MAX_PARALLEL_SUBTASKS
  {
    hide Step, WellBehaved;
    WalkKeepsAt(m, question, path, |path| - 1);
  }

  lemma WalkExtends(m: Models, question: string, path: seq<Visit>, v: Visit)
    requires Walk(m, question, path) && Linked(m, Last(path), v)
    ensures Walk(m, question, path + [v])
  {
    hide Linked;
    var longer := path + [v];
    forall i | 0 <= i < |longer| - 1 ensures Linked(m, longer[i], longer[i + 1]) {
      if i < |path| - 1 { assert Linked(m, path[i], path[i + 1]); }
    }
  }

  lemma NoEndInside(m: Models, question: string, path: seq<Visit>)
    requires Walk(m, question, path)
    ensures forall i :: 0 <= i < |path| - 1 ==> path[i].node != End
  {
    hide Step;
    forall i | 0 <= i < |path| - 1 ensures path[i].node != End { assert Linked(m, path[i], path[i + 1]); }
  }

  /** Any walk that has not reached the end goes on, so every question has a complete run. */
  lemma {:induction false} WalksGoOn(m: Models, question: string, path: seq<Visit>) returns (run: seq<Visit>)
    requires WellBehaved(m) && Walk(m, question, path)
    ensures CompleteRun(m, question, run) && path <= run
    decreases 7 - |path|
  {
    hide At, WellBehaved;
    EveryRunIsCounted(m, question, path);
    if Last(path).node == End {
      run := path;
    } else {
      var (t, next) := Step(m, Last(path).state, Last(path).node);
      var longer := path + [Visit(next, t)];
      WalkExtends(m, question, path, Visit(next, t));
      EveryRunIsCounted(m, question, longer);
      run := WalksGoOn(m, question, longer);
    }
  }

  /**
  The single-query expansion is only entered with a single-query strategy, so it always retrieves;
  a question planned as direct is only rewritten under a strategy chosen anew.
  */
  lemma ExpansionHasAStrategy(m: Models, question: string, path: seq<Visit>)
    requires WellBehaved(m) && Walk(m, question, path)
    ensures var v := Last(path);
            && (v.node == RetrieveExpanded ==>
                  v.state.expansion in {Some(StepBack), Some(Hyde)} && |ExpandedQueries(m, v.state)| == 1)
            && (v.node == RewriteQuestion ==> v.state.plannedStrategy != Some(Direct))
  {
    hide Step, WellBehaved;
    WalkKeepsAt(m, question, path, |path| - 1);
  }

  /** The fan-out runs every sub-question left after capping, and synthesis reads every branch. */
  lemma NoSubQuestionIsDropped(m: Models, question: string, path: seq<Visit>)
    requires WellBehaved(m) && Walk(m, question, path) && Last(path).node == RetrieveSubquestions
    ensures var s := Last(path).state;
            && 1 <= |s.subQuestions| <= MAX_PARALLEL_SUBTASKS
            && AfterSubquestions(m, s).retrievals == s.retrievals + multiset(s.subQuestions)
            && forall k :: 0 <= k < |s.subQuestions| ==>
                 && SubtaskId(k) in AfterSubquestions(m, s).subResults
                 && AfterSubquestions(m, s).subResults[SubtaskId(k)] == m.retrieve(s.subQuestions[k])
  {
    hide Step;
    WalkKeepsAt(m, question, path, |path| - 1);
    var s := Last(path).state;
    var tasks := Subtasks(m, Dispatched(s));
    TasksAreDistinct(m, Dispatched(s));
    ArrangedIsDistinct(m, tasks);
    forall k | 0 <= k < |s.subQuestions|
      ensures SubtaskId(k) in AfterSubquestions(m, s).subResults
           && AfterSubquestions(m, s).subResults[SubtaskId(k)] == m.retrieve(s.subQuestions[k])
    {
      assert tasks[k] == Arrival(SubtaskId(k), m.retrieve(s.subQuestions[k]));
      assert tasks[k] in multiset(tasks) && tasks[k] in multiset(m.arrange(tasks));
      MergedHolds(m.arrange(tasks), SubtaskId(k), m.retrieve(s.subQuestions[k]));
    }
  }

  lemma TasksAreDistinct(m: Models, queries: seq<string>)
    ensures DistinctTasks(Subtasks(m, queries))
  {
    forall i, j | 0 <= i < j < |queries| ensures Subtasks(m, queries)[i].id != Subtasks(m, queries)[j].id {
      SubtaskIdsDiffer(i, j);
    }
  }

  lemma ArrangedIsDistinct(m: Models, tasks: seq<Arrival>)
    requires WellBehaved(m) && DistinctTasks(tasks)
    ensures DistinctTasks(m.arrange(tasks))
  {
    PermutedIsDistinct(tasks, m.arrange(tasks));
  }

  lemma PermutedIsDistinct(a: seq<Arrival>, b: seq<Arrival>)
    requires DistinctTasks(a) && multiset(a) == multiset(b)
    ensures DistinctTasks(b)
  {
    forall i, j | 0 <= i < j < |b| ensures b[i].id != b[j].id {
      if b[i].id == b[j].id {
        assert b[i] in multiset(a) && b[j] in multiset(a);
        assert b[i] == b[j];
        assert b == b[..j] + [b[j]] + b[j + 1..] && b[i] in b[..j];
        assert multiset(b)[b[i]] >= 2;
        OnceEach(a, b[i]);
        assert false;
      }
    }
  }

  lemma {:induction false} OnceEach(a: seq<Arrival>, x: Arrival)
    requires DistinctTasks(a)
    ensures multiset(a)[x] <= 1
  {
    if a != [] {
      var n := |a| - 1;
      OnceEach(a[..n], x);
      assert a == a[..n] + [a[n]];
      if a[n] == x { assert x !in a[..n]; }
    }
  }

  // ---- the order in which branches finish ----

  lemma ArrangementIsIrrelevant(m: Models, n: Models, s: State)
    requires WellBehaved(m) && WellBehaved(n) && n == m.(arrange := n.arrange)
    ensures AfterSubquestions(m, s) == AfterSubquestions(n, s)
  {
    var tasks := Subtasks(m, Dispatched(s));
    assert Subtasks(n, Dispatched(s)) == tasks;
    TasksAreDistinct(m, Dispatched(s));
    ArrangedIsDistinct(m, tasks);
    ArrangedIsDistinct(n, tasks);
    ArrivalOrderIsIrrelevant(m.arrange(tasks), n.arrange(tasks));
  }

  lemma StepIsConfluent(m: Models, n: Models, s: State, node: Node)
    requires WellBehaved(m) && WellBehaved(n) && n == m.(arrange := n.arrange) && node != End
    ensures Step(m, s, node) == Step(n, s, node)
  {
    hide WellBehaved, SubQuestionsFor, FirstOccurrences, Stripped, Trim, AfterSubquestions, AfterSynthesis;
    if node == RetrieveSubquestions { ArrangementIsIrrelevant(m, n, s); }
  }

  lemma {:induction false} WalksAgree(m: Models, n: Models, question: string, p: seq<Visit>, q: seq<Visit>, i: nat)
    requires WellBehaved(m) && WellBehaved(n) && n == m.(arrange := n.arrange)
    requires Walk(m, question, p) && Walk(n, question, q) && i < |p| && i < |q|
    ensures p[i] == q[i]
  {
    hide Step, WellBehaved;
    if i > 0 {
      WalksAgree(m, n, question, p, q, i - 1);
      assert Linked(m, p[i - 1], p[i]) && Linked(n, q[i - 1], q[i]);
      StepIsConfluent(m, n, p[i - 1].state, p[i - 1].node);
    }
  }

  /** Two complete runs that differ only in the order the branches finish in visit the same states. */
  lemma RunsAreConfluent(m: Models, n: Models, question: string, p: seq<Visit>, q: seq<Visit>)
    requires WellBehaved(m) && WellBehaved(n) && n == m.(arrange := n.arrange)
    requires CompleteRun(m, question, p) && CompleteRun(n, question, q)
    ensures p == q
  {
    hide Step, WellBehaved, Linked;
    NoEndInside(m, question, p);
    NoEndInside(n, question, q);
    forall i | 0 <= i < |p| && i < |q| ensures p[i] == q[i] {
      WalksAgree(m, n, question, p, q, i);
    }
  }
}
