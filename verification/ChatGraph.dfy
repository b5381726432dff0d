/**
The chat graph of one run (backend/rag/chat_graph.py): route, retrieve, clarification rounds
through interrupts, answer. What the models decide is an input of each step.
*/
module ChatGraph {
  import opened Text

  const MAX_HITL_ROUNDS: nat := 3

  datatype Mode = ModeRetrieve | ModeGenerate | ModeWeather

  /** The node that runs next; `Interrupted` waits inside `check_hitl` for an answer. */
  datatype Node = Prepare | Route | Retrieve | CheckHitl | Interrupted | Weather | Generate | End

  datatype Graph = Graph(
    userText: string,
    originalQuestion: string,
    question: string,
    answers: seq<string>,
    next: Node,
    retrievals: nat,  // history: how often the retrieve node has run
    rounds: nat)      // history: how often the run was interrupted

  /** What the outside decides: the routed branch, the detector's verdict, the user's answer. */
  datatype Input = Input(mode: Mode, needsHitl: bool, answer: string)

  function Start(userText: string): Graph {
    Graph(userText, "", "", [], Prepare, 0, 0)
  }

  /** `compose_question`: the original and the answers, one per line, blank parts left out. */
  function ComposeQuestion(original: string, answers: seq<string>): string {
    Join("\n", NonBlank([original] + answers))
  }

  function NonBlank(parts: seq<string>): seq<string> {
    if parts == [] then []
    else (if Trim(parts[0]) != "" then [parts[0]] else []) + NonBlank(parts[1..])
  }

  // ---- what a composed question says ----

  lemma {:induction false} NonBlankAppend(parts: seq<string>, last: string)
    ensures NonBlank(parts + [last]) == NonBlank(parts) + (if Trim(last) != "" then [last] else [])
  {
    hide Trim;
    if parts == [] {
      assert [last][1..] == [];
    } else {
      assert (parts + [last])[1..] == parts[1..] + [last];
      NonBlankAppend(parts[1..], last);
    }
  }

  lemma {:induction false} JoinAppend(separator: string, parts: seq<string>, last: string)
    requires parts != []
    ensures Join(separator, parts + [last]) == Join(separator, parts) + separator + last
  {
    if |parts| > 1 {
      assert (parts + [last])[1..] == parts[1..] + [last];
      JoinAppend(separator, parts[1..], last);
    }
  }

  lemma JoinFew(separator: string, x: string)
    ensures Join(separator, []) == "" && Join(separator, [x]) == x
  {
  }

  lemma {:induction false} JoinIsNotEmpty(separator: string, parts: seq<string>)
    requires parts != [] && forall p :: p in parts ==> p != ""
    ensures Join(separator, parts) != ""
  {
    assert parts[0] in parts;
  }

  lemma {:induction false} NonBlankParts(parts: seq<string>)
    ensures forall p :: p in NonBlank(parts) ==> p != ""
  {
    if parts != [] {
      NonBlankParts(parts[1..]);
      assert Trim("") == "";
    }
  }

  /** Without answers a question that is not blank stays as it is. */
  lemma ComposeAlone(original: string)
    ensures ComposeQuestion(original, []) == if Trim(original) == "" then "" else original
  {
    hide Trim;
    NonBlankAppend([], original);
    assert [original] + [] == [] + [original];
  }

  /** A blank answer changes nothing, any other one is a further line. */
  lemma ComposeNext(original: string, answers: seq<string>, x: string)
    ensures var q := ComposeQuestion(original, answers);
            (ComposeQuestion(original, answers + [x])
             == if Trim(x) == "" then q else if q == "" then x else q + "\n" + x)
  {
    var parts := [original] + answers;
    assert [original] + (answers + [x]) == parts + [x];
    NonBlankAppend(parts, x);
    NonBlankParts(parts);
    hide Trim, NonBlank, Join;
    JoinFew("\n", x);
    assert NonBlank(parts) + [] == NonBlank(parts);
    if NonBlank(parts) == [] {
      assert [] + [x] == [x];
    } else {
      JoinAppend("\n", NonBlank(parts), x);
      JoinIsNotEmpty("\n", NonBlank(parts));
    }
  }

  /** `text` consists of `parts`, the `k`-th starting at `at[k]`, with one line break between neighbours. */
  predicate AreLines(text: string, parts: seq<string>, at: seq<nat>) {
    && |at| == |parts| > 0 && at[0] == 0 && at[|at| - 1] + |parts[|at| - 1]| == |text|
    && (forall k :: 0 <= k < |at| ==> Stands(text, parts[k], at[k]))
    && (forall k :: 0 < k < |at| ==> at[k] == at[k - 1] + |parts[k - 1]| + 1 && Breaks(text, at[k]))
  }

  /** A line of the text starts at position `i`. */
  predicate Breaks(text: string, i: nat) {
    0 < i <= |text| && text[i - 1] == '\n'
  }

  /** `part` stands in the text from position `i` on. */
  predicate Stands(text: string, part: string, i: nat) {
    i + |part| <= |text| && text[i..i + |part|] == part
  }

  predicate NoBlanks(parts: seq<string>) {
    forall k :: 0 <= k < |parts| ==> Trim(parts[k]) != ""
  }

  lemma StandsLater(text: string, part: string, i: nat, more: string)
    requires Stands(text, part, i)
    ensures Stands(text + more, part, i)
  {
    assert (text + more)[i..i + |part|] == text[i..i + |part|];
  }

  lemma BreaksLater(text: string, i: nat, more: string)
    requires Breaks(text, i)
    ensures Breaks(text + more, i)
  {
  }

  lemma LastLine(text: string, x: string)
    ensures text + ("\n" + x) == text + "\n" + x
    ensures Stands(text + ("\n" + x), x, |text| + 1) && Breaks(text + ("\n" + x), |text| + 1)
  {
    assert (text + ("\n" + x))[|text| + 1..] == x;
  }

  lemma LinesAppend(text: string, parts: seq<string>, at: seq<nat>, x: string)
    requires AreLines(text, parts, at)
    ensures AreLines(text + "\n" + x, parts + [x], at + [|text| + 1])
  {
    hide Stands, Breaks;
    LastLine(text, x);
    var more, all := "\n" + x, text + ("\n" + x);
    forall k | 0 <= k < |at| ensures Stands(all, parts[k], at[k]) { StandsLater(text, parts[k], at[k], more); }
    forall k | 0 < k < |at| ensures Breaks(all, at[k]) { BreaksLater(text, at[k], more); }
    assert |all| == |text| + 1 + |x|;
  }

  /** With no blank part, the question is the original and the answers, line by line and in order. */
  lemma {:induction false} QuestionIsItsLines(original: string, answers: seq<string>) returns (at: seq<nat>)
    requires NoBlanks([original] + answers)
    ensures AreLines(ComposeQuestion(original, answers), [original] + answers, at)
    decreases |answers|
  {
    hide ComposeQuestion, Trim, AreLines;
    assert ([original] + answers)[0] == original;
    if answers == [] {
      ComposeAlone(original);
      LinesAlone(original);
      at := [0];
    } else {
      var n := |answers| - 1;
      var before, last := answers[..n], answers[n];
      assert answers == before + [last] && ([original] + answers)[n + 1] == last;
      assert [original] + answers == ([original] + before) + [last];
      NoBlanksBefore([original] + before, last);
      at := QuestionIsItsLines(original, before);
      ComposeNext(original, before, last);
      var q := ComposeQuestion(original, before);
      ComposedNotEmpty(q, [original] + before, at);
      LinesAppend(q, [original] + before, at, last);
      at := at + [|q| + 1];
    }
  }

  lemma LinesAlone(text: string)
    ensures AreLines(text, [text], [0]) && [text] + [] == [text]
  {
    assert text[0..|text|] == text;
  }

  lemma NoBlanksBefore(parts: seq<string>, x: string)
    requires NoBlanks(parts + [x])
    ensures NoBlanks(parts)
  {
    hide Trim;
    forall k | 0 <= k < |parts| ensures Trim(parts[k]) != "" { assert (parts + [x])[k] == parts[k]; }
  }

  lemma ComposedNotEmpty(q: string, parts: seq<string>, at: seq<nat>)
    requires AreLines(q, parts, at) && NoBlanks(parts)
    ensures q != ""
  {
    assert Trim(parts[0]) != "";
    assert Trim("") == "";
  }

  /** The question a graph works on, by the texts it is made of. */
  ghost predicate AsksFor(question: string, original: string, answers: seq<string>) {
    && (answers == [] ==> question == original)
    && (NoBlanks([original] + answers) ==> exists at :: AreLines(question, [original] + answers, at))
  }

  lemma QuestionAsksFor(original: string, answers: seq<string>)
    ensures AsksFor(if answers == [] then original else ComposeQuestion(original, answers), original, answers)
  {
    if answers == [] {
      assert AreLines(original, [original] + answers, [0]);
    } else if NoBlanks([original] + answers) {
      var at := QuestionIsItsLines(original, answers);
    }
  }

  /** The body of `check_hitl` up to the interrupt. */
  predicate AsksUser(g: Graph, input: Input) {
    |g.answers| < MAX_HITL_ROUNDS && input.needsHitl
  }

  /**
  One node. A resumed `check_hitl` runs again from its top: the detector is asked again, and only
  if it still wants an answer is the answer of the user recorded.
  */
  function Step(g: Graph, input: Input): Graph
    requires g.next != End
  {
    match g.next
    case Prepare =>
      g.(originalQuestion := g.userText, question := g.userText, answers := [], next := Route)
    case Route =>
      g.(next := match input.mode
                 case ModeRetrieve => Retrieve
                 case ModeWeather => Weather
                 case ModeGenerate => Generate)
    case Retrieve => g.(next := CheckHitl, retrievals := g.retrievals + 1)
    case CheckHitl =>
      if AsksUser(g, input) then g.(next := Interrupted, rounds := g.rounds + 1) else g.(next := Generate)
    case Interrupted =>
      if AsksUser(g, input) then
        var answers := g.answers + [input.answer];
        g.(answers := answers, question := ComposeQuestion(g.originalQuestion, answers), next := Retrieve)
      else g.(next := Generate)
    case Weather => g.(next := Generate)
    case Generate => g.(next := End)
  }

  predicate GraphOk(g: Graph) {
    && |g.answers| <= MAX_HITL_ROUNDS
    && (g.next == Prepare ==> g == Start(g.userText))
    && (g.next != Prepare ==> g.originalQuestion == g.userText)
    && (g.next != Prepare ==>
          g.question == if g.answers == [] then g.userText else ComposeQuestion(g.userText, g.answers))
    && (g.next in {Route, Weather} ==> g.retrievals == 0 && g.rounds == 0 && g.answers == [])
    && (g.next == Retrieve ==> g.retrievals == |g.answers| && g.rounds == |g.answers|)
    && (g.next == CheckHitl ==> g.retrievals == |g.answers| + 1 && g.rounds == |g.answers|)
    && (g.next == Interrupted ==>
          && |g.answers| < MAX_HITL_ROUNDS
          && g.retrievals == |g.answers| + 1 && g.rounds == |g.answers| + 1)
    && g.retrievals <= |g.answers| + 1
    && |g.answers| <= g.rounds <= |g.answers| + 1
    && g.rounds <= MAX_HITL_ROUNDS
  }

  function Rank(n: Node): nat {
    match n
    case Prepare => 6
    case Route => 5
    case Retrieve => 4
    case CheckHitl => 3
    case Interrupted => 2
    case Weather => 2
    case Generate => 1
    case End => 0
  }

  /** Rounds left, then the way to the end of this round. */
  function Measure(g: Graph): nat {
    (if |g.answers| <= MAX_HITL_ROUNDS then MAX_HITL_ROUNDS - |g.answers| else 0) * 3 + Rank(g.next)
  }

  lemma StepKeepsGraph(g: Graph, input: Input)
    requires GraphOk(g) && g.next != End
    ensures GraphOk(Step(g, input))
    ensures Measure(Step(g, input)) < Measure(g)
    ensures Step(g, input).userText == g.userText
  {
  }

  ghost predicate Walks(g: Graph, inputs: seq<Input>)
    decreases |inputs|
  {
    inputs == [] || (g.next != End && Walks(Step(g, inputs[0]), inputs[1..]))
  }

  ghost function Walk(g: Graph, inputs: seq<Input>): Graph
    requires Walks(g, inputs)
    decreases |inputs|
  {
    if inputs == [] then g else Walk(Step(g, inputs[0]), inputs[1..])
  }

  lemma {:induction false} WalkKeepsGraph(g: Graph, inputs: seq<Input>)
    requires GraphOk(g) && Walks(g, inputs)
    ensures GraphOk(Walk(g, inputs)) && Walk(g, inputs).userText == g.userText
    ensures |inputs| + Measure(Walk(g, inputs)) <= Measure(g)
    decreases |inputs|
  {
    if inputs != [] {
      StepKeepsGraph(g, inputs[0]);
      WalkKeepsGraph(Step(g, inputs[0]), inputs[1..]);
    }
  }

  /**
  Whatever the models and the user do, a chat run ends within a fixed number of nodes, asks at most
  MAX_HITL_ROUNDS times, retrieves at most once more than it has recorded answers, and works on the
  composition of the original question with all recorded answers, line by line.
  */
  lemma EveryChatRunIsBounded(userText: string, inputs: seq<Input>)
    requires Walks(Start(userText), inputs)
    ensures var g := Walk(Start(userText), inputs);
            && |inputs| <= 3 * MAX_HITL_ROUNDS + 6
            && g.rounds <= MAX_HITL_ROUNDS
            && g.retrievals <= |g.answers| + 1 <= MAX_HITL_ROUNDS + 1
            && |g.answers| <= g.rounds <= |g.answers| + 1
            && (g.next != Prepare ==>
                  g.question == if g.answers == [] then userText else ComposeQuestion(userText, g.answers))
            && (g.next != Prepare ==> AsksFor(g.question, userText, g.answers))
  {
    WalkKeepsGraph(Start(userText), inputs);
    hide Step, ComposeQuestion, AsksFor;
    QuestionAsksFor(userText, Walk(Start(userText), inputs).answers);
  }

  // ---- which answers are recorded ----

  /**
  A resumed run records the answer if and only if the detector, asked again, still wants one;
  otherwise the graph goes on to answer with the question as it was.
  */
  lemma AnswerIsRecorded(g: Graph, input: Input)
    requires GraphOk(g) && g.next == Interrupted
    ensures var g' := Step(g, input);
            if input.needsHitl
            then g'.answers == g.answers + [input.answer] && g'.next == Retrieve
                 && g'.question == ComposeQuestion(g.userText, g.answers + [input.answer])
            else g'.answers == g.answers && g'.next == Generate && g'.question == g.question
    ensures Step(g, input).answers == g.answers + [input.answer] <==> input.needsHitl
  {
    assert |g.answers + [input.answer]| != |g.answers|;
  }

  /** The answers given at the interrupts of a walk, in order. */
  ghost function Supplied(g: Graph, inputs: seq<Input>): seq<string>
    requires Walks(g, inputs)
    decreases |inputs|
  {
    if inputs == [] then []
    else (if g.next == Interrupted then [inputs[0].answer] else []) + Supplied(Step(g, inputs[0]), inputs[1..])
  }

  /** At every interrupt of the walk the detector still wants the answer. */
  ghost predicate StillAsking(g: Graph, inputs: seq<Input>)
    requires Walks(g, inputs)
    decreases |inputs|
  {
    inputs == [] ||
    ((g.next == Interrupted ==> inputs[0].needsHitl) && StillAsking(Step(g, inputs[0]), inputs[1..]))
  }

  /** The first node of a walk and the rest. */
  lemma WalkUnfolds(g: Graph, inputs: seq<Input>, rest: seq<Input>)
    requires Walks(g, inputs) && inputs != [] && rest == inputs[1..]
    ensures g.next != End && Walks(Step(g, inputs[0]), rest) && Walk(g, inputs) == Walk(Step(g, inputs[0]), rest)
    ensures Supplied(g, inputs)
         == (if g.next == Interrupted then [inputs[0].answer] else []) + Supplied(Step(g, inputs[0]), rest)
    ensures StillAsking(g, inputs)
       <==> (g.next == Interrupted ==> inputs[0].needsHitl) && StillAsking(Step(g, inputs[0]), rest)
  {
    hide Step;
  }

  lemma {:induction false} RecordedFrom(g: Graph, inputs: seq<Input>)
    requires GraphOk(g) && Walks(g, inputs)
    ensures |Walk(g, inputs).answers| <= |g.answers| + |Supplied(g, inputs)|
    ensures StillAsking(g, inputs) ==> Walk(g, inputs).answers == g.answers + Supplied(g, inputs)
    ensures !StillAsking(g, inputs) ==> |Walk(g, inputs).answers| < |g.answers| + |Supplied(g, inputs)|
    decreases |inputs|
  {
    hide Step, GraphOk, Walk, Walks, Supplied, StillAsking;
    if inputs == [] {
      WalkNothing(g, inputs);
      assert g.answers + [] == g.answers;
    } else {
      var rest := inputs[1..];
      WalkUnfolds(g, inputs, rest);
      StepKeepsGraph(g, inputs[0]);
      StepRecords(g, inputs[0]);
      RecordedFrom(Step(g, inputs[0]), rest);
      RegroupAnswers(g.answers, inputs[0].answer, Supplied(Step(g, inputs[0]), rest));
    }
  }

  lemma WalkNothing(g: Graph, inputs: seq<Input>)
    requires inputs == []
    ensures Walks(g, inputs) && Walk(g, inputs) == g && Supplied(g, inputs) == [] && StillAsking(g, inputs)
  {
  }

  lemma RegroupAnswers(answers: seq<string>, answer: string, later: seq<string>)
    ensures (answers + [answer]) + later == answers + ([answer] + later)
    ensures answers + ([] + later) == answers + later
  {
  }

  lemma StepRecords(g: Graph, input: Input)
    requires GraphOk(g) && g.next != End
    ensures Step(g, input).answers ==
            if g.next == Interrupted && input.needsHitl then g.answers + [input.answer] else g.answers
  {
  }

  /**
  A run works on all answers it was given if and only if the detector never changed its mind at a
  resumption.
  */
  lemma AllAnswersAreRecorded(userText: string, inputs: seq<Input>)
    requires Walks(Start(userText), inputs)
    ensures Walk(Start(userText), inputs).answers == Supplied(Start(userText), inputs)
       <==> StillAsking(Start(userText), inputs)
  {
    RecordedFrom(Start(userText), inputs);
    assert [] + Supplied(Start(userText), inputs) == Supplied(Start(userText), inputs);
  }

  lemma WalksStep(g: Graph, input: Input, rest: seq<Input>)
    requires g.next != End && Walks(Step(g, input), rest)
    ensures Walks(g, [input] + rest) && Walk(g, [input] + rest) == Walk(Step(g, input), rest)
    ensures Supplied(g, [input] + rest)
         == (if g.next == Interrupted then [input.answer] else []) + Supplied(Step(g, input), rest)
  {
    assert ([input] + rest)[1..] == rest;
  }

  /** A whole run whose one accepted answer never enters the question. */
  lemma AnswerIsDropped(userText: string, answer: string) returns (inputs: seq<Input>)
    ensures Walks(Start(userText), inputs)
    ensures Walk(Start(userText), inputs).next == End && Supplied(Start(userText), inputs) == [answer]
    ensures Walk(Start(userText), inputs).answers == [] && Walk(Start(userText), inputs).question == userText
  {
    var quiet, asks := Input(ModeRetrieve, false, answer), Input(ModeRetrieve, true, "");
    var g0 := Start(userText);
    var g1 := Step(g0, quiet);
    var g2 := Step(g1, quiet);
    var g3 := Step(g2, quiet);
    var g4 := Step(g3, asks);
    var g5 := Step(g4, quiet);
    var g6 := Step(g5, quiet);
    assert g3.next == CheckHitl && g4.next == Interrupted && g5.next == Generate && g6.next == End;
    WalksStep(g5, quiet, []);
    WalksStep(g4, quiet, [quiet] + []);
    WalksStep(g3, asks, [quiet] + ([quiet] + []));
    WalksStep(g2, quiet, [asks] + ([quiet] + ([quiet] + [])));
    WalksStep(g1, quiet, [quiet] + ([asks] + ([quiet] + ([quiet] + []))));
    WalksStep(g0, quiet, [quiet] + ([quiet] + ([asks] + ([quiet] + ([quiet] + [])))));
    inputs := [quiet] + ([quiet] + ([quiet] + ([asks] + ([quiet] + ([quiet] + [])))));
  }
}
