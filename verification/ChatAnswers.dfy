/** The answers a run works on, against what its user has said. */
module ChatAnswers {
  import opened Wrappers
  import opened Text
  import opened ChatRuns
  import opened ChatGraph
  import opened ChatInvariant
  import opened ChatProtocol
  import opened ChatTheorems

  /** The user has said the question and the accepted answers; the graph has recorded the first of those. */
  predicate Heard(t: Session, i: RunId, g: Graph)
    requires i < |t.runs|
  {
    var said := Spoken(t.messages, i);
    |said| == 1 + |t.runs[i].resumes| && said[0] == g.userText && g.answers <= said[1..]
  }

  predicate AllHeard(s: System) {
    && |s.graphs| == |s.session.runs|
    && forall i :: 0 <= i < |s.graphs| ==> Heard(s.session, i, s.graphs[i])
  }

  lemma SpokenAppend(messages: seq<Message>, j: RunId, draft: Draft, i: RunId)
    ensures Spoken(Append(messages, j, draft), i)
         == Spoken(messages, i) + (if draft.kind == Human && i == j then [draft.content] else [])
  {
    hide NextIndex;
    var longer := Append(messages, j, draft);
    assert longer[..|longer| - 1] == messages;
  }

  lemma {:induction false} SpokenAppendAll(messages: seq<Message>, j: RunId, drafts: seq<Draft>, i: RunId)
    requires Drafts(drafts, Human) == 0
    ensures Spoken(AppendAll(messages, j, drafts), i) == Spoken(messages, i)
  {
    if drafts != [] {
      var n := |drafts| - 1;
      SpokenAppendAll(messages, j, drafts[..n], i);
      SpokenAppend(AppendAll(messages, j, drafts[..n]), j, drafts[n], i);
    }
  }

  lemma {:induction false} SilentRun(messages: seq<Message>, i: RunId)
    requires forall k :: 0 <= k < |messages| ==> messages[k].run < i
    ensures Spoken(messages, i) == []
  {
    if messages != [] { SilentRun(messages[..|messages| - 1], i); }
  }

  /** What an accepted request adds to what its run was told. */
  function Told(a: Action): string {
    if a.Reserve? then a.message else if a.Resumed? then a.answer else ""
  }

  lemma SaidAfterReserve(hash: string -> string, t: Session, message: string, requestId: string, i: RunId)
    ensures var o := ReserveRun(hash, t, message, requestId);
            Spoken(o.session.messages, i) == Spoken(t.messages, i) +
              (if o.reply.Ok? && o.reply.value == Reservation(i, true) then [message] else [])
  {
    hide Trim, Append, Spoken;
    SpokenAppend(t.messages, |t.runs|, Draft(Human, message), i);
    assert Spoken(t.messages, i) + [] == Spoken(t.messages, i);
  }

  lemma SaidAfterResume(hash: string -> string, t: Session, j: RunId, answer: string, requestId: string, i: RunId)
    ensures var o := ReserveResume(hash, t, j, answer, requestId);
            Spoken(o.session.messages, i) == Spoken(t.messages, i) +
              (if o.reply.Ok? && o.reply.value == Reservation(i, true) then [answer] else [])
  {
    hide Trim, Append, Spoken;
    SpokenAppend(t.messages, j, Draft(Human, answer), i);
    assert Spoken(t.messages, i) + [] == Spoken(t.messages, i);
  }

  lemma SaidAfterSave(t: Session, j: RunId, drafts: seq<Draft>, target: RunStatus, output: string, hitl: Option<string>, i: RunId)
    requires Turn(drafts)
    ensures Spoken(Save(t, j, drafts, target, output, hitl).session.messages, i) == Spoken(t.messages, i)
  {
    TurnHasOneReply(drafts);
    SpokenAppendAll(t.messages, j, drafts, i);
  }

  lemma SaidAfter(hash: string -> string, s: System, a: Action, i: RunId)
    requires Enabled(s, a)
    ensures Spoken(SessionAfter(hash, s, a).messages, i)
         == Spoken(s.session.messages, i) + (if Started(hash, s, a) == Some(i) then [Told(a)] else [])
  {
    hide Spoken, ReserveRun, ReserveResume, Save;
    var t := s.session;
    assert Spoken(t.messages, i) + [] == Spoken(t.messages, i);
    match a {
      case Reserve(message, requestId) => SaidAfterReserve(hash, t, message, requestId, i);
      case Resumed(j, answer, requestId) => SaidAfterResume(hash, t, j, answer, requestId, i);
      case SaveQuestion(e, drafts, hitl) => SaidAfterSave(t, s.executions[e].run, drafts, WaitingHitl, "", Some(hitl), i);
      case SaveAnswer(e, drafts) =>
        SaidAfterSave(t, s.executions[e].run, drafts, Completed, drafts[|drafts| - 1].content, None, i);
      case _ =>
    }
  }

  /** A run gets one more accepted answer exactly when a resume starts it again. */
  lemma ResumesAfter(hash: string -> string, s: System, a: Action, i: RunId)
    requires Enabled(s, a) && i < |s.session.runs|
    ensures i < |SessionAfter(hash, s, a).runs|
    ensures |SessionAfter(hash, s, a).runs[i].resumes|
         == |s.session.runs[i].resumes| + (if Started(hash, s, a) == Some(i) then 1 else 0)
  {
    hide AppendAll, Append, NextIndex, Trim;
  }

  lemma NewRunIsHeard(hash: string -> string, s: System, a: Action, i: RunId)
    requires Inv(s) && Enabled(s, a) && i == |s.graphs| < |Apply(hash, s, a).graphs|
    ensures i < |SessionAfter(hash, s, a).runs| && Heard(SessionAfter(hash, s, a), i, Apply(hash, s, a).graphs[i])
  {
    SaidAfter(hash, s, a, i);
    SilentRun(s.session.messages, i);
    CreatedRun(hash, s.session, a.message, a.requestId);
    hide Trim, AppendAll, Append, Spoken;
    assert a.Reserve? && Started(hash, s, a) == Some(i);
  }

  /** A graph that takes its answer takes the one said last. */
  lemma RecordsWhatWasSaid(g: Graph, input: Input, said: seq<string>)
    requires GraphOk(g) && g.next != End && |said| > 0 && g.answers <= said[1..]
    requires g.next == Interrupted ==> |said| == |g.answers| + 2 && input.answer == said[|said| - 1]
    ensures Step(g, input).userText == g.userText && Step(g, input).answers <= said[1..]
  {
    StepKeepsGraph(g, input);
    StepRecords(g, input);
    hide Step, GraphOk;
    if g.next == Interrupted { assert said[1..] == g.answers + [said[|said| - 1]]; }
  }

  /** Only the execution of a run moves its graph. */
  lemma GraphAfter(hash: string -> string, s: System, a: Action, i: RunId)
    requires Inv(s) && Enabled(s, a) && i < |s.graphs|
    ensures i < |Apply(hash, s, a).graphs|
    ensures Apply(hash, s, a).graphs[i]
         == if a.Advance? && s.executions[a.e].run == i then Step(s.graphs[i], a.input) else s.graphs[i]
  {
    hide SessionAfter, Started, ExecutionAfter, Step, SessionOk, Joint, ExecutionOk;
  }

  lemma AnswersAfter(hash: string -> string, s: System, a: Action, i: RunId)
    requires Inv(s) && Enabled(s, a) && i < |s.graphs| && Heard(s.session, i, s.graphs[i])
    ensures i < |Apply(hash, s, a).graphs|
    ensures var g, g' := s.graphs[i], Apply(hash, s, a).graphs[i];
            g'.userText == g.userText && g'.answers <= Spoken(s.session.messages, i)[1..]
  {
    GraphAfter(hash, s, a, i);
    assert Joint(s.session.runs[i], s.graphs[i]);
    hide Step, Trim, Spoken, Apply, SessionOk, Inv;
    if a.Advance? && s.executions[a.e].run == i {
      RecordsWhatWasSaid(s.graphs[i], a.input, Spoken(s.session.messages, i));
    }
  }

  /** An old run after a step, from what was said, answered and recorded. */
  lemma OldRunIsHeard(hash: string -> string, s: System, a: Action, i: RunId)
    requires Inv(s) && Enabled(s, a) && i < |s.graphs| && Heard(s.session, i, s.graphs[i])
    ensures i < |Apply(hash, s, a).graphs| && i < |SessionAfter(hash, s, a).runs|
    ensures Heard(SessionAfter(hash, s, a), i, Apply(hash, s, a).graphs[i])
  {
    assert |s.graphs| == |s.session.runs|;
    hide SessionAfter, Started, Spoken, Apply, Enabled, Inv, Told;
    SaidAfter(hash, s, a, i);
    ResumesAfter(hash, s, a, i);
    AnswersAfter(hash, s, a, i);
  }

  lemma StepKeepsHeard(hash: string -> string, s: System, a: Action)
    requires Inv(s) && AllHeard(s) && Enabled(s, a)
    ensures AllHeard(Apply(hash, s, a))
  {
    hide SessionAfter, Apply, Enabled, Inv, Heard;
    var s' := Apply(hash, s, a);
    GraphsFollowRuns(hash, s, a);
    forall i | 0 <= i < |s'.graphs| ensures Heard(s'.session, i, s'.graphs[i]) {
      if i < |s.graphs| {
        OldRunIsHeard(hash, s, a, i);
      } else {
        OneMoreGraph(hash, s, a);
        NewRunIsHeard(hash, s, a, i);
      }
    }
  }

  lemma OneMoreGraph(hash: string -> string, s: System, a: Action)
    requires Enabled(s, a)
    ensures |Apply(hash, s, a).graphs| <= |s.graphs| + 1
  {
    hide SessionAfter, Started, ExecutionAfter, Step;
  }

  lemma {:induction false} RunKeepsHeard(hash: string -> string, s: System, actions: seq<Action>)
    requires Inv(s) && AllHeard(s) && Runs(hash, s, actions)
    ensures AllHeard(After(hash, s, actions))
    decreases |actions|
  {
    if actions != [] {
      StepKeepsInv(hash, s, actions[0]);
      StepKeepsHeard(hash, s, actions[0]);
      RunKeepsHeard(hash, Apply(hash, s, actions[0]), actions[1..]);
    }
  }

  lemma ReachableHeard(hash: string -> string, s: System, i: RunId)
    requires Reachable(hash, s) && i < |s.session.runs|
    ensures |s.graphs| == |s.session.runs| && Heard(s.session, i, s.graphs[i]) && Joint(s.session.runs[i], s.graphs[i])
  {
    ReachableInv(hash, s);
    var actions :| Runs(hash, INIT, actions) && After(hash, INIT, actions) == s;
    RunKeepsHeard(hash, INIT, actions);
    hide Heard, Joint, SessionOk, ExecutionOk;
  }

  /**
  In every reachable state the question of a run is composed of the first thing its user said and of
  the recorded answers, which are what the user said next; at most the last accepted answer is not
  among them, and then only while the run waits for it to be taken or after the detector has dropped it.
  */
  lemma RunsWorkOnWhatWasSaid(hash: string -> string, s: System, i: RunId)
    requires Reachable(hash, s) && i < |s.session.runs|
    ensures |s.graphs| == |s.session.runs|
    ensures var g, run, said := s.graphs[i], s.session.runs[i], Spoken(s.session.messages, i);
            && |said| == 1 + |run.resumes| && said[0] == g.userText
            && g.answers <= said[1..] && |g.answers| <= |run.resumes| <= |g.answers| + 1
            && (g.next !in {Interrupted, Generate, End} ==> g.answers == said[1..])
            && (g.next != Prepare ==>
                  g.question == if g.answers == [] then said[0] else ComposeQuestion(said[0], g.answers))
            && (g.next != Prepare ==> AsksFor(g.question, said[0], said[1..1 + |g.answers|]))
  {
    ReachableHeard(hash, s, i);
    QuestionAsksFor(s.graphs[i].userText, s.graphs[i].answers);
    hide Reachable, Spoken, ComposeQuestion, AsksFor;
    var said := Spoken(s.session.messages, i);
    assert s.graphs[i].answers == said[1..1 + |s.graphs[i].answers|];
  }
}
