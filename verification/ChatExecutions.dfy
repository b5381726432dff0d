/** The life of one execution (`Execution.run` of backend/agent/execution.py), by its phases and its `stopped` flag. */
module ChatExecutions {
  import opened Wrappers
  import opened Text
  import opened ChatRuns
  import opened ChatGraph
  import opened ChatInvariant
  import opened ChatProtocol
  import opened ChatTransactions
  import opened ChatTheorems
  import opened ChatCancel

  /** The coroutine's way: from `x` it may come to `x'` in one step of its own. */
  predicate Moves(x: Execution, x': Execution) {
    match x.phase
    case Unstarted => x'.phase in {Registered, Cancelling_}
    case Registered => x'.phase in {Registered, Looked}
    case Looked => x'.phase == Looked || x'.phase == (if x.stopped then Finalizing else Working)
    case Working => x'.phase in {Working, Returned, Failing} || (x.stopped && x'.phase == Finalizing)
    case Returned => x'.phase in {Returned, Finalizing}
    case Failing => x'.phase in {Failing, Finalizing}
    case Finalizing => x'.phase == Finalizing || x'.phase == (if x.stopped then Cancelling_ else Done)
    case Cancelling_ => x'.phase in {Cancelling_, Marking}
    case Marking => x'.phase in {Marking, Done}
    case Done => false
  }

  /**
  One step of anyone, seen by execution `e`. Work starts only unstopped, a worker is unwound only
  when stopped, and nothing else than a stop, a lost stream or a look at a cancelled row sets the flag.
  */
  lemma ExecutionMoves(hash: string -> string, s: System, a: Action, e: nat)
    requires Enabled(s, a) && e < |s.executions|
    ensures e < |Apply(hash, s, a).executions|
    ensures var x, x' := s.executions[e], Apply(hash, s, a).executions[e];
            if OnExecution(a) && a.e == e
            then && x'.run == x.run && x.run < |s.session.runs| && Moves(x, x')
                 && (x'.stopped <==> x.stopped || a.Stop? || a.Disconnect?
                                     || (a.Look? && s.session.runs[x.run].status in {Cancelling, Cancelled}))
                 && x'.sawStopped == (if x'.phase == x.phase then x.sawStopped
                                      else if a.Finalize? || a.Disconnect? then x'.phase == Cancelling_
                                      else x.sawStopped)
            else x' == x
  {
    hide SessionAfter, Started;
    NextParts(hash, s, a);
  }

  /** An execution that is not over is never blocked, whatever the others do. */
  lemma NoExecutionIsBlocked(s: System, e: nat, input: Input, drafts: seq<Draft>, hitl: string)
    requires Inv(s) && e < |s.executions| && s.executions[e].phase != Done
    requires 1 <= |drafts| <= 2 && drafts[|drafts| - 1].kind == Ai && (|drafts| == 2 ==> drafts[0].kind == Summary)
    ensures var x, g := s.executions[e], s.graphs[s.executions[e].run];
            && x.run < |s.graphs|
            && (x.phase == Working && g.next == End ==> Enabled(s, SaveAnswer(e, drafts)))
            && (x.phase == Working && g.next == Interrupted && |s.session.runs[x.run].resumes| < g.rounds ==>
                  Enabled(s, SaveQuestion(e, drafts, hitl)))
            && (x.phase == Working && g.next !in {End, Interrupted} ==> Enabled(s, Advance(e, input)))
            && (x.phase == Working && x.stopped ==> Enabled(s, Unwind(e)))
            && (x.phase == Working ==> Enabled(s, Crash(e)))
            && (x.phase != Unstarted ==> Enabled(s, Stop(e)))
            && (x.phase != Working ==> exists a :: OnExecution(a) && !a.Stop? && a.e == e && Enabled(s, a))
  {
    hide SessionOk, Joint, Step;
    assert ExecutionOk(s.session, s.executions[e]);
    match s.executions[e].phase
    case Unstarted => assert Enabled(s, Disconnect(e)); assert Enabled(s, Produce(e));
    case Registered => assert Enabled(s, Look(e));
    case Looked => assert Enabled(s, Launch(e));
    case Working =>
    case Returned => assert Enabled(s, Return(e));
    case Failing => assert Enabled(s, MarkFailure(e, ""));
    case Finalizing => assert Enabled(s, Finalize(e));
    case Cancelling_ => assert Enabled(s, CancelOwn(e));
    case Marking => assert Enabled(s, MarkOwn(e));
    case Done => assert false;
  }

  // ---- every execution can be brought to its end, and its run with it ----

  lemma StepEnds(hash: string -> string, s: System, e: nat)
    requires Inv(s) && e < |s.executions| && s.executions[e].phase != Done
    ensures var x, a := s.executions[e], NextStep(s.executions[e], e);
            && Enabled(s, a)
            && var s' := Apply(hash, s, a);
               && e < |s'.executions| && s'.executions[e].run == x.run && StepsLeft(s'.executions[e]) < StepsLeft(x)
               && x.run < |s'.session.runs|
               && (s'.executions[e].phase == Done ==> IsTerminal(s'.session.runs[x.run].status))
  {
    hide AppendAll, Append, NextIndex, Trim, SessionOk, Joint, Step;
    assert ExecutionOk(s.session, s.executions[e]);
  }

  lemma {:induction false} CanEnd(hash: string -> string, s: System, e: nat) returns (t: System)
    requires Inv(s) && e < |s.executions| && s.executions[e].phase != Done
    ensures Reaches(hash, s, t) && e < |t.executions| && t.executions[e].phase == Done
    ensures t.executions[e].run == s.executions[e].run && s.executions[e].run < |t.session.runs|
    ensures IsTerminal(t.session.runs[s.executions[e].run].status)
    decreases StepsLeft(s.executions[e])
  {
    var a := NextStep(s.executions[e], e);
    StepEnds(hash, s, e);
    StepKeepsInv(hash, s, a);
    var s' := Apply(hash, s, a);
    hide Enabled, Apply, Inv;
    if s'.executions[e].phase == Done {
      t := s';
      ReachesSelf(hash, s');
    } else {
      t := CanEnd(hash, s', e);
    }
    ReachesVia(hash, s, a, s', t);
  }

  /** From every reachable state, a run with an execution that is not over can still end. */
  lemma EveryExecutionCanEnd(hash: string -> string, s: System, e: nat)
    requires Reachable(hash, s) && e < |s.executions| && s.executions[e].phase != Done
    ensures exists t :: && Reaches(hash, s, t) && e < |t.executions| && t.executions[e].phase == Done
                        && t.executions[e].run == s.executions[e].run && s.executions[e].run < |t.session.runs|
                        && t.session.runs[s.executions[e].run].status in {Completed, RunFailed, Cancelled}
  {
    ReachableInv(hash, s);
    var t := CanEnd(hash, s, e);
  }

  // ---- what a worker saves ----

  /**
  A worker's answer goes in whole while its run is running: at most a summary, then the reply, which
  is the run's output. Otherwise it leaves every row as it is. The worker returns in both cases.
  */
  lemma AnswerStep(hash: string -> string, s: System, e: nat, drafts: seq<Draft>)
    requires Enabled(s, SaveAnswer(e, drafts))
    ensures var i, t, t' := s.executions[e].run, s.session, Apply(hash, s, SaveAnswer(e, drafts)).session;
            && s.executions[e].phase == Working && s.graphs[i].next == End
            && (if t.runs[i].status == Running
                then && |t.messages| + 1 <= |t'.messages| <= |t.messages| + 2 && t.messages <= t'.messages
                     && var last := t'.messages[|t'.messages| - 1];
                        && last.kind == Ai && last.run == i && OnlyRun(t, t', i)
                        && t'.runs[i].status == Completed && t'.runs[i].output == last.content
                        && (|t'.messages| == |t.messages| + 2 ==> t'.messages[|t.messages|].kind == Summary)
                else t' == t)
  {
    hide AppendAll, NextIndex, Step, ExecutionAfter;
    var i, n := s.executions[e].run, |drafts|;
    SaveSpelledOut(s.session, i, drafts, Completed, drafts[n - 1].content, None);
    TurnIsAppended(s.session.messages, i, drafts);
  }

  /** A worker's question, likewise: the run waits, and its output is empty. */
  lemma QuestionStep(hash: string -> string, s: System, e: nat, drafts: seq<Draft>, hitl: string)
    requires Enabled(s, SaveQuestion(e, drafts, hitl))
    ensures var i, t, t' := s.executions[e].run, s.session, Apply(hash, s, SaveQuestion(e, drafts, hitl)).session;
            && s.executions[e].phase == Working && s.graphs[i].next == Interrupted
            && |t.runs[i].resumes| != s.graphs[i].rounds
            && (if t.runs[i].status == Running
                then && |t.messages| + 1 <= |t'.messages| <= |t.messages| + 2 && t.messages <= t'.messages
                     && t'.messages[|t'.messages| - 1].kind == Ai && t'.messages[|t'.messages| - 1].run == i
                     && OnlyRun(t, t', i) && t'.runs[i].status == WaitingHitl && t'.runs[i].output == ""
                     && t'.runs[i].hitl == Some(hitl)
                     && (|t'.messages| == |t.messages| + 2 ==> t'.messages[|t.messages|].kind == Summary)
                else t' == t)
  {
    hide AppendAll, NextIndex, Step, ExecutionAfter;
    SaveSpelledOut(s.session, s.executions[e].run, drafts, WaitingHitl, "", Some(hitl));
    TurnIsAppended(s.session.messages, s.executions[e].run, drafts);
  }
}
