/** Which cancelled runs come to an end. */
module ChatCancel {
  import opened Wrappers
  import opened Text
  import opened ChatRuns
  import opened ChatGraph
  import opened ChatInvariant
  import opened ChatProtocol
  import opened ChatTheorems

  predicate Leads(hash: string -> string, s: System, a: Action, s': System) {
    Enabled(s, a) && Apply(hash, s, a) == s'
  }

  lemma ReachesSelf(hash: string -> string, s: System)
    ensures Reaches(hash, s, s)
  {
    assert Runs(hash, s, []) && After(hash, s, []) == s;
  }

  lemma ReachesVia(hash: string -> string, s: System, a: Action, s': System, t: System)
    requires Leads(hash, s, a, s') && Reaches(hash, s', t)
    ensures Reaches(hash, s, t)
  {
    var actions :| Runs(hash, s', actions) && After(hash, s', actions) == t;
    assert ([a] + actions)[1..] == actions;
    assert Runs(hash, s, [a] + actions) && After(hash, s, [a] + actions) == t;
  }

  // ---- without an execution nothing acknowledges a cancel ----

  /** The run is cancelling, and every execution it ever had is over. */
  predicate Stuck(s: System, i: RunId) {
    && i < |s.session.runs| && s.session.runs[i].status == Cancelling
    && forall e :: 0 <= e < |s.executions| && s.executions[e].run == i ==> s.executions[e].phase == Done
  }

  lemma StuckRow(hash: string -> string, s: System, a: Action, i: RunId)
    requires Inv(s) && Stuck(s, i) && Enabled(s, a)
    ensures i < |SessionAfter(hash, s, a).runs| && SessionAfter(hash, s, a).runs[i].status == Cancelling
  {
    hide AppendAll, Append, NextIndex, Trim, SessionOk, Joint, ExecutionOk;
  }

  lemma NotStartedAgain(hash: string -> string, s: System, a: Action, i: RunId)
    requires Inv(s) && Stuck(s, i) && Enabled(s, a)
    ensures Started(hash, s, a) != Some(i)
  {
    hide AppendAll, Append, NextIndex, Trim, SessionOk, Joint, ExecutionOk;
  }

  lemma StuckStep(hash: string -> string, s: System, a: Action, i: RunId)
    requires Inv(s) && Stuck(s, i) && Enabled(s, a)
    ensures Stuck(Apply(hash, s, a), i)
  {
    hide SessionAfter, Started, Inv, Enabled, Apply, ExecutionAfter;
    StuckRow(hash, s, a, i);
    NotStartedAgain(hash, s, a, i);
    NextParts(hash, s, a);
    if OnExecution(a) { SameExecution(s, a); }
  }

  lemma {:induction false} StuckRun(hash: string -> string, s: System, actions: seq<Action>, i: RunId)
    requires Inv(s) && Stuck(s, i) && Runs(hash, s, actions)
    ensures Inv(After(hash, s, actions)) && Stuck(After(hash, s, actions), i)
    decreases |actions|
  {
    if actions != [] {
      StepKeepsInv(hash, s, actions[0]);
      StuckStep(hash, s, actions[0], i);
      StuckRun(hash, Apply(hash, s, actions[0]), actions[1..], i);
    }
  }

  /** Such a run stays cancelling on every continuation. */
  lemma StuckForGood(hash: string -> string, s: System, t: System, i: RunId)
    requires Reachable(hash, s) && Stuck(s, i) && Reaches(hash, s, t)
    ensures Inv(t) && Stuck(t, i)
  {
    ReachableInv(hash, s);
    var actions :| Runs(hash, s, actions) && After(hash, s, actions) == t;
    StuckRun(hash, s, actions, i);
  }

  /** And its session accepts no new request. */
  lemma StuckSessionRefuses(hash: string -> string, s: System, i: RunId, message: string, requestId: string)
    requires Inv(s) && Stuck(s, i) && ValidRequestId(requestId).Ok?
    requires forall j :: 0 <= j < |s.session.runs| ==> s.session.runs[j].requestId != Trim(requestId)
    ensures ReserveRun(hash, s.session, message, requestId) == ReserveOutcome(s.session, Err(RunActive(i)))
  {
    hide Trim;
    var runs := s.session.runs;
    assert OneActive(runs) && IsActive(runs[i].status);
    assert FirstIndex(runs, (r: Run) => IsActive(r.status)) == i;
    assert FirstIndex(runs, (r: Run) => r.requestId == ValidRequestId(requestId).value) == |runs|;
  }

  // ---- with one, it still can be ----

  /** The step that brings a cancelling run's execution closer to its end. */
  function NextStep(x: Execution, e: nat): Action {
    match x.phase
    case Unstarted => Disconnect(e)
    case Registered => Look(e)
    case Looked => if x.stopped then Launch(e) else Stop(e)
    case Working => if x.stopped then Unwind(e) else Stop(e)
    case Returned => Return(e)
    case Failing => MarkFailure(e, "")
    case Finalizing => if x.stopped then Finalize(e) else Stop(e)
    case Cancelling_ => CancelOwn(e)
    case Marking => MarkOwn(e)
    case Done => Stop(e)
  }

  function StepsLeft(x: Execution): nat {
    (match x.phase
     case Unstarted => 12
     case Registered => 10
     case Looked => 8
     case Working => 8
     case Returned => 6
     case Failing => 6
     case Finalizing => 4
     case Cancelling_ => 2
     case Marking => 1
     case Done => 0) + (if x.stopped then 0 else 1)
  }

  lemma StepCloser(hash: string -> string, s: System, e: nat)
    requires Inv(s) && e < |s.executions| && s.executions[e].phase != Done
    requires s.session.runs[s.executions[e].run].status == Cancelling
    ensures var x, a := s.executions[e], NextStep(s.executions[e], e);
            && Enabled(s, a)
            && var s' := Apply(hash, s, a);
               && e < |s'.executions| && s'.executions[e].run == x.run && StepsLeft(s'.executions[e]) < StepsLeft(x)
               && x.run < |s'.session.runs|
               && s'.session.runs[x.run].status == (if x.phase == Marking then Cancelled else Cancelling)
               && (s'.executions[e].phase == Done ==> x.phase == Marking)
  {
    hide AppendAll, Append, NextIndex, Trim, SessionOk, Joint, Step;
    assert ExecutionOk(s.session, s.executions[e]);
  }

  lemma {:induction false} CanStillEnd(hash: string -> string, s: System, e: nat) returns (t: System)
    requires Inv(s) && e < |s.executions| && s.executions[e].phase != Done
    requires s.session.runs[s.executions[e].run].status == Cancelling
    ensures Reaches(hash, s, t)
    ensures s.executions[e].run < |t.session.runs| && t.session.runs[s.executions[e].run].status == Cancelled
    decreases StepsLeft(s.executions[e])
  {
    var a := NextStep(s.executions[e], e);
    StepCloser(hash, s, e);
    StepKeepsInv(hash, s, a);
    var s' := Apply(hash, s, a);
    hide Enabled, Apply, Inv;
    if s.executions[e].phase == Marking {
      t := s';
      ReachesSelf(hash, s');
    } else {
      t := CanStillEnd(hash, s', e);
    }
    ReachesVia(hash, s, a, s', t);
  }

  /**
  A cancelling run can still be acknowledged if and only if one of its executions is not over yet.
  */
  lemma CancelCanBeAcknowledged(hash: string -> string, s: System, i: RunId)
    requires Reachable(hash, s) && i < |s.session.runs| && s.session.runs[i].status == Cancelling
    ensures (exists t :: Reaches(hash, s, t) && i < |t.session.runs| && t.session.runs[i].status == Cancelled)
       <==> exists e :: 0 <= e < |s.executions| && s.executions[e].run == i && s.executions[e].phase != Done
  {
    ReachableInv(hash, s);
    if e :| 0 <= e < |s.executions| && s.executions[e].run == i && s.executions[e].phase != Done {
      var t := CanStillEnd(hash, s, e);
    } else {
      assert Stuck(s, i);
      forall t | Reaches(hash, s, t) ensures Stuck(t, i) { StuckForGood(hash, s, t, i); }
    }
  }

  // ---- a run of the protocol that leaves one behind ----

  /** The states of a run whose cancel reaches its row but not its execution. */
  function Unheard(message: string, key: string, requestHash: string, status: RunStatus, g: Graph, phase: Phase): System {
    var run := NewRun(key, requestHash);
    System(
      Session(true, [run.(status := status, errorCode := if status == Cancelling then Some(RUN_CANCELLED) else None)],
              [Message(0, Human, 0, message)]),
      [g], [Execution(0, phase, false, false)])
  }

  lemma FirstReserve(hash: string -> string, message: string, requestId: string)
    requires ValidRequestId(requestId).Ok?
    ensures Apply(hash, INIT, Reserve(message, requestId)) ==
            Unheard(message, Trim(requestId), hash(Trim(message)), Running, Start(message), Unstarted)
  {
    assert NextIndex([]) == 0;
  }

  lemma UnheardStart(hash: string -> string, message: string, key: string, h: string, g: Graph)
    ensures Leads(hash, Unheard(message, key, h, Running, g, Unstarted), Produce(0), Unheard(message, key, h, Running, g, Registered))
    ensures Leads(hash, Unheard(message, key, h, Running, g, Registered), Look(0), Unheard(message, key, h, Running, g, Looked))
    ensures Leads(hash, Unheard(message, key, h, Running, g, Looked), Launch(0), Unheard(message, key, h, Running, g, Working))
    ensures Leads(hash, Unheard(message, key, h, Running, g, Working), UserCancel(0),
                  Unheard(message, key, h, Cancelling, g, Working))
  {
  }

  lemma UnheardAdvance(hash: string -> string, message: string, key: string, h: string, g: Graph, input: Input)
    requires g.next !in {End, Interrupted}
    ensures Leads(hash, Unheard(message, key, h, Cancelling, g, Working), Advance(0, input),
                  Unheard(message, key, h, Cancelling, Step(g, input), Working))
  {
  }

  lemma UnheardEnd(hash: string -> string, message: string, key: string, h: string, g: Graph, reply: string)
    requires g.next == End
    ensures Leads(hash, Unheard(message, key, h, Cancelling, g, Working), SaveAnswer(0, [Draft(Ai, reply)]),
                  Unheard(message, key, h, Cancelling, g, Returned))
    ensures Leads(hash, Unheard(message, key, h, Cancelling, g, Returned), Return(0),
                  Unheard(message, key, h, Cancelling, g, Finalizing))
    ensures Leads(hash, Unheard(message, key, h, Cancelling, g, Finalizing), Finalize(0),
                  Unheard(message, key, h, Cancelling, g, Done))
  {
    hide AppendAll, Append, NextIndex, Trim, Spoken;
  }

  lemma UnheardFinish(hash: string -> string, message: string, key: string, h: string, g: Graph, reply: string)
    requires g.next == End
    ensures Reaches(hash, Unheard(message, key, h, Cancelling, g, Working), Unheard(message, key, h, Cancelling, g, Done))
  {
    hide Leads, Reaches, Unheard;
    UnheardEnd(hash, message, key, h, g, reply);
    var last := Unheard(message, key, h, Cancelling, g, Done);
    ReachesSelf(hash, last);
    ReachesVia(hash, Unheard(message, key, h, Cancelling, g, Finalizing), Finalize(0), last, last);
    ReachesVia(hash, Unheard(message, key, h, Cancelling, g, Returned), Return(0),
               Unheard(message, key, h, Cancelling, g, Finalizing), last);
    ReachesVia(hash, Unheard(message, key, h, Cancelling, g, Working), SaveAnswer(0, [Draft(Ai, reply)]),
               Unheard(message, key, h, Cancelling, g, Returned), last);
  }

  /** The worker goes through its graph, with the cancel already in the row. */
  lemma {:induction false} UnheardWork(hash: string -> string, message: string, key: string, h: string, gs: seq<Graph>, reply: string, input: Input)
    requires gs != [] && gs[|gs| - 1].next == End
    requires forall k :: 0 <= k < |gs| - 1 ==> gs[k].next !in {End, Interrupted} && gs[k + 1] == Step(gs[k], input)
    ensures Reaches(hash, Unheard(message, key, h, Cancelling, gs[0], Working),
                    Unheard(message, key, h, Cancelling, gs[|gs| - 1], Done))
    decreases |gs|
  {
    hide Leads, Reaches, Unheard, Step;
    if |gs| == 1 {
      UnheardFinish(hash, message, key, h, gs[0], reply);
    } else {
      UnheardAdvance(hash, message, key, h, gs[0], input);
      UnheardWork(hash, message, key, h, gs[1..], reply, input);
      ReachesVia(hash, Unheard(message, key, h, Cancelling, gs[0], Working), Advance(0, input),
                 Unheard(message, key, h, Cancelling, gs[1], Working),
                 Unheard(message, key, h, Cancelling, gs[|gs| - 1], Done));
    }
  }

  /** From the start of the producer to a cancel that only reaches the row. */
  lemma UnheardCancel(hash: string -> string, message: string, key: string, h: string, g: Graph, last: System)
    requires Reaches(hash, Unheard(message, key, h, Cancelling, g, Working), last)
    ensures Reaches(hash, Unheard(message, key, h, Running, g, Unstarted), last)
  {
    hide Leads, Reaches, Unheard;
    UnheardStart(hash, message, key, h, g);
    ReachesVia(hash, Unheard(message, key, h, Running, g, Working), UserCancel(0),
               Unheard(message, key, h, Cancelling, g, Working), last);
    ReachesVia(hash, Unheard(message, key, h, Running, g, Looked), Launch(0), Unheard(message, key, h, Running, g, Working), last);
    ReachesVia(hash, Unheard(message, key, h, Running, g, Registered), Look(0), Unheard(message, key, h, Running, g, Looked), last);
    ReachesVia(hash, Unheard(message, key, h, Running, g, Unstarted), Produce(0),
               Unheard(message, key, h, Running, g, Registered), last);
  }

  /**
  A save that is refused because the row is already cancelling, while `stopped` is still unset,
  ends the execution without `mark_cancelled`. From then on, on every continuation, the run is
  cancelling and the session refuses every new request.
  */
  lemma CancelMayNeverBeAcknowledged(hash: string -> string, message: string, requestId: string, reply: string)
    returns (s: System)
    requires ValidRequestId(requestId).Ok?
    ensures Reachable(hash, s) && Stuck(s, 0)
    ensures forall t :: Reaches(hash, s, t) ==> Stuck(t, 0)
    ensures forall t, message', requestId' ::
              && Reaches(hash, s, t) && ValidRequestId(requestId').Ok?
              && (forall j :: 0 <= j < |t.session.runs| ==> t.session.runs[j].requestId != Trim(requestId'))
              ==> ReserveRun(hash, t.session, message', requestId') == ReserveOutcome(t.session, Err(RunActive(0)))
  {
    s := UnheardSystem(hash, message, requestId, reply);
    StuckSession(hash, s);
  }

  lemma UnheardSystem(hash: string -> string, message: string, requestId: string, reply: string) returns (s: System)
    requires ValidRequestId(requestId).Ok?
    ensures Reachable(hash, s) && Stuck(s, 0)
  {
    hide Trim;
    var key, h, quiet := Trim(requestId), hash(Trim(message)), Input(ModeGenerate, false, "");
    var g := Start(message);
    var g' := Step(g, quiet);
    var g'' := Step(g', quiet);
    UnheardWork(hash, message, key, h, [g, g', g'', Step(g'', quiet)], reply, quiet);
    FirstReserve(hash, message, requestId);
    var first := Unheard(message, key, h, Running, g, Unstarted);
    s := Unheard(message, key, h, Cancelling, Step(g'', quiet), Done);
    FirstRequestIsAccepted(hash, message, requestId);
    hide Apply, Enabled, Unheard, Step;
    UnheardCancel(hash, message, key, h, g, s);
    ReachesVia(hash, INIT, Reserve(message, requestId), first, s);
    UnheardIsStuck(message, key, h, Step(g'', quiet));
  }

  lemma FirstRequestIsAccepted(hash: string -> string, message: string, requestId: string)
    ensures Enabled(INIT, Reserve(message, requestId))
  {
  }

  lemma UnheardIsStuck(message: string, key: string, h: string, g: Graph)
    ensures Stuck(Unheard(message, key, h, Cancelling, g, Done), 0)
  {
  }

  lemma StuckSession(hash: string -> string, s: System)
    requires Reachable(hash, s) && Stuck(s, 0)
    ensures forall t :: Reaches(hash, s, t) ==> Stuck(t, 0)
    ensures forall t, message', requestId' ::
              && Reaches(hash, s, t) && ValidRequestId(requestId').Ok?
              && (forall j :: 0 <= j < |t.session.runs| ==> t.session.runs[j].requestId != Trim(requestId'))
              ==> ReserveRun(hash, t.session, message', requestId') == ReserveOutcome(t.session, Err(RunActive(0)))
  {
    hide Trim, Inv, Stuck, Reaches, ReserveRun;
    forall t | Reaches(hash, s, t) ensures Inv(t) && Stuck(t, 0) { StuckForGood(hash, s, t, 0); }
    forall t, message', requestId' | && Reaches(hash, s, t) && ValidRequestId(requestId').Ok?
      && (forall j :: 0 <= j < |t.session.runs| ==> t.session.runs[j].requestId != Trim(requestId'))
      ensures ReserveRun(hash, t.session, message', requestId') == ReserveOutcome(t.session, Err(RunActive(0)))
    {
      StuckSessionRefuses(hash, t, 0, message', requestId');
    }
  }
}
