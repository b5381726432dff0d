/**
Runs of one session under concurrency: users, executions (backend/agent/execution.py), their
workers and the cancellers interleave; every database transaction is one step.
*/
module ChatProtocol {
  import opened Wrappers
  import opened Text
  import opened ChatRuns
  import opened ChatGraph

  /** Where the coroutine `Execution.run` stands. */
  datatype Phase =
    | Unstarted    // the request is accepted, its producer has not run yet
    | Registered   // before the first look at the run row
    | Looked       // before `check_cancelled`
    | Working      // the worker thread runs `chat_with_agent`
    | Returned     // the worker has returned
    | Failing      // the worker has raised: `mark_failed` is next
    | Finalizing   // before `stopped` is read
    | Cancelling_  // `stopped` was set: `cancel_run` is next
    | Marking      // `mark_cancelled` is next
    | Done

  datatype Execution = Execution(run: RunId, phase: Phase, stopped: bool, sawStopped: bool)

  datatype System = System(session: Session, graphs: seq<Graph>, executions: seq<Execution>)

  const INIT := System(Session(false, [], []), [], [])

  datatype Action =
    | Reserve(message: string, requestId: string)
    | Resumed(run: RunId, answer: string, requestId: string)
    | UserCancel(run: RunId)
    | Stop(e: nat)               // watcher, disconnect, cancel_local or shutdown
    | Fail(run: RunId, code: string)
    | Produce(e: nat)            // the producer's first step
    | Disconnect(e: nat)         // the stream is closed before that: the endpoint cancels and acknowledges
    | Look(e: nat)
    | Launch(e: nat)
    | Advance(e: nat, input: Input)
    | SaveQuestion(e: nat, drafts: seq<Draft>, hitl: string)
    | SaveAnswer(e: nat, drafts: seq<Draft>)
    | Unwind(e: nat)             // the worker raises RunCancelled, or anything once its coroutine is cancelled
    | Crash(e: nat)              // the worker raises anything else
    | Return(e: nat)
    | MarkFailure(e: nat, code: string)
    | Finalize(e: nat)
    | CancelOwn(e: nat)
    | MarkOwn(e: nat)

  predicate OnExecution(a: Action) {
    !(a.Reserve? || a.Resumed? || a.UserCancel? || a.Fail?)
  }

  /** New messages of one turn: at most a summary, then the reply. */
  predicate Turn(drafts: seq<Draft>) {
    1 <= |drafts| <= 2 && drafts[|drafts| - 1].kind == Ai && (|drafts| == 2 ==> drafts[0].kind == Summary)
  }

  predicate Enabled(s: System, a: Action) {
    if OnExecution(a) then
      a.e < |s.executions| && s.executions[a.e].run < |s.session.runs| && s.executions[a.e].run < |s.graphs| &&
      var x, g := s.executions[a.e], s.graphs[s.executions[a.e].run];
      match a
      case Produce(_) => x.phase == Unstarted
      case Disconnect(_) => x.phase == Unstarted
      case Stop(_) => x.phase != Unstarted && x.phase != Done
      case Look(_) => x.phase == Registered
      case Launch(_) => x.phase == Looked
      case Advance(_, input) =>
        x.phase == Working && g.next != End && (g.next == Interrupted ==> OwesAnswer(s, x.run) && Answers(s, x.run, input))
      case SaveQuestion(_, drafts, _) => x.phase == Working && g.next == Interrupted && !OwesAnswer(s, x.run) && Turn(drafts)
      case SaveAnswer(_, drafts) => x.phase == Working && g.next == End && Turn(drafts)
      case Unwind(_) => x.phase == Working && x.stopped
      case Crash(_) => x.phase == Working
      case Return(_) => x.phase == Returned
      case MarkFailure(_, _) => x.phase == Failing
      case Finalize(_) => x.phase == Finalizing
      case CancelOwn(_) => x.phase == Cancelling_
      case MarkOwn(_) => x.phase == Marking
    else if a.Reserve? then true
    else a.run < |s.session.runs|
  }

  /** The run has accepted an answer that its graph has not taken yet. */
  predicate OwesAnswer(s: System, i: RunId)
    requires i < |s.session.runs| && i < |s.graphs|
  {
    |s.session.runs[i].resumes| == s.graphs[i].rounds
  }

  /** The run is resumed with the answer that was accepted last. */
  predicate Answers(s: System, i: RunId, input: Input) {
    var said := Spoken(s.session.messages, i);
    said != [] && input.answer == said[|said| - 1]
  }

  /** The transaction of an action, if it has one. */
  function SessionAfter(hash: string -> string, s: System, a: Action): Session
    requires Enabled(s, a)
  {
    var t := s.session;
    match a
    case Reserve(message, requestId) => ReserveRun(hash, t, message, requestId).session
    case Resumed(i, answer, requestId) => ReserveResume(hash, t, i, answer, requestId).session
    case UserCancel(i) => CancelRun(t, i)
    case Fail(i, code) => MarkFailed(t, i, code)
    case SaveQuestion(e, drafts, hitl) => Save(t, s.executions[e].run, drafts, WaitingHitl, "", Some(hitl)).session
    case SaveAnswer(e, drafts) =>
      Save(t, s.executions[e].run, drafts, Completed, drafts[|drafts| - 1].content, None).session
    case MarkFailure(e, code) => MarkFailed(t, s.executions[e].run, code)
    case CancelOwn(e) => CancelRun(t, s.executions[e].run)
    case MarkOwn(e) => MarkCancelled(t, s.executions[e].run)
    case _ => t
  }

  /** Where the execution of an action goes; whether a worker saved or was refused, it returns. */
  function ExecutionAfter(s: System, a: Action): Execution
    requires OnExecution(a) && Enabled(s, a)
  {
    var x := s.executions[a.e];
    match a
    case Produce(_) => x.(phase := Registered)
    case Disconnect(_) => x.(phase := Cancelling_, stopped := true, sawStopped := true)
    case Stop(_) => x.(stopped := true)
    case Look(_) =>
      x.(phase := Looked, stopped := x.stopped || s.session.runs[x.run].status in {Cancelling, Cancelled})
    case Launch(_) => x.(phase := if x.stopped then Finalizing else Working)
    case Advance(_, _) => x
    case SaveQuestion(_, _, _) => x.(phase := Returned)
    case SaveAnswer(_, _) => x.(phase := Returned)
    case Unwind(_) => x.(phase := Finalizing)
    case Crash(_) => x.(phase := Failing)
    case Return(_) => x.(phase := Finalizing)
    case MarkFailure(_, _) => x.(phase := Finalizing)
    case Finalize(_) => x.(phase := if x.stopped then Cancelling_ else Done, sawStopped := x.stopped)
    case CancelOwn(_) => x.(phase := Marking)
    case MarkOwn(_) => x.(phase := Done)
  }

  /** The run an accepted request starts to execute. */
  function Started(hash: string -> string, s: System, a: Action): Option<RunId>
    requires Enabled(s, a)
  {
    var reply :=
      match a
      case Reserve(message, requestId) => ReserveRun(hash, s.session, message, requestId).reply
      case Resumed(i, answer, requestId) => ReserveResume(hash, s.session, i, answer, requestId).reply
      case _ => Err(RunNotFound);
    if reply.Ok? && reply.value.created then Some(reply.value.run) else None
  }

  function Apply(hash: string -> string, s: System, a: Action): System
    requires Enabled(s, a)
  {
    var started := Started(hash, s, a);
    System(
      SessionAfter(hash, s, a),
      if a.Advance? then
        s.graphs[s.executions[a.e].run := Step(s.graphs[s.executions[a.e].run], a.input)]
      else if a.Reserve? && started.Some? then s.graphs + [Start(a.message)]
      else s.graphs,
      if OnExecution(a) then s.executions[a.e := ExecutionAfter(s, a)]
      else if started.Some? then s.executions + [Execution(started.value, Unstarted, false, false)]
      else s.executions)
  }
}
