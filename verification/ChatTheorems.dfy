/** What every run of the chat protocol guarantees. */
module ChatTheorems {
  import opened Wrappers
  import opened Text
  import opened ChatRuns
  import opened ChatGraph
  import opened ChatInvariant
  import opened ChatProtocol

  // ---- the invariant ----

  /** The graph of a run and its row agree on the clarification rounds. */
  predicate Joint(run: Run, g: Graph) {
    && GraphOk(g)
    && |run.resumes| <= g.rounds <= |run.resumes| + 1
    && (g.next != Interrupted ==> g.rounds == |run.resumes|)
    && (run.status == WaitingHitl ==> g.next == Interrupted && g.rounds == |run.resumes| + 1)
  }

  predicate Stopping(status: RunStatus) {
    IsTerminal(status) || status == Cancelling
  }

  predicate ExecutionOk(s: Session, x: Execution) {
    && x.run < |s.runs|
    && (x.phase == Marking ==> Stopping(s.runs[x.run].status))
    && (x.sawStopped && x.phase == Done ==> IsTerminal(s.runs[x.run].status))
    && (x.sawStopped ==> x.phase in {Cancelling_, Marking, Done})
  }

  predicate Inv(s: System) {
    && SessionOk(s.session)
    && |s.graphs| == |s.session.runs|
    && (forall i :: 0 <= i < |s.graphs| ==> Joint(s.session.runs[i], s.graphs[i]))
    && (forall e :: 0 <= e < |s.executions| ==> ExecutionOk(s.session, s.executions[e]))
  }

  // ---- how a run row may change ----

  predicate NoNewMessages(s: Session, s': Session, i: RunId) {
    s.messages <= s'.messages && forall k :: |s.messages| <= k < |s'.messages| ==> s'.messages[k].run != i
  }

  /** From `s` to `s'`: what is decided about run `i` stays decided. */
  predicate Later(s: Session, s': Session, i: RunId)
    requires i < |s.runs|
  {
    && |s.runs| <= |s'.runs| && s.messages <= s'.messages && (s.exists_ ==> s'.exists_)
    && s'.runs[i].requestId == s.runs[i].requestId && s'.runs[i].requestHash == s.runs[i].requestHash
    && s.runs[i].resumes <= s'.runs[i].resumes
    && (IsTerminal(s.runs[i].status) ==> s'.runs[i] == s.runs[i])
    && (s.runs[i].status == Cancelling ==>
          && s'.runs[i].status in {Cancelling, Cancelled}
          && s'.runs[i].output == s.runs[i].output && s'.runs[i].resumes == s.runs[i].resumes)
    && (Stopping(s.runs[i].status) ==> NoNewMessages(s, s', i))
  }

  lemma LaterIsTransitive(s: Session, s': Session, s'': Session, i: RunId)
    requires i < |s.runs| && Later(s, s', i) && Later(s', s'', i)
    ensures Later(s, s'', i)
  {
    if Stopping(s.runs[i].status) {
      forall k | |s.messages| <= k < |s''.messages| ensures s''.messages[k].run != i {
        if k < |s'.messages| { assert s'.messages[k] == s''.messages[k]; }
      }
    }
  }

  lemma ReserveIsLater(hash: string -> string, s: Session, message: string, requestId: string, i: RunId)
    requires i < |s.runs|
    ensures Later(s, ReserveRun(hash, s, message, requestId).session, i)
  {
  }

  lemma ResumeIsLater(hash: string -> string, s: Session, j: RunId, answer: string, requestId: string, i: RunId)
    requires i < |s.runs|
    ensures Later(s, ReserveResume(hash, s, j, answer, requestId).session, i)
  {
  }

  lemma CancelIsLater(s: Session, j: RunId, i: RunId)
    requires i < |s.runs| && j < |s.runs|
    ensures Later(s, CancelRun(s, j), i)
  {
  }

  lemma MarksAreLater(s: Session, j: RunId, code: string, i: RunId)
    requires i < |s.runs| && j < |s.runs|
    ensures Later(s, MarkFailed(s, j, code), i) && Later(s, MarkCancelled(s, j), i)
  {
  }

  lemma SaveIsLater(s: Session, j: RunId, drafts: seq<Draft>, target: RunStatus, output: string, hitl: Option<string>, i: RunId)
    requires i < |s.runs| && Indexed(s.messages)
    ensures Later(s, Save(s, j, drafts, target, output, hitl).session, i)
  {
    AppendAllCounts(s.messages, j, drafts);
  }

  /** Every step leaves every settled run as it is. */
  lemma StepIsLater(hash: string -> string, s: System, a: Action, i: RunId)
    requires SessionOk(s.session) && Enabled(s, a) && i < |s.session.runs|
    ensures Later(s.session, SessionAfter(hash, s, a), i)
  {
    var t := s.session;
    match a {
      case Reserve(message, requestId) => ReserveIsLater(hash, t, message, requestId, i);
      case Resumed(j, answer, requestId) => ResumeIsLater(hash, t, j, answer, requestId, i);
      case UserCancel(j) => CancelIsLater(t, j, i);
      case Fail(j, code) => MarksAreLater(t, j, code, i);
      case SaveQuestion(e, drafts, hitl) => SaveIsLater(t, s.executions[e].run, drafts, WaitingHitl, "", Some(hitl), i);
      case SaveAnswer(e, drafts) =>
        SaveIsLater(t, s.executions[e].run, drafts, Completed, drafts[|drafts| - 1].content, None, i);
      case MarkFailure(e, code) => MarksAreLater(t, s.executions[e].run, code, i);
      case CancelOwn(e) => CancelIsLater(t, s.executions[e].run, i);
      case MarkOwn(e) => MarksAreLater(t, s.executions[e].run, "", i);
      case _ =>
    }
  }

  // ---- every step keeps the invariant ----

  lemma TurnHasOneReply(drafts: seq<Draft>)
    requires Turn(drafts)
    ensures Drafts(drafts, Ai) == 1 && Drafts(drafts, Human) == 0
  {
    if |drafts| == 1 {
      assert drafts[..0] == [];
    } else {
      var one := [drafts[0]];
      assert drafts[..1] == one && one[..0] == [];
      assert Drafts(one, Ai) == 0 && Drafts(one, Human) == 0;
    }
  }

  lemma StepKeepsSession(hash: string -> string, s: System, a: Action)
    requires SessionOk(s.session) && Enabled(s, a)
    ensures SessionOk(SessionAfter(hash, s, a))
  {
    var t := s.session;
    match a {
      case Reserve(message, requestId) => ReserveKeepsSession(hash, t, message, requestId);
      case Resumed(j, answer, requestId) => ResumeKeepsSession(hash, t, j, answer, requestId);
      case UserCancel(j) => CancelKeepsSession(t, j);
      case Fail(j, code) => MarksKeepSession(t, j, code);
      case SaveQuestion(e, drafts, hitl) =>
        TurnHasOneReply(drafts);
        SaveKeepsSession(t, s.executions[e].run, drafts, WaitingHitl, "", Some(hitl));
      case SaveAnswer(e, drafts) =>
        TurnHasOneReply(drafts);
        SaveKeepsSession(t, s.executions[e].run, drafts, Completed, drafts[|drafts| - 1].content, None);
      case MarkFailure(e, code) => MarksKeepSession(t, s.executions[e].run, code);
      case CancelOwn(e) => CancelKeepsSession(t, s.executions[e].run);
      case MarkOwn(e) => MarksKeepSession(t, s.executions[e].run, "");
      case _ =>
    }
  }

  /** How a transaction may change the row of a run, as far as its graph is concerned. */
  lemma RowAfter(hash: string -> string, s: System, a: Action, i: RunId)
    requires Inv(s) && Enabled(s, a) && i < |s.session.runs|
    ensures i < |SessionAfter(hash, s, a).runs|
    ensures var run, run' := s.session.runs[i], SessionAfter(hash, s, a).runs[i];
            || (run'.resumes == run.resumes
                && (run'.status == WaitingHitl ==>
                      run.status == WaitingHitl || (a.SaveQuestion? && s.executions[a.e].run == i)))
            || (run.status == WaitingHitl && run'.status == Running && |run'.resumes| == |run.resumes| + 1)
  {
    hide AppendAll, Append, NextIndex, Trim, Count, GraphOk;
  }

  lemma StepKeepsJoint(hash: string -> string, s: System, a: Action, i: RunId)
    requires Inv(s) && Enabled(s, a)
    requires |Apply(hash, s, a).graphs| == |SessionAfter(hash, s, a).runs| && i < |Apply(hash, s, a).graphs|
    ensures Joint(SessionAfter(hash, s, a).runs[i], Apply(hash, s, a).graphs[i])
  {
    if i < |s.graphs| {
      assert Joint(s.session.runs[i], s.graphs[i]);
      RowAfter(hash, s, a, i);
      if a.Advance? && i == s.executions[a.e].run {
        StepKeepsGraph(s.graphs[i], a.input);
      }
    }
  }

  lemma OwnExecution(hash: string -> string, s: System, a: Action)
    requires Inv(s) && Enabled(s, a) && OnExecution(a)
    ensures ExecutionOk(SessionAfter(hash, s, a), ExecutionAfter(s, a))
  {
    assert ExecutionOk(s.session, s.executions[a.e]);
    StepIsLater(hash, s, a, s.executions[a.e].run);
  }

  lemma OtherExecution(hash: string -> string, s: System, a: Action, x: Execution)
    requires SessionOk(s.session) && Enabled(s, a) && ExecutionOk(s.session, x)
    ensures ExecutionOk(SessionAfter(hash, s, a), x)
  {
    hide SessionOk, Enabled, SessionAfter;
    StepIsLater(hash, s, a, x.run);
  }

  lemma NewExecution(hash: string -> string, s: System, a: Action)
    requires Enabled(s, a) && Started(hash, s, a).Some?
    ensures ExecutionOk(SessionAfter(hash, s, a), Execution(Started(hash, s, a).value, Unstarted, false, false))
  {
    hide Append, AppendAll, NextIndex, Trim;
  }

  lemma ExecutionsAfter(hash: string -> string, s: System, a: Action, e: nat)
    requires Enabled(s, a) && e < |Apply(hash, s, a).executions|
    ensures var x' := Apply(hash, s, a).executions[e];
            if OnExecution(a) && e == a.e then x' == ExecutionAfter(s, a)
            else if e < |s.executions| then x' == s.executions[e]
            else !OnExecution(a) && Started(hash, s, a).Some? && x' == Execution(Started(hash, s, a).value, Unstarted, false, false)
  {
    hide SessionAfter, ExecutionAfter, Started;
  }

  lemma StepKeepsExecution(hash: string -> string, s: System, a: Action, e: nat)
    requires Inv(s) && Enabled(s, a) && e < |Apply(hash, s, a).executions|
    ensures ExecutionOk(SessionAfter(hash, s, a), Apply(hash, s, a).executions[e])
  {
    ExecutionsAfter(hash, s, a, e);
    hide Apply, Enabled, SessionAfter, ExecutionAfter, Started, SessionOk, Joint, ExecutionOk;
    if OnExecution(a) && e == a.e {
      OwnExecution(hash, s, a);
    } else if e < |s.executions| {
      OtherExecution(hash, s, a, s.executions[e]);
    } else {
      NewExecution(hash, s, a);
    }
  }

  /** The three parts of the next state. */
  lemma NextParts(hash: string -> string, s: System, a: Action)
    requires Enabled(s, a)
    ensures var s' := Apply(hash, s, a);
            && s'.session == SessionAfter(hash, s, a)
            && s'.executions == (if OnExecution(a) then s.executions[a.e := ExecutionAfter(s, a)]
                                 else if Started(hash, s, a).Some?
                                   then s.executions + [Execution(Started(hash, s, a).value, Unstarted, false, false)]
                                 else s.executions)
  {
    hide SessionAfter, Started, ExecutionAfter, Step;
  }

  lemma SameExecution(s: System, a: Action)
    requires OnExecution(a) && Enabled(s, a)
    ensures a.e < |s.executions|
    ensures ExecutionAfter(s, a).run == s.executions[a.e].run && s.executions[a.e].phase != Done
  {
  }

  lemma GraphsFollowRuns(hash: string -> string, s: System, a: Action)
    requires Inv(s) && Enabled(s, a)
    ensures |Apply(hash, s, a).graphs| == |Apply(hash, s, a).session.runs|
    ensures Apply(hash, s, a).session == SessionAfter(hash, s, a)
  {
    hide AppendAll, Append, NextIndex, Trim, SessionOk, Joint, ExecutionOk, Step;
  }

  lemma StepKeepsInv(hash: string -> string, s: System, a: Action)
    requires Inv(s) && Enabled(s, a)
    ensures Inv(Apply(hash, s, a))
  {
    hide Apply, SessionAfter, Enabled, Joint, ExecutionOk, SessionOk;
    var s' := Apply(hash, s, a);
    StepKeepsSession(hash, s, a);
    GraphsFollowRuns(hash, s, a);
    forall i | 0 <= i < |s'.graphs| ensures Joint(s'.session.runs[i], s'.graphs[i]) {
      StepKeepsJoint(hash, s, a, i);
    }
    forall e | 0 <= e < |s'.executions| ensures ExecutionOk(s'.session, s'.executions[e]) {
      StepKeepsExecution(hash, s, a, e);
    }
  }

  // ---- runs of the protocol ----

  ghost predicate Runs(hash: string -> string, s: System, actions: seq<Action>)
    decreases |actions|
  {
    actions == [] || (Enabled(s, actions[0]) && Runs(hash, Apply(hash, s, actions[0]), actions[1..]))
  }

  ghost function After(hash: string -> string, s: System, actions: seq<Action>): System
    requires Runs(hash, s, actions)
    decreases |actions|
  {
    if actions == [] then s else After(hash, Apply(hash, s, actions[0]), actions[1..])
  }

  lemma {:induction false} RunKeepsInv(hash: string -> string, s: System, actions: seq<Action>)
    requires Inv(s) && Runs(hash, s, actions)
    ensures Inv(After(hash, s, actions))
    decreases |actions|
  {
    if actions != [] {
      StepKeepsInv(hash, s, actions[0]);
      RunKeepsInv(hash, Apply(hash, s, actions[0]), actions[1..]);
    }
  }

  ghost predicate Reaches(hash: string -> string, s: System, t: System) {
    exists actions :: Runs(hash, s, actions) && After(hash, s, actions) == t
  }

  ghost predicate Reachable(hash: string -> string, s: System) {
    Reaches(hash, INIT, s)
  }

  lemma ReachableInv(hash: string -> string, s: System)
    requires Reachable(hash, s)
    ensures Inv(s)
  {
    var actions :| Runs(hash, INIT, actions) && After(hash, INIT, actions) == s;
    RunKeepsInv(hash, INIT, actions);
  }

  lemma {:induction false} RunIsLater(hash: string -> string, s: System, actions: seq<Action>, i: RunId)
    requires Inv(s) && Runs(hash, s, actions) && i < |s.session.runs|
    ensures Inv(After(hash, s, actions)) && Later(s.session, After(hash, s, actions).session, i)
    decreases |actions|
  {
    if actions != [] {
      var s' := Apply(hash, s, actions[0]);
      StepKeepsInv(hash, s, actions[0]);
      StepIsLater(hash, s, actions[0], i);
      RunIsLater(hash, s', actions[1..], i);
      LaterIsTransitive(s.session, s'.session, After(hash, s', actions[1..]).session, i);
    }
  }

  /** Terminal rows never change, and after an accepted cancel nothing is written for the run. */
  lemma SettledRunsStay(hash: string -> string, s: System, t: System, i: RunId)
    requires Inv(s) && Reaches(hash, s, t) && i < |s.session.runs|
    ensures Inv(t) && Later(s.session, t.session, i)
  {
    var actions :| Runs(hash, s, actions) && After(hash, s, actions) == t;
    RunIsLater(hash, s, actions, i);
  }

  /**
  In every reachable state: message indices count up from zero without gaps, at most one run is
  active, each run has one human message more than accepted answers and its reply count follows
  from its status, and the markers of a row follow from its status.
  */
  lemma EverySessionIsConsistent(hash: string -> string, s: System)
    requires Reachable(hash, s)
    ensures var t := s.session;
            && (forall k :: 0 <= k < |t.messages| ==> t.messages[k].index == k)
            && (forall i, j :: 0 <= i < j < |t.runs| ==> !(IsActive(t.runs[i].status) && IsActive(t.runs[j].status)))
            && (forall i :: 0 <= i < |t.runs| ==> RunOk(t.runs[i], Count(t.messages, Human, i), Count(t.messages, Ai, i)))
  {
    ReachableInv(hash, s);
    var t := s.session;
    forall i | 0 <= i < |t.runs| ensures RunOk(t.runs[i], Count(t.messages, Human, i), Count(t.messages, Ai, i)) {
      assert SessionRun(t, i);
    }
  }

  /** If a finalizer saw `stopped`, the run is terminal when `done` is set, and for good. */
  lemma StoppedExecutionsEndTheirRun(hash: string -> string, s: System, e: nat)
    requires Reachable(hash, s)
    requires e < |s.executions| && s.executions[e].phase == Done && s.executions[e].sawStopped
    ensures s.executions[e].run < |s.session.runs| && IsTerminal(s.session.runs[s.executions[e].run].status)
  {
    ReachableInv(hash, s);
    assert ExecutionOk(s.session, s.executions[e]);
  }

  /** No run accepts more answers than there are clarification rounds. */
  lemma ResumesAreBounded(hash: string -> string, s: System, i: RunId)
    requires Reachable(hash, s) && i < |s.session.runs|
    ensures |s.graphs| == |s.session.runs|
    ensures |s.session.runs[i].resumes| <= MAX_HITL_ROUNDS && s.graphs[i].retrievals <= MAX_HITL_ROUNDS + 1
  {
    ReachableInv(hash, s);
    assert Joint(s.session.runs[i], s.graphs[i]);
  }

  // ---- idempotent requests ----

  lemma FoundByRequest(runs: seq<Run>, i: RunId, key: string)
    requires DistinctRequests(runs) && i < |runs| && runs[i].requestId == key
    ensures FirstIndex(runs, (r: Run) => r.requestId == key) == i
  {
  }

  lemma FoundByResume(resumes: seq<Resume>, k: nat, key: string)
    requires forall i, j :: 0 <= i < j < |resumes| ==> resumes[i].requestId != resumes[j].requestId
    requires k < |resumes| && resumes[k].requestId == key
    ensures FirstIndex(resumes, (r: Resume) => r.requestId == key) == k
  {
  }

  lemma RepeatedRequest(hash: string -> string, t: Session, i: RunId, requestHash: string, message: string, requestId: string)
    requires SessionOk(t) && i < |t.runs| && ValidRequestId(requestId).Ok?
    requires t.runs[i].requestId == Trim(requestId) && t.runs[i].requestHash == requestHash
    ensures ReserveRun(hash, t, message, requestId) ==
            ReserveOutcome(t, if hash(Trim(message)) == requestHash then Ok(Reservation(i, false))
                              else Err(IdempotencyConflict(i)))
  {
    FoundByRequest(t.runs, i, Trim(requestId));
  }

  lemma RepeatedAnswer(hash: string -> string, t: Session, i: RunId, k: nat, answer: string, requestId: string)
    requires SessionOk(t) && i < |t.runs| && ValidRequestId(requestId).Ok?
    requires k < |t.runs[i].resumes| && t.runs[i].resumes[k].requestId == Trim(requestId)
    ensures ReserveResume(hash, t, i, answer, requestId) ==
            ReserveOutcome(t, if hash(Trim(answer)) == t.runs[i].resumes[k].requestHash then Ok(Reservation(i, false))
                              else Err(IdempotencyConflict(i)))
  {
    assert SessionRun(t, i);
    FoundByResume(t.runs[i].resumes, k, Trim(requestId));
  }

  lemma CreatedRun(hash: string -> string, s: Session, message: string, requestId: string)
    requires var o := ReserveRun(hash, s, message, requestId); o.reply.Ok? && o.reply.value.created
    ensures ValidRequestId(requestId).Ok?
    ensures ReserveRun(hash, s, message, requestId).session.runs == s.runs + [NewRun(Trim(requestId), hash(Trim(message)))]
  {
  }

  lemma AcceptedAnswer(hash: string -> string, s: Session, i: RunId, answer: string, requestId: string)
    requires var o := ReserveResume(hash, s, i, answer, requestId); o.reply.Ok? && o.reply.value.created
    ensures ValidRequestId(requestId).Ok? && i < |s.runs|
    ensures var t := ReserveResume(hash, s, i, answer, requestId).session;
            i < |t.runs| && t.runs[i].resumes == s.runs[i].resumes + [Resume(Trim(requestId), hash(Trim(answer)))]
  {
  }

  /**
  A request that created a run is answered with that run whenever it comes again, whatever happened
  in between; under the same id, another message is refused. Neither changes a row.
  */
  lemma RepeatedRequestsChangeNothing(
    hash: string -> string, s: System, message: string, requestId: string, t: System, message': string)
    requires Reachable(hash, s)
    requires var o := ReserveRun(hash, s.session, message, requestId); o.reply.Ok? && o.reply.value.created
    requires Reaches(hash, Apply(hash, s, Reserve(message, requestId)), t)
    ensures ReserveRun(hash, t.session, message', requestId) ==
            ReserveOutcome(t.session,
                           if hash(Trim(message')) == hash(Trim(message)) then Ok(Reservation(|s.session.runs|, false))
                           else Err(IdempotencyConflict(|s.session.runs|)))
  {
    var i, s' := |s.session.runs|, Apply(hash, s, Reserve(message, requestId));
    ReachableInv(hash, s);
    CreatedRun(hash, s.session, message, requestId);
    StepKeepsInv(hash, s, Reserve(message, requestId));
    SettledRunsStay(hash, s', t, i);
    RepeatedRequest(hash, t.session, i, hash(Trim(message)), message', requestId);
  }

  /** The same for an accepted answer of a waiting run. */
  lemma RepeatedAnswersChangeNothing(
    hash: string -> string, s: System, i: RunId, answer: string, requestId: string, t: System, answer': string)
    requires Reachable(hash, s) && i < |s.session.runs|
    requires var o := ReserveResume(hash, s.session, i, answer, requestId); o.reply.Ok? && o.reply.value.created
    requires Reaches(hash, Apply(hash, s, Resumed(i, answer, requestId)), t)
    ensures ReserveResume(hash, t.session, i, answer', requestId) ==
            ReserveOutcome(t.session,
                           if hash(Trim(answer')) == hash(Trim(answer)) then Ok(Reservation(i, false))
                           else Err(IdempotencyConflict(i)))
  {
    var k, s' := |s.session.runs[i].resumes|, Apply(hash, s, Resumed(i, answer, requestId));
    ReachableInv(hash, s);
    AcceptedAnswer(hash, s.session, i, answer, requestId);
    StepKeepsInv(hash, s, Resumed(i, answer, requestId));
    SettledRunsStay(hash, s', t, i);
    assert t.session.runs[i].resumes[k] == s'.session.runs[i].resumes[k];
    RepeatedAnswer(hash, t.session, i, k, answer', requestId);
  }
}
