/**
The rows of one chat session: its runs and its append-only messages (backend/agent/run_manager.py
and `ConversationStorage.save` in backend/agent/agent.py). A run is named by its row number, which
stands for its fresh random id. Every function is one database transaction.
*/
module ChatRuns {
  import opened Wrappers
  import opened Text

  type RunId = nat

  datatype RunStatus = Running | WaitingHitl | Cancelling | Completed | RunFailed | Cancelled

  predicate IsActive(s: RunStatus) {
    s in {Running, WaitingHitl, Cancelling}
  }

  predicate IsTerminal(s: RunStatus) {
    s in {Completed, RunFailed, Cancelled}
  }

  datatype Resume = Resume(requestId: string, requestHash: string)

  datatype Run = Run(
    requestId: string,
    requestHash: string,
    status: RunStatus,
    output: string,
    hitl: Option<string>,
    errorCode: Option<string>,
    finished: bool,
    resumes: seq<Resume>)

  datatype Kind = Human | Ai | Summary

  datatype Message = Message(index: nat, kind: Kind, run: RunId, content: string)

  datatype Draft = Draft(kind: Kind, content: string)

  datatype Session = Session(exists_: bool, runs: seq<Run>, messages: seq<Message>)

  datatype RunError =
    | InvalidRequestId | SessionNotFound | RunNotFound
    | IdempotencyConflict(run: RunId) | RunActive(run: RunId) | RunNotWaiting(run: RunId)

  datatype Reservation = Reservation(run: RunId, created: bool)

  const RUN_CANCELLED := "RUN_CANCELLED"

  /** `_validate_request_id`: stripped, 1 to 128 characters. */
  function ValidRequestId(requestId: string): Result<string, RunError> {
    var value := Trim(requestId);
    if value == "" || |value| > 128 then Err(InvalidRequestId) else Ok(value)
  }

  // ---- messages ----

  /** One above the largest index, or zero. */
  function NextIndex(messages: seq<Message>): nat {
    if messages == [] then 0
    else
      var rest, last := NextIndex(messages[..|messages| - 1]), messages[|messages| - 1].index;
      if last + 1 > rest then last + 1 else rest
  }

  function Append(messages: seq<Message>, run: RunId, draft: Draft): seq<Message> {
    messages + [Message(NextIndex(messages), draft.kind, run, draft.content)]
  }

  function AppendAll(messages: seq<Message>, run: RunId, drafts: seq<Draft>): seq<Message> {
    if drafts == [] then messages
    else
      var n := |drafts| - 1;
      Append(AppendAll(messages, run, drafts[..n]), run, drafts[n])
  }

  /** What the user said to a run: its human messages, in order. */
  function Spoken(messages: seq<Message>, run: RunId): seq<string> {
    if messages == [] then []
    else
      var last := messages[|messages| - 1];
      Spoken(messages[..|messages| - 1], run) + (if last.kind == Human && last.run == run then [last.content] else [])
  }

  lemma NextAfterAppend(messages: seq<Message>, run: RunId, draft: Draft)
    ensures NextIndex(Append(messages, run, draft)) == NextIndex(messages) + 1
  {
    var longer := Append(messages, run, draft);
    assert longer[..|longer| - 1] == messages;
  }

  lemma AppendAllStep(messages: seq<Message>, run: RunId, drafts: seq<Draft>, k: nat)
    requires k < |drafts|
    ensures AppendAll(messages, run, drafts[..k + 1]) == Append(AppendAll(messages, run, drafts[..k]), run, drafts[k])
  {
    assert drafts[..k + 1][..k] == drafts[..k];
  }

  lemma AppendNone(messages: seq<Message>, run: RunId)
    ensures AppendAll(messages, run, []) == messages
  {
  }

  // ---- transactions ----

  function WithRun(s: Session, i: RunId, run: Run): Session
    requires i < |s.runs|
  {
    s.(runs := s.runs[i := run])
  }

  function NewRun(requestId: string, requestHash: string): Run {
    Run(requestId, requestHash, Running, "", None, None, false, [])
  }

  datatype ReserveOutcome = ReserveOutcome(session: Session, reply: Result<Reservation, RunError>)

  /** `reserve_run`: an equal request returns its run; otherwise a new run, if none is active. */
  function ReserveRun(hash: string -> string, s: Session, message: string, requestId: string): ReserveOutcome {
    match ValidRequestId(requestId)
    case Err(e) => ReserveOutcome(s, Err(e))
    case Ok(key) =>
      var existing := FirstIndex(s.runs, (r: Run) => r.requestId == key);
      var active := FirstIndex(s.runs, (r: Run) => IsActive(r.status));
      if existing < |s.runs| then
        ReserveOutcome(s, if s.runs[existing].requestHash != hash(Trim(message)) then Err(IdempotencyConflict(existing))
                          else Ok(Reservation(existing, false)))
      else if active < |s.runs| then ReserveOutcome(s, Err(RunActive(active)))
      else
        ReserveOutcome(
          Session(true, s.runs + [NewRun(key, hash(Trim(message)))],
                  Append(s.messages, |s.runs|, Draft(Human, message))),
          Ok(Reservation(|s.runs|, true)))
  }

  /** `reserve_resume`: accept one answer of a waiting run. */
  function ReserveResume(hash: string -> string, s: Session, i: RunId, answer: string, requestId: string): ReserveOutcome {
    match ValidRequestId(requestId)
    case Err(e) => ReserveOutcome(s, Err(e))
    case Ok(key) =>
      if !s.exists_ then ReserveOutcome(s, Err(SessionNotFound))
      else if i >= |s.runs| then ReserveOutcome(s, Err(RunNotFound))
      else
        var run := s.runs[i];
        var existing := FirstIndex(run.resumes, (r: Resume) => r.requestId == key);
        if existing < |run.resumes| then
          ReserveOutcome(s, if run.resumes[existing].requestHash != hash(Trim(answer)) then Err(IdempotencyConflict(i))
                            else Ok(Reservation(i, false)))
        else if run.status != WaitingHitl then ReserveOutcome(s, Err(RunNotWaiting(i)))
        else
          var resumed := run.(status := Running, hitl := None,
                              resumes := run.resumes + [Resume(key, hash(Trim(answer)))]);
          ReserveOutcome(
            WithRun(s, i, resumed).(messages := Append(s.messages, i, Draft(Human, answer))),
            Ok(Reservation(i, true)))
  }

  /** `cancel_run`: a waiting run is cancelled at once, a running one is asked to stop. */
  function CancelRun(s: Session, i: RunId): Session
    requires i < |s.runs|
  {
    var run := s.runs[i];
    if IsTerminal(run.status) then s
    else
      var status := if run.status == WaitingHitl then Cancelled else Cancelling;
      WithRun(s, i, run.(status := status, errorCode := Some(RUN_CANCELLED), hitl := None,
                         finished := run.finished || status == Cancelled))
  }

  /** `_transition` as it is called: `mark_failed` and `mark_cancelled`. */
  function Transition(s: Session, i: RunId, allowed: set<RunStatus>, target: RunStatus, code: string): Session
    requires i < |s.runs|
  {
    var run := s.runs[i];
    if run.status !in allowed then s
    else WithRun(s, i, run.(status := target, hitl := None, errorCode := Some(code),
                            finished := run.finished || IsTerminal(target)))
  }

  function MarkFailed(s: Session, i: RunId, code: string): Session
    requires i < |s.runs|
  {
    Transition(s, i, {Running, WaitingHitl}, RunFailed, code)
  }

  function MarkCancelled(s: Session, i: RunId): Session
    requires i < |s.runs|
  {
    Transition(s, i, {Cancelling}, Cancelled, RUN_CANCELLED)
  }

  datatype SaveOutcome = SaveOutcome(session: Session, saved: bool)

  /** `save` for a run: refused unless the run is still running; messages and status commit together. */
  function Save(s: Session, i: RunId, drafts: seq<Draft>, target: RunStatus, output: string, hitl: Option<string>): SaveOutcome {
    if i >= |s.runs| || s.runs[i].status != Running then SaveOutcome(s, false)
    else
      var run := s.runs[i].(status := target, output := output, hitl := hitl,
                            finished := s.runs[i].finished || IsTerminal(target));
      SaveOutcome(WithRun(s, i, run).(messages := AppendAll(s.messages, i, drafts)), true)
  }

  class SessionStore {
    const hash: string -> string
    var exists_: bool
    var runs: seq<Run>
    var messages: seq<Message>

    function Value(): Session
      reads this
    {
      Session(exists_, runs, messages)
    }

    constructor (hash: string -> string)
      ensures Value() == Session(false, [], []) && this.hash == hash
    {
      this.hash, exists_, runs, messages := hash, false, [], [];
    }

    /** The row of the first run that meets `p`. */
    method Find(p: Run -> bool) returns (i: nat)
      ensures i == FirstIndex(runs, p)
    {
      i := 0;
      while i < |runs| && !p(runs[i])
        invariant i <= |runs|
        invariant FirstIndex(runs, p) == i + FirstIndex(runs[i..], p)
      {
        i := i + 1;
      }
    }

    /** `max(message_index) + 1`, or zero. */
    method FreeIndex() returns (next: nat)
      ensures next == NextIndex(messages)
    {
      next := 0;
      var k := 0;
      while k < |messages|
        invariant 0 <= k <= |messages| && next == NextIndex(messages[..k])
      {
        assert messages[..k + 1][..k] == messages[..k];
        if messages[k].index + 1 > next {
          next := messages[k].index + 1;
        }
        k := k + 1;
      }
      assert messages[..k] == messages;
    }

    method AppendMessage(run: RunId, draft: Draft)
      modifies this`messages
      ensures messages == Append(old(messages), run, draft)
    {
      var next := FreeIndex();
      messages := messages + [Message(next, draft.kind, run, draft.content)];
    }

    method Reserve(message: string, requestId: string) returns (r: Result<Reservation, RunError>)
      modifies this
      ensures ReserveOutcome(Value(), r) == ReserveRun(hash, old(Value()), message, requestId)
    {
      hide NextIndex, Trim, Append, FirstIndex;
      var key := ValidRequestId(requestId);
      if key.Err? {
        return Err(key.error);
      }
      var requestHash := hash(Trim(message));
      var existing := Find((x: Run) => x.requestId == key.value);
      if existing < |runs| {
        if runs[existing].requestHash != requestHash {
          return Err(IdempotencyConflict(existing));
        }
        return Ok(Reservation(existing, false));
      }
      var active := Find((x: Run) => IsActive(x.status));
      if active < |runs| {
        return Err(RunActive(active));
      }
      exists_ := true;
      runs := runs + [NewRun(key.value, requestHash)];
      AppendMessage(|runs| - 1, Draft(Human, message));
      r := Ok(Reservation(|runs| - 1, true));
    }

    method ResumeRun(i: RunId, answer: string, requestId: string) returns (r: Result<Reservation, RunError>)
      modifies this
      ensures ReserveOutcome(Value(), r) == ReserveResume(hash, old(Value()), i, answer, requestId)
    {
      hide NextIndex, Trim, Append, FirstIndex;
      var key := ValidRequestId(requestId);
      if key.Err? {
        return Err(key.error);
      }
      if !exists_ {
        return Err(SessionNotFound);
      }
      if i >= |runs| {
        return Err(RunNotFound);
      }
      var run := runs[i];
      var requestHash := hash(Trim(answer));
      var k := 0;
      while k < |run.resumes| && run.resumes[k].requestId != key.value
        invariant k <= |run.resumes|
        invariant FirstIndex(run.resumes, (x: Resume) => x.requestId == key.value) ==
                  k + FirstIndex(run.resumes[k..], (x: Resume) => x.requestId == key.value)
      {
        k := k + 1;
      }
      if k < |run.resumes| {
        if run.resumes[k].requestHash != requestHash {
          return Err(IdempotencyConflict(i));
        }
        return Ok(Reservation(i, false));
      }
      if run.status != WaitingHitl {
        return Err(RunNotWaiting(i));
      }
      AppendMessage(i, Draft(Human, answer));
      runs := runs[i := run.(status := Running, hitl := None,
                             resumes := run.resumes + [Resume(key.value, requestHash)])];
      r := Ok(Reservation(i, true));
    }

    method Cancel(i: RunId)
      requires i < |runs|
      modifies this`runs
      ensures Value() == CancelRun(old(Value()), i)
    {
      var run := runs[i];
      if !IsTerminal(run.status) {
        run := run.(status := if run.status == WaitingHitl then Cancelled else Cancelling);
        run := run.(errorCode := Some(RUN_CANCELLED), hitl := None);
        if run.status == Cancelled {
          run := run.(finished := true);
        }
        runs := runs[i := run];
      }
    }

    /** `_transition`, as `mark_failed` and `mark_cancelled` use it. */
    method ChangeStatus(i: RunId, allowed: set<RunStatus>, target: RunStatus, code: string) returns (changed: bool)
      requires i < |runs|
      modifies this`runs
      ensures changed <==> old(runs)[i].status in allowed
      ensures Value() == Transition(old(Value()), i, allowed, target, code)
    {
      var run := runs[i];
      if run.status !in allowed {
        return false;
      }
      run := run.(status := target, hitl := None, errorCode := Some(code));
      if IsTerminal(target) {
        run := run.(finished := true);
      }
      runs := runs[i := run];
      changed := true;
    }

    /** The inserts of `save`: the index is read once and counted up. */
    method AppendTurn(i: RunId, drafts: seq<Draft>)
      modifies this`messages
      ensures messages == AppendAll(old(messages), i, drafts)
    {
      hide NextIndex, AppendAll;
      AppendNone(messages, i);
      assert drafts[..0] == [];
      var next := FreeIndex();
      var k := 0;
      while k < |drafts|
        invariant 0 <= k <= |drafts|
        invariant messages == AppendAll(old(messages), i, drafts[..k]) && next == NextIndex(messages)
      {
        AppendAllStep(old(messages), i, drafts, k);
        NextAfterAppend(messages, i, drafts[k]);
        messages := messages + [Message(next, drafts[k].kind, i, drafts[k].content)];
        next := next + 1;
        k := k + 1;
      }
      assert drafts[..k] == drafts;
    }

    method SaveTurn(i: RunId, drafts: seq<Draft>, target: RunStatus, output: string, hitl: Option<string>)
      returns (saved: bool)
      modifies this`runs, this`messages
      ensures SaveOutcome(Value(), saved) == Save(old(Value()), i, drafts, target, output, hitl)
    {
      if i >= |runs| || runs[i].status != Running {
        return false;
      }
      AppendTurn(i, drafts);
      var run := runs[i];
      run := run.(status := target, output := output, hitl := hitl);
      if IsTerminal(target) {
        run := run.(finished := true);
      }
      runs := runs[i := run];
      saved := true;
    }
  }
}
