/** The transactions on a session, by what their callers see: whom a reply is about, and which rows change. */
module ChatTransactions {
  import opened Wrappers
  import opened Text
  import opened ChatRuns

  /** A request id is taken without the white space around it, and needs 1 to 128 characters. */
  lemma RequestIdIsValid(requestId: string)
    ensures ValidRequestId(requestId) ==
            if 1 <= |Trim(requestId)| && |Trim(requestId)| <= 128 then Ok(Trim(requestId)) else Err(InvalidRequestId)
  {
  }

  // ---- messages ----

  /** The free index is above every index, by one only. */
  lemma {:induction false} FreeIndexIsNext(messages: seq<Message>)
    ensures forall k :: 0 <= k < |messages| ==> messages[k].index < NextIndex(messages)
    ensures if messages == [] then NextIndex(messages) == 0
            else exists k :: 0 <= k < |messages| && messages[k].index + 1 == NextIndex(messages)
  {
    if messages != [] {
      var n := |messages| - 1;
      FreeIndexIsNext(messages[..n]);
      if n > 0 {
        var k :| 0 <= k < n && messages[..n][k].index + 1 == NextIndex(messages[..n]);
        assert messages[k].index + 1 == NextIndex(messages[..n]);
      }
      assert messages[n].index + 1 == NextIndex(messages) || NextIndex(messages) == NextIndex(messages[..n]);
    }
  }

  /** The messages of a turn follow one another from the free index on, and nothing before them changes. */
  lemma {:induction false} TurnIsAppended(messages: seq<Message>, i: RunId, drafts: seq<Draft>)
    ensures var r := AppendAll(messages, i, drafts);
            && |r| == |messages| + |drafts| && r[..|messages|] == messages
            && (forall k :: 0 <= k < |drafts| ==>
                  r[|messages| + k] == Message(NextIndex(messages) + k, drafts[k].kind, i, drafts[k].content))
            && NextIndex(r) == NextIndex(messages) + |drafts|
  {
    hide NextIndex;
    if drafts != [] {
      var n := |drafts| - 1;
      TurnIsAppended(messages, i, drafts[..n]);
      NextAfterAppend(AppendAll(messages, i, drafts[..n]), i, drafts[n]);
    }
  }

  // ---- requests ----

  predicate Knows(s: Session, key: string, j: RunId) {
    j < |s.runs| && s.runs[j].requestId == key && forall k :: 0 <= k < j ==> s.runs[k].requestId != key
  }

  predicate Busy(s: Session, j: RunId) {
    && j < |s.runs| && s.runs[j].status in {Running, WaitingHitl, Cancelling}
    && forall k :: 0 <= k < j ==> s.runs[k].status !in {Running, WaitingHitl, Cancelling}
  }

  lemma FirstIndexIs<T>(xs: seq<T>, p: T -> bool, j: nat)
    requires j < |xs| && p(xs[j]) && forall k :: 0 <= k < j ==> !p(xs[k])
    ensures FirstIndex(xs, p) == j
  {
  }

  lemma FirstIndexNone<T>(xs: seq<T>, p: T -> bool)
    requires forall k :: 0 <= k < |xs| ==> !p(xs[k])
    ensures FirstIndex(xs, p) == |xs|
  {
  }

  /** A known request is answered by its run, or refused if its payload is another one. */
  lemma KnownRequest(hash: string -> string, s: Session, message: string, requestId: string, j: RunId)
    requires 1 <= |Trim(requestId)| <= 128 && Knows(s, Trim(requestId), j)
    ensures ReserveRun(hash, s, message, requestId).session == s
    ensures ReserveRun(hash, s, message, requestId).reply ==
            if s.runs[j].requestHash == hash(Trim(message)) then Ok(Reservation(j, false)) else Err(IdempotencyConflict(j))
  {
    hide Trim;
    FirstIndexIs(s.runs, (r: Run) => r.requestId == Trim(requestId), j);
  }

  /** A new request is refused while a run of the session is active. */
  lemma BusySession(hash: string -> string, s: Session, message: string, requestId: string, j: RunId)
    requires 1 <= |Trim(requestId)| <= 128 && Busy(s, j)
    requires forall k :: 0 <= k < |s.runs| ==> s.runs[k].requestId != Trim(requestId)
    ensures ReserveRun(hash, s, message, requestId) == ReserveOutcome(s, Err(RunActive(j)))
  {
    hide Trim;
    FirstIndexNone(s.runs, (r: Run) => r.requestId == Trim(requestId));
    FirstIndexIs(s.runs, (r: Run) => IsActive(r.status), j);
  }

  /** Otherwise a new running run appears, with the message at the free index, and nothing else changes. */
  lemma NewRequest(hash: string -> string, s: Session, message: string, requestId: string)
    requires 1 <= |Trim(requestId)| <= 128
    requires forall k :: 0 <= k < |s.runs| ==>
               s.runs[k].requestId != Trim(requestId) && s.runs[k].status !in {Running, WaitingHitl, Cancelling}
    ensures var o := ReserveRun(hash, s, message, requestId);
            && o.reply == Ok(Reservation(|s.runs|, true)) && o.session.exists_
            && o.session.runs ==
               s.runs + [Run(Trim(requestId), hash(Trim(message)), Running, "", None, None, false, [])]
            && o.session.messages == s.messages + [Message(NextIndex(s.messages), Human, |s.runs|, message)]
  {
    hide Trim, NextIndex;
    FirstIndexNone(s.runs, (r: Run) => r.requestId == Trim(requestId));
    FirstIndexNone(s.runs, (r: Run) => IsActive(r.status));
  }

  /** An id of the wrong length changes nothing, for requests and for answers. */
  lemma InvalidIdsChangeNothing(hash: string -> string, s: Session, i: RunId, text: string, requestId: string)
    requires Trim(requestId) == "" || |Trim(requestId)| > 128
    ensures ReserveRun(hash, s, text, requestId) == ReserveOutcome(s, Err(InvalidRequestId))
    ensures ReserveResume(hash, s, i, text, requestId) == ReserveOutcome(s, Err(InvalidRequestId))
  {
    hide Trim;
  }

  // ---- answers ----

  predicate KnowsAnswer(run: Run, key: string, j: nat) {
    j < |run.resumes| && run.resumes[j].requestId == key && forall k :: 0 <= k < j ==> run.resumes[k].requestId != key
  }

  /** A repeated answer is answered by its run, or refused if it is another text. */
  lemma KnownAnswer(hash: string -> string, s: Session, i: RunId, answer: string, requestId: string, j: nat)
    requires 1 <= |Trim(requestId)| <= 128 && s.exists_ && i < |s.runs| && KnowsAnswer(s.runs[i], Trim(requestId), j)
    ensures ReserveResume(hash, s, i, answer, requestId) == ReserveOutcome(s,
              if s.runs[i].resumes[j].requestHash == hash(Trim(answer)) then Ok(Reservation(i, false))
              else Err(IdempotencyConflict(i)))
  {
    hide Trim;
    FirstIndexIs(s.runs[i].resumes, (r: Resume) => r.requestId == Trim(requestId), j);
  }

  /** A new one is accepted exactly by a waiting run, which goes on running, with the answer as its message. */
  lemma NewAnswer(hash: string -> string, s: Session, i: RunId, answer: string, requestId: string)
    requires 1 <= |Trim(requestId)| <= 128
    requires i < |s.runs| ==> forall k :: 0 <= k < |s.runs[i].resumes| ==> s.runs[i].resumes[k].requestId != Trim(requestId)
    ensures var o := ReserveResume(hash, s, i, answer, requestId);
            && (!s.exists_ ==> o == ReserveOutcome(s, Err(SessionNotFound)))
            && (s.exists_ && i >= |s.runs| ==> o == ReserveOutcome(s, Err(RunNotFound)))
            && (s.exists_ && i < |s.runs| && s.runs[i].status != WaitingHitl ==>
                  o == ReserveOutcome(s, Err(RunNotWaiting(i))))
            && (s.exists_ && i < |s.runs| && s.runs[i].status == WaitingHitl ==>
                  && o.reply == Ok(Reservation(i, true)) && o.session.exists_
                  && o.session.runs == s.runs[i := s.runs[i].(
                       status := Running, hitl := None,
                       resumes := s.runs[i].resumes + [Resume(Trim(requestId), hash(Trim(answer)))])]
                  && o.session.messages == s.messages + [Message(NextIndex(s.messages), Human, i, answer)])
  {
    hide Trim, NextIndex;
    if i < |s.runs| { FirstIndexNone(s.runs[i].resumes, (r: Resume) => r.requestId == Trim(requestId)); }
  }

  // ---- ends of a run ----

  /** Everything about a run but its status and the marks of its end. */
  predicate SameBody(run: Run, run': Run) {
    run'.requestId == run.requestId && run'.requestHash == run.requestHash && run'.resumes == run.resumes
  }

  predicate OnlyRun(s: Session, s': Session, i: RunId) {
    && i < |s.runs| && |s'.runs| == |s.runs| && s'.exists_ == s.exists_
    && (forall k :: 0 <= k < |s.runs| && k != i ==> s'.runs[k] == s.runs[k])
    && SameBody(s.runs[i], s'.runs[i])
  }

  /** A cancel ends a waiting run, asks a running one to stop, and is lost on one that is over. */
  lemma CancelSpelledOut(s: Session, i: RunId)
    requires i < |s.runs|
    ensures var s', run := CancelRun(s, i), s.runs[i];
            && OnlyRun(s, s', i) && s'.messages == s.messages && s'.runs[i].output == run.output
            && (run.status in {Completed, RunFailed, Cancelled} ==> s' == s)
            && (run.status == WaitingHitl ==> s'.runs[i].status == Cancelled && s'.runs[i].finished)
            && (run.status in {Running, Cancelling} ==>
                  s'.runs[i].status == Cancelling && s'.runs[i].finished == run.finished)
            && (run.status in {Running, WaitingHitl, Cancelling} ==>
                  s'.runs[i].errorCode == Some("RUN_CANCELLED") && s'.runs[i].hitl == None)
  {
  }

  /** `mark_failed` ends running and waiting runs, `mark_cancelled` cancelling ones, and neither any other. */
  lemma MarksSpelledOut(s: Session, i: RunId, code: string)
    requires i < |s.runs|
    ensures var run, f, c := s.runs[i], MarkFailed(s, i, code), MarkCancelled(s, i);
            && OnlyRun(s, f, i) && f.messages == s.messages && f.runs[i].output == run.output
            && OnlyRun(s, c, i) && c.messages == s.messages && c.runs[i].output == run.output
            && (if run.status in {Running, WaitingHitl}
                then f.runs[i].status == RunFailed && f.runs[i].finished && f.runs[i].errorCode == Some(code)
                     && f.runs[i].hitl == None
                else f == s)
            && (if run.status == Cancelling
                then c.runs[i].status == Cancelled && c.runs[i].finished && c.runs[i].errorCode == Some("RUN_CANCELLED")
                     && c.runs[i].hitl == None
                else c == s)
  {
  }

  /**
  A save puts the turn at the end of the messages, with consecutive indices, and gives the run its
  status, output and question, all or nothing; it is refused for a run that is not running.
  */
  lemma SaveSpelledOut(s: Session, i: RunId, drafts: seq<Draft>, target: RunStatus, output: string, hitl: Option<string>)
    ensures var o := Save(s, i, drafts, target, output, hitl);
            if i < |s.runs| && s.runs[i].status == Running
            then && o.saved && OnlyRun(s, o.session, i)
                 && o.session.runs[i].status == target && o.session.runs[i].output == output
                 && o.session.runs[i].hitl == hitl && o.session.runs[i].errorCode == s.runs[i].errorCode
                 && (o.session.runs[i].finished <==> s.runs[i].finished || target in {Completed, RunFailed, Cancelled})
                 && |o.session.messages| == |s.messages| + |drafts| && o.session.messages[..|s.messages|] == s.messages
                 && (forall k :: 0 <= k < |drafts| ==>
                       o.session.messages[|s.messages| + k]
                       == Message(NextIndex(s.messages) + k, drafts[k].kind, i, drafts[k].content))
            else o == SaveOutcome(s, false)
  {
    hide AppendAll, NextIndex;
    TurnIsAppended(s.messages, i, drafts);
  }
}
