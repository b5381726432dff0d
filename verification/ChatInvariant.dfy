/** What every transaction on a chat session keeps. */
module ChatInvariant {
  import opened Wrappers
  import opened Text
  import opened ChatRuns

  /** How many messages of one kind a run has. */
  function Count(messages: seq<Message>, kind: Kind, run: RunId): nat {
    if messages == [] then 0
    else
      var n := |messages| - 1;
      Count(messages[..n], kind, run) + (if messages[n].kind == kind && messages[n].run == run then 1 else 0)
  }

  predicate Indexed(messages: seq<Message>) {
    forall k :: 0 <= k < |messages| ==> messages[k].index == k
  }

  /** Status, markers and message counts of one run. */
  predicate RunOk(run: Run, humans: nat, ais: nat) {
    && humans == 1 + |run.resumes|
    && (run.finished <==> IsTerminal(run.status))
    && (run.hitl.Some? <==> run.status == WaitingHitl)
    && (run.errorCode.Some? <==> run.status in {RunFailed, Cancelling, Cancelled})
    && (run.status in {WaitingHitl, Completed} ==> ais == humans)
    && (run.status in {Running, Cancelling} ==> ais + 1 == humans)
    && ais <= humans <= ais + 1
  }

  predicate DistinctResumes(run: Run) {
    forall j, k :: 0 <= j < k < |run.resumes| ==> run.resumes[j].requestId != run.resumes[k].requestId
  }

  predicate OneActive(runs: seq<Run>) {
    forall i, j :: 0 <= i < j < |runs| ==> !(IsActive(runs[i].status) && IsActive(runs[j].status))
  }

  predicate DistinctRequests(runs: seq<Run>) {
    forall i, j :: 0 <= i < j < |runs| ==> runs[i].requestId != runs[j].requestId
  }

  predicate SessionRun(s: Session, i: RunId)
    requires i < |s.runs|
  {
    && RunOk(s.runs[i], Count(s.messages, Human, i), Count(s.messages, Ai, i))
    && DistinctResumes(s.runs[i])
  }

  predicate SessionOk(s: Session) {
    && (s.exists_ || s.runs == [])
    && Indexed(s.messages)
    && (forall k :: 0 <= k < |s.messages| ==> s.messages[k].run < |s.runs|)
    && OneActive(s.runs)
    && DistinctRequests(s.runs)
    && (forall i :: 0 <= i < |s.runs| ==> SessionRun(s, i))
  }

  // ---- messages ----

  lemma {:induction false} NextIndexIsLength(messages: seq<Message>)
    requires Indexed(messages)
    ensures NextIndex(messages) == |messages|
  {
    if messages != [] { NextIndexIsLength(messages[..|messages| - 1]); }
  }

  lemma AppendCounts(messages: seq<Message>, i: RunId, draft: Draft)
    requires Indexed(messages)
    ensures Indexed(Append(messages, i, draft)) && messages <= Append(messages, i, draft)
    ensures forall kind, j :: Count(Append(messages, i, draft), kind, j) ==
              Count(messages, kind, j) + (if draft.kind == kind && i == j then 1 else 0)
  {
    NextIndexIsLength(messages);
    var longer := Append(messages, i, draft);
    assert longer[..|longer| - 1] == messages;
  }

  /** Drafts of a kind are counted, message for message. */
  function Drafts(drafts: seq<Draft>, kind: Kind): nat {
    if drafts == [] then 0
    else Drafts(drafts[..|drafts| - 1], kind) + (if drafts[|drafts| - 1].kind == kind then 1 else 0)
  }

  lemma {:induction false} AppendAllCounts(messages: seq<Message>, i: RunId, drafts: seq<Draft>)
    requires Indexed(messages)
    ensures Indexed(AppendAll(messages, i, drafts)) && messages <= AppendAll(messages, i, drafts)
    ensures |AppendAll(messages, i, drafts)| == |messages| + |drafts|
    ensures forall k :: |messages| <= k < |AppendAll(messages, i, drafts)| ==> AppendAll(messages, i, drafts)[k].run == i
    ensures forall kind, j :: Count(AppendAll(messages, i, drafts), kind, j) ==
              Count(messages, kind, j) + (if i == j then Drafts(drafts, kind) else 0)
  {
    if drafts != [] {
      var n := |drafts| - 1;
      AppendAllCounts(messages, i, drafts[..n]);
      AppendCounts(AppendAll(messages, i, drafts[..n]), i, drafts[n]);
    }
  }

  lemma {:induction false} NoMessagesOfNewRun(messages: seq<Message>, i: RunId)
    requires forall k :: 0 <= k < |messages| ==> messages[k].run < i
    ensures forall kind :: Count(messages, kind, i) == 0
  {
    if messages != [] { NoMessagesOfNewRun(messages[..|messages| - 1], i); }
  }

  // ---- transactions ----

  /** A transaction that rewrites one run and appends messages to it. */
  lemma RewriteKeepsSession(s: Session, s': Session, i: RunId)
    requires SessionOk(s) && i < |s.runs| && s'.exists_ == s.exists_
    requires |s'.runs| == |s.runs| && s'.runs == s.runs[i := s'.runs[i]]
    requires s'.runs[i].requestId == s.runs[i].requestId
    requires IsActive(s'.runs[i].status) ==> IsActive(s.runs[i].status)
    requires Indexed(s'.messages) && s.messages <= s'.messages
    requires forall k :: |s.messages| <= k < |s'.messages| ==> s'.messages[k].run == i
    requires forall kind, j :: j != i ==> Count(s'.messages, kind, j) == Count(s.messages, kind, j)
    requires SessionRun(s', i)
    ensures SessionOk(s')
  {
    forall j | 0 <= j < |s'.runs| ensures SessionRun(s', j) {
      if j != i { assert SessionRun(s, j); }
    }
  }

  /** Appending to a new run leaves the other runs' messages and gives it one. */
  lemma NewRunMessages(messages: seq<Message>, i: RunId, content: string)
    requires Indexed(messages) && forall k :: 0 <= k < |messages| ==> messages[k].run < i
    ensures var longer := Append(messages, i, Draft(Human, content));
            && Indexed(longer) && (forall k :: 0 <= k < |longer| ==> longer[k].run <= i)
            && Count(longer, Human, i) == 1 && Count(longer, Ai, i) == 0
            && forall kind, j :: j != i ==> Count(longer, kind, j) == Count(messages, kind, j)
  {
    AppendCounts(messages, i, Draft(Human, content));
    NoMessagesOfNewRun(messages, i);
  }

  /** A new run beside inactive ones, under a new request. */
  lemma NewRunIsAlone(runs: seq<Run>, run: Run)
    requires OneActive(runs) && DistinctRequests(runs)
    requires forall j :: 0 <= j < |runs| ==> !IsActive(runs[j].status) && runs[j].requestId != run.requestId
    ensures OneActive(runs + [run]) && DistinctRequests(runs + [run])
  {
  }

  lemma NewRunKeepsSession(s: Session, s': Session, run: Run, message: string)
    requires SessionOk(s) && s' == Session(true, s.runs + [run], Append(s.messages, |s.runs|, Draft(Human, message)))
    requires run == NewRun(run.requestId, run.requestHash)
    requires forall j :: 0 <= j < |s.runs| ==> !IsActive(s.runs[j].status) && s.runs[j].requestId != run.requestId
    ensures SessionOk(s')
  {
    NewRunMessages(s.messages, |s.runs|, message);
    NewRunIsAlone(s.runs, run);
    hide Append, OneActive, DistinctRequests, Count;
    forall j | 0 <= j < |s'.runs| ensures SessionRun(s', j) {
      if j < |s.runs| { assert SessionRun(s, j); }
    }
  }

  lemma ReserveKeepsSession(hash: string -> string, s: Session, message: string, requestId: string)
    requires SessionOk(s)
    ensures SessionOk(ReserveRun(hash, s, message, requestId).session)
  {
    hide SessionOk, Trim, Append;
    var o := ReserveRun(hash, s, message, requestId);
    if o.reply.Ok? && o.reply.value.created {
      NewRunKeepsSession(s, o.session, o.session.runs[|s.runs|], message);
    }
  }

  lemma ResumeKeepsSession(hash: string -> string, s: Session, i: RunId, answer: string, requestId: string)
    requires SessionOk(s)
    ensures SessionOk(ReserveResume(hash, s, i, answer, requestId).session)
  {
    var o := ReserveResume(hash, s, i, answer, requestId);
    if o.reply.Ok? && o.reply.value.created {
      assert SessionRun(s, i);
      AppendCounts(s.messages, i, Draft(Human, answer));
      assert DistinctResumes(o.session.runs[i]);
      RewriteKeepsSession(s, o.session, i);
    }
  }

  lemma CancelKeepsSession(s: Session, i: RunId)
    requires SessionOk(s) && i < |s.runs|
    ensures SessionOk(CancelRun(s, i))
  {
    assert SessionRun(s, i);
    RewriteKeepsSession(s, CancelRun(s, i), i);
  }

  lemma MarkFailedKeepsSession(s: Session, i: RunId, code: string)
    requires SessionOk(s) && i < |s.runs|
    ensures SessionOk(MarkFailed(s, i, code))
  {
    assert SessionRun(s, i);
    hide Count, Indexed;
    RewriteKeepsSession(s, MarkFailed(s, i, code), i);
  }

  lemma MarkCancelledKeepsSession(s: Session, i: RunId)
    requires SessionOk(s) && i < |s.runs|
    ensures SessionOk(MarkCancelled(s, i))
  {
    assert SessionRun(s, i);
    hide Count, Indexed;
    RewriteKeepsSession(s, MarkCancelled(s, i), i);
  }

  lemma MarksKeepSession(s: Session, i: RunId, code: string)
    requires SessionOk(s) && i < |s.runs|
    ensures SessionOk(MarkFailed(s, i, code))
    ensures SessionOk(MarkCancelled(s, i))
  {
    MarkFailedKeepsSession(s, i, code);
    MarkCancelledKeepsSession(s, i);
  }

  /** One turn saves exactly one reply, and the status says whether it was a question. */
  lemma SaveKeepsSession(s: Session, i: RunId, drafts: seq<Draft>, target: RunStatus, output: string, hitl: Option<string>)
    requires SessionOk(s) && Drafts(drafts, Ai) == 1 && Drafts(drafts, Human) == 0
    requires (target == WaitingHitl && hitl.Some?) || (target == Completed && hitl.None?)
    ensures SessionOk(Save(s, i, drafts, target, output, hitl).session)
  {
    var o := Save(s, i, drafts, target, output, hitl);
    if o.saved {
      assert SessionRun(s, i);
      AppendAllCounts(s.messages, i, drafts);
      RewriteKeepsSession(s, o.session, i);
    }
  }
}
