/** Whole lives of jobs: what becomes of a request when nothing interferes, from the message to the last mail. */
module JobLife {
  import opened Wrappers
  import opened JobStates
  import opened GroupMatching
  import opened Attachments
  import opened JobProtocol
  import opened JobProgress
  import JobRuns
  import Outbox

  lemma {:induction false} RunGoesOn(c: Casing, s: State, first: seq<Event>, second: seq<Event>)
    ensures Run(c, s, first + second) == Run(c, Run(c, s, first), second)
    decreases |first|
  {
    hide Step;
    if first == [] {
      assert first + second == second;
    } else {
      assert (first + second)[1..] == first[1..] + second;
      RunGoesOn(c, Step(c, s, first[0]), first[1..], second);
    }
  }

  lemma OneEvent(c: Casing, s: State, e: Event, rest: seq<Event>)
    ensures Run(c, s, [e] + rest) == Run(c, Step(c, s, e), rest)
  {
    hide Step;
    assert ([e] + rest)[1..] == rest;
  }

  // ---- accepting ------------------------------------------------------------------------

  lemma StoreCalls(job: Job, content: Bytes, parses: bool)
    requires job.status.Received? && job.operation.SubmitTranscript?
    ensures var v := MailView(job, Some(AcceptValidate(content)));
            NextServed(NextServed(NextServed(NextServed(v, parses), parses), parses), parses)
            == MailView(job.(status := Validating, path := Some(IncomingDir), file := Some(StoredFile(IncomingDir, content))),
                        Some(if parses then AcceptFacts else RejectFail))
  {
    var v1 := NextServed(MailView(job, Some(AcceptValidate(content))), parses);
    assert v1 == MailView(job.(status := Validating), Some(AcceptSave(content)));
    var v2 := NextServed(v1, parses);
    assert v2.at == Some(AcceptRecord);
  }

  lemma QueueCalls(job: Job, parses: bool)
    requires job.status.Validating?
    ensures NextServed(NextServed(MailView(job, Some(AcceptQueue)), parses), parses)
            == MailView(job.(status := Queued, notices := job.notices + [Outbox.Ack]), None)
    ensures NextServed(MailView(job, Some(AcceptFacts)), parses) == MailView(job, Some(AcceptQueue))
  {
  }

  lemma RejectCalls(job: Job, content: Bytes, parses: bool)
    requires job.status.Validating? && job.file == Some(StoredFile(IncomingDir, content))
    ensures var v := MailView(job, Some(RejectFail));
            NextServed(NextServed(NextServed(NextServed(v, parses), parses), parses), parses)
            == MailView(job.(status := Failed, path := Some(FailedDir), file := Some(StoredFile(FailedDir, content)),
                             notices := job.notices + [Outbox.FailureNotice]), None)
  {
    var v1 := NextServed(MailView(job, Some(RejectFail)), parses);
    assert v1 == MailView(job.(status := Failed), Some(RejectMove));
    var v2 := NextServed(v1, parses);
    assert v2.at == Some(RejectRecord);
  }

  /** The row of a request, as it is inserted. */
  lemma RequestIsTaken(c: Casing, s: State, id: JobId, operation: Operation, hint: Option<string>, q: Request)
    requires s.mail.Nobody? && id !in s.jobs && Admitted(operation, q)
    ensures Step(c, s, NewRequest(id, operation, hint, q))
            == s.(jobs := s.jobs[id := Job(operation, Received, hint, None, None, None, CheckedContent(operation, q),
                                           0, 0, [], [], false)],
                  mail := At(id, AcceptValidate(CheckedContent(operation, q))))
  {
    hide Admitted, CheckedContent, SavedContent;
    JobRuns.SavedIsChecked(operation, q);
  }

  /** An admitted transcript that can be parsed is queued, with its checked content among the incoming files, and acknowledged. */
  lemma TranscriptIsQueued(c: Casing, s: State, id: JobId, hint: Option<string>, q: Request)
    requires s.mail.Nobody? && id !in s.jobs && Admitted(SubmitTranscript, q)
    ensures var checked := CheckedContent(SubmitTranscript, q);
            Run(c, s, [NewRequest(id, SubmitTranscript, hint, q)] + Calls(MailCall(true), 7))
            == s.(jobs := s.jobs[id := Job(SubmitTranscript, Queued, hint, Some(IncomingDir),
                                           Some(StoredFile(IncomingDir, checked)), None, checked,
                                           0, 0, [], [Outbox.Ack], false)])
  {
    hide Run, Serve, Step, NextServed, Admitted, CheckedContent;
    var checked := CheckedContent(SubmitTranscript, q);
    RequestIsTaken(c, s, id, SubmitTranscript, hint, q);
    var t := Step(c, s, NewRequest(id, SubmitTranscript, hint, q));
    OneEvent(c, s, NewRequest(id, SubmitTranscript, hint, q), Calls(MailCall(true), 7));
    var job := t.jobs[id];
    StoreCalls(job, checked, true);
    FourServed(MailView(job, Some(AcceptValidate(checked))), true, 7);
    var stored := job.(status := Validating, path := Some(IncomingDir), file := Some(StoredFile(IncomingDir, checked)));
    QueueCalls(stored, true);
    ThreeServed(MailView(stored, Some(AcceptFacts)), true);
    RunIsServe(c, t, id, AcceptValidate(checked), true, 7);
    assert [] + [Outbox.Ack] == [Outbox.Ack];
    assert s.mail == Nobody;
  }

  /** One that cannot be parsed is failed, its file set aside, and its sender told. */
  lemma TranscriptIsRejected(c: Casing, s: State, id: JobId, hint: Option<string>, q: Request)
    requires s.mail.Nobody? && id !in s.jobs && Admitted(SubmitTranscript, q)
    ensures var checked := CheckedContent(SubmitTranscript, q);
            Run(c, s, [NewRequest(id, SubmitTranscript, hint, q)] + Calls(MailCall(false), 8))
            == s.(jobs := s.jobs[id := Job(SubmitTranscript, Failed, hint, Some(FailedDir),
                                           Some(StoredFile(FailedDir, checked)), None, checked,
                                           0, 0, [], [Outbox.FailureNotice], false)])
  {
    hide Run, Serve, Step, NextServed, Admitted, CheckedContent;
    var checked := CheckedContent(SubmitTranscript, q);
    RequestIsTaken(c, s, id, SubmitTranscript, hint, q);
    var t := Step(c, s, NewRequest(id, SubmitTranscript, hint, q));
    OneEvent(c, s, NewRequest(id, SubmitTranscript, hint, q), Calls(MailCall(false), 8));
    var job := t.jobs[id];
    StoreCalls(job, checked, false);
    FourServed(MailView(job, Some(AcceptValidate(checked))), false, 8);
    var stored := job.(status := Validating, path := Some(IncomingDir), file := Some(StoredFile(IncomingDir, checked)));
    RejectCalls(stored, checked, false);
    FourServed(MailView(stored, Some(RejectFail)), false, 4);
    NoneServed(NextServed(NextServed(NextServed(NextServed(MailView(stored, Some(RejectFail)), false), false), false), false));
    RunIsServe(c, t, id, AcceptValidate(checked), false, 8);
    assert [] + [Outbox.FailureNotice] == [Outbox.FailureNotice];
    assert s.mail == Nobody;
  }

  lemma NoneServed(v: MailView)
    ensures Serve(v, false, 0) == v
  {
  }

  /** A question is queued and acknowledged. */
  lemma QuestionIsQueued(c: Casing, s: State, id: JobId, hint: Option<string>, q: Request, parses: bool)
    requires s.mail.Nobody? && id !in s.jobs
    ensures Run(c, s, [NewRequest(id, AssessQuery, hint, q)] + Calls(MailCall(parses), 3))
            == s.(jobs := s.jobs[id := Job(AssessQuery, Queued, hint, None, None, None, [], 0, 0, [], [Outbox.Ack], false)])
  {
    hide Run, Serve, Step;
    assert Admitted(AssessQuery, q) && CheckedContent(AssessQuery, q) == [];
    RequestIsTaken(c, s, id, AssessQuery, hint, q);
    var t := Step(c, s, NewRequest(id, AssessQuery, hint, q));
    OneEvent(c, s, NewRequest(id, AssessQuery, hint, q), Calls(MailCall(parses), 3));
    var job := t.jobs[id];
    var v1 := NextServed(MailView(job, Some(AcceptValidate([]))), parses);
    assert v1 == MailView(job.(status := Validating), Some(AcceptQueue));
    QueueCalls(job.(status := Validating), parses);
    ThreeServed(MailView(job, Some(AcceptValidate([]))), parses);
    RunIsServe(c, t, id, AcceptValidate([]), parses, 3);
    assert [] + [Outbox.Ack] == [Outbox.Ack];
    assert s.mail == Nobody;
  }

  // ---- cancelling -----------------------------------------------------------------------

  /** A request to cancel a job that is queued or waits for its sender cancels it and confirms it once. */
  lemma JobIsCancelled(c: Casing, s: State, id: JobId, parses: bool)
    requires s.mail.Nobody? && id in s.jobs && (s.jobs[id].status.Queued? || s.jobs[id].status.NeedsClarification?)
    ensures Run(c, s, [CancelRequest(id)] + Calls(MailCall(parses), 2))
            == s.(jobs := s.jobs[id := s.jobs[id].(status := Cancelled,
                                                   notices := s.jobs[id].notices + [Outbox.CancelledNotice])])
  {
    hide Run, Serve;
    var t := Step(c, s, CancelRequest(id));
    OneEvent(c, s, CancelRequest(id), Calls(MailCall(parses), 2));
    var v := MailView(s.jobs[id], Some(CancelSet));
    var v1 := NextServed(v, parses);
    assert v1 == MailView(s.jobs[id].(status := Cancelled), Some(CancelMail));
    ThreeServed(v, parses);
    RunIsServe(c, t, id, CancelSet, parses, 2);
    assert s.mail == Nobody;
  }

  /** A request to cancel any other job changes nothing. */
  lemma OtherJobIsNotCancelled(c: Casing, s: State, id: JobId)
    requires id !in s.jobs || !(s.jobs[id].status.Queued? || s.jobs[id].status.NeedsClarification?)
    ensures Step(c, s, CancelRequest(id)) == s
  {
  }

  // ---- from the message to the completion -----------------------------------------------

  /** No thread is at work, and no job but perhaps this one is queued. */
  predicate Quiet(s: State, id: JobId) {
    && s.mail.Nobody? && s.worker.Nobody? && s.waiting == map[]
    && forall j :: j in s.jobs && j != id ==> !s.jobs[j].status.Queued?
  }

  lemma TakesUp(c: Casing, s: State, id: JobId, rest: seq<Event>)
    requires Quiet(s, id) && id in s.jobs && s.jobs[id].status.Queued?
    ensures Run(c, s, [ListQueued] + ([NextJob(id)] + rest))
            == Run(c, s.(worker := At(id, Hold(RowOf(s.jobs[id]), Start))), rest)
  {
    hide Run;
    OneEvent(c, s, ListQueued, [NextJob(id)] + rest);
    var t := Step(c, s, ListQueued);
    assert t.waiting == map[id := RowOf(s.jobs[id])];
    OneEvent(c, t, NextJob(id), rest);
    assert t.waiting - {id} == map[] == s.waiting;
  }

  function SubmissionEvents(id: JobId, hint: Option<string>, q: Request, groups: seq<Group>): seq<Event> {
    ([NewRequest(id, SubmitTranscript, hint, q)] + Calls(MailCall(true), 7))
    + ([ListQueued] + ([NextJob(id)] + Calls(WorkerCall(Groups(groups)), 14)))
  }

  /**
   * From every quiet state, an admitted transcript whose group is found ends completed: one
   * meeting, one upload of the checked content, an acknowledgement and a report of completion,
   * its file among the completed, and nothing else changed.
   */
  lemma TranscriptCompletes(c: Casing, s: State, id: JobId, hint: Option<string>, q: Request, groups: seq<Group>)
    requires Quiet(s, id) && id !in s.jobs && Admitted(SubmitTranscript, q)
    requires MatchGroup(c, hint, groups).Matched?
    ensures var checked := CheckedContent(SubmitTranscript, q);
            Run(c, s, SubmissionEvents(id, hint, q, groups))
            == s.(jobs := s.jobs[id := Job(SubmitTranscript, Completed, hint, Some(CompletedDir),
                                           Some(StoredFile(CompletedDir, checked)), None, checked, 1, 1, [checked],
                                           [Outbox.Ack, Outbox.Completion], false)])
  {
    hide Run, Admitted, CheckedContent, MatchGroup;
    var checked := CheckedContent(SubmitTranscript, q);
    var accept := [NewRequest(id, SubmitTranscript, hint, q)] + Calls(MailCall(true), 7);
    TranscriptIsQueued(c, s, id, hint, q);
    RunGoesOn(c, s, accept, [ListQueued] + ([NextJob(id)] + Calls(WorkerCall(Groups(groups)), 14)));
    var t := Run(c, s, accept);
    QueuedCompletes(c, t, id, IncomingDir, checked, groups);
    assert [] + [checked] == [checked] && [Outbox.Ack] + [Outbox.Completion] == [Outbox.Ack, Outbox.Completion];
    var done := Submitted(t.jobs[id], checked);
    assert s.jobs[id := t.jobs[id]][id := done] == s.jobs[id := done];
  }

  /** So the first request of all can be completed. */
  lemma FirstTranscriptCompletes(c: Casing, id: JobId, hint: Option<string>, q: Request, groups: seq<Group>)
    requires Admitted(SubmitTranscript, q) && MatchGroup(c, hint, groups).Matched?
    ensures var after := Run(c, Initial, SubmissionEvents(id, hint, q, groups));
            id in after.jobs && after.jobs[id].status.Completed? && after.jobs[id].meetings == 1
  {
    hide Run, SubmissionEvents, Admitted, MatchGroup;
    TranscriptCompletes(c, Initial, id, hint, q, groups);
  }

  function QuestionEvents(id: JobId, hint: Option<string>, q: Request, groups: seq<Group>, answered: bool): seq<Event> {
    ([NewRequest(id, AssessQuery, hint, q)] + Calls(MailCall(true), 3))
    + ([ListQueued] + ([NextJob(id)] + (Calls(WorkerCall(Groups(groups)), 2)
                                        + Calls(WorkerCall(Sources(answered)), if answered then 3 else 4))))
  }

  lemma QuestionCalls(c: Casing, job: Job, groups: seq<Group>)
    requires job.operation.AssessQuery? && job.status.Queued? && MatchGroup(c, job.groupHint, groups).Matched?
    ensures Work(c, WorkerView(job, Some(Hold(RowOf(job), Start))), Groups(groups), 2)
            == WorkerView(job.(status := Processing, starts := job.starts + 1), Some(Hold(RowOf(job), AskSources)))
  {
    hide Work, MatchGroup;
    FiveCalls(c, WorkerView(job, Some(Hold(RowOf(job), Start))), Groups(groups));
  }

  lemma AnswerCalls(c: Casing, job: Job, row: Row)
    requires job.status.Processing? && row.operation.AssessQuery?
    ensures Work(c, WorkerView(job, Some(Hold(row, AskSources))), Sources(true), 3)
            == WorkerView(job.(status := Completed, notices := job.notices + [Outbox.AssessResult]), None)
  {
    hide Work;
    var v, a := WorkerView(job, Some(Hold(row, AskSources))), Sources(true);
    FiveCalls(c, v, a);
    assert NextCall(c, v, a) == WorkerView(job, Some(Hold(row, Complete)));
    assert NextCall(c, NextCall(c, v, a), a) == WorkerView(job.(status := Completed), Some(Hold(row, MailCompletion)));
  }

  lemma NoAnswerCalls(c: Casing, job: Job, row: Row)
    requires job.status.Processing? && row.operation.AssessQuery?
    ensures Work(c, WorkerView(job, Some(Hold(row, AskSources))), Sources(false), 4)
            == WorkerView(job.(status := Failed, notices := job.notices + [Outbox.FailureNotice]), None)
  {
    hide Work;
    var v, a := WorkerView(job, Some(Hold(row, AskSources))), Sources(false);
    FiveCalls(c, v, a);
    assert NextCall(c, v, a) == WorkerView(job, Some(Hold(row, NoSources)));
    assert NextCall(c, NextCall(c, v, a), a) == WorkerView(job.(status := Failed), Some(Hold(row, MailNoSources)));
  }

  /** A question whose group is found ends answered, or failed when no source answers; either way with one mail more. */
  lemma QuestionEnds(c: Casing, s: State, id: JobId, hint: Option<string>, q: Request, groups: seq<Group>, answered: bool)
    requires Quiet(s, id) && id !in s.jobs && MatchGroup(c, hint, groups).Matched?
    ensures Run(c, s, QuestionEvents(id, hint, q, groups, answered))
            == s.(jobs := s.jobs[id := Job(AssessQuery, if answered then Completed else Failed, hint, None, None, None, [],
                                           1, 0, [],
                                           [Outbox.Ack, if answered then Outbox.AssessResult else Outbox.FailureNotice],
                                           false)])
  {
    hide Run, MatchGroup, Play;
    var accept := [NewRequest(id, AssessQuery, hint, q)] + Calls(MailCall(true), 3);
    var first := Calls(WorkerCall(Groups(groups)), 2);
    var second := Calls(WorkerCall(Sources(answered)), if answered then 3 else 4);
    QuestionIsQueued(c, s, id, hint, q, true);
    RunGoesOn(c, s, accept, [ListQueued] + ([NextJob(id)] + (first + second)));
    var t := Run(c, s, accept);
    TakesUp(c, t, id, first + second);
    var job := t.jobs[id];
    var v := WorkerView(job, Some(Hold(RowOf(job), Start)));
    PlayGoesOn(c, v, first, second);
    QuestionCalls(c, job, groups);
    var going := job.(status := Processing, starts := 1);
    if answered {
      AnswerCalls(c, going, RowOf(job));
    } else {
      NoAnswerCalls(c, going, RowOf(job));
    }
    RunIsPlay(c, t.(worker := At(id, Hold(RowOf(job), Start))), id, Hold(RowOf(job), Start), first + second);
    var done := Play(c, v, first + second).job;
    assert [Outbox.Ack] + [Outbox.AssessResult] == [Outbox.Ack, Outbox.AssessResult];
    assert [Outbox.Ack] + [Outbox.FailureNotice] == [Outbox.Ack, Outbox.FailureNotice];
    assert s.jobs[id := job][id := done] == s.jobs[id := done];
    assert s.worker == Nobody;
  }

  // ---- by way of a question to the sender -----------------------------------------------

  function AskingEvents(id: JobId, hint: Option<string>, q: Request, groups: seq<Group>): seq<Event> {
    ([NewRequest(id, SubmitTranscript, hint, q)] + Calls(MailCall(true), 7))
    + ([ListQueued] + ([NextJob(id)] + Calls(WorkerCall(Groups(groups)), 8)))
  }

  function AnsweringEvents(id: JobId, text: string, groups: seq<Group>): seq<Event> {
    ([AnswerReply(id, text)] + Calls(MailCall(true), 5))
    + ([ListQueued] + ([NextJob(id)] + Calls(WorkerCall(Groups(groups)), 14)))
  }

  /** The row while its sender is asked. */
  function AskedRow(hint: Option<string>, checked: Bytes, groups: seq<Group>): Job {
    Job(SubmitTranscript, NeedsClarification, hint, Some(ProcessingDir), Some(StoredFile(ProcessingDir, checked)),
        Some(Names(groups)), checked, 1, 0, [], [Outbox.Ack, Outbox.Clarification], false)
  }

  lemma TranscriptIsAskedAbout(c: Casing, s: State, id: JobId, hint: Option<string>, q: Request, groups: seq<Group>)
    requires Quiet(s, id) && id !in s.jobs && Admitted(SubmitTranscript, q)
    requires !MatchGroup(c, hint, groups).Matched?
    ensures Run(c, s, AskingEvents(id, hint, q, groups))
            == s.(jobs := s.jobs[id := AskedRow(hint, CheckedContent(SubmitTranscript, q), groups)])
  {
    hide Run, Admitted, CheckedContent, MatchGroup;
    var checked := CheckedContent(SubmitTranscript, q);
    var accept := [NewRequest(id, SubmitTranscript, hint, q)] + Calls(MailCall(true), 7);
    var work := Calls(WorkerCall(Groups(groups)), 8);
    TranscriptIsQueued(c, s, id, hint, q);
    RunGoesOn(c, s, accept, [ListQueued] + ([NextJob(id)] + work));
    var t := Run(c, s, accept);
    TakesUp(c, t, id, work);
    UnclearJobAsks(c, t.(worker := At(id, Hold(RowOf(t.jobs[id]), Start))), id, IncomingDir, checked, groups);
    assert [Outbox.Ack] + [Outbox.Clarification] == [Outbox.Ack, Outbox.Clarification];
    var asked := AskedRow(hint, checked, groups);
    assert s.jobs[id := t.jobs[id]][id := asked] == s.jobs[id := asked];
    assert s.worker == Nobody;
  }

  /**
   * From every quiet state, a transcript whose group is not found is asked about, and an answer
   * that selects exactly one of the offered names, not empty or the only one, completes it: two
   * starts, one meeting, one upload, and four mails to its sender.
   */
  lemma AnsweredTranscriptCompletes(c: Casing, s: State, id: JobId, hint: Option<string>, q: Request, groups: seq<Group>,
                                    text: string, i: int)
    requires Coherent(c) && Quiet(s, id) && id !in s.jobs && Admitted(SubmitTranscript, q)
    requires !MatchGroup(c, hint, groups).Matched?
    requires Selects(c, Names(groups), text, i) && (Names(groups)[i] != "" || |groups| == 1)
    ensures var checked := CheckedContent(SubmitTranscript, q);
            Run(c, s, AskingEvents(id, hint, q, groups) + AnsweringEvents(id, text, groups))
            == s.(jobs := s.jobs[id := Job(SubmitTranscript, Completed, Some(Names(groups)[i]), Some(CompletedDir),
                                           Some(StoredFile(CompletedDir, checked)), None, checked, 2, 1, [checked],
                                           [Outbox.Ack, Outbox.Clarification, Outbox.ClarificationReceived,
                                            Outbox.Completion], false)])
  {
    hide Run, Admitted, CheckedContent, MatchGroup, AskingEvents, Selects, AcceptedAnswer, Names, AnsweringEvents;
    var checked := CheckedContent(SubmitTranscript, q);
    TranscriptIsAskedAbout(c, s, id, hint, q, groups);
    RunGoesOn(c, s, AskingEvents(id, hint, q, groups), AnsweringEvents(id, text, groups));
    var asked := AskedRow(hint, checked, groups);
    var t := s.(jobs := s.jobs[id := asked]);
    AnswerCompletes(c, t, id, checked, groups, text, i);
    var notices := [Outbox.Ack, Outbox.Clarification, Outbox.ClarificationReceived, Outbox.Completion];
    assert asked.notices + [Outbox.ClarificationReceived] + [Outbox.Completion] == notices;
    assert [] + [checked] == [checked];
    var done := Run(c, t, AnsweringEvents(id, text, groups)).jobs[id];
    assert s.jobs[id := asked][id := done] == s.jobs[id := done];
  }

  function Requeued(job: Job, chosen: string): Job {
    job.(status := Queued, groupHint := Some(chosen), pending := None,
         notices := job.notices + [Outbox.ClarificationReceived])
  }

  /** An answer that selects one of the offered names puts the job back into the queue, with that name. */
  lemma AnswerIsApplied(c: Casing, s: State, id: JobId, options: seq<string>, text: string, i: int)
    requires s.mail.Nobody? && id in s.jobs && s.jobs[id].status.NeedsClarification?
    requires s.jobs[id].pending == Some(options) && Selects(c, options, text, i)
    ensures 0 <= i < |options|
    ensures Run(c, s, [AnswerReply(id, text)] + Calls(MailCall(true), 5))
            == s.(jobs := s.jobs[id := Requeued(s.jobs[id], options[i])])
  {
    AcceptedExactly(c, options, text);
    hide Run, SameWords, OthersDiffer, AcceptedAnswer;
    OneEvent(c, s, AnswerReply(id, text), Calls(MailCall(true), 5));
    AnswerRequeues(c, s.(mail := At(id, ApplyCheck(options[i]))), id, options[i], true);
    assert s.mail == Nobody;
  }

  /** An answer that selects none or several changes nothing here; the sender is asked again. */
  lemma OtherAnswerIsNotApplied(c: Casing, s: State, id: JobId, text: string)
    requires id in s.jobs && s.jobs[id].pending.Some?
    requires forall i :: !Selects(c, s.jobs[id].pending.value, text, i)
    ensures Step(c, s, AnswerReply(id, text)) == s
  {
    hide Selects, AcceptedAnswer;
    AcceptedExactly(c, s.jobs[id].pending.value, text);
  }

  /** From every quiet state, a queued transcript whose group is found is completed. */
  lemma QueuedCompletes(c: Casing, s: State, id: JobId, stage: Stage, content: Bytes, groups: seq<Group>)
    requires Quiet(s, id) && id in s.jobs && Ready(s.jobs[id], stage, content)
    requires MatchGroup(c, s.jobs[id].groupHint, groups).Matched?
    ensures Run(c, s, [ListQueued] + ([NextJob(id)] + Calls(WorkerCall(Groups(groups)), 14)))
            == s.(jobs := s.jobs[id := Submitted(s.jobs[id], content)])
  {
    hide Run, MatchGroup, Submitted;
    TakesUp(c, s, id, Calls(WorkerCall(Groups(groups)), 14));
    QueuedJobCompletes(c, s.(worker := At(id, Hold(RowOf(s.jobs[id]), Start))), id, stage, content, groups);
    assert s.worker == Nobody;
  }

  lemma AnswerCompletes(c: Casing, s: State, id: JobId, content: Bytes, groups: seq<Group>, text: string, i: int)
    requires Coherent(c) && Quiet(s, id) && id in s.jobs && s.jobs[id].status.NeedsClarification?
    requires s.jobs[id].operation.SubmitTranscript? && s.jobs[id].pending == Some(Names(groups))
    requires s.jobs[id].path == Some(ProcessingDir) && s.jobs[id].file == Some(StoredFile(ProcessingDir, content))
    requires Selects(c, Names(groups), text, i) && (Names(groups)[i] != "" || |groups| == 1)
    ensures Run(c, s, AnsweringEvents(id, text, groups))
            == s.(jobs := s.jobs[id := Submitted(Requeued(s.jobs[id], Names(groups)[i]), content)])
  {
    var chosen := Names(groups)[i];
    AcceptedExactly(c, Names(groups), text);
    hide Run, MatchGroup, Selects, AcceptedAnswer, Names, Submitted;
    AcceptedAnswerResolves(c, groups, text, chosen);
    AnswerIsApplied(c, s, id, Names(groups), text, i);
    var answer := [AnswerReply(id, text)] + Calls(MailCall(true), 5);
    RunGoesOn(c, s, answer, [ListQueued] + ([NextJob(id)] + Calls(WorkerCall(Groups(groups)), 14)));
    var requeued := Requeued(s.jobs[id], chosen);
    QueuedCompletes(c, s.(jobs := s.jobs[id := requeued]), id, ProcessingDir, content, groups);
    assert s.jobs[id := requeued][id := Submitted(requeued, content)] == s.jobs[id := Submitted(requeued, content)];
  }

  // ---- exceptions of the worker ---------------------------------------------------------

  /**
   * An exception at any call between the refresh of the row and the recording of a failure, while
   * the job is in progress or asks its sender, fails the job: its file is set aside, its sender is
   * told, and the worker lets go.
   */
  lemma ExceptionFailsTheJob(c: Casing, job: Job, point: WorkerPoint, called: bool, content: Bytes, a: Answer)
    requires job.operation.SubmitTranscript? && (job.status.Processing? || job.status.NeedsClarification?)
    requires job.path == Some(ProcessingDir) && job.file == Some(StoredFile(ProcessingDir, content))
    requires point.AskBackend? || point.NeedGroup? || point.PutPending? || point.MailQuestion? || point.CreateMeeting?
             || point.ReadFile? || point.Upload? || point.Attendees? || point.RecordResults? || point.Complete?
    ensures var v := Play(c, WorkerView(job, Some(Hold(RowOf(job), point))), [WorkerRaises(called)] + Calls(WorkerCall(a), 5));
            && v.at.None?
            && v.job == job.(status := Failed, path := Some(FailedDir), file := Some(StoredFile(FailedDir, content)),
                             notices := job.notices + [Outbox.FailureNotice],
                             meetings := job.meetings + (if called && point.CreateMeeting? then 1 else 0),
                             uploads := job.uploads + (if called && point.Upload? then [point.content] else []))
  {
    hide Work, Play;
    var v, r := WorkerView(job, Some(Hold(RowOf(job), point))), WorkerRaises(called);
    PlayGoesOn(c, v, [r], Calls(WorkerCall(a), 5));
    RaiseOnce(c, v, called);
    var raised := Next(c, v, r);
    assert job.uploads + [] == job.uploads;
    assert raised.at == Some(Hold(RowOf(job), Fail));
    GivesUpWork(c, raised.job, content, a);
    assert Play(c, raised, Calls(WorkerCall(a), 5)) == Work(c, raised, a, 5) by { WorkIsPlay(c, raised, a, 5); }
  }

  lemma WorkIsPlay(c: Casing, v: WorkerView, a: Answer, n: nat)
    ensures Work(c, v, a, n) == Play(c, v, Calls(WorkerCall(a), n))
  {
  }

  lemma RaiseOnce(c: Casing, v: WorkerView, called: bool)
    ensures Play(c, v, [WorkerRaises(called)]) == Next(c, v, WorkerRaises(called))
  {
    var e := WorkerRaises(called);
    assert [e][1..] == [];
    assert Play(c, v, [e]) == Play(c, Next(c, v, e), []);
  }

  /** One before the row is refreshed, or while a failure is recorded, makes the worker let go at once. */
  lemma ExceptionLetsGo(job: Job, h: Hold, called: bool)
    requires h.point.Start? || h.point.Move? || h.point.RecordMove? || h.point.Refresh? || h.point.Fail?
             || h.point.MoveFailed? || h.point.RecordFailed? || h.point.MailFailure? || h.point.AlertAdmin?
    ensures WorkerRaise(job, h, called).next.None?
    ensures WorkerRaise(job, h, called).job.(disturbed := job.disturbed) == job
  {
  }

  /** A crash loses what the threads were about and the snapshot, and nothing that is stored. */
  lemma CrashLeavesTheTables(c: Casing, s: State)
    ensures var after := Step(c, s, Crash);
            && after.worker.Nobody? && after.mail.Nobody? && after.waiting == map[] && after.jobs.Keys == s.jobs.Keys
            && forall id :: id in s.jobs ==> after.jobs[id].(disturbed := s.jobs[id].disturbed) == s.jobs[id]
  {
  }

  /** An exception of the mail thread loses what it was about, and nothing else. */
  lemma MailExceptionLetsGo(c: Casing, s: State)
    ensures var after := Step(c, s, MailRaises);
            && after.mail.Nobody? && after.worker == s.worker && after.waiting == s.waiting && after.jobs.Keys == s.jobs.Keys
            && forall id :: id in s.jobs ==> after.jobs[id].(disturbed := s.jobs[id].disturbed) == s.jobs[id]
  {
  }
}
