/**
 * The two accounts of the worker are one: what the execution of a job leaves in the tables and tells
 * the backend is what a run of the protocol's calls leaves, with the mail thread idle.
 */
module Refinement {
  import opened Wrappers
  import opened JobStates
  import opened GroupMatching
  import opened Attachments
  import opened JobProtocol
  import opened JobProgress
  import JobStore
  import Outbox
  import Worker

  /** The protocol's job is what the tables say of the job. */
  predicate Shows(p: Job, job: JobStore.Job, t: Worker.Tables) {
    && p.operation == job.operation && p.status == job.status && p.groupHint == job.groupHint
    && (if job.path.None? then p.path.None? && p.file.None?
        else
          && p.path == Some(job.path.value.stage) && job.path.value in t.files
          && p.file == Some(StoredFile(job.path.value.stage, t.files[job.path.value])))
    && p.pending == (if job.jobId in t.pending then Some(t.pending[job.jobId].options) else None)
  }

  // ---- the calls of one execution -------------------------------------------------------

  /** The calls before the first one to the backend. */
  function Preamble(job: JobStore.Job): nat {
    if Worker.HasFile(job) then 4 else 1
  }

  /** The calls from the one that records the failure on. */
  function Surrender(job: JobStore.Job): nat {
    if Worker.HasFile(job) then 5 else if job.operation.SubmitTranscript? then 4 else 3
  }

  function Listed(a: Worker.Answers): Answer {
    Groups(if a.groups.Answer? then a.groups.value else [])
  }

  function Answered(a: Worker.Answers, n: nat): (events: seq<Event>)
    ensures AllByWorker(events)
  {
    Calls(WorkerCall(Listed(a)), n)
  }

  /** After n calls, the next one raises. */
  function GivenUp(job: JobStore.Job, a: Worker.Answers, n: nat, called: bool): (events: seq<Event>)
    ensures AllByWorker(events)
  {
    Answered(a, n) + [WorkerRaises(called)] + Answered(a, Surrender(job))
  }

  function SubmissionEvents(job: JobStore.Job, a: Worker.Answers, n: nat): (events: seq<Event>)
    ensures AllByWorker(events)
  {
    if !Worker.AsksMeeting(job) then GivenUp(job, a, n, false)
    else if !a.meeting.Answer? then GivenUp(job, a, n, true)
    else if job.path.None? then Answered(a, n + 2 + Surrender(job))
    else if !a.upload.Answer? then GivenUp(job, a, n + 2, true)
    else if Worker.Submits(job, a) then Answered(a, n + 9)
    else GivenUp(job, a, n + 3, false)
  }

  function QuestionEvents(job: JobStore.Job, a: Worker.Answers, n: nat): (events: seq<Event>)
    ensures AllByWorker(events)
  {
    if Worker.Surprises(job, a) then GivenUp(job, a, n, false)
    else if Worker.TranscriptsAnswer(job, a) || Worker.BoardAnswers(job, a) then
      Answered(a, n) + Calls(WorkerCall(Sources(true)), 3)
    else Answered(a, n) + Calls(WorkerCall(Sources(false)), 4)
  }

  /** The calls of the execution, in the protocol's terms. */
  function EventsOf(c: Casing, job: JobStore.Job, a: Worker.Answers): (events: seq<Event>)
    ensures AllByWorker(events)
  {
    var n := Preamble(job);
    match Worker.Choice(c, job, a)
    case None => GivenUp(job, a, n, false)
    case Some(NoMatch) => Answered(a, n + 4)
    case Some(Ambiguous(_)) => Answered(a, n + 4)
    case Some(Matched(_)) =>
      if job.operation.SubmitTranscript? then SubmissionEvents(job, a, n + 1) else QuestionEvents(job, a, n + 1)
  }

  // ---- what the calls leave -------------------------------------------------------------

  /** A transcript has its file where its path says, or neither. */
  predicate Fits(p: Job, job: JobStore.Job) {
    && p.operation == job.operation && p.groupHint == job.groupHint
    && (if Worker.HasFile(job) then FileAt(p, p.path) else p.operation.SubmitTranscript? ==> p.path.None?)
  }

  function AtStage(p: Job, job: JobStore.Job, stage: Stage): Job {
    if Worker.HasFile(job) then MovedTo(p, stage).(path := Some(stage)) else p
  }

  function Ended(p: Job, job: JobStore.Job, status: JobState): Job {
    AtStage(p.(status := status), job, Worker.StageOf(status))
  }

  /** The job at its end, with the mail that goes with it. */
  function Finished(p: Job, job: JobStore.Job, status: JobState): Job {
    Noticed(Ended(p, job, status), Worker.KindOf(job.operation, status))
  }

  function Going(p: Job, job: JobStore.Job): Job {
    Ended(p, job, Processing).(starts := p.starts + 1)
  }

  predicate Goes(p: Job, job: JobStore.Job) {
    p.status.Processing? && Fits(p, job) && (Worker.HasFile(job) ==> p.path == Some(ProcessingDir))
  }

  function View(p: Job, point: WorkerPoint): WorkerView {
    WorkerView(p, Some(Hold(RowOf(p), point)))
  }

  lemma Begins(c: Casing, p: Job, job: JobStore.Job, a: Answer)
    requires Fits(p, job) && MayMove(p.status, Processing)
    ensures Work(c, View(p, Start), a, Preamble(job)) == View(Going(p, job), AskBackend)
    ensures Goes(Going(p, job), job)
  {
    hide Work, Read;
    if Worker.HasFile(job) {
      StartsWork(c, p, p.path.value, p.file.value.content, a);
    } else {
      FiveCalls(c, View(p, Start), a);
    }
  }

  lemma Surrenders(c: Casing, p: Job, job: JobStore.Job, a: Answer)
    requires Goes(p, job)
    ensures Work(c, View(p, Fail), a, Surrender(job)) == WorkerView(Finished(p, job, Failed), None)
  {
    hide Work, NextCall;
    if Worker.HasFile(job) {
      GivesUpWork(c, p, p.file.value.content, a);
    } else {
      FiveCalls(c, View(p, Fail), a);
      FailsWithoutFile(c, p, a);
      NotifyCalls(c, p.(status := Failed), RowOf(p), a);
    }
  }

  lemma FailsWithoutFile(c: Casing, p: Job, a: Answer)
    requires p.status.Processing? && (p.operation.SubmitTranscript? ==> p.path.None?)
    ensures var v, failed := NextCall(c, View(p, Fail), a), View(p.(status := Failed), MailFailure);
            if p.operation.SubmitTranscript? then NextCall(c, v, a) == failed else v == failed
  {
    hide Read;
  }

  /** The job with the effect that the raising call has had all the same. */
  function Raised(p: Job, point: WorkerPoint, called: bool): Job {
    WorkerRaise(p, Hold(RowOf(p), point), called).job
  }

  predicate Guarded(point: WorkerPoint) {
    point.AskBackend? || point.CreateMeeting? || point.Upload? || point.Attendees? || point.AskSources?
  }

  lemma GivesUp(c: Casing, v: WorkerView, p: Job, job: JobStore.Job, a: Worker.Answers, n: nat, point: WorkerPoint,
                called: bool)
    requires Goes(p, job) && Guarded(point)
    requires Work(c, v, Listed(a), n) == View(p, point)
    ensures Play(c, v, GivenUp(job, a, n, called)) == WorkerView(Finished(Raised(p, point, called), job, Failed), None)
  {
    hide Play, Goes;
    var r := [WorkerRaises(called)];
    PlayGoesOn(c, v, Answered(a, n), r);
    PlayGoesOn(c, v, Answered(a, n) + r, Answered(a, Surrender(job)));
    RaisesOnce(c, p, job, point, called);
    Surrenders(c, Raised(p, point, called), job, Listed(a));
  }

  lemma RaisesOnce(c: Casing, p: Job, job: JobStore.Job, point: WorkerPoint, called: bool)
    requires Goes(p, job) && Guarded(point)
    ensures Play(c, View(p, point), [WorkerRaises(called)]) == View(Raised(p, point, called), Fail)
    ensures Goes(Raised(p, point, called), job)
  {
    var v, e := View(p, point), WorkerRaises(called);
    assert [e][1..] == [];
    assert Play(c, v, [e]) == Play(c, Next(c, v, e), []);
  }

  // ---- a transcript whose group is found ------------------------------------------------

  function Met(p: Job): Job {
    p.(meetings := p.meetings + 1)
  }

  function Uploaded(p: Job, content: Bytes): Job {
    Met(p).(uploads := p.uploads + [content])
  }

  lemma SubmitCalls(c: Casing, p: Job, content: Bytes, a: Answer)
    requires p.path.Some? && p.file == Some(StoredFile(p.path.value, content))
    ensures var v := View(p, CreateMeeting);
            && Work(c, v, a, 2) == View(Met(p), Upload(content))
            && Work(c, v, a, 3) == View(Uploaded(p, content), Attendees)
            && Work(c, v, a, 4) == View(Uploaded(p, content), RecordResults)
  {
    hide Work, Read;
    FiveCalls(c, View(p, CreateMeeting), a);
  }

  lemma NoFileCalls(c: Casing, p: Job, a: Answer)
    requires p.path.None?
    ensures Work(c, View(p, CreateMeeting), a, 2) == View(Met(p), Fail)
  {
    hide Work, Read;
    FiveCalls(c, View(p, CreateMeeting), a);
  }

  /** What the execution leaves of a transcript in progress whose group is found. */
  function AfterUpload(p: Job, job: JobStore.Job, a: Worker.Answers): Job {
    var told := if Worker.AsksUpload(job, a) && p.file.Some? then Uploaded(p, p.file.value.content)
                else if Worker.AsksMeeting(job) then Met(p) else p;
    Finished(told, job, if Worker.Submits(job, a) then Completed else Failed)
  }

  lemma PlaySubmission(c: Casing, v: WorkerView, p: Job, job: JobStore.Job, a: Worker.Answers, n: nat)
    requires Goes(p, job) && job.operation.SubmitTranscript?
    requires Work(c, v, Listed(a), n) == View(p, CreateMeeting)
    ensures Play(c, v, SubmissionEvents(job, a, n)) == WorkerView(AfterUpload(p, job, a), None)
  {
    hide Play, Finished;
    var g := Listed(a);
    if !Worker.AsksMeeting(job) {
      GivesUp(c, v, p, job, a, n, CreateMeeting, false);
    } else if !a.meeting.Answer? {
      GivesUp(c, v, p, job, a, n, CreateMeeting, true);
    } else if job.path.None? {
      PlayWithoutFile(c, v, p, job, a, n);
    } else {
      var content := p.file.value.content;
      SubmitCalls(c, p, content, g);
      WorkGoesOn(c, v, g, n, 2);
      WorkGoesOn(c, v, g, n, 3);
      if !a.upload.Answer? {
        GivesUp(c, v, Met(p), job, a, n + 2, Upload(content), true);
      } else if !Worker.Submits(job, a) {
        GivesUp(c, v, Uploaded(p, content), job, a, n + 3, Attendees, false);
      } else {
        PlayToTheEnd(c, v, p, job, a, n, content);
      }
    }
  }

  lemma PlayWithoutFile(c: Casing, v: WorkerView, p: Job, job: JobStore.Job, a: Worker.Answers, n: nat)
    requires Goes(p, job) && job.operation.SubmitTranscript? && job.path.None?
    requires Work(c, v, Listed(a), n) == View(p, CreateMeeting)
    ensures Work(c, v, Listed(a), n + 2 + Surrender(job)) == WorkerView(Finished(Met(p), job, Failed), None)
  {
    hide Work;
    var g := Listed(a);
    NoFileCalls(c, p, g);
    Surrenders(c, Met(p), job, g);
    WorkGoesOn(c, v, g, n, 2);
    WorkGoesOn(c, v, g, n + 2, Surrender(job));
  }

  lemma PlayToTheEnd(c: Casing, v: WorkerView, p: Job, job: JobStore.Job, a: Worker.Answers, n: nat, content: Bytes)
    requires Goes(p, job) && Worker.HasFile(job) && p.file == Some(StoredFile(ProcessingDir, content))
    requires Work(c, v, Listed(a), n) == View(p, CreateMeeting)
    ensures Work(c, v, Listed(a), n + 9) == WorkerView(Finished(Uploaded(p, content), job, Completed), None)
  {
    hide Work;
    var g := Listed(a);
    SubmitCalls(c, p, content, g);
    CompletesWork(c, Uploaded(p, content), content, g);
    WorkGoesOn(c, v, g, n, 4);
    WorkGoesOn(c, v, g, n + 4, 5);
  }

  // ---- a question whose group is found --------------------------------------------------

  function AfterSources(p: Job, job: JobStore.Job, a: Worker.Answers): Job {
    Finished(p, job, if !Worker.Surprises(job, a) && (Worker.TranscriptsAnswer(job, a) || Worker.BoardAnswers(job, a))
                  then Completed else Failed)
  }

  lemma SourcesAnswer(c: Casing, p: Job, answered: bool)
    requires p.operation.AssessQuery? && p.status.Processing?
    ensures Work(c, View(p, AskSources), Sources(answered), if answered then 3 else 4)
            == WorkerView(Noticed(p.(status := if answered then Completed else Failed),
                                  if answered then Outbox.AssessResult else Outbox.FailureNotice), None)
  {
    hide Work, NextCall;
    FiveCalls(c, View(p, AskSources), Sources(answered));
    if answered {
      CompletingCalls(c, p);
    } else {
      FailingCalls(c, p);
    }
  }

  lemma CompletingCalls(c: Casing, p: Job)
    requires p.operation.AssessQuery? && p.status.Processing?
    ensures var a := Sources(true);
            NextCall(c, NextCall(c, NextCall(c, View(p, AskSources), a), a), a)
            == WorkerView(Noticed(p.(status := Completed), Outbox.AssessResult), None)
  {
    assert NextCall(c, View(p, AskSources), Sources(true)) == View(p, Complete);
  }

  lemma FailingCalls(c: Casing, p: Job)
    requires p.operation.AssessQuery? && p.status.Processing?
    ensures var a := Sources(false);
            NextCall(c, NextCall(c, NextCall(c, NextCall(c, View(p, AskSources), a), a), a), a)
            == WorkerView(Noticed(p.(status := Failed), Outbox.FailureNotice), None)
  {
    var a := Sources(false);
    var v1 := NextCall(c, View(p, AskSources), a);
    assert v1 == View(p, NoSources);
    assert NextCall(c, v1, a) == View(p.(status := Failed), MailNoSources);
  }

  lemma PlayQuestion(c: Casing, v: WorkerView, p: Job, job: JobStore.Job, a: Worker.Answers, n: nat)
    requires Goes(p, job) && job.operation.AssessQuery?
    requires Work(c, v, Listed(a), n) == View(p, AskSources)
    ensures Play(c, v, QuestionEvents(job, a, n)) == WorkerView(AfterSources(p, job, a), None)
  {
    hide Play, Worker.TranscriptsAnswer, Worker.BoardAnswers;
    if Worker.Surprises(job, a) {
      GivesUp(c, v, p, job, a, n, AskSources, false);
    } else {
      var answered := Worker.TranscriptsAnswer(job, a) || Worker.BoardAnswers(job, a);
      SourcesAnswer(c, p, answered);
      PlayGoesOn(c, v, Answered(a, n), Calls(WorkerCall(Sources(answered)), if answered then 3 else 4));
    }
  }

  // ---- the whole execution --------------------------------------------------------------

  /** What the execution leaves of a job that can be started. */
  function AfterExecution(c: Casing, p: Job, job: JobStore.Job, a: Worker.Answers): Job {
    var q := Going(p, job);
    match Worker.Choice(c, job, a)
    case None => Finished(q, job, Failed)
    case Some(NoMatch) => Noticed(q.(status := NeedsClarification, pending := Some(Names(a.groups.value))), Outbox.Clarification)
    case Some(Ambiguous(_)) => Noticed(q.(status := NeedsClarification, pending := Some(Names(a.groups.value))), Outbox.Clarification)
    case Some(Matched(_)) =>
      if job.operation.SubmitTranscript? then AfterUpload(q, job, a) else AfterSources(q, job, a)
  }

  lemma GroupIsFound(c: Casing, p: Job, a: Answer)
    requires Read(c, p.groupHint, a).GroupFound?
    ensures Work(c, View(p, AskBackend), a, 1)
            == View(p, if p.operation.SubmitTranscript? then CreateMeeting else AskSources)
  {
    hide Work, Read;
    FiveCalls(c, View(p, AskBackend), a);
  }

  lemma PlayExecution(c: Casing, p: Job, job: JobStore.Job, a: Worker.Answers)
    requires Fits(p, job) && MayMove(p.status, Processing)
    ensures Play(c, View(p, Start), EventsOf(c, job, a)) == WorkerView(AfterExecution(c, p, job, a), None)
  {
    hide Play, MatchGroup, Names, SubmissionEvents, QuestionEvents, AfterUpload, AfterSources, Going;
    var v, q, g, n := View(p, Start), Going(p, job), Listed(a), Preamble(job);
    Begins(c, p, job, g);
    if !a.login.Answer? || !a.groups.Answer? {
      GivesUp(c, v, q, job, a, n, AskBackend, false);
    } else if !Worker.Matches(c, job, a) {
      AsksWork(c, q, g);
      WorkGoesOn(c, v, g, n, 4);
    } else {
      GroupIsFound(c, q, g);
      WorkGoesOn(c, v, g, n, 1);
      if job.operation.SubmitTranscript? {
        PlaySubmission(c, v, q, job, a, n + 1);
      } else {
        PlayQuestion(c, v, q, job, a, n + 1);
      }
    }
  }

  // ---- the same tables, and the same calls to the backend -------------------------------

  function MeetingsIn(calls: seq<Worker.BackendCall>): nat {
    if calls == [] then 0 else (if calls[0].CreateMeeting? then 1 else 0) + MeetingsIn(calls[1..])
  }

  function UploadsIn(calls: seq<Worker.BackendCall>): seq<Bytes> {
    if calls == [] then [] else (if calls[0].UploadFile? then [calls[0].content] else []) + UploadsIn(calls[1..])
  }

  lemma {:induction false} OnlyAttendees(calls: seq<Worker.BackendCall>)
    requires forall i :: 0 <= i < |calls| ==> calls[i].AddAttendee?
    ensures MeetingsIn(calls) == 0 && UploadsIn(calls) == []
  {
    if calls != [] {
      OnlyAttendees(calls[1..]);
    }
  }

  lemma TraceCounts(calls: seq<Worker.BackendCall>, job: JobStore.Job, group: Group, a: Worker.Answers,
                    files: map<Path, Bytes>)
    requires Worker.UploadTrace(calls, job, group, a, files)
    ensures MeetingsIn(calls) == if Worker.AsksMeeting(job) then 1 else 0
    ensures Worker.AsksUpload(job, a) ==> job.path.value in files
    ensures UploadsIn(calls) == if Worker.AsksUpload(job, a) then [files[job.path.value]] else []
  {
    if |calls| > 1 {
      assert calls[1..][1..] == calls[2..];
      OnlyAttendees(calls[2..]);
      assert UploadsIn(calls[1..]) == [calls[1].content];
    } else if |calls| == 1 {
      assert calls[1..] == [];
    }
  }

  lemma ShownFits(p: Job, job: JobStore.Job, t: Worker.Tables)
    requires Shows(p, job, t)
    ensures Fits(p, job) && p.status == job.status && p.operation == job.operation
    ensures Worker.HasFile(job) ==> p.file.value.content == t.files[job.path.value]
  {
  }

  lemma ToldBackend(c: Casing, p: Job, job: JobStore.Job, a: Worker.Answers)
    requires Fits(p, job)
    ensures var q, told := AfterExecution(c, p, job, a), job.operation.SubmitTranscript? && Worker.Matches(c, job, a);
            && q.meetings == p.meetings + (if told && Worker.AsksMeeting(job) then 1 else 0)
            && q.uploads == p.uploads + (if told && Worker.AsksUpload(job, a) then [p.file.value.content] else [])
  {
    hide MatchGroup, Names, Worker.Submits, Worker.Surprises, Worker.TranscriptsAnswer, Worker.BoardAnswers;
  }

  /** The backend hears the same. */
  lemma SameCalls(c: Casing, p: Job, job: JobStore.Job, a: Worker.Answers, before: Worker.Tables,
                  earlier: seq<Worker.BackendCall>, all: seq<Worker.BackendCall>)
    requires Shows(p, job, before)
    requires if job.operation.SubmitTranscript? then Worker.CallsMade(c, job, a, before.files, earlier, all)
             else all == earlier
    ensures earlier <= all
    ensures var q := AfterExecution(c, p, job, a);
            && q.meetings == p.meetings + MeetingsIn(all[|earlier|..])
            && q.uploads == p.uploads + UploadsIn(all[|earlier|..])
  {
    hide AfterExecution, MatchGroup, MeetingsIn, UploadsIn, Worker.UploadTrace, Worker.Submits, Worker.Verdict;
    ShownFits(p, job, before);
    ToldBackend(c, p, job, a);
    OnlyAttendees([]);
    if job.operation.SubmitTranscript? && Worker.Matches(c, job, a) {
      TraceCounts(all[|earlier|..], job, Worker.Choice(c, job, a).value.group, a, before.files);
    } else {
      assert all[|earlier|..] == [];
    }
  }

  /** The same job, with the status, and with the file where the status says. */
  predicate Leaves(p: Job, job: JobStore.Job, q: Job, status: JobState) {
    && q.operation == p.operation && q.status == status && q.groupHint == p.groupHint
    && (if Worker.HasFile(job) then
          && p.file.Some? && q.path == Some(Worker.StageOf(status))
          && q.file == Some(StoredFile(Worker.StageOf(status), p.file.value.content))
        else q.path == p.path && q.file == p.file)
  }

  lemma UploadLeaves(p: Job, job: JobStore.Job, a: Worker.Answers)
    requires Goes(p, job)
    ensures Leaves(p, job, AfterUpload(p, job, a), if Worker.Submits(job, a) then Completed else Failed)
    ensures AfterUpload(p, job, a).pending == p.pending
  {
    hide Worker.Submits;
  }

  lemma GoingLeaves(p: Job, job: JobStore.Job)
    requires Fits(p, job)
    ensures Goes(Going(p, job), job) && Leaves(p, job, Going(p, job), Processing) && Going(p, job).pending == p.pending
    ensures Leaves(p, job, Ended(Going(p, job), job, Failed), Failed) && Ended(Going(p, job), job, Failed).pending == p.pending
  {
  }

  function KindsOf(mails: seq<Outbox.Mail>): seq<Outbox.MailKind> {
    seq(|mails|, i requires 0 <= i < |mails| => mails[i].kind)
  }

  lemma OneNotice(c: Casing, p: Job, job: JobStore.Job, a: Worker.Answers)
    requires p.operation == job.operation
    ensures AfterExecution(c, p, job, a).notices
            == p.notices + [Worker.KindOf(job.operation, Worker.Verdict(c, job, a))]
  {
    hide MatchGroup, Names, Worker.Submits, Worker.Surprises, Worker.TranscriptsAnswer, Worker.BoardAnswers;
    hide Worker.KindOf, Finished, Ended, Going;
    AskingKind(job.operation);
    var q := Going(p, job);
    NoticesOf(p, job, Processing);
    NoticesOf(q, job, Failed);
    NoticesOf(q, job, Completed);
    NoticesOf(Met(q), job, Failed);
    if q.file.Some? {
      NoticesOf(Uploaded(q, q.file.value.content), job, Failed);
      NoticesOf(Uploaded(q, q.file.value.content), job, Completed);
    }
    NoticesOf(Met(q), job, Completed);
  }

  lemma NoticesOf(p: Job, job: JobStore.Job, status: JobState)
    ensures Going(p, job).notices == p.notices
    ensures Finished(p, job, status).notices == p.notices + [Worker.KindOf(job.operation, status)]
  {
    hide Worker.KindOf, Worker.StageOf;
  }

  lemma AskingKind(operation: Operation)
    ensures Worker.KindOf(operation, NeedsClarification) == Outbox.Clarification
  {
  }

  /** The sender gets the same mails. */
  lemma SameNotices(c: Casing, p: Job, job: JobStore.Job, a: Worker.Answers, before: Worker.Tables, after: Worker.Tables)
    requires p.operation == job.operation && Worker.Executed(c, job, a, before, after)
    ensures before.replies <= after.replies
    ensures AfterExecution(c, p, job, a).notices == p.notices + KindsOf(after.replies[|before.replies|..])
  {
    hide AfterExecution, Worker.Verdict, Worker.FinalRow, Worker.Stored, Names, Worker.Parent, Worker.KindOf;
    OneNotice(c, p, job, a);
    var kind := Worker.KindOf(job.operation, Worker.Verdict(c, job, a));
    assert KindsOf(after.replies[|before.replies|..]) == [kind];
  }

  /** The job ends with the status of the verdict. */
  lemma LeftBehind(c: Casing, p: Job, job: JobStore.Job, a: Worker.Answers)
    requires Fits(p, job)
    ensures var q, status := AfterExecution(c, p, job, a), Worker.Verdict(c, job, a);
            && Leaves(p, job, q, status)
            && q.pending == (if status.NeedsClarification? then Some(Names(a.groups.value)) else p.pending)
  {
    hide MatchGroup, Names, Worker.Submits, Worker.Surprises, Worker.TranscriptsAnswer, Worker.BoardAnswers;
    hide AfterUpload, Going;
    GoingLeaves(p, job);
    UploadLeaves(Going(p, job), job, a);
  }

  lemma RowLeftBehind(c: Casing, job: JobStore.Job, a: Worker.Answers)
    ensures var row, status := Worker.FinalRow(c, job, a), Worker.Verdict(c, job, a);
            && row.jobId == job.jobId && row.operation == job.operation && row.status == status
            && row.groupHint == job.groupHint
            && row.path == (if Worker.HasFile(job) then Some(Path(Worker.StageOf(status), job.path.value.name))
                            else job.path)
  {
    hide MatchGroup, Worker.Submits, Worker.Surprises, Worker.TranscriptsAnswer, Worker.BoardAnswers, Worker.Told;
    hide Worker.StageOf;
  }

  /** The tables show the same. */
  lemma SameTables(c: Casing, p: Job, job: JobStore.Job, a: Worker.Answers, before: Worker.Tables, after: Worker.Tables)
    requires Shows(p, job, before) && Worker.Executed(c, job, a, before, after)
    ensures job.jobId in after.jobs && Shows(AfterExecution(c, p, job, a), after.jobs[job.jobId], after)
  {
    hide AfterExecution, Names, Worker.Verdict, Worker.FinalRow, Worker.StageOf;
    ShownFits(p, job, before);
    LeftBehind(c, p, job, a);
    RowLeftBehind(c, job, a);
  }

  /**
   * Whatever the other systems answer or raise, executing a job that can be started is a run of the
   * protocol: from a state that shows the tables before it, the calls of the execution lead the
   * worker to let go of the job in a state that shows the tables after it, with the same meetings
   * created, the same contents uploaded and the same mails to the sender, and with nothing else changed.
   */
  lemma ExecutionIsARun(c: Casing, s: State, id: JobId, job: JobStore.Job, a: Worker.Answers,
                        before: Worker.Tables, after: Worker.Tables,
                        earlier: seq<Worker.BackendCall>, all: seq<Worker.BackendCall>)
    requires id in s.jobs && Shows(s.jobs[id], job, before)
    requires s.worker == At(id, Hold(RowOf(s.jobs[id]), Start))
    requires Worker.Startable(before, job) && Worker.Executed(c, job, a, before, after)
    requires if job.operation.SubmitTranscript? then Worker.CallsMade(c, job, a, before.files, earlier, all)
             else all == earlier
    ensures job.jobId in after.jobs && earlier <= all && before.replies <= after.replies
    ensures var p, t := s.jobs[id], Run(c, s, EventsOf(c, job, a));
            && id in t.jobs && t == s.(jobs := s.jobs[id := t.jobs[id]], worker := Nobody)
            && Shows(t.jobs[id], after.jobs[job.jobId], after)
            && t.jobs[id].meetings == p.meetings + MeetingsIn(all[|earlier|..])
            && t.jobs[id].uploads == p.uploads + UploadsIn(all[|earlier|..])
            && t.jobs[id].notices == p.notices + KindsOf(after.replies[|before.replies|..])
  {
    hide Run, Play, Shows, AfterExecution, EventsOf, MeetingsIn, UploadsIn, KindsOf, MayMove, Fits;
    hide Worker.Executed, Worker.CallsMade;
    var p := s.jobs[id];
    ShownFits(p, job, before);
    PlayExecution(c, p, job, a);
    RunIsPlay(c, s, id, Hold(RowOf(p), Start), EventsOf(c, job, a));
    SameTables(c, p, job, a, before, after);
    SameCalls(c, p, job, a, before, earlier, all);
    SameNotices(c, p, job, a, before, after);
  }
}
