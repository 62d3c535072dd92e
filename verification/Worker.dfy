/** The job worker: one pass over the queued jobs, and what happens to each of them. */
module Worker {
  import opened Wrappers
  import opened JobStates
  import opened JobStore
  import opened GroupMatching
  import opened Attachments
  import opened Outbox
  import opened AdminNotifier

  // ---- the outside world ----------------------------------------------------------------

  /** A call into another system answers, or raises that system's own error, or raises something else. */
  datatype Call<+T> = Answer(value: T) | ApiError | Unexpected

  datatype Alias = Alias(name: string, member: Option<int>)

  /** What the other systems answer while one job is executed; each call is made at most once. */
  datatype Answers = Answers(
    login: Call<string>,
    groups: Call<seq<Group>>,
    question: string,
    meeting: Call<int>,
    upload: Call<int>,
    aliases: Call<seq<Alias>>,
    attendee: nat -> Call<()>,
    search: Call<seq<string>>,
    synthesis: Call<string>,
    repo: Call<Option<int>>,
    query: Call<string>,
    checked: int,
    recorded: int)

  datatype BackendCall =
    | CreateMeeting(group: int, date: int)
    | UploadFile(group: int, meeting: int, filename: Option<string>, content: Bytes)
    | AddAttendee(group: int, meeting: int, member: int)

  /** The backend as far as this program changes it: the calls made, whether or not they answered. */
  class Backend {
    var calls: seq<BackendCall>

    constructor ()
      ensures calls == []
    {
      calls := [];
    }

    method Log(call: BackendCall)
      modifies this
      ensures calls == old(calls) + [call]
    {
      calls := calls + [call];
    }
  }

  // ---- what a job comes to --------------------------------------------------------------

  predicate Given(s: Option<string>) {
    s.Some? && s.value != ""
  }

  function Parent(job: Job): string {
    if Given(job.inReplyTo) then job.inReplyTo.value else job.sourceMessageId
  }

  function ReplyAbout(job: Job, kind: MailKind, parent: string): Mail {
    Mail(Some(job.jobId), job.senderEmail, kind, Some(parent), Some(parent))
  }

  /** The outcome of match_group, when the groups could be listed. */
  function Choice(c: Casing, job: Job, a: Answers): Option<Match> {
    if a.login.Answer? && a.groups.Answer? then Some(MatchGroup(c, job.groupHint, a.groups.value)) else None
  }

  predicate Matches(c: Casing, job: Job, a: Answers) {
    Choice(c, job, a).Some? && Choice(c, job, a).value.Matched?
  }

  predicate Attends(aliases: seq<Alias>, attendee: nat -> Call<()>) {
    forall i :: 0 <= i < |aliases| && aliases[i].member.Some? ==> attendee(i).Answer?
  }

  /** No call after the choice of the group raises. */
  predicate Submits(job: Job, a: Answers) {
    && job.meetingDate.Some? && job.path.Some?
    && a.meeting.Answer? && a.upload.Answer?
    && (job.speakers != [] ==> a.aliases.Answer? && Attends(a.aliases.value, a.attendee))
  }

  predicate AsksTranscripts(job: Job) {
    Given(job.transcriptFocus)
  }

  predicate AsksBoard(job: Job) {
    Given(job.githubFocus) || Given(job.trelloFocus)
  }

  const NOTHING_FOUND := "I didn't find anything in past transcripts that speaks to this."

  /** Without any chunk found, the language model is not asked. */
  function Synthesis(a: Answers): Call<string>
    requires a.search.Answer?
  {
    if a.search.value == [] then Answer(NOTHING_FOUND) else a.synthesis
  }

  predicate TranscriptsAnswer(job: Job, a: Answers) {
    AsksTranscripts(job) && a.search.Answer? && Synthesis(a).Answer?
  }

  predicate BoardAnswers(job: Job, a: Answers) {
    AsksBoard(job) && a.repo.Answer? && a.repo.value.Some? && a.query.Answer?
  }

  /**
   * Some call raises what its source's handler does not catch: an error that is not the source's
   * own. The language model's errors never are, not even its own, since it is asked under the
   * handler of the transcript search.
   */
  predicate Surprises(job: Job, a: Answers) {
    || (AsksTranscripts(job) && (a.search.Unexpected? || (a.search.Answer? && !Synthesis(a).Answer?)))
    || (AsksBoard(job) && (a.repo.Unexpected? || (a.repo.Answer? && a.repo.value.Some? && a.query.Unexpected?)))
  }

  /** The status that one execution leaves a job in. */
  function Verdict(c: Casing, job: Job, a: Answers): (status: JobState)
    ensures status.Completed? || status.Failed? || status.NeedsClarification?
    ensures status.NeedsClarification? ==> a.groups.Answer?
  {
    match Choice(c, job, a)
    case None => Failed
    case Some(Ambiguous(_)) => NeedsClarification
    case Some(NoMatch) => NeedsClarification
    case Some(Matched(_)) =>
      if job.operation.SubmitTranscript? then (if Submits(job, a) then Completed else Failed)
      else if !Surprises(job, a) && (TranscriptsAnswer(job, a) || BoardAnswers(job, a)) then Completed
      else Failed
  }

  /**
   * Once an answer to the question has been accepted, the same list of groups does not raise the
   * question again; it does so only for a nameless group among several.
   */
  lemma AnswerIsFinal(c: Casing, job: Job, a: Answers, text: string, chosen: string)
    requires Coherent(c) && a.login.Answer? && a.groups.Answer?
    requires AcceptedAnswer(c, Names(a.groups.value), text) == Some(chosen) && job.groupHint == Some(chosen)
    ensures Verdict(c, job, a).NeedsClarification? <==> chosen == "" && |a.groups.value| != 1
  {
    AcceptedAnswerResolves(c, a.groups.value, text, chosen);
  }

  /** Every call that fails raises the error of the system it is made to. */
  predicate OnlyOwnErrors(a: Answers) {
    !a.search.Unexpected? && !a.synthesis.Unexpected? && !a.repo.Unexpected? && !a.query.Unexpected?
  }

  /**
   * A failing system is meant to cost only its own part of the answer, as long as one source
   * answers. That is so if and only if it is not the language model that fails, after the search
   * has found something.
   */
  lemma DegradesExactly(c: Casing, job: Job, a: Answers)
    requires job.operation.AssessQuery? && Matches(c, job, a) && OnlyOwnErrors(a)
    requires TranscriptsAnswer(job, a) || BoardAnswers(job, a)
    ensures Verdict(c, job, a).Completed?
            <==> !(AsksTranscripts(job) && a.search.Answer? && a.search.value != [] && a.synthesis.ApiError?)
  {
    hide MatchGroup;
  }

  /** The failing input: the board has its answer, and the question is failed all the same. */
  lemma LanguageModelErrorFailsTheQuestion(c: Casing, job: Job, a: Answers)
    requires job.operation.AssessQuery? && Matches(c, job, a) && BoardAnswers(job, a)
    requires AsksTranscripts(job) && a.search.Answer? && a.search.value != [] && a.synthesis.ApiError?
    ensures Verdict(c, job, a).Failed?
  {
    hide MatchGroup;
  }

  function KindOf(operation: Operation, status: JobState): MailKind {
    match status
    case NeedsClarification => Clarification
    case Completed => if operation.SubmitTranscript? then Completion else AssessResult
    case _ => FailureNotice
  }

  /** The directory a transcript is in while its job has the status. */
  function StageOf(status: JobState): Stage {
    match status
    case Completed => CompletedDir
    case Failed => FailedDir
    case _ => ProcessingDir
  }

  function Resolved(aliases: seq<Alias>): seq<string> {
    if aliases == [] then []
    else
      var last := aliases[|aliases| - 1];
      Resolved(aliases[..|aliases| - 1]) + (if last.member.Some? then [last.name] else [])
  }

  function Unresolved(aliases: seq<Alias>): seq<string> {
    if aliases == [] then []
    else
      var last := aliases[|aliases| - 1];
      Unresolved(aliases[..|aliases| - 1]) + (if last.member.None? then [last.name] else [])
  }

  function Attendances(group: int, meeting: int, aliases: seq<Alias>): seq<BackendCall> {
    if aliases == [] then []
    else
      var last := aliases[|aliases| - 1];
      Attendances(group, meeting, aliases[..|aliases| - 1])
      + (if last.member.Some? then [AddAttendee(group, meeting, last.member.value)] else [])
  }

  lemma NoAliases(group: int, meeting: int)
    ensures Resolved([]) == [] && Unresolved([]) == [] && Attendances(group, meeting, []) == []
  {
  }

  /** What the next alias adds. */
  lemma NextAlias(group: int, meeting: int, aliases: seq<Alias>, i: nat)
    requires i < |aliases|
    ensures var x := aliases[i];
            && Resolved(aliases[..i + 1]) == Resolved(aliases[..i]) + (if x.member.Some? then [x.name] else [])
            && Unresolved(aliases[..i + 1]) == Unresolved(aliases[..i]) + (if x.member.None? then [x.name] else [])
            && Attendances(group, meeting, aliases[..i + 1])
               == Attendances(group, meeting, aliases[..i])
                  + (if x.member.Some? then [AddAttendee(group, meeting, x.member.value)] else [])
  {
    assert aliases[..i + 1][..i] == aliases[..i];
  }

  function Speakers(job: Job, a: Answers): seq<Alias> {
    if job.speakers != [] && a.aliases.Answer? then a.aliases.value else []
  }

  /** What a completed execution told the backend. */
  function Told(c: Casing, job: Job, a: Answers): Submission
    requires Matches(c, job, a) && a.meeting.Answer?
  {
    Submission(Choice(c, job, a).value.group, a.meeting.value, Resolved(Speakers(job, a)), Unresolved(Speakers(job, a)))
  }

  function Settled(row: Job, path: Option<Path>, status: JobState): Job {
    if path.None? then row.(status := status)
    else row.(status := status, path := Some(Path(StageOf(status), path.value.name)))
  }

  /** The row once the execution is over. */
  function FinalRow(c: Casing, job: Job, a: Answers): Job {
    var status := Verdict(c, job, a);
    if job.operation.AssessQuery? then job.(status := status)
    else if status.Completed? then Settled(job.(outcome := Some(Told(c, job, a))), job.path, Completed)
    else Settled(job, job.path, status)
  }

  /** The rows of other jobs are as they were. */
  predicate OnlyJob(before: map<string, Job>, after: map<string, Job>, id: string) {
    before - {id} == after - {id}
  }

  /** The tables an execution works on; of the outbox, the mails to senders and the alerts. */
  datatype Tables = Tables(jobs: map<string, Job>, replies: seq<Mail>, files: map<Path, Bytes>,
                           pending: map<string, PendingClarification>, alerts: Alerts)

  predicate HasFile(job: Job) {
    job.operation.SubmitTranscript? && job.path.Some?
  }

  /** The content is in the one directory that fits the status, and no other file has changed. */
  ghost predicate Stored(job: Job, status: JobState, before: map<Path, Bytes>, after: map<Path, Bytes>) {
    if !HasFile(job) then after == before
    else
      var path := Path(StageOf(status), job.path.value.name);
      && job.path.value in before && path in after && after[path] == before[job.path.value]
      && OnlyFile(before, after, job.path.value.name)
  }

  /** A job that fails is reported to the administrator, under the category of its operation. */
  function AlertsAfter(c: Casing, job: Job, a: Answers, alerts: Alerts): Alerts {
    if !Verdict(c, job, a).Failed? then alerts
    else Alerted(alerts, if job.operation.SubmitTranscript? then BackendSubmissionFailure else AssessQueryFailure,
                 a.checked, a.recorded)
  }

  /** What one execution of a queued job does: one final row, one mail to its sender, one place for its file. */
  ghost predicate Executed(c: Casing, job: Job, a: Answers, before: Tables, after: Tables) {
    var status := Verdict(c, job, a);
    && after.jobs == before.jobs[job.jobId := FinalRow(c, job, a)]
    && after.replies == before.replies + [ReplyAbout(job, KindOf(job.operation, status), Parent(job))]
    && Stored(job, status, before.files, after.files)
    && after.pending == (if status.NeedsClarification?
                         then before.pending[job.jobId := PendingClarification(a.question, Names(a.groups.value))]
                         else before.pending)
    && after.alerts == AlertsAfter(c, job, a, before.alerts)
  }

  /** The row still is what the snapshot says, it may be started, and its file is there. */
  predicate Startable(t: Tables, job: Job) {
    && job.jobId in t.jobs && t.jobs[job.jobId] == job
    && MayMove(job.status, Processing)
    && (HasFile(job) ==> job.path.value in t.files)
  }

  // ---- the effect of each part of an execution on the tables ----------------------------

  predicate Movable(jobs: map<string, Job>, id: string) {
    id in jobs && MayMove(jobs[id].status, Processing)
  }

  function StartedRow(row: Job, path: Option<Path>): Job {
    if path.None? then row.(status := Processing)
    else row.(status := Processing, path := Some(Path(ProcessingDir, path.value.name)))
  }

  function MovedTo(files: map<Path, Bytes>, path: Option<Path>, stage: Stage): map<Path, Bytes> {
    if path.Some? && path.value in files then Moved(files, path.value, stage) else files
  }

  predicate Held(t: Tables, job: Job) {
    && job.jobId in t.jobs && t.jobs[job.jobId].status.Processing?
    && (job.path.Some? ==> job.path.value in t.files)
  }

  function AfterStart(t: Tables, job: Job): Tables
    requires job.jobId in t.jobs
  {
    t.(jobs := t.jobs[job.jobId := StartedRow(t.jobs[job.jobId], job.path)],
       files := MovedTo(t.files, job.path, ProcessingDir))
  }

  function AfterAsk(t: Tables, job: Job, parent: string, a: Answers): Tables
    requires job.jobId in t.jobs && a.groups.Answer?
  {
    t.(jobs := t.jobs[job.jobId := t.jobs[job.jobId].(status := NeedsClarification)],
       pending := t.pending[job.jobId := PendingClarification(a.question, Names(a.groups.value))],
       replies := t.replies + [ReplyAbout(job, Clarification, parent)])
  }

  function AfterCompletion(t: Tables, job: Job, parent: string, submission: Submission): Tables
    requires job.jobId in t.jobs
  {
    Tables(t.jobs[job.jobId := Settled(t.jobs[job.jobId].(outcome := Some(submission)), job.path, Completed)],
           t.replies + [ReplyAbout(job, Completion, parent)],
           MovedTo(t.files, job.path, CompletedDir), t.pending, t.alerts)
  }

  function AfterSubmission(c: Casing, t: Tables, job: Job, parent: string, a: Answers): Tables
    requires job.jobId in t.jobs && job.operation.SubmitTranscript?
  {
    match Verdict(c, job, a)
    case NeedsClarification => AfterAsk(t, job, parent, a)
    case Completed => AfterCompletion(t, job, parent, Told(c, job, a))
    case _ => t
  }

  function AfterSubmitFailure(t: Tables, job: Job, a: Answers): Tables
    requires job.jobId in t.jobs
  {
    Tables(t.jobs[job.jobId := Settled(t.jobs[job.jobId], job.path, Failed)],
           t.replies + [ReplyAbout(job, FailureNotice, Parent(job))],
           MovedTo(t.files, job.path, FailedDir), t.pending,
           Alerted(t.alerts, BackendSubmissionFailure, a.checked, a.recorded))
  }

  function AfterExecution(c: Casing, t: Tables, job: Job, parent: string, a: Answers): (after: Tables)
    requires job.jobId in t.jobs && job.operation.SubmitTranscript?
    ensures OnlyJob(t.jobs, after.jobs, job.jobId)
  {
    if Verdict(c, job, a).Failed? then AfterSubmitFailure(t, job, a) else AfterSubmission(c, t, job, parent, a)
  }

  function WithStatus(t: Tables, id: string, status: JobState): Tables
    requires id in t.jobs
  {
    t.(jobs := t.jobs[id := t.jobs[id].(status := status)])
  }

  function AfterQuestion(c: Casing, t: Tables, job: Job, a: Answers): (after: Tables)
    requires job.jobId in t.jobs && job.operation.AssessQuery?
    ensures OnlyJob(t.jobs, after.jobs, job.jobId)
  {
    var status := Verdict(c, job, a);
    if status.NeedsClarification? then AfterAsk(t, job, Parent(job), a)
    else WithStatus(t, job.jobId, status).(
           replies := t.replies + [ReplyAbout(job, KindOf(AssessQuery, status), Parent(job))],
           alerts := if status.Failed? then Alerted(t.alerts, AssessQueryFailure, a.checked, a.recorded) else t.alerts)
  }

  lemma QuestionExecuted(c: Casing, job: Job, a: Answers, t: Tables)
    requires job.operation.AssessQuery? && Startable(t, job)
    ensures Executed(c, job, a, t, AfterQuestion(c, WithStatus(t, job.jobId, Processing), job, a))
  {
    hide Verdict, Parent;
  }

  lemma MovedIsThere(files: map<Path, Bytes>, path: Path, stage: Stage)
    requires path in files
    ensures Path(stage, path.name) in Moved(files, path, stage)
  {
  }

  lemma MovedTwice(job: Job, before: map<Path, Bytes>, status: JobState)
    requires HasFile(job) && job.path.value in before
    ensures var path := Path(ProcessingDir, job.path.value.name);
            var started := Moved(before, job.path.value, ProcessingDir);
            path in started && Stored(job, status, before, Moved(started, path, StageOf(status)))
    ensures Stored(job, NeedsClarification, before, Moved(before, job.path.value, ProcessingDir))
  {
  }

  /** Moving the file first changes nothing about how the job ends. */
  lemma StartedAlike(c: Casing, job: Job, started: Job, a: Answers)
    requires job.operation.SubmitTranscript?
    requires started == (if job.path.None? then job else StartedRow(job, job.path))
    ensures Verdict(c, started, a) == Verdict(c, job, a)
    ensures Parent(started) == Parent(job)
    ensures Verdict(c, job, a).NeedsClarification?
            ==> StartedRow(job, job.path).(status := NeedsClarification) == FinalRow(c, job, a)
    ensures Verdict(c, job, a).Completed?
            ==> Settled(StartedRow(job, job.path).(outcome := Some(Told(c, started, a))), started.path, Completed)
                == FinalRow(c, job, a)
    ensures Verdict(c, job, a).Failed?
            ==> Settled(StartedRow(job, job.path), started.path, Failed) == FinalRow(c, job, a)
  {
  }

  /** The parts, one after the other, execute the job. */
  lemma TranscriptExecuted(c: Casing, job: Job, started: Job, a: Answers, t: Tables)
    requires job.operation.SubmitTranscript? && Startable(t, job)
    requires started == (if job.path.None? then job else StartedRow(job, job.path))
    ensures Executed(c, job, a, t, AfterExecution(c, AfterStart(t, job), started, Parent(job), a))
  {
    hide Verdict, FinalRow, Told, Parent, Settled, Moved, Stored;
    StartedAlike(c, job, started, a);
    if HasFile(job) {
      MovedTwice(job, t.files, Verdict(c, job, a));
    } else {
      NoFileStays(job, t.files, Verdict(c, job, a));
    }
  }

  lemma NoFileStays(job: Job, before: map<Path, Bytes>, status: JobState)
    requires !HasFile(job)
    ensures Stored(job, status, before, before)
  {
  }

  datatype Note = TranscriptsUnavailable | NoRepo | BoardUnavailable

  datatype Findings = Findings(transcripts: Option<string>, board: Option<string>, notes: seq<Note>)

  /** The sources a question asks for, each degrading to a note; None when one of them raises something unexpected. */
  method AskSources(job: Job, a: Answers) returns (found: Option<Findings>)
    ensures found.None? <==> Surprises(job, a)
    ensures found.Some? ==>
              && (found.value.transcripts.Some? <==> TranscriptsAnswer(job, a))
              && (found.value.board.Some? <==> BoardAnswers(job, a))
              && (found.value.transcripts.Some? ==>
                    a.search.Answer? && found.value.transcripts == Some(
                      if a.search.value == [] then "I didn't find anything in past transcripts that speaks to this."
                      else if a.synthesis.Answer? then a.synthesis.value else ""))
              && (found.value.board.Some? ==> a.query.Answer? && found.value.board == Some(a.query.value))
              && found.value.notes == (if AsksTranscripts(job) && !TranscriptsAnswer(job, a) then [TranscriptsUnavailable] else [])
                                      + (if !AsksBoard(job) || BoardAnswers(job, a) then []
                                         else if a.repo.Answer? && a.repo.value.None? then [NoRepo] else [BoardUnavailable])
  {
    var transcripts: Option<string>, board: Option<string>, notes: seq<Note> := None, None, [];
    if Given(job.transcriptFocus) {
      if a.search.Unexpected? || (a.search.Answer? && !Synthesis(a).Answer?) {
        return None;
      }
      if a.search.Answer? {
        transcripts := Some(Synthesis(a).value);
      } else {
        notes := notes + [TranscriptsUnavailable];
      }
    }
    if Given(job.githubFocus) || Given(job.trelloFocus) {
      if a.repo.Unexpected? || (a.repo.Answer? && a.repo.value.Some? && a.query.Unexpected?) {
        return None;
      }
      if a.repo.Answer? && a.repo.value.None? {
        notes := notes + [NoRepo];
      } else if a.repo.Answer? && a.query.Answer? {
        board := Some(a.query.value);
      } else {
        notes := notes + [BoardUnavailable];
      }
    }
    found := Some(Findings(transcripts, board, notes));
  }

  predicate AsksMeeting(job: Job) {
    job.meetingDate.Some?
  }

  predicate AsksUpload(job: Job, a: Answers) {
    AsksMeeting(job) && a.meeting.Answer? && job.path.Some?
  }

  /** A meeting if the date is known, then an upload of the stored content if that was answered, and only then attendees. */
  predicate UploadTrace(calls: seq<BackendCall>, job: Job, group: Group, a: Answers, files: map<Path, Bytes>) {
    && (|calls| > 0 <==> AsksMeeting(job))
    && (|calls| > 1 <==> AsksUpload(job, a))
    && (|calls| > 0 ==> calls[0] == CreateMeeting(group.id, job.meetingDate.value))
    && (|calls| > 1 ==> job.path.value in files
                        && calls[1]
                           == UploadFile(group.id, a.meeting.value, job.attachmentFilename, files[job.path.value]))
    && (forall i :: 2 <= i < |calls| ==> calls[i].AddAttendee?)
  }

  lemma MayEnd(final: JobState)
    requires final.Completed? || final.Failed?
    ensures MayMove(Processing, final)
  {
  }

  /** The calls made to the backend: none without a group, and all of them when the job completes. */
  predicate CallsMade(c: Casing, job: Job, a: Answers, files: map<Path, Bytes>,
                      before: seq<BackendCall>, after: seq<BackendCall>)
  {
    && before <= after
    && (!Matches(c, job, a) ==> after == before)
    && (Matches(c, job, a) ==> UploadTrace(after[|before|..], job, Choice(c, job, a).value.group, a, files))
    && (Verdict(c, job, a).Completed? && job.operation.SubmitTranscript? && job.path.value in files ==>
          var group := Choice(c, job, a).value.group.id;
          after == before + [CreateMeeting(group, job.meetingDate.value),
                             UploadFile(group, a.meeting.value, job.attachmentFilename, files[job.path.value])]
                          + Attendances(group, a.meeting.value, Speakers(job, a)))
  }

  // ---- a whole pass ---------------------------------------------------------------------

  function Notice(c: Casing, job: Job, a: Answers): Mail {
    ReplyAbout(job, KindOf(job.operation, Verdict(c, job, a)), Parent(job))
  }

  /** One mail for each job, in the order of the snapshot. */
  function Notices(c: Casing, queued: seq<Job>, answers: string -> Answers): (mails: seq<Mail>)
    ensures |mails| == |queued|
    ensures forall k :: 0 <= k < |queued| ==> mails[k] == Notice(c, queued[k], answers(queued[k].jobId))
  {
    if queued == [] then []
    else
      var last := queued[|queued| - 1];
      Notices(c, queued[..|queued| - 1], answers) + [Notice(c, last, answers(last.jobId))]
  }

  /** The alerts of the jobs that failed, in the order of the snapshot. */
  function AllAlerts(c: Casing, queued: seq<Job>, answers: string -> Answers, alerts: Alerts): Alerts {
    if queued == [] then alerts
    else
      var last := queued[|queued| - 1];
      AlertsAfter(c, last, answers(last.jobId), AllAlerts(c, queued[..|queued| - 1], answers, alerts))
  }

  predicate Untouched(queued: seq<Job>, i: nat, id: string) {
    forall k :: 0 <= k < i && k < |queued| ==> queued[k].jobId != id
  }

  predicate DistinctJobs(queued: seq<Job>) {
    forall j, k :: 0 <= j < k < |queued| ==> queued[j].jobId != queued[k].jobId
  }

  /** Every transcript is on the disk, under a name of its own. */
  predicate FilesReady(queued: seq<Job>, files: map<Path, Bytes>) {
    && (forall k :: 0 <= k < |queued| && HasFile(queued[k]) ==> queued[k].path.value in files)
    && (forall j, k :: 0 <= j < k < |queued| && HasFile(queued[j]) && HasFile(queued[k])
                       ==> queued[j].path.value.name != queued[k].path.value.name)
  }

  ghost predicate OthersStay<V>(queued: seq<Job>, i: nat, before: map<string, V>, now: map<string, V>) {
    forall id :: Untouched(queued, i, id) ==> (id in now <==> id in before) && (id in before ==> now[id] == before[id])
  }

  predicate RowsDone(c: Casing, queued: seq<Job>, answers: string -> Answers, i: nat, now: map<string, Job>)
    requires i <= |queued|
  {
    forall k :: 0 <= k < i ==>
      queued[k].jobId in now && now[queued[k].jobId] == FinalRow(c, queued[k], answers(queued[k].jobId))
  }

  /** The questions of the jobs that need one can be answered; no other job's has changed. */
  predicate QuestionsDone(c: Casing, queued: seq<Job>, answers: string -> Answers, i: nat,
                          before: map<string, PendingClarification>, now: map<string, PendingClarification>)
    requires i <= |queued|
  {
    forall k :: 0 <= k < i ==>
      var id, a := queued[k].jobId, answers(queued[k].jobId);
      if Verdict(c, queued[k], a).NeedsClarification? then
        id in now && now[id] == PendingClarification(a.question, Names(a.groups.value))
      else (id in now <==> id in before) && (id in before ==> now[id] == before[id])
  }

  predicate FilesDone(c: Casing, queued: seq<Job>, answers: string -> Answers, i: nat,
                      before: map<Path, Bytes>, now: map<Path, Bytes>)
    requires i <= |queued| && FilesReady(queued, before)
  {
    && (forall k :: 0 <= k < i && HasFile(queued[k]) ==>
          var path := Path(StageOf(Verdict(c, queued[k], answers(queued[k].jobId))), queued[k].path.value.name);
          path in now && now[path] == before[queued[k].path.value])
    && (forall k :: i <= k < |queued| && HasFile(queued[k]) ==>
          queued[k].path.value in now && now[queued[k].path.value] == before[queued[k].path.value])
  }

  lemma NextRow(c: Casing, queued: seq<Job>, answers: string -> Answers, i: nat,
                now: map<string, Job>, next: map<string, Job>)
    requires i < |queued| && DistinctJobs(queued) && RowsDone(c, queued, answers, i, now)
    requires next == now[queued[i].jobId := FinalRow(c, queued[i], answers(queued[i].jobId))]
    ensures RowsDone(c, queued, answers, i + 1, next)
  {
    hide FinalRow;
  }

  lemma NextOthers<V>(queued: seq<Job>, i: nat, before: map<string, V>, now: map<string, V>, next: map<string, V>)
    requires i < |queued| && OthersStay(queued, i, before, now)
    requires now - {queued[i].jobId} == next - {queued[i].jobId}
    ensures OthersStay(queued, i + 1, before, next)
  {
    forall id | Untouched(queued, i + 1, id)
      ensures (id in next <==> id in before) && (id in before ==> next[id] == before[id])
    {
      assert Untouched(queued, i, id);
      assert id in now <==> id in now - {queued[i].jobId};
      assert id in next <==> id in next - {queued[i].jobId};
    }
  }

  lemma NextQuestion(c: Casing, queued: seq<Job>, answers: string -> Answers, i: nat,
                     before: map<string, PendingClarification>,
                     now: map<string, PendingClarification>, next: map<string, PendingClarification>)
    requires i < |queued| && DistinctJobs(queued)
    requires QuestionsDone(c, queued, answers, i, before, now) && OthersStay(queued, i, before, now)
    requires var a := answers(queued[i].jobId);
             next == if Verdict(c, queued[i], a).NeedsClarification?
                     then now[queued[i].jobId := PendingClarification(a.question, Names(a.groups.value))] else now
    ensures QuestionsDone(c, queued, answers, i + 1, before, next)
  {
    hide Verdict, Names;
    assert Untouched(queued, i, queued[i].jobId);
  }

  lemma NextFile(c: Casing, queued: seq<Job>, answers: string -> Answers, i: nat,
                 before: map<Path, Bytes>, now: map<Path, Bytes>, next: map<Path, Bytes>)
    requires i < |queued| && FilesReady(queued, before) && FilesDone(c, queued, answers, i, before, now)
    requires Stored(queued[i], Verdict(c, queued[i], answers(queued[i].jobId)), now, next)
    ensures FilesDone(c, queued, answers, i + 1, before, next)
  {
    hide Verdict;
  }

  /** Where a pass stands after i jobs. */
  ghost predicate PassedSoFar(c: Casing, queued: seq<Job>, answers: string -> Answers, i: nat,
                              before: Tables, now: Tables)
  {
    && i <= |queued| && FilesReady(queued, before.files)
    && RowsDone(c, queued, answers, i, now.jobs)
    && OthersStay(queued, i, before.jobs, now.jobs)
    && now.replies == before.replies + Notices(c, queued[..i], answers)
    && QuestionsDone(c, queued, answers, i, before.pending, now.pending)
    && OthersStay(queued, i, before.pending, now.pending)
    && FilesDone(c, queued, answers, i, before.files, now.files)
    && now.alerts == AllAlerts(c, queued[..i], answers, before.alerts)
  }

  /** The snapshot of the queue before the pass. */
  predicate Snapshot(queued: seq<Job>, jobs: map<string, Job>) {
    && DistinctJobs(queued)
    && forall k :: 0 <= k < |queued| ==>
         queued[k].jobId in jobs && jobs[queued[k].jobId] == queued[k] && queued[k].status.Queued?
  }

  lemma SnapshotTaken(queued: seq<Job>, jobs: map<string, Job>)
    requires forall j :: j in queued ==> j.jobId in jobs && jobs[j.jobId] == j && j.status.Queued?
    requires forall i, j :: 0 <= i < j < |queued| ==> queued[i].jobId != queued[j].jobId
    ensures Snapshot(queued, jobs)
    ensures OthersStay(queued, 0, jobs, jobs)
  {
  }

  lemma SameOperation(queued: seq<Job>, i: nat, before: map<string, Job>, now: map<string, Job>)
    requires i < |queued| && Snapshot(queued, before) && OthersStay(queued, i, before, now)
    ensures queued[i].jobId in now && now[queued[i].jobId].operation == queued[i].operation
  {
    assert Untouched(queued, i, queued[i].jobId);
  }

  lemma NothingPassed(c: Casing, queued: seq<Job>, answers: string -> Answers, t: Tables)
    requires FilesReady(queued, t.files)
    ensures PassedSoFar(c, queued, answers, 0, t, t)
  {
    forall id | Untouched(queued, 0, id) ensures true {}
    assert queued[..0] == [];
    assert t.replies + [] == t.replies;
  }

  /** What the snapshot says of a job is still so when its turn comes. */
  lemma TurnComes(c: Casing, queued: seq<Job>, answers: string -> Answers, i: nat, before: Tables, now: Tables)
    requires i < |queued| && Snapshot(queued, before.jobs) && PassedSoFar(c, queued, answers, i, before, now)
    ensures Startable(now, queued[i])
  {
    hide RowsDone, QuestionsDone, Notices;
    assert Untouched(queued, i, queued[i].jobId);
  }

  lemma NextNotice(c: Casing, queued: seq<Job>, answers: string -> Answers, i: nat)
    requires i < |queued|
    ensures Notices(c, queued[..i + 1], answers)
            == Notices(c, queued[..i], answers) + [Notice(c, queued[i], answers(queued[i].jobId))]
    ensures forall alerts :: AllAlerts(c, queued[..i + 1], answers, alerts)
                             == AlertsAfter(c, queued[i], answers(queued[i].jobId), AllAlerts(c, queued[..i], answers, alerts))
  {
    hide AlertsAfter, Notice;
    assert queued[..i + 1][..i] == queued[..i];
  }

  lemma NextPending(c: Casing, job: Job, a: Answers, now: Tables, next: Tables)
    requires Executed(c, job, a, now, next)
    ensures now.jobs - {job.jobId} == next.jobs - {job.jobId}
    ensures now.pending - {job.jobId} == next.pending - {job.jobId}
  {
    hide Verdict, FinalRow, Stored, Names, ReplyAbout;
  }

  lemma NextJob(c: Casing, queued: seq<Job>, answers: string -> Answers, i: nat,
                before: Tables, now: Tables, next: Tables)
    requires i < |queued| && Snapshot(queued, before.jobs) && PassedSoFar(c, queued, answers, i, before, now)
    requires Executed(c, queued[i], answers(queued[i].jobId), now, next)
    ensures PassedSoFar(c, queued, answers, i + 1, before, next)
  {
    hide RowsDone, QuestionsDone, FilesDone, FilesReady, OthersStay, DistinctJobs, Notices, AllAlerts, AlertsAfter;
    hide Verdict, FinalRow, Stored, Names, ReplyAbout;
    var a := answers(queued[i].jobId);
    NextPending(c, queued[i], a, now, next);
    NextRow(c, queued, answers, i, now.jobs, next.jobs);
    NextOthers(queued, i, before.jobs, now.jobs, next.jobs);
    NextNotice(c, queued, answers, i);
    NextQuestion(c, queued, answers, i, before.pending, now.pending, next.pending);
    NextOthers(queued, i, before.pending, now.pending, next.pending);
    NextFile(c, queued, answers, i, before.files, now.files, next.files);
  }

  function CountAbout(mails: seq<Mail>, id: string): nat {
    if mails == [] then 0
    else CountAbout(mails[..|mails| - 1], id) + (if mails[|mails| - 1].jobId == Some(id) then 1 else 0)
  }

  lemma {:induction false} CountOnce(mails: seq<Mail>, id: string, k: int)
    requires forall i :: 0 <= i < |mails| ==> (mails[i].jobId == Some(id) <==> i == k)
    ensures CountAbout(mails, id) == if 0 <= k < |mails| then 1 else 0
  {
    if mails != [] {
      CountOnce(mails[..|mails| - 1], id, k);
    }
  }

  /** A mail to the sender of the job, in the thread of its last message. */
  predicate About(mail: Mail, job: Job) {
    var parent := if job.inReplyTo.Some? && job.inReplyTo.value != "" then job.inReplyTo.value else job.sourceMessageId;
    mail.jobId == Some(job.jobId) && mail.to == job.senderEmail
    && mail.inReplyTo == Some(parent) && mail.references == Some(parent)
  }

  /** The group of the job is known, and no other. */
  predicate Found(c: Casing, job: Job, a: Answers) {
    a.login.Answer? && a.groups.Answer? && MatchGroup(c, job.groupHint, a.groups.value).Matched?
  }

  /** Every call that a transcript makes is answered. */
  predicate AllAnswered(job: Job, a: Answers) {
    && job.meetingDate.Some? && job.path.Some? && a.meeting.Answer? && a.upload.Answer?
    && (job.speakers != [] ==>
          a.aliases.Answer?
          && forall i :: 0 <= i < |a.aliases.value| && a.aliases.value[i].member.Some? ==> a.attendee(i).Answer?)
  }

  /**
   * The status that a job ends with. It fails when its groups cannot be listed, and waits for its
   * sender when its group is not among them. A transcript is completed if and only if every call is
   * answered; a question if and only if the transcripts or the board answer it, each if it is asked,
   * and no call raises an error that its handler does not catch.
   */
  lemma VerdictExactly(c: Casing, job: Job, a: Answers)
    ensures var status := Verdict(c, job, a);
            var given := (focus: Option<string>) => focus.Some? && focus.value != "";
            var board := given(job.githubFocus) || given(job.trelloFocus);
            && (status.NeedsClarification? <==> a.login.Answer? && a.groups.Answer? && !Found(c, job, a))
            && (job.operation.SubmitTranscript? ==> (status.Completed? <==> Found(c, job, a) && AllAnswered(job, a)))
            && (job.operation.AssessQuery? ==>
                  (status.Completed? <==>
                     && Found(c, job, a)
                     && !(given(job.transcriptFocus)
                          && (a.search.Unexpected? || (a.search.Answer? && a.search.value != [] && !a.synthesis.Answer?)))
                     && !(board && (a.repo.Unexpected? || (a.repo.Answer? && a.repo.value.Some? && a.query.Unexpected?)))
                     && (|| (given(job.transcriptFocus) && a.search.Answer? && (a.search.value == [] || a.synthesis.Answer?))
                         || (board && a.repo.Answer? && a.repo.value.Some? && a.query.Answer?))))
  {
    hide MatchGroup;
  }

  /** A whole pass, seen from one of its jobs. */
  lemma EachJobIsSettled(c: Casing, queued: seq<Job>, answers: string -> Answers, before: Tables, after: Tables, k: nat)
    requires k < |queued| && Snapshot(queued, before.jobs)
    requires PassedSoFar(c, queued, answers, |queued|, before, after)
    ensures var job, a, sent := queued[k], answers(queued[k].jobId), after.replies[|before.replies|..];
            var now, status := after.jobs[job.jobId], Verdict(c, job, a);
            var kind := if status.NeedsClarification? then Clarification else if status.Failed? then FailureNotice
                        else if job.operation.SubmitTranscript? then Completion else AssessResult;
            && now.status == status
            && CountAbout(sent, job.jobId) == 1
            && (exists m :: m in sent && About(m, job) && m.kind == kind)
            && (status.NeedsClarification? ==>
                  && job.jobId in after.pending
                  && after.pending[job.jobId] == PendingClarification(a.question, Names(a.groups.value)))
            && (status.Completed? && job.operation.SubmitTranscript? ==>
                  now.outcome == Some(Submission(MatchGroup(c, job.groupHint, a.groups.value).group, a.meeting.value,
                                                 if job.speakers == [] then [] else Resolved(a.aliases.value),
                                                 if job.speakers == [] then [] else Unresolved(a.aliases.value))))
            && now == job.(status := status, path := now.path, outcome := now.outcome)
            && (!(status.Completed? && job.operation.SubmitTranscript?) ==> now.outcome == job.outcome)
            && (!HasFile(job) ==> now.path == job.path)
            && (HasFile(job) ==>
                  var path := Path(if status.Completed? then CompletedDir else if status.Failed? then FailedDir
                                   else ProcessingDir, job.path.value.name);
                  now.path == Some(path) && path in after.files && after.files[path] == before.files[job.path.value])
  {
    hide Notices, CountAbout, MatchGroup, OthersStay, FilesReady, Resolved, Unresolved, AllAlerts, Names;
    hide FinalRow, Verdict, About, Notice, StageOf;
    assert queued[..|queued|] == queued;
    var sent, job, a := after.replies[|before.replies|..], queued[k], answers(queued[k].jobId);
    FinalRowExactly(c, job, a);
    NoticeExactly(c, job, a);
    assert sent == Notices(c, queued, answers);
    OnlyNotice(c, queued, answers, k);
    CountOnce(sent, job.jobId, k);
    var mail := sent[k];
    assert mail in sent && About(mail, job);
  }

  lemma OnlyNotice(c: Casing, queued: seq<Job>, answers: string -> Answers, k: nat)
    requires k < |queued| && DistinctJobs(queued)
    ensures var mails := Notices(c, queued, answers);
            forall i :: 0 <= i < |mails| ==> (mails[i].jobId == Some(queued[k].jobId) <==> i == k)
  {
    hide Verdict, Parent;
  }

  lemma NoticeExactly(c: Casing, job: Job, a: Answers)
    ensures var status := Verdict(c, job, a);
            && About(Notice(c, job, a), job)
            && Notice(c, job, a).kind
               == if status.NeedsClarification? then Clarification else if status.Failed? then FailureNotice
                  else if job.operation.SubmitTranscript? then Completion else AssessResult
  {
    hide Verdict;
  }

  lemma FinalRowExactly(c: Casing, job: Job, a: Answers)
    ensures var now, status := FinalRow(c, job, a), Verdict(c, job, a);
            && (status.NeedsClarification? ==> a.groups.Answer?)
            && (status.Completed? && job.operation.SubmitTranscript? ==>
                  && a.groups.Answer? && MatchGroup(c, job.groupHint, a.groups.value).Matched? && a.meeting.Answer?
                  && (job.speakers != [] ==> a.aliases.Answer?)
                  && now.outcome == Some(Submission(MatchGroup(c, job.groupHint, a.groups.value).group, a.meeting.value,
                                                    if job.speakers == [] then [] else Resolved(a.aliases.value),
                                                    if job.speakers == [] then [] else Unresolved(a.aliases.value))))
            && now == job.(status := status, path := now.path, outcome := now.outcome)
            && (!(status.Completed? && job.operation.SubmitTranscript?) ==> now.outcome == job.outcome)
            && (!HasFile(job) ==> now.path == job.path)
            && (HasFile(job) ==> now.path == Some(Path(StageOf(status), job.path.value.name)))
            && StageOf(status) == if status.Completed? then CompletedDir else if status.Failed? then FailedDir
                                  else ProcessingDir
  {
    hide MatchGroup, Resolved, Unresolved, Surprises, TranscriptsAnswer, BoardAnswers;
    assert Resolved([]) == [] && Unresolved([]) == [] by { NoAliases(0, 0); }
  }

  lemma CallsAlike(c: Casing, job: Job, started: Job, a: Answers, files: map<Path, Bytes>,
                   before: seq<BackendCall>, after: seq<BackendCall>)
    requires job.operation.SubmitTranscript? && (job.path.Some? ==> job.path.value in files)
    requires started == (if job.path.None? then job else StartedRow(job, job.path))
    requires CallsMade(c, started, a, MovedTo(files, job.path, ProcessingDir), before, after)
    ensures CallsMade(c, job, a, files, before, after)
  {
    hide Attendances, Resolved, Unresolved, Attends, MatchGroup, Parent;
    StartedAlike(c, job, started, a);
  }

  class JobWorker {
    const jobStore: JobStore
    const outbox: Outbox
    const pending: PendingClarificationStore
    const files: FileStore
    const notifier: AdminNotifier
    const backend: Backend
    const casing: Casing

    constructor (jobStore: JobStore, outbox: Outbox, pending: PendingClarificationStore, files: FileStore,
                 notifier: AdminNotifier, backend: Backend, casing: Casing)
      ensures this.jobStore == jobStore && this.outbox == outbox && this.pending == pending && this.files == files
      ensures this.notifier == notifier && this.backend == backend && this.casing == casing
    {
      this.jobStore, this.outbox, this.pending, this.files := jobStore, outbox, pending, files;
      this.notifier, this.backend, this.casing := notifier, backend, casing;
    }

    ghost function Now(): Tables
      reads jobStore, outbox, files, pending, notifier
    {
      Tables(jobStore.jobs, Replies(outbox.rows), files.files, pending.rows, notifier.State(outbox))
    }

    /** The status, and then the file; None when one of the two raises. Answers with the row as it is now. */
    method Start(job: Job) returns (started: Option<Job>)
      requires jobStore.Valid()
      modifies jobStore`jobs, files
      ensures jobStore.Valid()
      ensures var movable := Movable(old(jobStore.jobs), job.jobId);
              && (started.Some? <==> movable && (job.path.Some? ==> job.path.value in old(files.files)))
              && (!movable ==> Now() == old(Now()))
              && (movable && started.None? ==>
                    Now() == old(Now()).(
                      jobs := old(jobStore.jobs)[job.jobId := StartedRow(old(jobStore.jobs)[job.jobId], None)]))
      ensures started.Some? ==>
                && Now() == AfterStart(old(Now()), job) && Held(Now(), started.value)
                && started.value == (if job.path.None? then job else jobStore.jobs[job.jobId])
    {
      hide Replies, AlertMails, Moved, MayMove;
      ghost var before := jobStore.jobs;
      started := None;
      var entered := jobStore.SetStatus(job.jobId, Processing);
      if entered.Failure? {
        return;
      }
      if job.path.None? {
        return Some(job);
      }
      ghost var stored := files.files;
      var moved := files.MoveTo(job.path.value, ProcessingDir);
      if moved.Some? {
        MovedIsThere(stored, job.path.value, ProcessingDir);
      }
      if moved.None? {
        return;
      }
      Overwritten(before, job.jobId, jobStore.jobs[job.jobId],
                  Assign(jobStore.jobs[job.jobId], StoragePath(moved.value)));
      jobStore.Update(job.jobId, StoragePath(moved.value));
      started := Some(jobStore.jobs[job.jobId]);
    }

    /** A mail that is not an alert. */
    method Reply(mail: Mail)
      requires !mail.kind.Alert?
      modifies outbox`rows
      ensures Now() == old(Now()).(replies := old(Now()).replies + [mail])
    {
      hide Replies, AlertMails;
      RepliesSnoc(outbox.rows, Row(mail, Pending, 0));
      outbox.Enqueue(mail);
    }

    /** Asking the sender which group is meant. */
    method Ask(job: Job, parent: string, a: Answers)
      requires jobStore.Valid() && a.groups.Answer?
      requires job.jobId in jobStore.jobs && jobStore.jobs[job.jobId].status.Processing?
      modifies jobStore`jobs, outbox`rows, pending
      ensures jobStore.Valid()
      ensures Now() == AfterAsk(old(Now()), job, parent, a)
    {
      hide Replies, AlertMails, Names;
      var asked := jobStore.SetStatus(job.jobId, NeedsClarification);
      pending.Put(job.jobId, a.question, Names(a.groups.value));
      Reply(ReplyAbout(job, Clarification, parent));
    }

    /** Attendees are added one by one until a call raises. */
    method AddAttendees(group: int, meeting: int, aliases: seq<Alias>, attendee: nat -> Call<()>)
      returns (ok: bool, resolved: seq<string>, unresolved: seq<string>)
      modifies backend
      ensures ok <==> Attends(aliases, attendee)
      ensures ok ==> resolved == Resolved(aliases) && unresolved == Unresolved(aliases)
      ensures ok ==> backend.calls == old(backend.calls) + Attendances(group, meeting, aliases)
      ensures old(backend.calls) <= backend.calls
      ensures forall i :: |old(backend.calls)| <= i < |backend.calls| ==> backend.calls[i].AddAttendee?
    {
      hide Resolved, Unresolved, Attendances;
      NoAliases(group, meeting);
      ok, resolved, unresolved := true, [], [];
      for i := 0 to |aliases|
        invariant Attends(aliases[..i], attendee)
        invariant resolved == Resolved(aliases[..i]) && unresolved == Unresolved(aliases[..i])
        invariant backend.calls == old(backend.calls) + Attendances(group, meeting, aliases[..i])
        invariant forall k :: |old(backend.calls)| <= k < |backend.calls| ==> backend.calls[k].AddAttendee?
      {
        NextAlias(group, meeting, aliases, i);
        if aliases[i].member.Some? {
          backend.Log(AddAttendee(group, meeting, aliases[i].member.value));
          if !attendee(i).Answer? {
            return false, resolved, unresolved;
          }
          resolved := resolved + [aliases[i].name];
        } else {
          unresolved := unresolved + [aliases[i].name];
        }
      }
      assert aliases[..|aliases|] == aliases;
    }

    /** Creating the meeting, uploading the transcript and adding its speakers; None when a call raises. */
    method Upload(job: Job, group: Group, a: Answers) returns (done: Option<Submission>)
      requires job.path.Some? ==> job.path.value in files.files
      modifies backend
      ensures done.Some? <==> Submits(job, a)
      ensures done.Some? ==>
                done.value
                == Submission(group, a.meeting.value, Resolved(Speakers(job, a)), Unresolved(Speakers(job, a)))
      ensures old(backend.calls) <= backend.calls
      ensures UploadTrace(backend.calls[|old(backend.calls)|..], job, group, a, files.files)
      ensures done.Some? ==>
                backend.calls == old(backend.calls)
                                 + [CreateMeeting(group.id, job.meetingDate.value),
                                    UploadFile(group.id, a.meeting.value, job.attachmentFilename,
                                               files.files[job.path.value])]
                                 + Attendances(group.id, a.meeting.value, Speakers(job, a))
    {
      done := None;
      if job.meetingDate.None? {
        return;
      }
      backend.Log(CreateMeeting(group.id, job.meetingDate.value));
      if !a.meeting.Answer? || job.path.None? {
        return;
      }
      var meeting, content := a.meeting.value, files.files[job.path.value];
      backend.Log(UploadFile(group.id, meeting, job.attachmentFilename, content));
      if !a.upload.Answer? {
        return;
      }
      var resolved: seq<string>, unresolved: seq<string> := [], [];
      if job.speakers != [] {
        if !a.aliases.Answer? {
          return;
        }
        var ok;
        ok, resolved, unresolved := AddAttendees(group.id, meeting, a.aliases.value, a.attendee);
        if !ok {
          return;
        }
      }
      done := Some(Submission(group, meeting, resolved, unresolved));
    }

    /** A final status, and the move of the transcript to the directory that goes with it. */
    method Settle(job: Job, final: JobState)
      requires jobStore.Valid() && (final.Completed? || final.Failed?) && Held(Now(), job)
      modifies jobStore`jobs, files
      ensures jobStore.Valid()
      ensures Now() == old(Now()).(
                jobs := old(jobStore.jobs)[job.jobId := Settled(old(jobStore.jobs)[job.jobId], job.path, final)],
                files := MovedTo(old(files.files), job.path, StageOf(final)))
    {
      hide Moved, Replies, MayMove, StageOf;
      MayEnd(final);
      ghost var before := jobStore.jobs;
      var settled := jobStore.SetStatus(job.jobId, final);
      if job.path.Some? {
        var moved := files.MoveTo(job.path.value, StageOf(final));
        Overwritten(before, job.jobId, jobStore.jobs[job.jobId],
                  Assign(jobStore.jobs[job.jobId], StoragePath(moved.value)));
        jobStore.Update(job.jobId, StoragePath(moved.value));
      }
    }

    method Complete(job: Job, parent: string, submission: Submission)
      requires jobStore.Valid() && Held(Now(), job)
      modifies jobStore`jobs, outbox`rows, files
      ensures jobStore.Valid()
      ensures Now() == AfterCompletion(old(Now()), job, parent, submission)
    {
      hide Moved, MovedTo, Settled, Replies;
      Overwritten(jobStore.jobs, job.jobId, jobStore.jobs[job.jobId].(outcome := Some(submission)),
                   Settled(jobStore.jobs[job.jobId].(outcome := Some(submission)), job.path, Completed));
      jobStore.Update(job.jobId, Outcome(submission));
      Settle(job, Completed);
      Reply(ReplyAbout(job, Completion, parent));
    }

    /** The guarded part of execute for a transcript. It raises before it has changed any table. */
    method Submit(job: Job, parent: string, a: Answers) returns (raised: bool)
      requires jobStore.Valid() && job.operation.SubmitTranscript? && Held(Now(), job)
      modifies jobStore`jobs, outbox`rows, pending, files, backend
      ensures jobStore.Valid()
      ensures raised <==> Verdict(casing, job, a).Failed?
      ensures Now() == AfterSubmission(casing, old(Now()), job, parent, a)
      ensures CallsMade(casing, job, a, old(files.files), old(backend.calls), backend.calls)
    {
      hide Attendances, Resolved, Unresolved, UploadTrace, Attends, Moved, MovedTo, Settled, MatchGroup, Submits;
      hide Replies, AlertMails, Names;
      if !a.login.Answer? || !a.groups.Answer? {
        return true;
      }
      var choice := MatchGroup(casing, job.groupHint, a.groups.value);
      if !choice.Matched? {
        Ask(job, parent, a);
        return false;
      }
      var done := Upload(job, choice.group, a);
      if done.None? {
        return true;
      }
      Complete(job, parent, done.value);
      return false;
    }

    /** The notice to the sender, and the alert to the administrator. */
    method SendFailure(job: Job, category: AlertCategory, a: Answers)
      modifies outbox`rows, notifier
      ensures Now() == old(Now()).(replies := old(Now()).replies + [ReplyAbout(job, FailureNotice, Parent(job))],
                                   alerts := Alerted(old(Now()).alerts, category, a.checked, a.recorded))
    {
      hide Replies, AlertMails;
      Reply(ReplyAbout(job, FailureNotice, Parent(job)));
      var alerted := notifier.Alert(outbox, category, a.checked, a.recorded);
    }

    /** _handle_execute_failure */
    method HandleSubmitFailure(job: Job, a: Answers)
      requires jobStore.Valid() && Held(Now(), job)
      modifies jobStore`jobs, outbox`rows, files, notifier
      ensures jobStore.Valid()
      ensures Now() == AfterSubmitFailure(old(Now()), job, a)
    {
      hide Moved, MovedTo, Settled, Replies;
      Settle(job, Failed);
      SendFailure(job, BackendSubmissionFailure, a);
    }

    /** What follows once the job is started: the guarded part, and the handler of its errors. */
    method Continue(job: Job, parent: string, a: Answers)
      requires jobStore.Valid() && job.operation.SubmitTranscript? && Held(Now(), job)
      modifies jobStore`jobs, outbox`rows, pending, files, notifier, backend
      ensures jobStore.Valid()
      ensures Now() == AfterExecution(casing, old(Now()), job, parent, a)
      ensures CallsMade(casing, job, a, old(files.files), old(backend.calls), backend.calls)
    {
      hide Verdict, Replies, MovedTo, Settled, Told, CallsMade, Parent, AfterAsk, AfterCompletion;
      var failed := Submit(job, parent, a);
      if failed {
        HandleSubmitFailure(job, a);
      }
    }

    /** submit_transcript.execute. A snapshot that is out of date raises before it has changed anything. */
    method ExecuteTranscript(job: Job, a: Answers) returns (raised: bool)
      requires jobStore.Valid() && job.operation.SubmitTranscript?
      requires job.jobId in jobStore.jobs ==> jobStore.jobs[job.jobId].operation.SubmitTranscript?
      modifies jobStore`jobs, outbox`rows, pending, files, notifier, backend
      ensures jobStore.Valid()
      ensures OnlyJob(old(jobStore.jobs), jobStore.jobs, job.jobId)
      ensures !Movable(old(jobStore.jobs), job.jobId)
              ==> raised && Now() == old(Now()) && backend.calls == old(backend.calls)
      ensures Startable(old(Now()), job) ==>
                && !raised
                && Executed(casing, job, a, old(Now()), Now())
                && CallsMade(casing, job, a, old(files.files), old(backend.calls), backend.calls)
    {
      hide Replies, AlertMails, MovedTo, Executed, Parent, CallsMade, MayMove, AfterExecution;
      ghost var before := Now();
      raised := true;
      var started := Start(job);
      if started.Some? {
        Continue(started.value, Parent(job), a);
        if Startable(before, job) {
          TranscriptExecuted(casing, job, started.value, a, before);
          CallsAlike(casing, job, started.value, a, before.files, old(backend.calls), backend.calls);
        }
        raised := false;
      }
    }

    /** assess_query's _handle_failure */
    method HandleQuestionFailure(job: Job, a: Answers)
      requires jobStore.Valid() && job.jobId in jobStore.jobs && jobStore.jobs[job.jobId].status.Processing?
      modifies jobStore`jobs, outbox`rows, notifier
      ensures jobStore.Valid()
      ensures Now() == WithStatus(old(Now()), job.jobId, Failed).(
                replies := old(Now()).replies + [ReplyAbout(job, FailureNotice, Parent(job))],
                alerts := Alerted(old(Now()).alerts, AssessQueryFailure, a.checked, a.recorded))
    {
      hide Replies, AlertMails, Parent, MayMove;
      MayEnd(Failed);
      var failed := jobStore.SetStatus(job.jobId, Failed);
      SendFailure(job, AssessQueryFailure, a);
    }

    method GiveAnswer(job: Job)
      requires jobStore.Valid() && job.jobId in jobStore.jobs && jobStore.jobs[job.jobId].status.Processing?
      modifies jobStore`jobs, outbox`rows
      ensures jobStore.Valid()
      ensures Now() == WithStatus(old(Now()), job.jobId, Completed).(
                replies := old(Now()).replies + [ReplyAbout(job, AssessResult, Parent(job))])
    {
      hide Replies, AlertMails, Parent, MayMove;
      MayEnd(Completed);
      var completed := jobStore.SetStatus(job.jobId, Completed);
      Reply(ReplyAbout(job, AssessResult, Parent(job)));
    }

    /** The guarded part of execute for a question. */
    method AnswerQuestion(job: Job, a: Answers) returns (raised: bool)
      requires jobStore.Valid() && job.operation.AssessQuery?
      requires job.jobId in jobStore.jobs && jobStore.jobs[job.jobId].status.Processing?
      modifies jobStore`jobs, outbox`rows, pending, notifier
      ensures jobStore.Valid()
      ensures raised ==> Verdict(casing, job, a).Failed? && Now() == old(Now())
      ensures !raised ==> Now() == AfterQuestion(casing, old(Now()), job, a)
    {
      hide Replies, AlertMails, Parent, MatchGroup, TranscriptsAnswer, BoardAnswers, Surprises, Names, MayMove;
      hide Alerted, AfterAsk, OnlyJob;
      if !a.login.Answer? || !a.groups.Answer? {
        return true;
      }
      var choice := MatchGroup(casing, job.groupHint, a.groups.value);
      if !choice.Matched? {
        Ask(job, Parent(job), a);
        return false;
      }
      var found := AskSources(job, a);
      if found.None? {
        return true;
      }
      if found.value.transcripts.None? && found.value.board.None? {
        HandleQuestionFailure(job, a);
        return false;
      }
      GiveAnswer(job);
      return false;
    }

    method ContinueQuestion(job: Job, a: Answers)
      requires jobStore.Valid() && job.operation.AssessQuery?
      requires job.jobId in jobStore.jobs && jobStore.jobs[job.jobId].status.Processing?
      modifies jobStore`jobs, outbox`rows, pending, notifier
      ensures jobStore.Valid()
      ensures Now() == AfterQuestion(casing, old(Now()), job, a)
    {
      hide Replies, AlertMails, Parent, Verdict, AfterAsk;
      var failed := AnswerQuestion(job, a);
      if failed {
        HandleQuestionFailure(job, a);
      }
    }

    /** assess_query.execute */
    method ExecuteQuestion(job: Job, a: Answers) returns (raised: bool)
      requires jobStore.Valid() && job.operation.AssessQuery?
      modifies jobStore`jobs, outbox`rows, pending, notifier
      ensures jobStore.Valid()
      ensures OnlyJob(old(jobStore.jobs), jobStore.jobs, job.jobId)
      ensures !Movable(old(jobStore.jobs), job.jobId) ==> raised && Now() == old(Now())
      ensures Startable(old(Now()), job) ==> !raised && Executed(casing, job, a, old(Now()), Now())
    {
      hide Replies, AlertMails, Parent, MayMove, Executed, AfterQuestion;
      ghost var before := Now();
      var entered := jobStore.SetStatus(job.jobId, Processing);
      if entered.Failure? {
        return true;
      }
      ContinueQuestion(job, a);
      if Startable(before, job) {
        QuestionExecuted(casing, job, a, before);
      }
      return false;
    }

    /** Whatever an execution raises is logged and forgotten. */
    method ProcessJob(job: Job, a: Answers)
      requires jobStore.Valid()
      requires job.jobId in jobStore.jobs ==> jobStore.jobs[job.jobId].operation == job.operation
      modifies jobStore`jobs, outbox`rows, pending, files, notifier, backend
      ensures jobStore.Valid()
      ensures OnlyJob(old(jobStore.jobs), jobStore.jobs, job.jobId)
      ensures !Movable(old(jobStore.jobs), job.jobId) ==> Now() == old(Now()) && backend.calls == old(backend.calls)
      ensures Startable(old(Now()), job) ==> Executed(casing, job, a, old(Now()), Now())
    {
      hide Replies, AlertMails, Executed, MayMove;
      var raised;
      if job.operation.SubmitTranscript? {
        raised := ExecuteTranscript(job, a);
      } else {
        raised := ExecuteQuestion(job, a);
      }
    }

    /**
     * One pass, with the mail thread idle. Whatever the other systems answer or raise, each queued
     * job ends completed, failed or waiting for its sender, and each sender gets one mail for it.
     */
    method RunOnce(answers: string -> Answers) returns (n: nat)
      requires jobStore.Valid()
      modifies jobStore`jobs, outbox`rows, pending, files, notifier, backend
      ensures jobStore.Valid()
      ensures var queued := QueuedJobs(old(jobStore.jobs), jobStore.order);
              && n == |queued|
              && OthersStay(queued, n, old(jobStore.jobs), jobStore.jobs)
              && (FilesReady(queued, old(files.files)) ==>
                    PassedSoFar(casing, queued, answers, n, old(Now()), Now()))
              && Snapshot(queued, old(jobStore.jobs))
    {
      hide RowsDone, OthersStay, Notices, QuestionsDone, FilesDone, FilesReady, Replies, Executed, Startable;
      hide Snapshot, QueuedJobs, Movable;
      ghost var before := Now();
      var queued := jobStore.ListQueued();
      SnapshotTaken(queued, before.jobs);
      ghost var ready := FilesReady(queued, before.files);
      if ready {
        NothingPassed(casing, queued, answers, before);
      }
      n := 0;
      while n < |queued|
        invariant n <= |queued| && jobStore.Valid()
        invariant OthersStay(queued, n, before.jobs, jobStore.jobs)
        invariant ready ==> PassedSoFar(casing, queued, answers, n, before, Now())
      {
        if ready {
          TurnComes(casing, queued, answers, n, before, Now());
        }
        ghost var now := Now();
        SameOperation(queued, n, before.jobs, now.jobs);
        ProcessJob(queued[n], answers(queued[n].jobId));
        NextOthers(queued, n, before.jobs, now.jobs, jobStore.jobs);
        if ready {
          NextJob(casing, queued, answers, n, before, now, Now());
        }
        n := n + 1;
      }
    }
  }
}
