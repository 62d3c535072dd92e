/**
 * The mail thread and the worker thread acting on the shared tables, one store call at a time.
 *
 * A state holds, for every job, its row in the jobs table, its row in pending_clarifications and
 * its stored attachment, together with the program points of the two threads. Every call into
 * the backend may answer anything or raise; every store or file call may raise; the process may
 * crash between any two calls, which loses both program points and keeps the tables.
 */
module JobProtocol {
  import opened Wrappers
  import opened JobStates
  import opened GroupMatching
  import opened Attachments
  import Outbox
  import Validator

  datatype StoredFile = StoredFile(stage: Stage, content: Bytes)

  /**
   * One job. The stored file keeps its generated name for life, so a path is its stage directory.
   * The last six fields are history: they record what was done and steer nothing.
   */
  datatype Job = Job(
    operation: Operation,
    status: JobState,
    groupHint: Option<string>,
    path: Option<Stage>,
    file: Option<StoredFile>,
    pending: Option<seq<string>>,
    checked: Bytes,
    starts: nat,
    meetings: nat,
    uploads: seq<Bytes>,
    notices: seq<Outbox.MailKind>,
    disturbed: bool)

  /** What a message asks to have submitted: its attachments, the one it names, and the limit on their size. */
  datatype Request = Request(attachments: seq<Validator.Attachment>, named: Option<string>, maxBytes: nat)

  function Verdict(q: Request): Result<Validator.AttachmentMeta, Validator.Refusal> {
    Validator.ValidateSubmit(q.named, Validator.Metas(q.attachments), q.maxBytes)
  }

  /** Only a message that passes the validator becomes a job. */
  predicate Admitted(operation: Operation, q: Request) {
    operation.SubmitTranscript? ==> Verdict(q).Success?
  }

  /** The attachment at a position, as the source's lookups yield it. */
  function ContentAt(q: Request, i: Option<nat>): Bytes {
    if i.Some? && i.value < |q.attachments| then q.attachments[i.value].content else []
  }

  /** The content whose name and size the validator has checked. */
  function CheckedContent(operation: Operation, q: Request): Bytes {
    var resolved := Validator.Resolve(q.named, Validator.Metas(q.attachments));
    if operation.SubmitTranscript? && resolved.Success? then ContentAt(q, Some(resolved.value)) else []
  }

  /** The content that accept looks up again, by file name, and saves. */
  function SavedContent(operation: Operation, q: Request): Bytes {
    if operation.SubmitTranscript? && Verdict(q).Success? then
      ContentAt(q, Validator.SavedAttachment(q.attachments, Verdict(q).value.filename))
    else []
  }

  function NewJob(operation: Operation, hint: Option<string>, checked: Bytes): Job {
    Job(operation, Received, hint, None, None, None, checked, 0, 0, [], [], false)
  }

  /** What the worker remembers of a job: a copy of its row, possibly stale. */
  datatype Row = Row(operation: Operation, groupHint: Option<string>, path: Option<Stage>)

  function RowOf(job: Job): Row {
    Row(job.operation, job.groupHint, job.path)
  }

  datatype WorkerPoint =
    | Start
    | Move
    | RecordMove
    | Refresh
    | AskBackend
    | NeedGroup(names: seq<string>)
    | PutPending(names: seq<string>)
    | MailQuestion
    | CreateMeeting
    | ReadFile
    | Upload(content: Bytes)
    | Attendees
    | RecordResults
    | AskSources
    | Complete
    | MoveCompleted
    | RecordCompleted
    | MailCompletion
    | Fail
    | MoveFailed
    | RecordFailed
    | MailFailure
    | AlertAdmin
    | NoSources
    | MailNoSources
    | AlertNoSources

  datatype MailPoint =
    | AcceptValidate(content: Bytes)
    | AcceptSave(content: Bytes)
    | AcceptRecord
    | AcceptParse
    | AcceptFacts
    | AcceptQueue
    | AcceptAck
    | RejectFail
    | RejectMove
    | RejectRecord
    | RejectMail
    | CancelSet
    | CancelMail
    | ApplyCheck(choice: string)
    | ApplyHint(choice: string)
    | ApplyQueue
    | ApplyDelete
    | ApplyMail

  datatype Hold = Hold(row: Row, point: WorkerPoint)

  /** What an outside call answers: the sender's groups, or whether the sources answered. */
  datatype Answer = Groups(groups: seq<Group>) | Sources(answered: bool)

  /** The same answer, read with the hint the worker holds. */
  datatype Reading = GroupFound | GroupUnclear(names: seq<string>) | SourcesRead(answered: bool)

  function Read(c: Casing, hint: Option<string>, a: Answer): Reading {
    match a
    case Sources(answered) => SourcesRead(answered)
    case Groups(groups) =>
      if MatchGroup(c, hint, groups).Matched? then GroupFound else GroupUnclear(Names(groups))
  }

  // ---- the worker's program: submit_transcript.execute and assess_query.execute ---------

  datatype WorkerMove = WorkerMove(job: Job, next: Option<Hold>)

  predicate FileAt(job: Job, path: Option<Stage>) {
    path.Some? && job.file.Some? && job.file.value.stage == path.value
  }

  function MovedTo(job: Job, stage: Stage): Job {
    if job.file.Some? then job.(file := Some(job.file.value.(stage := stage))) else job
  }

  /** A mail about the job to its sender. */
  function Noticed(job: Job, kind: Outbox.MailKind): Job {
    job.(notices := job.notices + [kind])
  }

  function WorkerStep(job: Job, h: Hold, r: Reading): WorkerMove {
    var row := h.row;
    var submit := row.operation.SubmitTranscript?;
    match h.point
    case Start =>
      if MayMove(job.status, Processing) then
        WorkerMove(job.(status := Processing, starts := job.starts + 1),
                   Some(Hold(row, if submit && row.path.Some? then Move else AskBackend)))
      else WorkerMove(job, None)
    case Move =>
      if FileAt(job, row.path) then WorkerMove(MovedTo(job, ProcessingDir), Some(Hold(row, RecordMove)))
      else WorkerMove(job, None)
    case RecordMove =>
      WorkerMove(job.(path := Some(ProcessingDir)), Some(Hold(row, Refresh)))
    case Refresh =>
      WorkerMove(job, Some(Hold(RowOf(job), AskBackend)))
    case AskBackend =>
      (match r
       case GroupFound => WorkerMove(job, Some(Hold(row, if submit then CreateMeeting else AskSources)))
       case GroupUnclear(names) => WorkerMove(job, Some(Hold(row, NeedGroup(names))))
       case SourcesRead(_) => WorkerMove(job, Some(Hold(row, Fail))))
    case NeedGroup(names) =>
      if MayMove(job.status, NeedsClarification) then
        WorkerMove(job.(status := NeedsClarification), Some(Hold(row, PutPending(names))))
      else WorkerMove(job, Some(Hold(row, Fail)))
    case PutPending(names) =>
      WorkerMove(job.(pending := Some(names)), Some(Hold(row, MailQuestion)))
    case MailQuestion => WorkerMove(Noticed(job, Outbox.Clarification), None)
    case CreateMeeting =>
      WorkerMove(job.(meetings := job.meetings + 1), Some(Hold(row, ReadFile)))
    case ReadFile =>
      if FileAt(job, row.path) then WorkerMove(job, Some(Hold(row, Upload(job.file.value.content))))
      else WorkerMove(job, Some(Hold(row, Fail)))
    case Upload(content) =>
      WorkerMove(job.(uploads := job.uploads + [content]), Some(Hold(row, Attendees)))
    case Attendees => WorkerMove(job, Some(Hold(row, RecordResults)))
    case RecordResults => WorkerMove(job, Some(Hold(row, Complete)))
    case AskSources =>
      WorkerMove(job, Some(Hold(row, if !r.SourcesRead? then Fail else if r.answered then Complete else NoSources)))
    case Complete =>
      if MayMove(job.status, Completed) then
        WorkerMove(job.(status := Completed),
                   Some(Hold(row, if submit && row.path.Some? then MoveCompleted else MailCompletion)))
      else WorkerMove(job, Some(Hold(row, Fail)))
    case MoveCompleted =>
      if FileAt(job, row.path) then
        WorkerMove(MovedTo(job, CompletedDir), Some(Hold(row, RecordCompleted)))
      else WorkerMove(job, Some(Hold(row, Fail)))
    case RecordCompleted =>
      WorkerMove(job.(path := Some(CompletedDir)), Some(Hold(row, MailCompletion)))
    case MailCompletion =>
      WorkerMove(Noticed(job, if submit then Outbox.Completion else Outbox.AssessResult), None)
    case Fail =>
      if MayMove(job.status, Failed) then
        WorkerMove(job.(status := Failed), Some(Hold(row, if submit then MoveFailed else MailFailure)))
      else WorkerMove(job, None)
    case MoveFailed =>
      if FileAt(job, row.path) then WorkerMove(MovedTo(job, FailedDir), Some(Hold(row, RecordFailed)))
      else WorkerMove(job, Some(Hold(row, MailFailure)))
    case RecordFailed =>
      WorkerMove(job.(path := Some(FailedDir)), Some(Hold(row, MailFailure)))
    case MailFailure => WorkerMove(Noticed(job, Outbox.FailureNotice), Some(Hold(row, AlertAdmin)))
    case AlertAdmin => WorkerMove(job, None)
    case NoSources =>
      if MayMove(job.status, Failed) then WorkerMove(job.(status := Failed), Some(Hold(row, MailNoSources)))
      else WorkerMove(job, Some(Hold(row, Fail)))
    case MailNoSources => WorkerMove(Noticed(job, Outbox.FailureNotice), Some(Hold(row, AlertNoSources)))
    case AlertNoSources => WorkerMove(job, None)
  }

  /** The calls made before the try block or inside its handlers: an exception ends the job. */
  predicate Unguarded(p: WorkerPoint) {
    || p.Start? || p.Move? || p.RecordMove? || p.Refresh?
    || p.Fail? || p.MoveFailed? || p.RecordFailed? || p.MailFailure? || p.AlertAdmin?
  }

  /** The calls before which status, path and file of a job do not go together, if the call is never made. */
  predicate PartsWorker(job: Job, p: WorkerPoint) {
    || ((p.Move? || p.RecordMove?) && job.path != Some(ProcessingDir))
    || p.MoveCompleted? || p.RecordCompleted? || p.MoveFailed? || p.RecordFailed?
  }

  /** The next call raises; a backend call may have taken effect all the same. */
  function WorkerRaise(job: Job, h: Hold, called: bool): WorkerMove {
    var job' :=
      if called && h.point.CreateMeeting? then job.(meetings := job.meetings + 1)
      else if called && h.point.Upload? then job.(uploads := job.uploads + [h.point.content])
      else job;
    WorkerMove(
      job'.(disturbed := job.disturbed || PartsWorker(job, h.point)),
      if Unguarded(h.point) then None else Some(Hold(h.row, Fail)))
  }

  // ---- the mail thread's program: accept, cancel, and _continue_clarification -----------

  datatype MailMove = MailMove(job: Job, next: Option<MailPoint>)

  function MailStep(job: Job, p: MailPoint, parses: bool): MailMove {
    match p
    case AcceptValidate(content) =>
      if MayMove(job.status, Validating) then
        MailMove(job.(status := Validating),
                 Some(if job.operation.SubmitTranscript? then AcceptSave(content) else AcceptQueue))
      else MailMove(job, None)
    case AcceptSave(content) =>
      MailMove(job.(file := Some(StoredFile(IncomingDir, content))), Some(AcceptRecord))
    case AcceptRecord => MailMove(job.(path := Some(IncomingDir)), Some(AcceptParse))
    case AcceptParse => MailMove(job, Some(if parses then AcceptFacts else RejectFail))
    case AcceptFacts => MailMove(job, Some(AcceptQueue))
    case AcceptQueue =>
      if MayMove(job.status, Queued) then MailMove(job.(status := Queued), Some(AcceptAck))
      else MailMove(job, None)
    case AcceptAck => MailMove(Noticed(job, Outbox.Ack), None)
    case RejectFail =>
      if MayMove(job.status, Failed) then MailMove(job.(status := Failed), Some(RejectMove))
      else MailMove(job, None)
    case RejectMove =>
      if FileAt(job, Some(IncomingDir)) then MailMove(MovedTo(job, FailedDir), Some(RejectRecord))
      else MailMove(job, Some(RejectMail))
    case RejectRecord => MailMove(job.(path := Some(FailedDir)), Some(RejectMail))
    case RejectMail => MailMove(Noticed(job, Outbox.FailureNotice), None)
    case CancelSet =>
      if MayMove(job.status, Cancelled) then MailMove(job.(status := Cancelled), Some(CancelMail))
      else MailMove(job, None)
    case CancelMail => MailMove(Noticed(job, Outbox.CancelledNotice), None)
    case ApplyCheck(choice) =>
      MailMove(job, if job.status.NeedsClarification? then Some(ApplyHint(choice)) else None)
    case ApplyHint(choice) => MailMove(job.(groupHint := Some(choice)), Some(ApplyQueue))
    case ApplyQueue =>
      if MayMove(job.status, Queued) then MailMove(job.(status := Queued), Some(ApplyDelete))
      else MailMove(job, None)
    case ApplyDelete => MailMove(job.(pending := None), Some(ApplyMail))
    case ApplyMail => MailMove(Noticed(job, Outbox.ClarificationReceived), None)
  }

  predicate PartsMail(p: MailPoint) {
    p.AcceptValidate? || p.AcceptSave? || p.AcceptRecord? || p.RejectMove? || p.RejectRecord?
  }

  // ---- both threads on all jobs ---------------------------------------------------------

  type JobId = nat

  datatype Holding<T> = Nobody | At(id: JobId, what: T)

  datatype State = State(
    jobs: map<JobId, Job>,
    worker: Holding<Hold>,
    waiting: map<JobId, Row>,
    mail: Holding<MailPoint>)

  const Initial := State(map[], Nobody, map[], Nobody)

  datatype Event =
    | ListQueued
    | NextJob(job: JobId)
    | WorkerCall(answer: Answer)
    | WorkerRaises(called: bool)
    | NewRequest(newId: JobId, operation: Operation, hint: Option<string>, request: Request)
    | CancelRequest(job: JobId)
    | AnswerReply(job: JobId, text: string)
    | MailCall(parses: bool)
    | MailRaises
    | Crash

  function QueuedRows(jobs: map<JobId, Job>): map<JobId, Row> {
    map id | id in jobs && jobs[id].status.Queued? :: RowOf(jobs[id])
  }

  function Apply<T>(id: JobId, next: Option<T>): Holding<T> {
    if next.Some? then At(id, next.value) else Nobody
  }

  /** A job from which the threads, if they are at it, are torn away. */
  function TornAway(job: Job, w: Option<Hold>, m: Option<MailPoint>): Job {
    if (w.Some? && PartsWorker(job, w.value.point)) || (m.Some? && PartsMail(m.value)) then job.(disturbed := true)
    else job
  }

  function HeldAt<T>(h: Holding<T>, id: JobId): Option<T> {
    if h.At? && h.id == id then Some(h.what) else None
  }

  function Disturb(jobs: map<JobId, Job>, worker: Holding<Hold>, mail: Holding<MailPoint>): map<JobId, Job> {
    map id | id in jobs :: TornAway(jobs[id], HeldAt(worker, id), HeldAt(mail, id))
  }

  /** One step. An event that the state does not enable changes nothing. */
  function Step(c: Casing, s: State, e: Event): State {
    match e
    case ListQueued =>
      if s.worker.Nobody? && s.waiting == map[] then s.(waiting := QueuedRows(s.jobs)) else s
    case NextJob(id) =>
      if s.worker.Nobody? && id in s.waiting then
        s.(worker := At(id, Hold(s.waiting[id], Start)), waiting := s.waiting - {id})
      else s
    case WorkerCall(a) =>
      if s.worker.At? && s.worker.id in s.jobs then
        var h := s.worker.what;
        var m := WorkerStep(s.jobs[s.worker.id], h, Read(c, h.row.groupHint, a));
        s.(jobs := s.jobs[s.worker.id := m.job], worker := Apply(s.worker.id, m.next))
      else s
    case WorkerRaises(called) =>
      if s.worker.At? && s.worker.id in s.jobs then
        var m := WorkerRaise(s.jobs[s.worker.id], s.worker.what, called);
        s.(jobs := s.jobs[s.worker.id := m.job], worker := Apply(s.worker.id, m.next))
      else s
    case NewRequest(id, operation, hint, request) =>
      if s.mail.Nobody? && id !in s.jobs && Admitted(operation, request) then
        s.(jobs := s.jobs[id := NewJob(operation, hint, CheckedContent(operation, request))],
           mail := At(id, AcceptValidate(SavedContent(operation, request))))
      else s
    case CancelRequest(id) =>
      if s.mail.Nobody? && id in s.jobs
         && (s.jobs[id].status.Queued? || s.jobs[id].status.NeedsClarification?)
      then s.(mail := At(id, CancelSet)) else s
    case AnswerReply(id, text) =>
      if s.mail.Nobody? && id in s.jobs && s.jobs[id].pending.Some? then
        var choice := AcceptedAnswer(c, s.jobs[id].pending.value, text);
        if choice.Some? then s.(mail := At(id, ApplyCheck(choice.value))) else s
      else s
    case MailCall(parses) =>
      if s.mail.At? && s.mail.id in s.jobs then
        var m := MailStep(s.jobs[s.mail.id], s.mail.what, parses);
        s.(jobs := s.jobs[s.mail.id := m.job], mail := Apply(s.mail.id, m.next))
      else s
    case MailRaises => s.(jobs := Disturb(s.jobs, Nobody, s.mail), mail := Nobody)
    case Crash =>
      State(Disturb(s.jobs, s.worker, s.mail), Nobody, map[], Nobody)
  }

  function Run(c: Casing, s: State, events: seq<Event>): State
    decreases |events|
  {
    if events == [] then s else Run(c, Step(c, s, events[0]), events[1..])
  }
}
