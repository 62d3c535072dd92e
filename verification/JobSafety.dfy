/**
 * What every run of the two threads keeps. The invariant speaks of one job at a time, given the
 * program points of the threads at that job; each step of a thread is shown to keep it for the
 * job the thread is at, whatever the other thread is doing there.
 */
module JobSafety {
  import opened Wrappers
  import opened JobStates
  import opened GroupMatching
  import opened Attachments
  import opened JobProtocol
  import Outbox

  /**
   * A run in which the backend always lists the same groups, or any run at all (not fixed): the
   * names it offers as options, and the hints that lead to one group.
   */
  datatype Setting = Setting(fixed: bool, names: seq<string>, settles: Option<string> -> bool)

  predicate Settled(cfg: Setting, hint: Option<string>) {
    cfg.fixed ==> cfg.settles(hint)
  }

  predicate Offered(cfg: Setting, names: seq<string>) {
    cfg.fixed ==> names == cfg.names
  }

  /** A reading that this run can produce for a hint. */
  predicate Possible(cfg: Setting, hint: Option<string>, r: Reading) {
    r.GroupUnclear? && cfg.fixed ==> !cfg.settles(hint) && r.names == cfg.names
  }

  // ---- the invariant of one job ---------------------------------------------------------

  predicate BackendReached(s: JobState) {
    s.Processing? || s.Completed? || s.Failed?
  }

  predicate Safe(job: Job) {
    && job.meetings <= 1
    && |job.uploads| <= job.meetings
    && (|job.uploads| == 1 ==> job.uploads[0] == job.checked)
    && (job.meetings > 0 ==> BackendReached(job.status) && job.operation.SubmitTranscript?)
    && (Outbox.CancelledNotice in job.notices ==> job.status.Cancelled?)
    && (job.file.Some? ==> job.file.value.content == job.checked)
  }

  predicate RoundsFit(cfg: Setting, job: Job) {
    && (job.pending.Some? ==> Offered(cfg, job.pending.value))
    && (cfg.fixed ==>
          && job.starts <= 2
          && (job.status.Queued? ==> job.starts == 0 || (job.starts == 1 && Settled(cfg, job.groupHint)))
          && (job.status.Processing? ==> job.starts == 1 || (job.starts == 2 && Settled(cfg, job.groupHint)))
          && (job.status.NeedsClarification? ==> job.starts == 1))
    && (job.status.Received? || job.status.Validating? ==> job.starts == 0)
    && (job.status.Processing? || job.status.NeedsClarification? ==> job.starts > 0)
  }

  predicate WaitingFits(job: Job, row: Row) {
    (job.status.Queued? || job.status.Cancelled?) && row == RowOf(job)
  }

  /** The sender has been asked, and may have answered or cancelled since. */
  predicate Asked(job: Job) {
    job.status.NeedsClarification? || job.status.Queued? || job.status.Cancelled?
  }

  predicate WorkerFits(cfg: Setting, job: Job, h: Hold) {
    var row := h.row;
    && row.operation == job.operation
    && !job.status.Received? && !job.status.Validating?
    && match h.point
       case Start => WaitingFits(job, row)
       case Move => job.status.Processing? && job.meetings == 0 && row == RowOf(job) && row.path.Some?
       case RecordMove => job.status.Processing? && job.meetings == 0 && row.groupHint == job.groupHint
       case Refresh => job.status.Processing? && job.meetings == 0
       case AskBackend => job.status.Processing? && job.meetings == 0 && row == RowOf(job)
       case NeedGroup(names) =>
         && job.status.Processing? && job.meetings == 0 && row == RowOf(job)
         && Possible(cfg, row.groupHint, GroupUnclear(names))
       case PutPending(names) => Offered(cfg, names) && Asked(job)
       case MailQuestion => Asked(job)
       case CreateMeeting =>
         job.status.Processing? && job.meetings == 0 && job.operation.SubmitTranscript? && row == RowOf(job)
       case ReadFile => job.status.Processing? && job.meetings == 1 && job.uploads == [] && row == RowOf(job)
       case Upload(content) =>
         && job.status.Processing? && job.meetings == 1 && job.uploads == []
         && content == job.checked && row == RowOf(job)
       case Attendees => job.status.Processing? && job.meetings == 1 && row == RowOf(job)
       case RecordResults => job.status.Processing? && job.meetings == 1 && row == RowOf(job)
       case AskSources => job.status.Processing? && job.operation.AssessQuery? && row == RowOf(job)
       case Complete => job.status.Processing? && row == RowOf(job)
       case MoveCompleted => job.status.Completed?
       case RecordCompleted => job.status.Completed?
       case MailCompletion => job.status.Completed?
       case Fail => job.operation.SubmitTranscript? ==> !job.status.Failed?
       case MoveFailed => job.status.Failed?
       case RecordFailed => job.status.Failed?
       case MailFailure => job.status.Failed?
       case AlertAdmin => job.status.Failed?
       case NoSources => job.status.Processing? && job.operation.AssessQuery?
       case MailNoSources => job.status.Failed? && job.operation.AssessQuery?
       case AlertNoSources => job.status.Failed? && job.operation.AssessQuery?
  }

  predicate MailFits(cfg: Setting, job: Job, p: MailPoint) {
    match p
    case AcceptValidate(content) => job.status.Received? && content == job.checked
    case AcceptSave(content) =>
      job.status.Validating? && content == job.checked && job.operation.SubmitTranscript?
    case AcceptRecord => job.status.Validating?
    case AcceptParse => job.status.Validating?
    case AcceptFacts => job.status.Validating?
    case AcceptQueue => job.status.Validating?
    case AcceptAck => true
    case RejectFail => job.status.Validating?
    case RejectMove => job.status.Failed?
    case RejectRecord => job.status.Failed?
    case RejectMail => job.status.Failed?
    case CancelSet => true
    case CancelMail => job.status.Cancelled?
    case ApplyCheck(choice) => Settled(cfg, Some(choice))
    case ApplyHint(choice) =>
      (job.status.NeedsClarification? || job.status.Failed?) && Settled(cfg, Some(choice))
    case ApplyQueue =>
      (job.status.NeedsClarification? || job.status.Failed?) && Settled(cfg, job.groupHint)
    case ApplyDelete => true
    case ApplyMail => true
  }

  /** Being rejected: nobody else has ever been given the job. */
  predicate Rejecting(p: MailPoint) {
    p.RejectMove? || p.RejectRecord? || p.RejectMail?
  }

  /** The one directory that goes with a status; a job queued or cancelled after a question stays in processing. */
  function StageFor(s: JobState, startedBefore: bool): Stage {
    match s
    case Received => IncomingDir
    case Validating => IncomingDir
    case NeedsClarification => ProcessingDir
    case Queued => if startedBefore then ProcessingDir else IncomingDir
    case Processing => ProcessingDir
    case Completed => CompletedDir
    case Failed => FailedDir
    case Cancelled => if startedBefore then ProcessingDir else IncomingDir
  }

  predicate AtRest(job: Job) {
    job.path == Some(StageFor(job.status, job.starts > 0)) && FileAt(job, job.path)
  }

  predicate InProcessing(job: Job, row: Row) {
    job.path == Some(ProcessingDir) && FileAt(job, job.path) && row.path == job.path
  }

  predicate WorkerFile(job: Job, h: Hold) {
    match h.point
    case Move => job.path.Some? && FileAt(job, job.path)
    case RecordMove => job.path.Some? && FileAt(job, Some(ProcessingDir))
    case Refresh => job.path == Some(ProcessingDir) && FileAt(job, job.path)
    case MoveCompleted => InProcessing(job, h.row)
    case MoveFailed => InProcessing(job, h.row)
    case RecordCompleted => job.path == Some(ProcessingDir) && FileAt(job, Some(CompletedDir))
    case RecordFailed => job.path == Some(ProcessingDir) && FileAt(job, Some(FailedDir))
    case _ => AtRest(job) && (job.status.Processing? || job.status.NeedsClarification? ==> InProcessing(job, h.row))
  }

  predicate MailFile(job: Job, p: MailPoint) {
    match p
    case AcceptValidate(_) => job.path.None? && job.file.None?
    case AcceptSave(_) => job.path.None? && job.file.None?
    case AcceptRecord => job.path.None? && FileAt(job, Some(IncomingDir))
    case RejectMove => job.path == Some(IncomingDir) && FileAt(job, job.path)
    case RejectRecord => job.path == Some(IncomingDir) && FileAt(job, Some(FailedDir))
    case _ => AtRest(job)
  }

  /** Whose business the stored file is just now. */
  predicate FilesFit(job: Job, w: Option<Hold>, m: Option<MailPoint>) {
    if w.Some? then WorkerFile(job, w.value)
    else if m.Some? then MailFile(job, m.value)
    else AtRest(job)
  }

  /** The points at which the mail thread may still be when nothing more can become of a job's file. */
  predicate Harmless(job: Job, p: MailPoint) {
    || p.ApplyCheck?
    || (!job.status.Received? && !job.status.Validating?
        && (p.AcceptAck? || p.CancelSet? || p.ApplyHint? || p.ApplyQueue? || p.ApplyDelete? || p.ApplyMail?))
  }

  /** Path, file and status do not go together, and no thread will ever mend it. */
  predicate Parted(job: Job, w: Option<Hold>, m: Option<MailPoint>) {
    && !AtRest(job)
    && (job.status.Received? || job.status.Validating? || BackendReached(job.status))
    && (w.Some? ==> job.status.Completed? && w.value.point.Fail?)
    && (m.Some? ==> Harmless(job, m.value))
  }

  predicate StorageFits(job: Job, w: Option<Hold>, m: Option<MailPoint>) {
    job.operation.SubmitTranscript? ==> if job.disturbed then Parted(job, w, m) else FilesFit(job, w, m)
  }

  /** The part that concerns the worker alone. */
  predicate WorkerInv(cfg: Setting, job: Job, w: Option<Hold>) {
    && Safe(job)
    && RoundsFit(cfg, job)
    && (w.Some? ==> WorkerFits(cfg, job, w.value))
    && StorageFits(job, w, None)
  }

  predicate JobInv(cfg: Setting, job: Job, w: Option<Hold>, waiting: Option<Row>, m: Option<MailPoint>) {
    && Safe(job)
    && RoundsFit(cfg, job)
    && (w.Some? ==> WorkerFits(cfg, job, w.value))
    && (waiting.Some? ==> WaitingFits(job, waiting.value))
    && (m.Some? ==> MailFits(cfg, job, m.value))
    && (m.Some? && Rejecting(m.value) ==> w.None? && waiting.None?)
    && StorageFits(job, w, m)
  }

  // ---- each thread keeps it, whatever the other is doing at the same job ----------------

  lemma WithoutMail(cfg: Setting, job: Job, h: Hold, m: Option<MailPoint>)
    requires JobInv(cfg, job, Some(h), None, m)
    ensures WorkerInv(cfg, job, Some(h))
    ensures m.Some? ==> MailFits(cfg, job, m.value) && !Rejecting(m.value)
    ensures !job.status.Received? && !job.status.Validating?
  {
    hide Safe, RoundsFit, MailFits, FileAt, AtRest;
  }

  lemma WithMail(cfg: Setting, job: Job, w: Option<Hold>, m: Option<MailPoint>)
    requires WorkerInv(cfg, job, w) && !job.status.Received? && !job.status.Validating?
    requires m.Some? ==> MailFits(cfg, job, m.value) && !Rejecting(m.value)
    ensures JobInv(cfg, job, w, None, m)
  {
    hide Safe, RoundsFit, WorkerFits, FileAt, AtRest, WorkerFile;
  }

  lemma WorkerMovesOn(job: Job, h: Hold, r: Reading)
    requires !job.status.Received? && !job.status.Validating?
    ensures var o := WorkerStep(job, h, r); !o.job.status.Received? && !o.job.status.Validating?
  {
  }

  lemma WorkerKeeps(cfg: Setting, job: Job, h: Hold, m: Option<MailPoint>, r: Reading)
    requires JobInv(cfg, job, Some(h), None, m)
    requires Possible(cfg, h.row.groupHint, r)
    ensures var o := WorkerStep(job, h, r); JobInv(cfg, o.job, o.next, None, m)
  {
    hide WorkerStep, JobInv, WorkerInv, MailFits, Possible;
    WithoutMail(cfg, job, h, m);
    WorkerMovesOn(job, h, r);
    WorkerInvFits(cfg, job, h);
    WorkerSparesMail(cfg, job, h, m, r);
    if Opening(h.point) {
      OpeningKeeps(cfg, job, h, r);
    } else if Asking(h.point) {
      AskingKeeps(cfg, job, h, r);
    } else if Submitting(h.point) {
      SubmittingKeeps(cfg, job, h, r);
    } else if Answering(h.point) {
      AnsweringKeeps(cfg, job, h, r);
    } else if h.point.Complete? {
      CompleteKeeps(cfg, job, h, r);
    } else if Completing(h.point) {
      CompletingKeeps(cfg, job, h, r);
    } else if h.point.Fail? {
      FailKeeps(cfg, job, h, r);
    } else {
      ReportingKeeps(cfg, job, h, r);
    }
    var o := WorkerStep(job, h, r);
    WithMail(cfg, o.job, o.next, m);
  }

  lemma WorkerInvFits(cfg: Setting, job: Job, h: Hold)
    requires WorkerInv(cfg, job, Some(h))
    ensures WorkerFits(cfg, job, h)
  {
  }

  lemma WorkerSparesMail(cfg: Setting, job: Job, h: Hold, m: Option<MailPoint>, r: Reading)
    requires WorkerFits(cfg, job, h)
    requires m.Some? ==> MailFits(cfg, job, m.value) && !Rejecting(m.value)
    ensures m.Some? ==> MailFits(cfg, WorkerStep(job, h, r).job, m.value)
  {
  }

  predicate Opening(p: WorkerPoint) {
    p.Start? || p.Move? || p.RecordMove? || p.Refresh?
  }

  predicate Asking(p: WorkerPoint) {
    p.AskBackend? || p.NeedGroup? || p.PutPending? || p.MailQuestion?
  }

  predicate Submitting(p: WorkerPoint) {
    p.CreateMeeting? || p.ReadFile? || p.Upload? || p.Attendees? || p.RecordResults?
  }

  predicate Answering(p: WorkerPoint) {
    p.AskSources? || p.NoSources? || p.MailNoSources? || p.AlertNoSources?
  }

  predicate Completing(p: WorkerPoint) {
    p.MoveCompleted? || p.RecordCompleted? || p.MailCompletion?
  }

  predicate Reporting(p: WorkerPoint) {
    p.MoveFailed? || p.RecordFailed? || p.MailFailure? || p.AlertAdmin?
  }

  lemma OpeningKeeps(cfg: Setting, job: Job, h: Hold, r: Reading)
    requires WorkerInv(cfg, job, Some(h))
    requires Possible(cfg, h.row.groupHint, r)
    requires Opening(h.point)
    ensures var o := WorkerStep(job, h, r); WorkerInv(cfg, o.job, o.next)
  {
  }

  lemma AskingKeeps(cfg: Setting, job: Job, h: Hold, r: Reading)
    requires WorkerInv(cfg, job, Some(h))
    requires Possible(cfg, h.row.groupHint, r)
    requires Asking(h.point)
    ensures var o := WorkerStep(job, h, r); WorkerInv(cfg, o.job, o.next)
  {
  }

  lemma SubmittingKeeps(cfg: Setting, job: Job, h: Hold, r: Reading)
    requires WorkerInv(cfg, job, Some(h))
    requires Possible(cfg, h.row.groupHint, r)
    requires Submitting(h.point)
    ensures var o := WorkerStep(job, h, r); WorkerInv(cfg, o.job, o.next)
  {
  }

  lemma AnsweringStaysSafe(cfg: Setting, job: Job, h: Hold, r: Reading)
    requires Safe(job) && RoundsFit(cfg, job) && WorkerFits(cfg, job, h)
    requires Possible(cfg, h.row.groupHint, r) && Answering(h.point)
    ensures var o := WorkerStep(job, h, r);
            Safe(o.job) && RoundsFit(cfg, o.job) && (o.next.Some? ==> WorkerFits(cfg, o.job, o.next.value))
  {
  }

  lemma AnsweringKeepsStorage(cfg: Setting, job: Job, h: Hold, r: Reading)
    requires Safe(job) && RoundsFit(cfg, job) && WorkerFits(cfg, job, h) && StorageFits(job, Some(h), None)
    requires Answering(h.point)
    ensures var o := WorkerStep(job, h, r); StorageFits(o.job, o.next, None)
  {
  }

  lemma AnsweringKeeps(cfg: Setting, job: Job, h: Hold, r: Reading)
    requires WorkerInv(cfg, job, Some(h))
    requires Possible(cfg, h.row.groupHint, r)
    requires Answering(h.point)
    ensures var o := WorkerStep(job, h, r); WorkerInv(cfg, o.job, o.next)
  {
    hide WorkerStep, Safe, RoundsFit, WorkerFits, StorageFits, Possible;
    AnsweringStaysSafe(cfg, job, h, r);
    AnsweringKeepsStorage(cfg, job, h, r);
  }

  lemma CompleteStaysSafe(cfg: Setting, job: Job, h: Hold, r: Reading)
    requires Safe(job) && RoundsFit(cfg, job) && WorkerFits(cfg, job, h)
    requires Possible(cfg, h.row.groupHint, r) && h.point.Complete?
    ensures var o := WorkerStep(job, h, r);
            Safe(o.job) && RoundsFit(cfg, o.job) && (o.next.Some? ==> WorkerFits(cfg, o.job, o.next.value))
  {
  }

  lemma CompleteKeepsStorage(cfg: Setting, job: Job, h: Hold, r: Reading)
    requires Safe(job) && RoundsFit(cfg, job) && WorkerFits(cfg, job, h) && StorageFits(job, Some(h), None)
    requires h.point.Complete?
    ensures var o := WorkerStep(job, h, r); StorageFits(o.job, o.next, None)
  {
  }

  lemma CompleteKeeps(cfg: Setting, job: Job, h: Hold, r: Reading)
    requires WorkerInv(cfg, job, Some(h))
    requires Possible(cfg, h.row.groupHint, r)
    requires h.point.Complete?
    ensures var o := WorkerStep(job, h, r); WorkerInv(cfg, o.job, o.next)
  {
    hide WorkerStep, Safe, RoundsFit, WorkerFits, StorageFits, Possible;
    CompleteStaysSafe(cfg, job, h, r);
    CompleteKeepsStorage(cfg, job, h, r);
  }

  lemma CompletingStaysSafe(cfg: Setting, job: Job, h: Hold, r: Reading)
    requires Safe(job) && RoundsFit(cfg, job) && WorkerFits(cfg, job, h)
    requires Possible(cfg, h.row.groupHint, r) && Completing(h.point)
    ensures var o := WorkerStep(job, h, r);
            Safe(o.job) && RoundsFit(cfg, o.job) && (o.next.Some? ==> WorkerFits(cfg, o.job, o.next.value))
  {
    hide Noticed;
    NoticedStaysSafe(cfg, job, Outbox.Completion);
    NoticedStaysSafe(cfg, job, Outbox.AssessResult);
  }

  lemma CompletingKeepsStorage(cfg: Setting, job: Job, h: Hold, r: Reading)
    requires Safe(job) && RoundsFit(cfg, job) && WorkerFits(cfg, job, h) && StorageFits(job, Some(h), None)
    requires Completing(h.point)
    ensures var o := WorkerStep(job, h, r); StorageFits(o.job, o.next, None)
  {
  }

  lemma CompletingKeeps(cfg: Setting, job: Job, h: Hold, r: Reading)
    requires WorkerInv(cfg, job, Some(h))
    requires Possible(cfg, h.row.groupHint, r)
    requires Completing(h.point)
    ensures var o := WorkerStep(job, h, r); WorkerInv(cfg, o.job, o.next)
  {
    hide WorkerStep, Safe, RoundsFit, WorkerFits, StorageFits, Possible;
    CompletingStaysSafe(cfg, job, h, r);
    CompletingKeepsStorage(cfg, job, h, r);
  }

  lemma FailStaysSafe(cfg: Setting, job: Job, h: Hold, r: Reading)
    requires Safe(job) && RoundsFit(cfg, job) && WorkerFits(cfg, job, h)
    requires Possible(cfg, h.row.groupHint, r) && h.point.Fail?
    ensures var o := WorkerStep(job, h, r);
            Safe(o.job) && RoundsFit(cfg, o.job) && (o.next.Some? ==> WorkerFits(cfg, o.job, o.next.value))
  {
  }

  lemma FailKeepsStorage(cfg: Setting, job: Job, h: Hold, r: Reading)
    requires Safe(job) && RoundsFit(cfg, job) && WorkerFits(cfg, job, h) && StorageFits(job, Some(h), None)
    requires h.point.Fail?
    ensures var o := WorkerStep(job, h, r); StorageFits(o.job, o.next, None)
  {
  }

  lemma FailKeeps(cfg: Setting, job: Job, h: Hold, r: Reading)
    requires WorkerInv(cfg, job, Some(h))
    requires Possible(cfg, h.row.groupHint, r)
    requires h.point.Fail?
    ensures var o := WorkerStep(job, h, r); WorkerInv(cfg, o.job, o.next)
  {
    hide WorkerStep, Safe, RoundsFit, WorkerFits, StorageFits, Possible;
    FailStaysSafe(cfg, job, h, r);
    FailKeepsStorage(cfg, job, h, r);
  }

  /** A mail to the sender, other than that of a cancellation, touches nothing of that. */
  lemma NoticedStaysSafe(cfg: Setting, job: Job, kind: Outbox.MailKind)
    requires kind != Outbox.CancelledNotice
    ensures Safe(Noticed(job, kind)) == Safe(job) && RoundsFit(cfg, Noticed(job, kind)) == RoundsFit(cfg, job)
    ensures forall h :: WorkerFits(cfg, Noticed(job, kind), h) == WorkerFits(cfg, job, h)
  {
  }

  lemma ReportingStaysSafe(cfg: Setting, job: Job, h: Hold, r: Reading)
    requires Safe(job) && RoundsFit(cfg, job) && WorkerFits(cfg, job, h)
    requires Possible(cfg, h.row.groupHint, r) && Reporting(h.point)
    ensures var o := WorkerStep(job, h, r);
            Safe(o.job) && RoundsFit(cfg, o.job) && (o.next.Some? ==> WorkerFits(cfg, o.job, o.next.value))
  {
    hide Noticed;
    NoticedStaysSafe(cfg, job, Outbox.FailureNotice);
  }

  lemma ReportingKeepsStorage(cfg: Setting, job: Job, h: Hold, r: Reading)
    requires Safe(job) && RoundsFit(cfg, job) && WorkerFits(cfg, job, h) && StorageFits(job, Some(h), None)
    requires Reporting(h.point)
    ensures var o := WorkerStep(job, h, r); StorageFits(o.job, o.next, None)
  {
  }

  lemma ReportingKeeps(cfg: Setting, job: Job, h: Hold, r: Reading)
    requires WorkerInv(cfg, job, Some(h))
    requires Possible(cfg, h.row.groupHint, r)
    requires Reporting(h.point)
    ensures var o := WorkerStep(job, h, r); WorkerInv(cfg, o.job, o.next)
  {
    hide WorkerStep, Safe, RoundsFit, WorkerFits, StorageFits, Possible;
    ReportingStaysSafe(cfg, job, h, r);
    ReportingKeepsStorage(cfg, job, h, r);
  }

  lemma WorkerRaiseKeeps(cfg: Setting, job: Job, h: Hold, m: Option<MailPoint>, called: bool)
    requires JobInv(cfg, job, Some(h), None, m)
    ensures var o := WorkerRaise(job, h, called); JobInv(cfg, o.job, o.next, None, m)
  {
    hide JobInv, WorkerInv, WorkerRaise;
    WithoutMail(cfg, job, h, m);
    RaiseKeeps(cfg, job, h, called);
    RaiseSparesMail(cfg, job, h, m, called);
    var o := WorkerRaise(job, h, called);
    WithMail(cfg, o.job, o.next, m);
  }

  lemma RaiseSparesMail(cfg: Setting, job: Job, h: Hold, m: Option<MailPoint>, called: bool)
    requires m.Some? ==> MailFits(cfg, job, m.value)
    ensures var o := WorkerRaise(job, h, called);
            o.job.status == job.status && (m.Some? ==> MailFits(cfg, o.job, m.value))
  {
  }

  lemma RaiseStaysSafe(cfg: Setting, job: Job, h: Hold, called: bool)
    requires Safe(job) && RoundsFit(cfg, job) && WorkerFits(cfg, job, h)
    ensures var o := WorkerRaise(job, h, called);
            && Safe(o.job) && RoundsFit(cfg, o.job)
            && (o.next.Some? ==> WorkerFits(cfg, o.job, o.next.value))
  {
  }

  /** An exception at a call that would have moved the file, or recorded it, parts it for good; any other does not. */
  lemma RaiseKeepsStorage(cfg: Setting, job: Job, h: Hold, called: bool)
    requires Safe(job) && WorkerFits(cfg, job, h) && StorageFits(job, Some(h), None)
    ensures var o := WorkerRaise(job, h, called); StorageFits(o.job, o.next, None)
  {
  }

  lemma RaiseKeeps(cfg: Setting, job: Job, h: Hold, called: bool)
    requires WorkerInv(cfg, job, Some(h))
    ensures var o := WorkerRaise(job, h, called); WorkerInv(cfg, o.job, o.next)
  {
    hide WorkerRaise, Safe, RoundsFit, WorkerFits, StorageFits;
    RaiseStaysSafe(cfg, job, h, called);
    RaiseKeepsStorage(cfg, job, h, called);
  }

  lemma MailKeeps(cfg: Setting, job: Job, w: Option<Hold>, waiting: Option<Row>, p: MailPoint, parses: bool)
    requires JobInv(cfg, job, w, waiting, Some(p))
    ensures var o := MailStep(job, p, parses); JobInv(cfg, o.job, w, waiting, o.next)
  {
    hide MailStep, Safe, RoundsFit, MailFits, WorkerFits, WaitingFits, FilesFit, Parted;
    MailStaysSafe(cfg, job, p, parses);
    RoundsKnow(cfg, job, w, waiting, p);
    MailMovesOn(cfg, job, w, waiting, p, parses);
    MailSparesWorker(cfg, job, w, waiting, p, parses);
    if job.operation.SubmitTranscript? {
      MailKeepsHistory(job, p, parses);
      if job.disturbed {
        MailLeavesParted(cfg, job, w, p, parses);
      } else {
        MailKeepsFiles(cfg, job, w, waiting, p, parses);
      }
    } else {
      MailKeepsHistory(job, p, parses);
    }
  }

  lemma RoundsKnow(cfg: Setting, job: Job, w: Option<Hold>, waiting: Option<Row>, p: MailPoint)
    requires w.Some? ==> WorkerFits(cfg, job, w.value)
    requires waiting.Some? ==> WaitingFits(job, waiting.value)
    ensures job.status.Validating? ==> w.None? && waiting.None?
  {
  }

  lemma MailKeepsHistory(job: Job, p: MailPoint, parses: bool)
    ensures var o := MailStep(job, p, parses); o.job.disturbed == job.disturbed && o.job.operation == job.operation
  {
  }

  lemma MailLeavesParted(cfg: Setting, job: Job, w: Option<Hold>, p: MailPoint, parses: bool)
    requires MailFits(cfg, job, p) && Parted(job, w, Some(p))
    ensures var o := MailStep(job, p, parses); Parted(o.job, w, o.next)
  {
  }

  lemma MailStaysSafe(cfg: Setting, job: Job, p: MailPoint, parses: bool)
    requires Safe(job) && RoundsFit(cfg, job) && MailFits(cfg, job, p)
    ensures var o := MailStep(job, p, parses); Safe(o.job) && RoundsFit(cfg, o.job)
  {
    hide Safe, RoundsFit, MailFits, MailStep;
    if ToldBy(p).Some? {
      MailTells(cfg, job, p, parses);
    } else {
      MailWritesSafely(cfg, job, p, parses);
    }
  }

  /** The mail that a call enqueues, if it does. */
  function ToldBy(p: MailPoint): Option<Outbox.MailKind> {
    if p.AcceptAck? then Some(Outbox.Ack)
    else if p.RejectMail? then Some(Outbox.FailureNotice)
    else if p.ApplyMail? then Some(Outbox.ClarificationReceived)
    else if p.CancelMail? then Some(Outbox.CancelledNotice)
    else None
  }

  lemma MailTells(cfg: Setting, job: Job, p: MailPoint, parses: bool)
    requires Safe(job) && RoundsFit(cfg, job) && MailFits(cfg, job, p) && ToldBy(p).Some?
    ensures var o := MailStep(job, p, parses); Safe(o.job) && RoundsFit(cfg, o.job)
  {
    hide Noticed, Safe, RoundsFit;
    if p.CancelMail? {
      CancelledIsSafe(cfg, job);
    } else {
      NoticedStaysSafe(cfg, job, ToldBy(p).value);
    }
  }

  lemma MailWritesSafely(cfg: Setting, job: Job, p: MailPoint, parses: bool)
    requires Safe(job) && RoundsFit(cfg, job) && MailFits(cfg, job, p) && ToldBy(p).None?
    ensures var o := MailStep(job, p, parses); Safe(o.job) && RoundsFit(cfg, o.job)
  {
    hide Noticed;
  }

  lemma CancelledIsSafe(cfg: Setting, job: Job)
    requires Safe(job) && RoundsFit(cfg, job) && job.status.Cancelled?
    ensures Safe(Noticed(job, Outbox.CancelledNotice)) && RoundsFit(cfg, Noticed(job, Outbox.CancelledNotice))
  {
  }

  lemma MailMovesOn(cfg: Setting, job: Job, w: Option<Hold>, waiting: Option<Row>, p: MailPoint, parses: bool)
    requires MailFits(cfg, job, p)
    requires Rejecting(p) || job.status.Validating? ==> w.None? && waiting.None?
    ensures var o := MailStep(job, p, parses);
            && (o.next.Some? ==> MailFits(cfg, o.job, o.next.value))
            && (o.next.Some? && Rejecting(o.next.value) ==> w.None? && waiting.None?)
  {
  }

  lemma MailSparesWorker(cfg: Setting, job: Job, w: Option<Hold>, waiting: Option<Row>, p: MailPoint, parses: bool)
    requires MailFits(cfg, job, p)
    requires w.Some? ==> WorkerFits(cfg, job, w.value) && !Rejecting(p)
    requires waiting.Some? ==> WaitingFits(job, waiting.value)
    ensures var o := MailStep(job, p, parses);
            && (w.Some? ==> WorkerFits(cfg, o.job, w.value))
            && (waiting.Some? ==> WaitingFits(o.job, waiting.value))
  {
  }

  lemma MailKeepsFiles(cfg: Setting, job: Job, w: Option<Hold>, waiting: Option<Row>, p: MailPoint, parses: bool)
    requires JobInv(cfg, job, w, waiting, Some(p))
    requires job.operation.SubmitTranscript? && !job.disturbed
    ensures var o := MailStep(job, p, parses); FilesFit(o.job, w, o.next)
  {
    if w.Some? {
      MailLeavesFile(cfg, job, w.value, p, parses);
    } else {
      MailMovesFile(cfg, job, p, parses);
    }
  }

  lemma MailLeavesFile(cfg: Setting, job: Job, h: Hold, p: MailPoint, parses: bool)
    requires WorkerFits(cfg, job, h) && WorkerFile(job, h) && MailFits(cfg, job, p) && RoundsFit(cfg, job)
    requires !Rejecting(p)
    ensures WorkerFile(MailStep(job, p, parses).job, h)
  {
  }

  lemma MailMovesFile(cfg: Setting, job: Job, p: MailPoint, parses: bool)
    requires MailFits(cfg, job, p) && MailFile(job, p) && RoundsFit(cfg, job)
    requires job.operation.SubmitTranscript?
    ensures var o := MailStep(job, p, parses); FilesFit(o.job, None, o.next)
  {
  }
}
