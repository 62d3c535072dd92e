/** From one job to all jobs, and from one step to whole runs: the results about the job protocol. */
module JobRuns {
  import opened Wrappers
  import opened JobStates
  import opened GroupMatching
  import opened Attachments
  import opened JobProtocol
  import Outbox
  import opened JobSafety
  import Validator

  function WaitingAt(s: State, id: JobId): Option<Row> {
    if id in s.waiting then Some(s.waiting[id]) else None
  }

  predicate InvAt(cfg: Setting, s: State, id: JobId)
    requires id in s.jobs
  {
    JobInv(cfg, s.jobs[id], HeldAt(s.worker, id), WaitingAt(s, id), HeldAt(s.mail, id))
  }

  predicate Shape(s: State) {
    && (s.worker.At? ==> s.worker.id in s.jobs && s.worker.id !in s.waiting)
    && (s.mail.At? ==> s.mail.id in s.jobs)
    && s.waiting.Keys <= s.jobs.Keys
  }

  ghost predicate Inv(cfg: Setting, s: State) {
    Shape(s) && forall id :: id in s.jobs ==> InvAt(cfg, s, id)
  }

  /** The events of the runs that a setting describes. */
  ghost predicate Legal(cfg: Setting, c: Casing, e: Event) {
    e.WorkerCall? ==> forall hint :: Possible(cfg, hint, Read(c, hint, e.answer))
  }

  /** An accepted answer settles the group. */
  ghost predicate AnswersSettle(cfg: Setting, c: Casing) {
    cfg.fixed ==>
      forall text, choice :: AcceptedAnswer(c, cfg.names, text) == Some(choice) ==> cfg.settles(Some(choice))
  }

  // ---- one job when a thread takes it up, or is torn away from it -----------------------

  lemma TakeUp(cfg: Setting, job: Job, row: Row, m: Option<MailPoint>)
    requires JobInv(cfg, job, None, Some(row), m)
    ensures JobInv(cfg, job, Some(Hold(row, Start)), None, m)
  {
  }

  lemma Enlist(cfg: Setting, job: Job, m: Option<MailPoint>)
    requires JobInv(cfg, job, None, None, m) && job.status.Queued?
    ensures JobInv(cfg, job, None, Some(RowOf(job)), m)
  {
  }

  lemma LetGo(cfg: Setting, job: Job, w: Option<Hold>, waiting: Option<Row>, m: Option<MailPoint>)
    requires JobInv(cfg, job, w, waiting, m)
    ensures JobInv(cfg, TornAway(job, None, m), w, waiting, None)
    ensures JobInv(cfg, TornAway(job, w, m), None, None, None)
  {
    hide Safe, RoundsFit;
    TornStaysSafe(cfg, job, w, m);
    TornKeepsStorage(cfg, job, w, waiting, m);
  }

  lemma TornStaysSafe(cfg: Setting, job: Job, w: Option<Hold>, m: Option<MailPoint>)
    requires Safe(job) && RoundsFit(cfg, job)
    ensures Safe(TornAway(job, w, m)) && RoundsFit(cfg, TornAway(job, w, m))
    ensures Safe(TornAway(job, None, m)) && RoundsFit(cfg, TornAway(job, None, m))
  {
  }

  /** A thread torn away at one of the listed calls leaves the file parted for good; anywhere else, at rest. */
  lemma TornKeepsStorage(cfg: Setting, job: Job, w: Option<Hold>, waiting: Option<Row>, m: Option<MailPoint>)
    requires JobInv(cfg, job, w, waiting, m)
    ensures StorageFits(TornAway(job, None, m), w, None)
    ensures StorageFits(TornAway(job, w, m), None, None)
  {
  }

  lemma PendingIsOffered(cfg: Setting, job: Job, w: Option<Hold>, waiting: Option<Row>, m: Option<MailPoint>)
    requires JobInv(cfg, job, w, waiting, m)
    ensures job.pending.Some? ==> Offered(cfg, job.pending.value)
  {
  }

  lemma Address(cfg: Setting, job: Job, w: Option<Hold>, waiting: Option<Row>, p: MailPoint)
    requires JobInv(cfg, job, w, waiting, None)
    requires (p.CancelSet? && (job.status.Queued? || job.status.NeedsClarification?))
             || (p.ApplyCheck? && Settled(cfg, Some(p.choice)))
    ensures JobInv(cfg, job, w, waiting, Some(p))
  {
  }

  // ---- one step -------------------------------------------------------------------------

  lemma WorkerStepKeepsInv(cfg: Setting, c: Casing, s: State, e: Event)
    requires Inv(cfg, s) && Legal(cfg, c, e)
    requires e.WorkerCall? || e.WorkerRaises?
    ensures Inv(cfg, Step(c, s, e))
  {
    if s.worker.At? {
      var at, h := s.worker.id, s.worker.what;
      assert InvAt(cfg, s, at);
      var s' := Step(c, s, e);
      if e.WorkerCall? {
        WorkerKeeps(cfg, s.jobs[at], h, HeldAt(s.mail, at), Read(c, h.row.groupHint, e.answer));
      } else {
        WorkerRaiseKeeps(cfg, s.jobs[at], h, HeldAt(s.mail, at), e.called);
      }
      forall id | id in s'.jobs ensures InvAt(cfg, s', id) {
        assert InvAt(cfg, s, id);
      }
    }
  }

  lemma MailStepKeepsInv(cfg: Setting, c: Casing, s: State, e: Event)
    requires Inv(cfg, s)
    requires e.MailCall?
    ensures Inv(cfg, Step(c, s, e))
  {
    if s.mail.At? {
      var at, s' := s.mail.id, Step(c, s, e);
      assert InvAt(cfg, s, at);
      MailKeeps(cfg, s.jobs[at], HeldAt(s.worker, at), WaitingAt(s, at), s.mail.what, e.parses);
      forall id | id in s'.jobs ensures InvAt(cfg, s', id) {
        assert InvAt(cfg, s, id);
      }
    }
  }

  /** What is saved is what was checked, also among attachments of one name. */
  lemma SavedIsChecked(operation: Operation, q: Request)
    requires Admitted(operation, q)
    ensures SavedContent(operation, q) == CheckedContent(operation, q)
    ensures operation.SubmitTranscript? ==>
              exists i :: 0 <= i < |q.attachments| && q.attachments[i].content == CheckedContent(operation, q)
                          && Validator.IsVtt(q.attachments[i].filename) && |q.attachments[i].content| <= q.maxBytes
  {
    hide Validator.ValidateSubmit, Validator.SavedAttachment, Validator.Resolve, Validator.IsVtt;
    if operation.SubmitTranscript? {
      Validator.CheckedIsSaved(q.attachments, q.named, q.maxBytes);
    }
  }

  lemma NewJobFits(cfg: Setting, operation: Operation, hint: Option<string>, q: Request)
    requires Admitted(operation, q)
    ensures JobInv(cfg, NewJob(operation, hint, CheckedContent(operation, q)), None, None,
                   Some(AcceptValidate(SavedContent(operation, q))))
  {
    hide SavedContent, CheckedContent, Admitted;
    SavedIsChecked(operation, q);
  }

  lemma RequestKeepsInv(cfg: Setting, c: Casing, s: State, e: Event)
    requires Inv(cfg, s) && AnswersSettle(cfg, c)
    requires e.NewRequest? || e.CancelRequest? || e.AnswerReply?
    ensures Inv(cfg, Step(c, s, e))
  {
    hide Step, Inv;
    if e.NewRequest? {
      NewRequestKeepsInv(cfg, c, s, e);
    } else {
      InteractionKeepsInv(cfg, c, s, e);
    }
  }

  lemma NewRequestKeepsInv(cfg: Setting, c: Casing, s: State, e: Event)
    requires Inv(cfg, s) && e.NewRequest?
    ensures Inv(cfg, Step(c, s, e))
  {
    var s' := Step(c, s, e);
    hide JobInv, CheckedContent, SavedContent, Admitted, NewJob;
    if Admitted(e.operation, e.request) {
      NewJobFits(cfg, e.operation, e.hint, e.request);
    }
    forall id | id in s'.jobs ensures InvAt(cfg, s', id) {
      if id in s.jobs {
        assert InvAt(cfg, s, id);
      }
    }
  }

  lemma InteractionKeepsInv(cfg: Setting, c: Casing, s: State, e: Event)
    requires Inv(cfg, s) && AnswersSettle(cfg, c) && (e.CancelRequest? || e.AnswerReply?)
    ensures Inv(cfg, Step(c, s, e))
  {
    var s' := Step(c, s, e);
    hide JobInv;
    forall id | id in s'.jobs ensures InvAt(cfg, s', id) {
      assert InvAt(cfg, s, id);
      if s.mail.Nobody? && s'.mail.At? && s'.mail.id == id {
        PendingIsOffered(cfg, s.jobs[id], HeldAt(s.worker, id), WaitingAt(s, id), HeldAt(s.mail, id));
        Address(cfg, s.jobs[id], HeldAt(s.worker, id), WaitingAt(s, id), s'.mail.what);
      }
    }
  }

  lemma ScheduleKeepsInv(cfg: Setting, c: Casing, s: State, e: Event)
    requires Inv(cfg, s)
    requires e.ListQueued? || e.NextJob?
    ensures Inv(cfg, Step(c, s, e))
  {
    var s' := Step(c, s, e);
    hide JobInv;
    forall id | id in s'.jobs ensures InvAt(cfg, s', id) {
      assert InvAt(cfg, s, id);
      var job, m := s.jobs[id], HeldAt(s.mail, id);
      if e.ListQueued? && s.worker.Nobody? && s.waiting == map[] && job.status.Queued? {
        Enlist(cfg, job, m);
      } else if e.NextJob? && e.job == id && s.worker.Nobody? && id in s.waiting {
        TakeUp(cfg, job, s.waiting[id], m);
      }
    }
  }

  lemma LossKeepsInv(cfg: Setting, c: Casing, s: State, e: Event)
    requires Inv(cfg, s)
    requires e.MailRaises? || e.Crash?
    ensures Inv(cfg, Step(c, s, e))
  {
    var s' := Step(c, s, e);
    hide JobInv, TornAway;
    forall id | id in s'.jobs ensures InvAt(cfg, s', id) {
      assert InvAt(cfg, s, id);
      LetGo(cfg, s.jobs[id], HeldAt(s.worker, id), WaitingAt(s, id), HeldAt(s.mail, id));
    }
  }

  lemma StepKeepsInv(cfg: Setting, c: Casing, s: State, e: Event)
    requires Inv(cfg, s) && Legal(cfg, c, e) && AnswersSettle(cfg, c)
    ensures Inv(cfg, Step(c, s, e))
  {
    match e
    case WorkerCall(_) => WorkerStepKeepsInv(cfg, c, s, e);
    case WorkerRaises(_) => WorkerStepKeepsInv(cfg, c, s, e);
    case NewRequest(_, _, _, _) => RequestKeepsInv(cfg, c, s, e);
    case CancelRequest(_) => RequestKeepsInv(cfg, c, s, e);
    case AnswerReply(_, _) => RequestKeepsInv(cfg, c, s, e);
    case MailCall(_) => MailStepKeepsInv(cfg, c, s, e);
    case MailRaises => LossKeepsInv(cfg, c, s, e);
    case Crash => LossKeepsInv(cfg, c, s, e);
    case _ => ScheduleKeepsInv(cfg, c, s, e);
  }

  // ---- whole runs -----------------------------------------------------------------------

  lemma {:induction false} RunKeepsInv(cfg: Setting, c: Casing, s: State, events: seq<Event>)
    requires Inv(cfg, s) && AnswersSettle(cfg, c)
    requires forall e :: e in events ==> Legal(cfg, c, e)
    ensures Inv(cfg, Run(c, s, events))
    decreases |events|
  {
    if events != [] {
      StepKeepsInv(cfg, c, s, events[0]);
      RunKeepsInv(cfg, c, Step(c, s, events[0]), events[1..]);
    }
  }

  const AnySetting := Setting(false, [], (h: Option<string>) => true)

  /**
   * Whatever the interleaving, the failures and the crashes, and whatever groups the backend
   * lists from one call to the next: a job makes at most one create_meeting call; from then on it
   * is processing, completed or failed; a job whose cancellation was confirmed makes none. What
   * is uploaded is the content that was accepted, and what is stored is that content.
   */
  lemma AtMostOneMeeting(c: Casing, events: seq<Event>, id: JobId)
    requires id in Run(c, Initial, events).jobs
    ensures var job := Run(c, Initial, events).jobs[id];
            && job.meetings <= 1
            && (job.meetings == 1 ==> job.status.Processing? || job.status.Completed? || job.status.Failed?)
            && (Outbox.CancelledNotice in job.notices ==> job.status.Cancelled? && job.meetings == 0)
            && (forall content :: content in job.uploads ==> content == job.checked)
            && (job.file.Some? ==> job.file.value.content == job.checked)
  {
    hide Run, WorkerInv, WaitingFits, MailFits, StorageFits, RoundsFit, HeldAt;
    RunKeepsInv(AnySetting, c, Initial, events);
    assert InvAt(AnySetting, Run(c, Initial, events), id);
  }

  /**
   * When no thread is at a submission, its recorded path is where its stored file lies, in the one
   * stage directory that goes with its status, with the content that was checked: if and only if
   * no exception and no crash has hit one of the calls between which path, file and status do not
   * go together. Every other exception or crash, and every backend failure, leaves them in step.
   */
  lemma StoredWhereTheStatusSays(c: Casing, events: seq<Event>, id: JobId)
    requires id in Run(c, Initial, events).jobs
    requires var s := Run(c, Initial, events);
             && HeldAt(s.worker, id).None? && HeldAt(s.mail, id).None?
             && s.jobs[id].operation.SubmitTranscript?
    ensures var job := Run(c, Initial, events).jobs[id];
            var stage := StageFor(job.status, job.starts > 0);
            (job.path == Some(stage) && job.file == Some(StoredFile(stage, job.checked))) <==> !job.disturbed
  {
    hide Run;
    RunKeepsInv(AnySetting, c, Initial, events);
    assert InvAt(AnySetting, Run(c, Initial, events), id);
  }

  // ---- where the content comes from -----------------------------------------------------

  predicate SameRequest(before: Job, after: Job) {
    after.checked == before.checked && after.operation == before.operation
  }

  lemma WorkerKeepsChecked(job: Job, h: Hold, r: Reading, called: bool)
    ensures SameRequest(job, WorkerStep(job, h, r).job) && SameRequest(job, WorkerRaise(job, h, called).job)
  {
  }

  lemma MailKeepsChecked(job: Job, p: MailPoint, parses: bool)
    ensures SameRequest(job, MailStep(job, p, parses).job)
  {
  }

  lemma StepKeepsChecked(c: Casing, s: State, e: Event, id: JobId)
    requires id in s.jobs
    ensures id in Step(c, s, e).jobs && SameRequest(s.jobs[id], Step(c, s, e).jobs[id])
  {
    hide Admitted, CheckedContent, SavedContent, Read, WorkerStep, WorkerRaise, MailStep;
    if s.worker.At? {
      var h := s.worker.what;
      WorkerKeepsChecked(s.jobs[id], h, if e.WorkerCall? then Read(c, h.row.groupHint, e.answer) else GroupFound,
                         e.WorkerRaises? && e.called);
    }
    if s.mail.At? {
      MailKeepsChecked(s.jobs[id], s.mail.what, e.MailCall? && e.parses);
    }
  }

  /** The message that a job was made from. */
  predicate MadeBy(job: Job, id: JobId, e: Event) {
    && e.NewRequest? && e.newId == id && Admitted(e.operation, e.request)
    && job.operation == e.operation && job.checked == CheckedContent(e.operation, e.request)
  }

  lemma {:induction false} EveryJobWasRequested(c: Casing, s: State, events: seq<Event>, id: JobId) returns (k: nat)
    requires id in Run(c, s, events).jobs
    ensures var job := Run(c, s, events).jobs[id];
            if id in s.jobs then job.checked == s.jobs[id].checked && job.operation == s.jobs[id].operation
            else k < |events| && MadeBy(job, id, events[k])
    decreases |events|
  {
    k := 0;
    if events != [] {
      hide Admitted, CheckedContent, SavedContent;
      var next := Step(c, s, events[0]);
      if id in s.jobs {
        StepKeepsChecked(c, s, events[0], id);
      }
      var later := EveryJobWasRequested(c, next, events[1..], id);
      if id !in s.jobs {
        CreatedByRequest(c, s, events[0], id);
        k := if id in next.jobs then 0 else later + 1;
      }
    }
  }

  lemma CreatedByRequest(c: Casing, s: State, e: Event, id: JobId)
    requires id !in s.jobs
    ensures id in Step(c, s, e).jobs ==> MadeBy(Step(c, s, e).jobs[id], id, e)
  {
    hide Admitted, CheckedContent, SavedContent, Read, WorkerStep, WorkerRaise, MailStep;
  }

  /**
   * End to end, through any rounds of clarification: every content that is ever uploaded for a job
   * is that of an attachment of the message the job was made from, one that ends in .vtt and is
   * within the limit of size.
   */
  lemma UploadsWereChecked(c: Casing, events: seq<Event>, id: JobId, content: Bytes) returns (k: nat, i: nat)
    requires id in Run(c, Initial, events).jobs && content in Run(c, Initial, events).jobs[id].uploads
    ensures k < |events| && events[k].NewRequest? && events[k].newId == id
    ensures var q := events[k].request;
            && i < |q.attachments| && q.attachments[i].content == content
            && Validator.IsVtt(q.attachments[i].filename) && |content| <= q.maxBytes
  {
    hide Run, Step, CheckedContent, SavedContent, Admitted, Validator.IsVtt;
    k := EveryJobWasRequested(c, Initial, events, id);
    AtMostOneMeeting(c, events, id);
    UploadsAreSubmissions(c, events, id);
    var q := events[k].request;
    SavedIsChecked(events[k].operation, q);
    i :| 0 <= i < |q.attachments| && q.attachments[i].content == content
         && Validator.IsVtt(q.attachments[i].filename) && |q.attachments[i].content| <= q.maxBytes;
  }

  lemma UploadsAreSubmissions(c: Casing, events: seq<Event>, id: JobId)
    requires id in Run(c, Initial, events).jobs
    ensures Run(c, Initial, events).jobs[id].uploads != [] ==> Run(c, Initial, events).jobs[id].operation.SubmitTranscript?
  {
    hide Run, Step;
    RunKeepsInv(AnySetting, c, Initial, events);
    assert InvAt(AnySetting, Run(c, Initial, events), id);
  }

  /** While the backend lists the same groups. */
  function FixedGroups(c: Casing, groups: seq<Group>): Setting {
    Setting(true, Names(groups), (h: Option<string>) => MatchGroup(c, h, groups).Matched?)
  }

  lemma {:induction false} NamedGroup(groups: seq<Group>, name: string)
    requires name in Names(groups)
    ensures exists g :: g in groups && g.name == name
  {
    if groups[0].name != name {
      NamedGroup(groups[1..], name);
      var g :| g in groups[1..] && g.name == name;
      assert g in groups;
    } else {
      assert groups[0] in groups;
    }
  }

  lemma FixedAnswersSettle(c: Casing, groups: seq<Group>)
    requires Coherent(c)
    requires |groups| == 1 || forall g :: g in groups ==> g.name != ""
    ensures AnswersSettle(FixedGroups(c, groups), c)
  {
    forall text, choice | AcceptedAnswer(c, Names(groups), text) == Some(choice)
      ensures MatchGroup(c, Some(choice), groups).Matched?
    {
      AcceptedAnswerResolves(c, groups, text, choice);
      if |groups| != 1 {
        NamedGroup(groups, choice);
      }
    }
  }

  /**
   * The clarification cycle ends: while the list of groups does not change and none of several
   * groups is nameless, no job enters processing more than twice.
   */
  lemma AtMostTwoRounds(c: Casing, groups: seq<Group>, events: seq<Event>, id: JobId)
    requires Coherent(c)
    requires |groups| == 1 || forall g :: g in groups ==> g.name != ""
    requires forall e :: e in events && e.WorkerCall? && e.answer.Groups? ==> e.answer.groups == groups
    requires id in Run(c, Initial, events).jobs
    ensures Run(c, Initial, events).jobs[id].starts <= 2
  {
    var cfg := FixedGroups(c, groups);
    FixedAnswersSettle(c, groups);
    forall e | e in events ensures Legal(cfg, c, e) {
    }
    RunKeepsInv(cfg, c, Initial, events);
    assert InvAt(cfg, Run(c, Initial, events), id);
  }
}
