/** One mail-poll cycle: every message is skipped, deferred, or answered once and closed in the ledger. */
module Pipeline {
  import opened Wrappers
  import opened Text
  import opened JobStates
  import opened JobIds
  import opened JobStore
  import opened GroupMatching
  import opened Attachments
  import opened Outbox
  import opened AdminNotifier
  import opened Validator
  import ReportMatcher
  import ThreadMatcher
  import Ledger
  import VttParser

  datatype Message = Message(
    id: string,
    ref: string,
    from: string,
    subject: string,
    body: string,
    received: int,
    attachments: seq<Attachment>,
    inReplyTo: Option<string>,
    references: Option<string>)

  function HeadersOf(msg: Message): ThreadMatcher.Headers {
    ThreadMatcher.Headers(msg.inReplyTo, msg.references, msg.subject, msg.body)
  }

  datatype AuthReason = Authorised | UnrecognisedInDomain | UnauthorisedExternal | Unauthenticated | MalformedSender

  /** A call that answers or raises. */
  datatype Try<+T> = Returned(value: T) | Raised

  datatype Interpretation = Understood(command: ParsedCommand) | NotUnderstood | ParserRaised

  /** What the components outside this model answer while one message is processed. */
  datatype Surroundings = Surroundings(
    reason: AuthReason,
    sender: string,
    userId: int,
    lookupRaises: bool,
    available: bool,
    reportAnswer: Try<string>,
    interpretation: Interpretation,
    mentionedDate: Option<int>,
    day: string,
    storedName: string,
    checked: int,
    recorded: int,
    cut: Cut)

  /**
   * The store, file or parser call at which an attempt is cut short, by an exception that nothing
   * handles or by the end of the process; the call is not made, and nothing follows it.
   */
  datatype Cut =
    | Nowhere
    | AtCreate
    | AtValidating
    | AtSave
    | AtPath
    | AtParse
    | AtFacts
    | AtQueued
    | AtFailed
    | AtMove
    | AtMoved
    | AtCancel
    | AtHint
    | AtRequeue
    | AtDelete
    | AtReply
    | AtAlert
    | AtFinalize

  /** How the processing of a message ends. */
  datatype Ended = Skipped | Deferred | Interrupted | Finalised(outcome: Ledger.Outcome)

  // ---- the reply headers, and the sender's answer ---------------------------------------

  function Present(s: Option<string>): seq<string> {
    if s.Some? && s.value != "" then [s.value] else []
  }

  /** The thread so far and the message itself, each identifier once. */
  function ReplyReferences(msg: Message): string {
    Join(VttParser.FirstSeen(Present(msg.references) + Present(msg.inReplyTo) + Present(Some(msg.id))))
  }

  /** A header, if it is there and not empty, not among the ones before it. */
  function Further(header: Option<string>, earlier: seq<string>): seq<string> {
    if header.Some? && header.value != "" && header.value !in earlier then [header.value] else []
  }

  /** The thread's references, what the message replies to, and the message itself, with a space between any two. */
  lemma ReplyReferencesExactly(msg: Message)
    ensures var first := Further(msg.references, []);
            var second := Further(msg.inReplyTo, first);
            ReplyReferences(msg) == Join(first + second + Further(Some(msg.id), first + second))
  {
    hide Join, VttParser.FirstSeen;
    var first, second := Present(msg.references), Present(msg.references) + Present(msg.inReplyTo);
    OneMoreHeader([], msg.references);
    assert [] + first == first && VttParser.FirstSeen([]) == [] by { NoHeaders(); }
    OneMoreHeader(first, msg.inReplyTo);
    OneMoreHeader(second, Some(msg.id));
  }

  lemma NoHeaders()
    ensures VttParser.FirstSeen([]) == []
  {
  }

  lemma OneMoreHeader(names: seq<string>, header: Option<string>)
    ensures VttParser.FirstSeen(names + Present(header))
            == VttParser.FirstSeen(names) + Further(header, VttParser.FirstSeen(names))
  {
    if header.Some? && header.value != "" {
      assert (names + Present(header))[..|names|] == names;
      VttParser.FirstSeenHasSameNames(names, header.value);
    } else {
      assert names + Present(header) == names;
    }
  }

  function LineLength(s: string): (n: nat)
    ensures n <= |s|
  {
    if s == "" || IsLineBreak(s[0]) then 0 else 1 + LineLength(s[1..])
  }

  /** Blank lines are passed over anyway, so a two-character line end counts as two ends. */
  function FirstUnquotedLine(body: string): string
    decreases |body|
  {
    if body == "" then ""
    else
      var n := LineLength(body);
      var line := Strip(body[..n]);
      if line != "" && line[0] != '>' then line
      else if n < |body| then FirstUnquotedLine(body[n + 1..])
      else ""
  }

  lemma {:induction false} LineLengthOf(line: string, rest: string)
    requires forall i :: 0 <= i < |line| ==> !IsLineBreak(line[i])
    requires rest != "" ==> IsLineBreak(rest[0])
    ensures LineLength(line + rest) == |line|
  {
    if line != "" {
      assert (line + rest)[1..] == line[1..] + rest;
      LineLengthOf(line[1..], rest);
    } else {
      assert line + rest == rest;
    }
  }

  /**
   * The first line of a body, up to whatever ends it, is the answer if it is neither blank nor
   * quoted; otherwise what follows decides, and if nothing does the answer is empty.
   */
  lemma FirstLineDecides(line: string, rest: string)
    requires forall i :: 0 <= i < |line| ==> !IsLineBreak(line[i])
    requires rest != "" ==> IsLineBreak(rest[0])
    ensures FirstUnquotedLine(line + rest)
            == if Strip(line) != "" && Strip(line)[0] != '>' then Strip(line)
               else if rest == "" then "" else FirstUnquotedLine(rest[1..])
  {
    hide LineLength;
    var body := line + rest;
    LineLengthOf(line, rest);
    assert body[..|line|] == line;
    assert rest != "" ==> body[|line| + 1..] == rest[1..];
  }

  // ---- what may change ------------------------------------------------------------------

  /** The tables that the claims about a message are made of; of the outbox, the mails to senders and the alerts. */
  datatype Desk = Desk(
    jobs: map<string, Job>,
    order: seq<string>,
    replies: seq<Mail>,
    alerts: Alerts,
    ledger: map<string, Ledger.Row>,
    read: set<string>)

  /** A mail that answers the message: to its sender, in its thread. */
  predicate Answers(mail: Mail, msg: Message, sender: string) {
    && !mail.kind.Alert?
    && (mail.to == msg.from || mail.to == sender)
    && mail.inReplyTo == Some(msg.id)
    && mail.references == Some(ReplyReferences(msg))
  }

  predicate OneReply(msg: Message, sender: string, before: seq<Mail>, after: seq<Mail>) {
    && |after| == |before| + 1
    && after[..|before|] == before
    && Answers(after[|before|], msg, sender)
  }

  /** A sender's own job moves as the table of transitions allows. */
  predicate OwnMove(before: Job, after: Job, sender: string) {
    && Lower(before.senderEmail) == Lower(sender)
    && MayMove(before.status, after.status)
    && after == before.(status := after.status, groupHint := after.groupHint, inReplyTo := after.inReplyTo)
  }

  predicate NewJob(job: Job, msg: Message, sender: string) {
    && job.sourceMessageId == msg.id && job.senderEmail == sender
    && (job.status.Queued? || job.status.Failed? || job.status.Received? || job.status.Validating?)
  }

  predicate RowsKept(before: map<string, Job>, after: map<string, Job>, sender: string) {
    forall id :: id in before ==> id in after && (after[id] == before[id] || OwnMove(before[id], after[id], sender))
  }

  /** At most one job is new, and it is the message's; all others are kept or move for their own sender. */
  predicate JobsTouched(msg: Message, sender: string, before: Desk, after: Desk) {
    && RowsKept(before.jobs, after.jobs, sender)
    && if |after.order| == |before.order| then after.order == before.order && after.jobs.Keys == before.jobs.Keys
       else
         && |after.order| == |before.order| + 1 && after.order[..|before.order|] == before.order
         && var id := after.order[|before.order|];
            id !in before.jobs && id in after.jobs && NewJob(after.jobs[id], msg, sender)
            && after.jobs.Keys == before.jobs.Keys + {id}
  }

  /** What a handler that has answered leaves behind. */
  predicate Replied(msg: Message, sender: string, before: Desk, after: Desk) {
    && JobsTouched(msg, sender, before, after)
    && OneReply(msg, sender, before.replies, after.replies)
    && after.ledger == before.ledger && after.read == before.read
  }

  /** What is left behind before a reply: the message is neither answered, closed nor marked. */
  predicate Abandoned(msg: Message, sender: string, before: Desk, after: Desk) {
    && JobsTouched(msg, sender, before, after)
    && after.replies == before.replies && after.ledger == before.ledger && after.read == before.read
  }

  function Closed(d: Desk, msg: Message, outcome: Ledger.Outcome): Desk {
    d.(ledger := Ledger.Finalized(d.ledger, msg.id, outcome), read := d.read + {msg.ref})
  }

  /** The end of an attempt that was let through; one that is cut short may have been answered, but is not closed. */
  ghost predicate Concluded(msg: Message, sender: string, before: Desk, after: Desk, ended: Ended) {
    match ended
    case Skipped => false
    case Deferred => after == before.(alerts := after.alerts)
    case Interrupted => Abandoned(msg, sender, before, after) || Replied(msg, sender, before, after)
    case Finalised(outcome) =>
      if outcome.RejectedSilently? then after == Closed(before, msg, outcome).(alerts := after.alerts)
      else exists open :: Replied(msg, sender, before, open) && after == Closed(open, msg, outcome)
  }

  // ---- what each message comes to -------------------------------------------------------

  /** What the pipeline is set up with. */
  datatype Setup = Setup(
    casing: Casing,
    maxBytes: nat,
    decode: Bytes -> string,
    parseDate: string -> Option<VttParser.Date>,
    reportOwners: ReportMatcher.Owners)

  /** Everything that a message can change or is looked up in. */
  datatype Office = Office(desk: Desk, pending: map<string, PendingClarification>, files: map<Path, Bytes>, links: seq<Link>)

  /** A mail to the sender of the message, in its thread. */
  function InThread(msg: Message, to: string, jobId: Option<string>, kind: MailKind): (mail: Mail)
    ensures mail.to == to && mail.jobId == jobId && mail.kind == kind && mail.inReplyTo == Some(msg.id)
  {
    Mail(jobId, to, kind, Some(msg.id), Some(ReplyReferences(msg)))
  }

  /** The alert that goes with an event. */
  function Alarmed(alerts: Alerts, category: AlertCategory, s: Surroundings): Alerts {
    Alerted(alerts, category, s.checked, s.recorded)
  }

  /** Cut short where the surroundings say so. */
  predicate CutShort(s: Surroundings, ended: Ended) {
    ended.Interrupted? && !s.cut.Nowhere?
  }

  /** Closed with this outcome after this one mail and nothing else, unless it is cut short on the way. */
  ghost predicate AnsweredWith(msg: Message, s: Surroundings, before: Office, after: Office, ended: Ended,
                               mail: Mail, outcome: Ledger.Outcome)
  {
    || CutShort(s, ended)
    || (ended == Finalised(outcome)
        && after == before.(desk := Closed(before.desk.(replies := before.desk.replies + [mail]), msg, outcome)))
  }

  /** None of the ten identifiers that are tried for a new job is free. */
  ghost predicate NoFreeId(d: Desk, day: string) {
    forall i :: 0 <= i < 10 ==> Candidate(d.order, day, i) in d.jobs
  }

  /** The new job of a submission, the transcript of its checked attachment parsed or not. */
  ghost predicate Submitted(k: Setup, msg: Message, v: ValidatedCommand, s: Surroundings, before: Office, after: Office)
    requires v.attachment.Some?
  {
    exists id, content, i: nat ::
      && FirstOf(Metas(msg.attachments), v.attachment.value.filename, i) && content == msg.attachments[i].content
      && id !in before.desk.jobs && after.desk.order == before.desk.order + [id]
      && after.links == before.links && after.pending == before.pending && after.desk.alerts == before.desk.alerts
      && var parsed := VttParser.Parse(k.decode(content), k.parseDate);
         var path := Path(if parsed.Success? then IncomingDir else FailedDir, s.storedName);
         && path in after.files && after.files[path] == content
         && after.desk.jobs == before.desk.jobs[id := Job(
              id, s.sender, s.userId, msg.id, SubmitTranscript, if parsed.Success? then Queued else Failed,
              v.groupHint, Some(v.attachment.value.filename), Some(path),
              if parsed.Failure? then None
              else if parsed.value.date.Some? then parsed.value.date
              else if s.mentionedDate.Some? then s.mentionedDate
              else Some(msg.received),
              if parsed.Failure? then [] else parsed.value.speakers,
              None, None, None, None, None, None)]
         && after.desk.replies == before.desk.replies
              + [InThread(msg, s.sender, Some(id), if parsed.Success? then Ack else FailureNotice)]
  }

  /** The new job of a question. */
  ghost predicate Queried(msg: Message, v: ValidatedCommand, s: Surroundings, before: Office, after: Office) {
    exists id ::
      && id !in before.desk.jobs
      && after == before.(desk := before.desk.(
           order := before.desk.order + [id],
           jobs := before.desk.jobs[id := Job(
             id, s.sender, s.userId, msg.id, AssessQuery, Queued, v.groupHint, None, None, None, [],
             v.transcriptFocus, v.githubFocus, v.trelloFocus, None, None, None)],
           replies := before.desk.replies + [InThread(msg, s.sender, Some(id), Ack)]))
  }

  /** What a command that is carried out does, verb by verb. */
  ghost predicate Performed(k: Setup, msg: Message, v: ValidatedCommand, s: Surroundings, before: Office, after: Office) {
    var d := before.desk;
    match v.verb
    case Submit => v.attachment.Some? && Submitted(k, msg, v, s, before, after)
    case Assess => Queried(msg, v, s, before, after)
    case Status => after == before.(desk := d.(replies := d.replies + [InThread(msg, s.sender, v.jobId, StatusReport)]))
    case Results => after == before.(desk := d.(replies := d.replies + [InThread(msg, s.sender, v.jobId, ResultsReport)]))
    case Help => after == before.(desk := d.(replies := d.replies + [InThread(msg, s.sender, None, HelpText)]))
    case Cancel =>
      && v.jobId.Some? && v.jobId.value in d.jobs
      && var job := d.jobs[v.jobId.value];
         if job.status.Queued? || job.status.NeedsClarification? then
           after == before.(desk := d.(
             jobs := d.jobs[v.jobId.value := job.(status := Cancelled)],
             replies := d.replies + [InThread(msg, s.sender, v.jobId, CancelledNotice)]))
         else after == before.(desk := d.(replies := d.replies + [InThread(msg, s.sender, v.jobId, CannotCancel)]))
  }

  /** Only a new job can fail for want of a free identifier. */
  ghost predicate Hindered(v: ValidatedCommand, s: Surroundings, before: Desk) {
    !s.cut.Nowhere? || ((v.verb.Submit? || v.verb.Assess?) && NoFreeId(before, s.day))
  }

  /** A command is refused with one mail, or carried out and closed. */
  ghost predicate Commanded(k: Setup, msg: Message, command: ParsedCommand, thread: Option<string>, s: Surroundings,
                            before: Office, after: Office, ended: Ended)
  {
    match ValidateCommand(command, msg.attachments, k.maxBytes, thread, before.desk.jobs, s.sender)
    case Failure(Rejected) =>
      AnsweredWith(msg, s, before, after, ended, InThread(msg, msg.from, None, FailureNotice), Ledger.CommandRejected)
    case Failure(ClarificationRequired) =>
      AnsweredWith(msg, s, before, after, ended, InThread(msg, msg.from, None, Clarification), Ledger.ClarificationSent)
    case Success(v) =>
      || (ended.Interrupted? && Hindered(v, s, before.desk))
      || (ended == Finalised(Ledger.Handled)
          && after.desk.ledger == Ledger.Finalized(before.desk.ledger, msg.id, Ledger.Handled)
          && after.desk.read == before.desk.read + {msg.ref}
          && Performed(k, msg, v, s, before, Unclosed(before, after)))
  }

  /** As it was before the message was closed. */
  function Unclosed(before: Office, after: Office): Office {
    after.(desk := after.desk.(ledger := before.desk.ledger, read := before.desk.read))
  }

  /** A message that is no reply to a report or to a question. */
  ghost predicate Interpreted(k: Setup, msg: Message, thread: Option<string>, s: Surroundings,
                              before: Office, after: Office, ended: Ended)
  {
    if !s.available then
      || (CutShort(s, ended) && after == before)
      || (ended.Deferred?
          && after == before.(desk := before.desk.(alerts := Alarmed(before.desk.alerts, Infrastructure, s))))
    else
      match s.interpretation
      case ParserRaised => ended.Interrupted? && after == before
      case Understood(command) => Commanded(k, msg, command, thread, s, before, after, ended)
      case NotUnderstood =>
        var open := before.desk.(replies := before.desk.replies + [InThread(msg, msg.from, None, Clarification)]);
        || CutShort(s, ended)
        || (ended == Finalised(Ledger.LlmParseFailed)
            && after == before.(desk := Closed(open, msg, Ledger.LlmParseFailed).(
                 alerts := if s.cut.AtAlert? then before.desk.alerts
                           else Alarmed(before.desk.alerts, LlmParseFailure, s))))
  }

  /** A reply to a report: put off while the model is away, interrupted if it raises, answered otherwise. */
  ghost predicate ReportAnswered(msg: Message, reportId: string, s: Surroundings, before: Office, after: Office, ended: Ended) {
    if !s.available then ended.Deferred? && after == before
    else if s.reportAnswer.Raised? then ended.Interrupted? && after == before
    else AnsweredWith(msg, s, before, after, ended, InThread(msg, msg.from, Some(reportId), ReportReply),
                      Ledger.WeeklyReportReply)
  }

  /** The first unquoted line of the message selects exactly one of the offered names, the i-th. */
  predicate Chooses(k: Setup, msg: Message, before: Office, jobId: string, i: int)
    requires jobId in before.pending
  {
    Selects(k.casing, before.pending[jobId].options, FirstUnquotedLine(msg.body), i)
  }

  predicate Waits(s: Surroundings, d: Desk, jobId: string) {
    jobId in d.jobs && Lower(d.jobs[jobId].senderEmail) == Lower(s.sender) && d.jobs[jobId].status.NeedsClarification?
  }

  /** There is a question about the job, and it is the sender's to answer or the answer does not settle it. */
  ghost predicate Continues(k: Setup, msg: Message, s: Surroundings, before: Office, jobId: string) {
    jobId in before.pending && ((forall i :: !Chooses(k, msg, before, jobId, i)) || Waits(s, before.desk, jobId))
  }

  /** The sender is asked again unless one name is chosen; then the job is queued with it and the question is gone. */
  ghost predicate Continued(k: Setup, msg: Message, s: Surroundings, jobId: string, before: Office, after: Office, ended: Ended)
    requires jobId in before.pending
  {
    && ((forall i :: !Chooses(k, msg, before, jobId, i)) ==>
          AnsweredWith(msg, s, before, after, ended, InThread(msg, s.sender, Some(jobId), Clarification),
                       Ledger.ClarificationSent))
    && (forall i :: Chooses(k, msg, before, jobId, i) ==>
          || CutShort(s, ended)
          || (ended == Finalised(Ledger.ClarificationApplied) && Waits(s, before.desk, jobId)
              && var d := before.desk;
                 var row := d.jobs[jobId].(groupHint := Some(before.pending[jobId].options[i]), inReplyTo := Some(msg.id),
                                           status := Queued);
                 after == before.(
                   desk := Closed(d.(jobs := d.jobs[jobId := row],
                                     replies := d.replies + [InThread(msg, s.sender, Some(jobId), ClarificationReceived)]),
                                  msg, Ledger.ClarificationApplied),
                   pending := before.pending - {jobId})))
  }

  /** A message of a registered owner: about a report, an answer to a question, or anything else, in this order. */
  ghost predicate Attended(k: Setup, msg: Message, s: Surroundings, before: Office, after: Office, ended: Ended) {
    var headers := ThreadMatcher.Headers(msg.inReplyTo, msg.references, msg.subject, msg.body);
    var report := ReportMatcher.MatchReport(k.casing, headers, before.links, k.reportOwners, s.sender);
    var thread := ThreadMatcher.Match(headers, before.links, before.desk.order, before.desk.jobs, s.sender);
    if s.lookupRaises then ended.Interrupted? && after == before
    else if report.Some? then ReportAnswered(msg, report.value, s, before, after, ended)
    else if thread.Some? && thread.value != "" && Continues(k, msg, s, before, thread.value) then
      Continued(k, msg, s, thread.value, before, after, ended)
    else Interpreted(k, msg, thread, s, before, after, ended)
  }

  /** A message of anyone else: answered in our domain, silently closed outside, and reported either way. */
  ghost predicate TurnedAway(k: Setup, msg: Message, s: Surroundings, before: Office, after: Office, ended: Ended) {
    var alerts := Alarmed(before.desk.alerts, UnauthorisedSender, s);
    var d := before.desk;
    || CutShort(s, ended)
    || (if s.reason.UnrecognisedInDomain? then
          && ended == Finalised(Ledger.UnrecognisedSenderReplied)
          && after == before.(desk := Closed(d.(alerts := alerts,
                                                replies := d.replies + [InThread(msg, s.sender, None, Unrecognised)]),
                                             msg, Ledger.UnrecognisedSenderReplied))
        else
          && ended == Finalised(Ledger.RejectedSilently)
          && after == before.(desk := Closed(d.(alerts := alerts), msg, Ledger.RejectedSilently)))
  }

  ghost predicate Processed(k: Setup, msg: Message, s: Surroundings, before: Office, after: Office, ended: Ended) {
    if s.reason.Authorised? then Attended(k, msg, s, before, after, ended)
    else TurnedAway(k, msg, s, before, after, ended)
  }

  // ---- lemmas about what may change -----------------------------------------------------

  lemma NothingTouched(msg: Message, sender: string, d: Desk)
    ensures JobsTouched(msg, sender, d, d)
  {
  }

  lemma OneAdded(msg: Message, sender: string, before: Desk, after: Desk, job: Job)
    requires job.jobId !in before.jobs && NewJob(job, msg, sender)
    requires after.jobs == before.jobs[job.jobId := job] && after.order == before.order + [job.jobId]
    ensures JobsTouched(msg, sender, before, after)
  {
  }

  /** One row of the message has been added; how far it has been filled in is left open. */
  predicate Added(before: map<string, Job>, after: map<string, Job>, earlier: seq<string>, order: seq<string>,
                  id: string, msg: Message, sender: string)
  {
    && id !in before && id in after && after == before[id := after[id]] && order == earlier + [id]
    && after[id].jobId == id && NewJob(after[id], msg, sender)
  }

  lemma AddedTouches(msg: Message, sender: string, before: Desk, after: Desk, id: string)
    requires Added(before.jobs, after.jobs, before.order, after.order, id, msg, sender)
    ensures JobsTouched(msg, sender, before, after)
  {
    hide JobsTouched, NewJob;
    OneAdded(msg, sender, before, after, after.jobs[id]);
  }

  lemma OneMoved(msg: Message, sender: string, before: Desk, after: Desk, id: string, row: Job)
    requires id in before.jobs && OwnMove(before.jobs[id], row, sender)
    requires after.jobs == before.jobs[id := row] && after.order == before.order
    ensures JobsTouched(msg, sender, before, after)
  {
  }

  lemma SentOne(msg: Message, sender: string, replies: seq<Mail>, mail: Mail)
    requires Answers(mail, msg, sender)
    ensures OneReply(msg, sender, replies, replies + [mail])
  {
  }

  /** How a handler ends: it has answered, it asks to have the command refused, or it is cut short. */
  datatype Handling = Done | Refuses(refusal: Refusal) | Raises

  predicate Handled(msg: Message, sender: string, before: Desk, after: Desk, h: Handling) {
    match h
    case Done => Replied(msg, sender, before, after)
    case Refuses(_) => after == before
    case Raises => Abandoned(msg, sender, before, after)
  }

  /** The date said in the transcript, else in the mail, else that of the mail. */
  function MeetingDate(parsed: VttParser.Parsed, msg: Message, s: Surroundings): int {
    if parsed.date.Some? then parsed.date.value
    else if s.mentionedDate.Some? then s.mentionedDate.value
    else msg.received
  }

  function TranscriptRequest(msg: Message, v: ValidatedCommand, s: Surroundings): Job
    requires v.attachment.Some?
  {
    Job("", s.sender, s.userId, msg.id, SubmitTranscript, Received, v.groupHint, Some(v.attachment.value.filename),
        None, None, [], None, None, None, None, None, None)
  }

  function QuestionRequest(msg: Message, v: ValidatedCommand, s: Surroundings): Job {
    Job("", s.sender, s.userId, msg.id, AssessQuery, Received, v.groupHint, None,
        None, None, [], v.transcriptFocus, v.githubFocus, v.trelloFocus, None, None, None)
  }

  function QueuedQuestion(msg: Message, v: ValidatedCommand, s: Surroundings, id: string): Job {
    QuestionRequest(msg, v, s).(jobId := id, status := Queued)
  }

  function OpenedRow(msg: Message, v: ValidatedCommand, s: Surroundings, id: string): Job
    requires v.attachment.Some?
  {
    TranscriptRequest(msg, v, s).(jobId := id, status := Validating, path := Some(Path(IncomingDir, s.storedName)))
  }

  /** A job's row once accept is over: queued with the facts of its transcript, or failed with the file set aside. */
  function AcceptedRow(msg: Message, v: ValidatedCommand, s: Surroundings, id: string,
                       parsed: Result<VttParser.Parsed, VttParser.ParseError>): Job
    requires v.attachment.Some?
  {
    var started := OpenedRow(msg, v, s, id);
    match parsed
    case Success(p) => started.(status := Queued, speakers := p.speakers, meetingDate := Some(MeetingDate(p, msg, s)))
    case Failure(_) => started.(status := Failed, path := Some(Path(FailedDir, s.storedName)))
  }

  predicate Resolved(msg: Message, v: ValidatedCommand) {
    v.attachment.Some? && SavedAttachment(msg.attachments, v.attachment.value.filename).Some?
  }

  function SavedContent(msg: Message, v: ValidatedCommand): Bytes
    requires Resolved(msg, v)
  {
    var i := SavedAttachment(msg.attachments, v.attachment.value.filename).value;
    if i < |msg.attachments| then msg.attachments[i].content else []
  }

  /** The day's prefix is well formed, and the generated file name is new. */
  predicate Sensible(s: Surroundings, files: map<Path, Bytes>) {
    && IsPrefix(s.day)
    && Path(IncomingDir, s.storedName) !in files && Path(ProcessingDir, s.storedName) !in files
    && Path(CompletedDir, s.storedName) !in files && Path(FailedDir, s.storedName) !in files
  }

  // ---- the ledger's view of a poll ------------------------------------------------------

  function JobsFrom(jobs: map<string, Job>, order: seq<string>, messageId: string): nat {
    if order == [] then 0
    else
      var last := order[|order| - 1];
      JobsFrom(jobs, order[..|order| - 1], messageId)
      + (if last in jobs && jobs[last].sourceMessageId == messageId then 1 else 0)
  }

  /** The tables agree with the ledger's own account of them, which counts the jobs of each message. */
  ghost predicate Mirrors(b: Ledger.Mailbox, d: Desk) {
    && b.rows == d.ledger && b.read == d.read
    && forall id :: Ledger.Created(b, id) == JobsFrom(d.jobs, d.order, id)
  }

  function AttemptOf(before: Desk, after: Desk, ended: Ended): Ledger.Attempt {
    Ledger.Attempt(|after.order| > |before.order|, if ended.Finalised? then Some(ended.outcome) else None)
  }

  lemma {:induction false} JobsFromKept(before: map<string, Job>, after: map<string, Job>, order: seq<string>,
                                        sender: string, messageId: string)
    requires RowsKept(before, after, sender)
    requires forall i :: 0 <= i < |order| ==> order[i] in before
    ensures JobsFrom(after, order, messageId) == JobsFrom(before, order, messageId)
  {
    if order != [] {
      JobsFromKept(before, after, order[..|order| - 1], sender, messageId);
      assert order[|order| - 1] in before;
    }
  }

  /** A message adds at most one job, and that to its own count. */
  lemma JobsCounted(msg: Message, sender: string, before: Desk, after: Desk, messageId: string)
    requires JobsTouched(msg, sender, before, after)
    requires forall i :: 0 <= i < |before.order| ==> before.order[i] in before.jobs
    ensures JobsFrom(after.jobs, after.order, messageId)
            == JobsFrom(before.jobs, before.order, messageId)
               + (if |after.order| > |before.order| && messageId == msg.id then 1 else 0)
  {
    JobsFromKept(before.jobs, after.jobs, before.order, sender, messageId);
  }

  lemma ConcludedTouches(msg: Message, sender: string, before: Desk, after: Desk, ended: Ended)
    requires Concluded(msg, sender, before, after, ended)
    ensures JobsTouched(msg, sender, before, after)
    ensures ended.Finalised? ==> after.ledger == Ledger.Finalized(before.ledger, msg.id, ended.outcome)
                                 && after.read == before.read + {msg.ref}
    ensures !ended.Finalised? ==> after.ledger == before.ledger && after.read == before.read
  {
    hide JobsTouched, OneReply;
    if ended.Finalised? && !ended.outcome.RejectedSilently? {
      var open :| Replied(msg, sender, before, open) && after == Closed(open, msg, ended.outcome);
      SameRows(msg, sender, before, open, after);
    } else if !ended.Interrupted? {
      NothingTouched(msg, sender, before);
      SameRows(msg, sender, before, before, after);
    }
  }

  /** What the pipeline did with a message is the ledger's Handle of it. */
  lemma MirrorsHandle(msg: Message, sender: string, before: Desk, after: Desk, ended: Ended, b: Ledger.Mailbox)
    requires Mirrors(b, before)
    requires forall i :: 0 <= i < |before.order| ==> before.order[i] in before.jobs
    requires ended.Skipped? <==> !Ledger.MayBegin(before.ledger, msg.id)
    requires ended.Skipped? ==> after == before.(read := before.read + {msg.ref})
    requires !ended.Skipped? ==>
               Concluded(msg, sender, before.(ledger := Ledger.Begun(before.ledger, msg.id)), after, ended)
    ensures Mirrors(Ledger.Handle(b, Ledger.Incoming(msg.id, msg.ref), AttemptOf(before, after, ended)), after)
  {
    hide Concluded, Ledger.MayBegin, Ledger.Begun, Ledger.Finalized, JobsFrom, JobsTouched;
    if !ended.Skipped? {
      var begun := before.(ledger := Ledger.Begun(before.ledger, msg.id));
      ConcludedTouches(msg, sender, begun, after, ended);
      forall id ensures JobsFrom(after.jobs, after.order, id)
                        == JobsFrom(before.jobs, before.order, id)
                           + (if |after.order| > |before.order| && id == msg.id then 1 else 0) {
        JobsCounted(msg, sender, begun, after, id);
      }
    }
  }

  /**
   * The jobs table itself: after any polls of a pipeline that started empty, a Message-ID has no
   * more jobs than attempts, of which there are at most three; no more than the attempts that were
   * cut short after creating a job, and one more if it was finalised; so at most one if there was
   * no such attempt.
   */
  lemma {:induction false} JobsOfAMessage(history: seq<Ledger.Incoming>, attempts: seq<Ledger.Attempt>, d: Desk, messageId: string)
    requires |attempts| == |history| && Mirrors(Ledger.HandleAll(Ledger.Fresh, history, attempts), d)
    ensures var created := JobsFrom(d.jobs, d.order, messageId);
            && created <= Ledger.MAX_PROCESSING_ATTEMPTS
            && (messageId in d.ledger ==> created <= d.ledger[messageId].attempts)
            && var torn := Ledger.Tally(Ledger.HandleAll(Ledger.Fresh, history, attempts).torn, messageId);
               && created <= torn + (if messageId in d.ledger && d.ledger[messageId].outcome.Some? then 1 else 0)
               && (torn == 0 ==> created <= 1)
  {
    Ledger.JobsPerMessage(history, attempts, messageId);
  }

  function Incomings(batch: seq<Message>): (incoming: seq<Ledger.Incoming>)
    ensures |incoming| == |batch|
  {
    if batch == [] then []
    else Incomings(batch[..|batch| - 1]) + [Ledger.Incoming(batch[|batch| - 1].id, batch[|batch| - 1].ref)]
  }

  lemma NextHandled(b: Ledger.Mailbox, batch: seq<Message>, i: nat, attempts: seq<Ledger.Attempt>, a: Ledger.Attempt)
    requires i < |batch| && |attempts| == i
    ensures Ledger.HandleAll(b, Incomings(batch[..i + 1]), attempts + [a])
            == Ledger.Handle(Ledger.HandleAll(b, Incomings(batch[..i]), attempts),
                             Ledger.Incoming(batch[i].id, batch[i].ref), a)
  {
    assert batch[..i + 1][..i] == batch[..i];
    var incoming := Incomings(batch[..i + 1]);
    assert incoming[..i] == Incomings(batch[..i]) && (attempts + [a])[..i] == attempts;
  }

  /** Each message's generated file name is new, also among the others of the batch. */
  predicate AllSensible(surroundings: seq<Surroundings>, from: nat, files: map<Path, Bytes>) {
    && (forall j :: from <= j < |surroundings| ==> Sensible(surroundings[j], files))
    && (forall j, k :: from <= j < k < |surroundings| ==> surroundings[j].storedName != surroundings[k].storedName)
  }

  lemma NextSensible(surroundings: seq<Surroundings>, i: nat, before: map<Path, Bytes>, after: map<Path, Bytes>)
    requires i < |surroundings| && AllSensible(surroundings, i, before)
    requires OnlyFile(before, after, surroundings[i].storedName)
    ensures AllSensible(surroundings, i + 1, after)
  {
    forall j | i + 1 <= j < |surroundings| ensures Sensible(surroundings[j], after) {
      assert Sensible(surroundings[j], before);
    }
  }

  class EmailPipeline {
    const client: MailClient
    const ledger: Ledger.ProcessedMessageStore
    const jobStore: JobStore
    const outbox: Outbox
    const pending: PendingClarificationStore
    const files: FileStore
    const notifier: AdminNotifier
    const casing: Casing
    var reportOwners: ReportMatcher.Owners
    const maxBytes: nat
    const decode: Bytes -> string
    const parseDate: string -> Option<int>

    constructor (client: MailClient, ledger: Ledger.ProcessedMessageStore, jobStore: JobStore, outbox: Outbox,
                 pending: PendingClarificationStore, files: FileStore, notifier: AdminNotifier, casing: Casing,
                 reportOwners: ReportMatcher.Owners, maxBytes: nat, decode: Bytes -> string,
                 parseDate: string -> Option<int>)
      ensures this.client == client && this.ledger == ledger && this.jobStore == jobStore && this.outbox == outbox
      ensures this.pending == pending && this.files == files && this.notifier == notifier && this.casing == casing
      ensures this.reportOwners == reportOwners
      ensures this.maxBytes == maxBytes && this.decode == decode && this.parseDate == parseDate
    {
      this.client, this.ledger, this.jobStore, this.outbox := client, ledger, jobStore, outbox;
      this.pending, this.files, this.notifier, this.casing := pending, files, notifier, casing;
      this.reportOwners := reportOwners;
      this.maxBytes, this.decode, this.parseDate := maxBytes, decode, parseDate;
    }

    ghost function Now(): Desk
      reads jobStore, outbox, ledger, client, notifier
    {
      Desk(jobStore.jobs, jobStore.order, Replies(outbox.rows), notifier.State(outbox), ledger.rows, client.read)
    }

    ghost function All(): Office
      reads jobStore, outbox, ledger, client, notifier, pending, files
    {
      Office(Now(), pending.rows, files.files, outbox.links)
    }

    ghost function SetUp(): Setup
      reads this
    {
      Setup(casing, maxBytes, decode, parseDate, reportOwners)
    }

    method Reply(msg: Message, sender: string, mail: Mail)
      requires Answers(mail, msg, sender)
      modifies outbox`rows
      ensures Now() == old(Now()).(replies := old(Now()).replies + [mail])
      ensures OneReply(msg, sender, old(Now()).replies, Now().replies)
    {
      hide Replies, AlertMails, OneReply;
      RepliesSnoc(outbox.rows, Row(mail, Pending, 0));
      SentOne(msg, sender, Replies(outbox.rows), mail);
      outbox.Enqueue(mail);
    }

    /** The reply that ends a handler. What has been done since it began is kept as history. */
    method Tell(msg: Message, s: Surroundings, to: string, jobId: Option<string>, kind: MailKind, ghost before: Desk)
      returns (h: Handling)
      requires !kind.Alert? && to == s.sender && Abandoned(msg, s.sender, before, Now())
      modifies outbox`rows
      ensures h == if s.cut.AtReply? then Raises else Done
      ensures Handled(msg, s.sender, before, Now(), h)
      ensures Now() == if h.Done? then old(Now()).(replies := old(Now()).replies + [InThread(msg, to, jobId, kind)])
                       else old(Now())
    {
      hide Replies, AlertMails, OneReply, JobsTouched, InThread;
      if s.cut.AtReply? {
        return Raises;
      }
      StaysInThread(msg, s.sender, to, jobId, kind);
      Reply(msg, s.sender, InThread(msg, to, jobId, kind));
      SameRows(msg, s.sender, before, old(Now()), Now());
      return Done;
    }

    /** An alert is no reply. */
    method Alert(category: AlertCategory, s: Surroundings)
      modifies outbox`rows, notifier
      ensures Now() == old(Now()).(alerts := Alarmed(old(Now()).alerts, category, s))
    {
      hide Replies, AlertMails;
      var sent := notifier.Alert(outbox, category, s.checked, s.recorded);
    }

    method Close(msg: Message, outcome: Ledger.Outcome)
      modifies ledger, client`read
      ensures Now() == Closed(old(Now()), msg, outcome)
    {
      hide Replies, AlertMails;
      ledger.Finalize(msg.id, outcome);
      client.MarkProcessed(msg.ref);
    }

    /** A new row, moved on to validation; None when no identifier can be allocated. */
    method CreateValidating(request: Job, s: Surroundings) returns (created: Option<string>, ok: bool)
      requires jobStore.Valid() && IsPrefix(s.day)
      modifies jobStore
      ensures jobStore.Valid()
      ensures created.None? ==> jobStore.jobs == old(jobStore.jobs) && jobStore.order == old(jobStore.order)
      ensures created.Some? ==>
                && created.value !in old(jobStore.jobs)
                && jobStore.jobs == old(jobStore.jobs)[created.value :=
                     request.(jobId := created.value, status := if ok then Validating else Received)]
                && jobStore.order == old(jobStore.order) + [created.value]
      ensures ok ==> created.Some?
      ensures created.Some? && !ok ==> s.cut.AtValidating?
      ensures created.None? ==> s.cut.AtCreate? || NoFreeId(old(Now()), s.day)
    {
      hide Candidate, Contiguous;
      ghost var before := jobStore.jobs;
      if s.cut.AtCreate? {
        return None, false;
      }
      var r := jobStore.CreateJob(s.day, request);
      if r.Failure? {
        return None, false;
      }
      if s.cut.AtValidating? {
        return Some(r.value.jobId), false;
      }
      Overwritten(before, r.value.jobId, r.value, r.value.(status := Validating));
      var validating := jobStore.SetStatus(r.value.jobId, Validating);
      return Some(r.value.jobId), true;
    }

    // ---- submit_transcript.accept -------------------------------------------------------

    /** The row and its file, up to the parsing of the transcript. */
    method OpenTranscript(msg: Message, v: ValidatedCommand, s: Surroundings) returns (created: Option<string>, ok: bool)
      requires jobStore.Valid() && Resolved(msg, v) && Sensible(s, files.files)
      modifies jobStore, files
      ensures jobStore.Valid()
      ensures created.None? ==> jobStore.jobs == old(jobStore.jobs) && jobStore.order == old(jobStore.order)
      ensures created.Some? ==>
                Added(old(jobStore.jobs), jobStore.jobs, old(jobStore.order), jobStore.order, created.value, msg, s.sender)
      ensures files.files == old(files.files)
              || files.files == old(files.files)[Path(IncomingDir, s.storedName) := SavedContent(msg, v)]
      ensures ok ==>
                && created.Some? && jobStore.jobs[created.value] == OpenedRow(msg, v, s, created.value)
                && files.files == old(files.files)[Path(IncomingDir, s.storedName) := SavedContent(msg, v)]
      ensures created.Some? && !ok ==> !s.cut.Nowhere?
      ensures created.None? ==> s.cut.AtCreate? || NoFreeId(old(Now()), s.day)
    {
      hide SavedContent;
      ghost var before, request := jobStore.jobs, TranscriptRequest(msg, v, s);
      created, ok := CreateValidating(TranscriptRequest(msg, v, s), s);
      if !ok || s.cut.AtSave? {
        return created, false;
      }
      AllStages(s, files.files);
      var path := files.SaveIncoming(SavedContent(msg, v), s.storedName);
      if s.cut.AtPath? {
        return created, false;
      }
      Overwritten(before, created.value, request.(jobId := created.value, status := Validating),
                  OpenedRow(msg, v, s, created.value));
      jobStore.Update(created.value, StoragePath(path));
    }

    /** The facts read from the transcript, or its file set aside; the status follows. */
    method SettleAcceptance(msg: Message, v: ValidatedCommand, s: Surroundings, id: string,
                            parsed: Result<VttParser.Parsed, VttParser.ParseError>)
      returns (ok: bool)
      requires jobStore.Valid() && v.attachment.Some?
      requires id in jobStore.jobs && jobStore.jobs[id] == OpenedRow(msg, v, s, id)
      requires Path(IncomingDir, s.storedName) in files.files
      modifies jobStore`jobs, files
      ensures jobStore.Valid() && id in jobStore.jobs
      ensures jobStore.jobs == old(jobStore.jobs)[id := jobStore.jobs[id]]
      ensures jobStore.jobs[id].jobId == id && NewJob(jobStore.jobs[id], msg, s.sender)
      ensures files.files == old(files.files)
              || files.files == Moved(old(files.files), Path(IncomingDir, s.storedName), FailedDir)
      ensures ok ==>
                && jobStore.jobs[id] == AcceptedRow(msg, v, s, id, parsed)
                && files.files == if parsed.Success? then old(files.files)
                                  else Moved(old(files.files), Path(IncomingDir, s.storedName), FailedDir)
      ensures !ok ==> !s.cut.Nowhere?
    {
      hide Moved;
      if parsed.Failure? {
        ok := SetAside(msg, v, s, id);
      } else {
        ok := RecordFacts(msg, v, s, id, parsed.value);
      }
    }

    method SetAside(msg: Message, v: ValidatedCommand, s: Surroundings, id: string) returns (ok: bool)
      requires jobStore.Valid() && v.attachment.Some?
      requires id in jobStore.jobs && jobStore.jobs[id] == OpenedRow(msg, v, s, id)
      requires Path(IncomingDir, s.storedName) in files.files
      modifies jobStore`jobs, files
      ensures jobStore.Valid() && id in jobStore.jobs
      ensures jobStore.jobs == old(jobStore.jobs)[id := jobStore.jobs[id]]
      ensures jobStore.jobs[id].jobId == id && NewJob(jobStore.jobs[id], msg, s.sender)
      ensures files.files == old(files.files)
              || files.files == Moved(old(files.files), Path(IncomingDir, s.storedName), FailedDir)
      ensures ok ==>
                && jobStore.jobs[id] == OpenedRow(msg, v, s, id).(status := Failed, path := Some(Path(FailedDir, s.storedName)))
                && files.files == Moved(old(files.files), Path(IncomingDir, s.storedName), FailedDir)
      ensures !ok ==> !s.cut.Nowhere?
    {
      hide Moved;
      ghost var before, row := jobStore.jobs, jobStore.jobs[id];
      if s.cut.AtFailed? {
        return false;
      }
      var failed := jobStore.SetStatus(id, Failed);
      if s.cut.AtMove? {
        return false;
      }
      var moved := files.MoveTo(Path(IncomingDir, s.storedName), FailedDir);
      if s.cut.AtMoved? {
        return false;
      }
      Overwritten(before, id, row.(status := Failed), row.(status := Failed, path := moved));
      jobStore.Update(id, StoragePath(moved.value));
      return true;
    }

    method RecordFacts(msg: Message, v: ValidatedCommand, s: Surroundings, id: string, parsed: VttParser.Parsed)
      returns (ok: bool)
      requires jobStore.Valid() && v.attachment.Some?
      requires id in jobStore.jobs && jobStore.jobs[id] == OpenedRow(msg, v, s, id)
      modifies jobStore`jobs
      ensures jobStore.Valid() && id in jobStore.jobs
      ensures jobStore.jobs == old(jobStore.jobs)[id := jobStore.jobs[id]]
      ensures jobStore.jobs[id].jobId == id && NewJob(jobStore.jobs[id], msg, s.sender)
      ensures ok ==> jobStore.jobs[id] == OpenedRow(msg, v, s, id).(
                       status := Queued, speakers := parsed.speakers, meetingDate := Some(MeetingDate(parsed, msg, s)))
      ensures !ok ==> !s.cut.Nowhere?
    {
      hide MeetingDate;
      ghost var before, row := jobStore.jobs, jobStore.jobs[id];
      if s.cut.AtFacts? {
        return false;
      }
      jobStore.Update(id, MeetingFacts(parsed.speakers, MeetingDate(parsed, msg, s)));
      if s.cut.AtQueued? {
        return false;
      }
      Overwritten(before, id, jobStore.jobs[id], jobStore.jobs[id].(status := Queued));
      var queued := jobStore.SetStatus(id, Queued);
      return true;
    }

    /** Everything accept does before it answers. */
    method FileTranscript(msg: Message, v: ValidatedCommand, s: Surroundings)
      returns (created: Option<string>, parsed: Result<VttParser.Parsed, VttParser.ParseError>, ok: bool)
      requires jobStore.Valid() && Resolved(msg, v) && Sensible(s, files.files)
      modifies jobStore, files
      ensures jobStore.Valid()
      ensures created.None? ==> jobStore.jobs == old(jobStore.jobs) && jobStore.order == old(jobStore.order)
      ensures created.Some? ==>
                Added(old(jobStore.jobs), jobStore.jobs, old(jobStore.order), jobStore.order, created.value, msg, s.sender)
      ensures OnlyFile(old(files.files), files.files, s.storedName)
      ensures ok ==>
                && created.Some?
                && parsed == VttParser.Parse(decode(SavedContent(msg, v)), parseDate)
                && var row := AcceptedRow(msg, v, s, created.value, parsed);
                   && jobStore.jobs[created.value] == row
                   && row.path.Some? && row.path.value in files.files
                   && files.files[row.path.value] == SavedContent(msg, v)
      ensures created.Some? && !ok ==> !s.cut.Nowhere?
      ensures created.None? ==> s.cut.AtCreate? || NoFreeId(old(Now()), s.day)
    {
      hide Moved, SavedContent, VttParser.Parse, MeetingDate, OnlyFile, NewJob;
      ghost var before := jobStore.jobs;
      SavedApart(files.files, Path(IncomingDir, s.storedName), SavedContent(msg, v));
      parsed := VttParser.ParseVtt(decode(SavedContent(msg, v)), parseDate);
      created, ok := OpenTranscript(msg, v, s);
      if !ok || s.cut.AtParse? {
        return created, parsed, false;
      }
      ok := SettleAcceptance(msg, v, s, created.value, parsed);
      Overwritten(before, created.value, OpenedRow(msg, v, s, created.value), jobStore.jobs[created.value]);
    }

    /**
     * The job of a submission: its row, and under its path the bytes of the attachment that was
     * checked, whether the transcript could be parsed or not. Cut short, it has made at most one row.
     */
    method AcceptTranscript(msg: Message, v: ValidatedCommand, s: Surroundings) returns (h: Handling)
      requires jobStore.Valid() && Resolved(msg, v) && Sensible(s, files.files)
      modifies jobStore, outbox`rows, files
      ensures jobStore.Valid()
      ensures !h.Refuses? && Handled(msg, s.sender, old(Now()), Now(), h)
      ensures h.Raises? && s.cut.Nowhere? ==> Now() == old(Now())
      ensures h.Raises? ==> !s.cut.Nowhere? || NoFreeId(old(Now()), s.day)
      ensures OnlyFile(old(files.files), files.files, s.storedName)
      ensures Now().alerts == old(Now()).alerts
      ensures h.Done? ==> Submitted(SetUp(), msg, v, s, old(All()), All())
    {
      hide Replies, AlertMails, OneReply, JobsTouched, SavedContent, VttParser.Parse, MeetingDate, OnlyFile, Sensible;
      hide SavedAttachment, AcceptedRow, NewJob, Submitted, NoFreeId, InThread, Added, Resolved, ReplyReferences;
      ghost var before, was := Now(), All();
      NothingTouched(msg, s.sender, before);
      var created, parsed, ok := FileTranscript(msg, v, s);
      if created.None? {
        return Raises;
      }
      ghost var accepted := Now();
      AddedTouches(msg, s.sender, before, accepted, created.value);
      if !ok {
        return Raises;
      }
      h := Tell(msg, s, s.sender, created, if parsed.Success? then Ack else FailureNotice, before);
      if h.Done? {
        SubmittedIs(SetUp(), msg, v, s, was, All(), created.value);
      }
    }

    // ---- the other handlers -------------------------------------------------------------

    method FileQuestion(msg: Message, v: ValidatedCommand, s: Surroundings) returns (created: Option<string>, ok: bool)
      requires jobStore.Valid() && IsPrefix(s.day)
      modifies jobStore
      ensures jobStore.Valid()
      ensures created.None? ==> jobStore.jobs == old(jobStore.jobs) && jobStore.order == old(jobStore.order)
      ensures created.Some? ==>
                Added(old(jobStore.jobs), jobStore.jobs, old(jobStore.order), jobStore.order, created.value, msg, s.sender)
      ensures ok ==> created.Some? && jobStore.jobs[created.value] == QueuedQuestion(msg, v, s, created.value)
      ensures created.Some? && !ok ==> !s.cut.Nowhere?
      ensures created.None? ==> s.cut.AtCreate? || NoFreeId(old(Now()), s.day)
    {
      ghost var before := jobStore.jobs;
      created, ok := CreateValidating(QuestionRequest(msg, v, s), s);
      if !ok || s.cut.AtQueued? {
        return created, false;
      }
      Overwritten(before, created.value, jobStore.jobs[created.value], QueuedQuestion(msg, v, s, created.value));
      var queued := jobStore.SetStatus(created.value, Queued);
    }

    /** assess_query.accept */
    method AcceptQuestion(msg: Message, v: ValidatedCommand, s: Surroundings) returns (h: Handling)
      requires jobStore.Valid() && IsPrefix(s.day)
      modifies jobStore, outbox`rows
      ensures jobStore.Valid()
      ensures !h.Refuses? && Handled(msg, s.sender, old(Now()), Now(), h)
      ensures h.Raises? && s.cut.Nowhere? ==> Now() == old(Now())
      ensures h.Raises? ==> !s.cut.Nowhere? || NoFreeId(old(Now()), s.day)
      ensures h.Done? ==> Queried(msg, v, s, old(All()), All())
    {
      hide Replies, AlertMails, OneReply, JobsTouched, QueuedQuestion, ReplyReferences, NewJob, Queried, NoFreeId;
      ghost var before, was := Now(), All();
      NothingTouched(msg, s.sender, before);
      var created, ok := FileQuestion(msg, v, s);
      if created.None? {
        return Raises;
      }
      ghost var accepted := Now();
      AddedTouches(msg, s.sender, before, accepted, created.value);
      if !ok {
        return Raises;
      }
      h := Tell(msg, s, s.sender, created, Ack, before);
      if h.Done? {
        QueriedIs(msg, v, s, was, All(), created.value);
      }
    }

    /** status and results: the job is looked up once more. */
    method Report(msg: Message, jobId: string, kind: MailKind, s: Surroundings) returns (h: Handling)
      requires kind.StatusReport? || kind.ResultsReport?
      modifies outbox`rows
      ensures Handled(msg, s.sender, old(Now()), Now(), h)
      ensures h.Refuses? <==> Owned(jobStore.jobs, jobId, s.sender).None?
      ensures h.Raises? ==> !s.cut.Nowhere?
      ensures h.Refuses? ==> h.refusal.ClarificationRequired?
      ensures h.Done? ==> Now() == old(Now()).(replies := old(Now()).replies + [InThread(msg, s.sender, Some(jobId), kind)])
    {
      hide Replies, AlertMails, OneReply, JobsTouched;
      if Owned(jobStore.jobs, jobId, s.sender).None? {
        return Refuses(ClarificationRequired);
      }
      NothingTouched(msg, s.sender, Now());
      h := Tell(msg, s, s.sender, Some(jobId), kind, Now());
    }

    method Withdraw(msg: Message, jobId: string, s: Surroundings) returns (h: Handling)
      requires jobStore.Valid() && Owned(jobStore.jobs, jobId, s.sender).Some?
      requires jobStore.jobs[jobId].status.Queued? || jobStore.jobs[jobId].status.NeedsClarification?
      modifies jobStore`jobs, outbox`rows
      ensures jobStore.Valid()
      ensures !h.Refuses? && Handled(msg, s.sender, old(Now()), Now(), h)
      ensures h.Raises? ==> !s.cut.Nowhere?
      ensures h.Done? ==>
                Now() == old(Now()).(
                  jobs := old(jobStore.jobs)[jobId := old(jobStore.jobs)[jobId].(status := Cancelled)],
                  replies := old(Now()).replies + [InThread(msg, s.sender, Some(jobId), CancelledNotice)])
    {
      hide Replies, AlertMails, OneReply, JobsTouched, ReplyReferences;
      ghost var before := Now();
      NothingTouched(msg, s.sender, before);
      if s.cut.AtCancel? {
        return Raises;
      }
      var cancelled := jobStore.SetStatus(jobId, Cancelled);
      ghost var moved := Now();
      OneMoved(msg, s.sender, before, moved, jobId, jobStore.jobs[jobId]);
      h := Tell(msg, s, s.sender, Some(jobId), CancelledNotice, before);
    }

    /** Only a job that has not been dispatched is cancelled; otherwise its sender is told that it cannot be. */
    method CancelJob(msg: Message, jobId: string, s: Surroundings) returns (h: Handling)
      requires jobStore.Valid()
      modifies jobStore`jobs, outbox`rows
      ensures jobStore.Valid()
      ensures Handled(msg, s.sender, old(Now()), Now(), h)
      ensures h.Refuses? <==> Owned(old(jobStore.jobs), jobId, s.sender).None?
      ensures h.Refuses? ==> h.refusal.ClarificationRequired?
      ensures h.Raises? ==> !s.cut.Nowhere?
      ensures h.Done? ==>
                var job := old(jobStore.jobs)[jobId];
                var cancels := job.status.Queued? || job.status.NeedsClarification?;
                Now() == old(Now()).(
                  jobs := if cancels then old(jobStore.jobs)[jobId := job.(status := Cancelled)] else old(jobStore.jobs),
                  replies := old(Now()).replies
                             + [InThread(msg, s.sender, Some(jobId), if cancels then CancelledNotice else CannotCancel)])
    {
      hide Replies, AlertMails, OneReply, JobsTouched, ReplyReferences;
      var found := Owned(jobStore.jobs, jobId, s.sender);
      if found.None? {
        return Refuses(ClarificationRequired);
      }
      if found.value.status.Queued? || found.value.status.NeedsClarification? {
        h := Withdraw(msg, jobId, s);
        return;
      }
      NothingTouched(msg, s.sender, Now());
      h := Tell(msg, s, s.sender, Some(jobId), CannotCancel, Now());
    }

    // ---- the pipeline itself ------------------------------------------------------------

    method Dispatch(msg: Message, v: ValidatedCommand, s: Surroundings) returns (h: Handling)
      requires jobStore.Valid() && Sensible(s, files.files)
      requires v.verb.Submit? ==> Resolved(msg, v)
      requires v.verb.Status? || v.verb.Results? || v.verb.Cancel? ==> v.jobId.Some?
      modifies jobStore, outbox`rows, files
      ensures jobStore.Valid()
      ensures Handled(msg, s.sender, old(Now()), Now(), h)
      ensures OnlyFile(old(files.files), files.files, s.storedName)
      ensures h.Done? ==> Performed(SetUp(), msg, v, s, old(All()), All())
      ensures h.Raises? ==> Hindered(v, s, old(Now()))
      ensures h.Refuses? ==>
                && (v.verb.Status? || v.verb.Results? || v.verb.Cancel?)
                && Owned(old(jobStore.jobs), v.jobId.value, s.sender).None? && h.refusal.ClarificationRequired?
    {
      hide Replies, AlertMails, Handled, OnlyFile, Answers, AcceptedRow, Submitted, Queried, NoFreeId;
      SameFiles(files.files, s.storedName);
      match v.verb
      case Submit => h := AcceptTranscript(msg, v, s);
      case Status => h := Report(msg, v.jobId.value, StatusReport, s);
      case Results => h := Report(msg, v.jobId.value, ResultsReport, s);
      case Cancel => h := CancelJob(msg, v.jobId.value, s);
      case Assess => h := AcceptQuestion(msg, v, s);
      case Help =>
        NothingTouched(msg, s.sender, Now());
        h := Tell(msg, s, s.sender, None, HelpText, Now());
    }

    /** A reply, and the end of the message. What has been done since the attempt began is kept as history. */
    method ReplyAndClose(msg: Message, s: Surroundings, mail: Mail, outcome: Ledger.Outcome, ghost before: Desk)
      returns (ended: Ended)
      requires Answers(mail, msg, s.sender) && !outcome.RejectedSilently?
      requires Abandoned(msg, s.sender, before, Now())
      modifies outbox`rows, ledger, client`read
      ensures Concluded(msg, s.sender, before, Now(), ended)
      ensures ended == Finalised(outcome) || CutShort(s, ended)
      ensures ended.Finalised? ==> Now() == Closed(old(Now()).(replies := old(Now()).replies + [mail]), msg, outcome)
      ensures Now() == old(Now()).(replies := Now().replies, ledger := Now().ledger, read := Now().read)
    {
      hide Replies, AlertMails, Answers, JobsTouched, OneReply;
      if s.cut.AtReply? {
        return Interrupted;
      }
      Reply(msg, s.sender, mail);
      SameRows(msg, s.sender, before, old(Now()), Now());
      assert Replied(msg, s.sender, before, Now());
      if s.cut.AtFinalize? {
        return Interrupted;
      }
      Close(msg, outcome);
      return Finalised(outcome);
    }

    /**
     * A pending question about the thread's job: asked again, or answered, or None when it does not
     * concern the message.
     */
    method ContinueClarification(msg: Message, s: Surroundings, jobId: string) returns (ended: Option<Ended>)
      requires jobStore.Valid()
      modifies jobStore`jobs, outbox`rows, ledger, client`read, pending
      ensures jobStore.Valid()
      ensures ended.Some? ==> Concluded(msg, s.sender, old(Now()), Now(), ended.value)
      ensures ended.Some? ==> ended.value != Finalised(Ledger.RejectedSilently)
      ensures ended.Some? <==> Continues(SetUp(), msg, s, old(All()), jobId)
      ensures ended.None? ==> All() == old(All())
      ensures ended.Some? ==> Continued(SetUp(), msg, s, jobId, old(All()), All(), ended.value)
    {
      hide Replies, AlertMails, Concluded, Closed, Answers, AcceptedAnswer, FirstUnquotedLine, InThread;
      hide Continues, Continued;
      ghost var was := All();
      if jobId !in pending.rows {
        NoQuestion(SetUp(), msg, s, was, jobId);
        return None;
      }
      ChoiceIsAccepted(SetUp(), msg, was, jobId);
      hide Chooses;
      var chosen := AcceptedAnswer(casing, pending.rows[jobId].options, FirstUnquotedLine(msg.body));
      if chosen.None? {
        var asked := AskAgain(msg, s, jobId);
        return Some(asked);
      }
      var job := Owned(jobStore.jobs, jobId, s.sender);
      if job.None? || !job.value.status.NeedsClarification? {
        NotWaiting(SetUp(), msg, s, was, jobId);
        return None;
      }
      var applied := ApplyAnswer(msg, s, jobId, chosen.value);
      AnswerApplied(SetUp(), msg, s, jobId, was, All(), applied, chosen.value);
      return Some(applied);
    }

    method AskAgain(msg: Message, s: Surroundings, jobId: string) returns (ended: Ended)
      requires jobId in pending.rows && forall i :: !Chooses(SetUp(), msg, All(), jobId, i)
      modifies outbox`rows, ledger, client`read
      ensures Concluded(msg, s.sender, old(Now()), Now(), ended) && ended != Finalised(Ledger.RejectedSilently)
      ensures Continues(SetUp(), msg, s, old(All()), jobId)
      ensures Continued(SetUp(), msg, s, jobId, old(All()), All(), ended)
    {
      hide Replies, AlertMails, Concluded, Closed, Answers, Chooses, InThread, Continues, Continued;
      ghost var was := All();
      StaysInThread(msg, s.sender, s.sender, Some(jobId), Clarification);
      NothingTouched(msg, s.sender, Now());
      ended := ReplyAndClose(msg, s, InThread(msg, s.sender, Some(jobId), Clarification), Ledger.ClarificationSent, Now());
      AskedAgain(SetUp(), msg, s, jobId, was, All(), ended);
    }

    method Requeue(jobId: string, chosen: string, messageId: string, cut: Cut) returns (ok: bool)
      requires jobStore.Valid() && jobId in jobStore.jobs && jobStore.jobs[jobId].status.NeedsClarification?
      modifies jobStore`jobs
      ensures jobStore.Valid()
      ensures var row := old(jobStore.jobs)[jobId];
              var hinted := row.(groupHint := Some(chosen), inReplyTo := Some(messageId));
              && jobId in jobStore.jobs && jobStore.jobs == old(jobStore.jobs)[jobId := jobStore.jobs[jobId]]
              && (ok ==> jobStore.jobs[jobId] == hinted.(status := Queued))
              && (!ok ==> !cut.Nowhere? && (jobStore.jobs[jobId] == row || jobStore.jobs[jobId] == hinted))
    {
      ghost var before, row := jobStore.jobs, jobStore.jobs[jobId];
      ghost var hinted := row.(groupHint := Some(chosen));
      if cut.AtHint? {
        return false;
      }
      jobStore.Update(jobId, GroupHint(chosen));
      Overwritten(before, jobId, hinted, hinted.(inReplyTo := Some(messageId)));
      jobStore.Update(jobId, InReplyTo(messageId));
      if cut.AtRequeue? {
        return false;
      }
      Overwritten(before, jobId, jobStore.jobs[jobId], jobStore.jobs[jobId].(status := Queued));
      var queued := jobStore.SetStatus(jobId, Queued);
      return true;
    }

    method ApplyAnswer(msg: Message, s: Surroundings, jobId: string, chosen: string) returns (ended: Ended)
      requires jobStore.Valid()
      requires Owned(jobStore.jobs, jobId, s.sender).Some? && jobStore.jobs[jobId].status.NeedsClarification?
      modifies jobStore`jobs, outbox`rows, ledger, client`read, pending
      ensures jobStore.Valid()
      ensures Concluded(msg, s.sender, old(Now()), Now(), ended)
      ensures ended == Finalised(Ledger.ClarificationApplied) || CutShort(s, ended)
      ensures ended.Finalised? ==>
                var d, row := old(Now()), old(jobStore.jobs)[jobId].(groupHint := Some(chosen), inReplyTo := Some(msg.id),
                                                                     status := Queued);
                && Now() == Closed(d.(jobs := d.jobs[jobId := row],
                                      replies := d.replies + [InThread(msg, s.sender, Some(jobId), ClarificationReceived)]),
                                   msg, Ledger.ClarificationApplied)
                && pending.rows == old(pending.rows) - {jobId}
    {
      hide Replies, AlertMails, Closed, Answers, JobsTouched, OneReply;
      ghost var before := Now();
      var ok := Requeue(jobId, chosen, msg.id, s.cut);
      OneMoved(msg, s.sender, before, Now(), jobId, jobStore.jobs[jobId]);
      if !ok || s.cut.AtDelete? {
        return Interrupted;
      }
      pending.Delete(jobId);
      StaysInThread(msg, s.sender, s.sender, Some(jobId), ClarificationReceived);
      var mail := InThread(msg, s.sender, Some(jobId), ClarificationReceived);
      ended := ReplyAndClose(msg, s, mail, Ledger.ClarificationApplied, before);
    }

    /** A command that is not carried out: its sender is asked, or told. */
    method Refuse(msg: Message, s: Surroundings, refusal: Refusal, ghost before: Desk) returns (ended: Ended)
      requires Abandoned(msg, s.sender, before, Now())
      modifies outbox`rows, ledger, client`read
      ensures Concluded(msg, s.sender, before, Now(), ended)
      ensures match refusal
              case Rejected =>
                AnsweredWith(msg, s, old(All()), All(), ended, InThread(msg, msg.from, None, FailureNotice),
                             Ledger.CommandRejected)
              case ClarificationRequired =>
                AnsweredWith(msg, s, old(All()), All(), ended, InThread(msg, msg.from, None, Clarification),
                             Ledger.ClarificationSent)
      ensures ended != Finalised(Ledger.RejectedSilently)
    {
      hide Replies, AlertMails, Concluded, Closed, Answers, Abandoned;
      StaysInThread(msg, s.sender, msg.from, None, if refusal.Rejected? then FailureNotice else Clarification);
      var mail := InThread(msg, msg.from, None, if refusal.Rejected? then FailureNotice else Clarification);
      var outcome := if refusal.Rejected? then Ledger.CommandRejected else Ledger.ClarificationSent;
      ended := ReplyAndClose(msg, s, mail, outcome, before);
    }

    /** Validation, and the handler of the command. */
    method ExecuteCommand(msg: Message, command: ParsedCommand, threadJobId: Option<string>, s: Surroundings)
      returns (ended: Ended)
      requires jobStore.Valid() && Sensible(s, files.files)
      modifies jobStore, outbox`rows, files, ledger, client`read
      ensures jobStore.Valid()
      ensures Concluded(msg, s.sender, old(Now()), Now(), ended) && ended != Finalised(Ledger.RejectedSilently)
      ensures OnlyFile(old(files.files), files.files, s.storedName)
      ensures Commanded(SetUp(), msg, command, threadJobId, s, old(All()), All(), ended)
    {
      hide Replies, AlertMails, Closed, OnlyFile, ValidateCommand, SavedAttachment, JobsTouched, OneReply, Performed, NoFreeId;
      hide AnsweredWith, InThread, Owned, Closed, Replied, Abandoned, Concluded;
      ghost var before := Now();
      NothingBegun(msg, s.sender, before);
      SameFiles(files.files, s.storedName);
      var validated := ValidateCommand(command, msg.attachments, maxBytes, threadJobId, jobStore.jobs, s.sender);
      if validated.Failure? {
        ended := Refuse(msg, s, validated.error, before);
        return;
      }
      ValidatedIsReal(command, msg.attachments, maxBytes, threadJobId, jobStore.jobs, s.sender);
      var handling := Dispatch(msg, validated.value, s);
      match handling
      case Refuses(_) => // the validator has just found the job to be the sender's
        assert false;
        ended := Interrupted;
      case Raises =>
        CutBefore(msg, s.sender, before, Now());
        ended := Interrupted;
      case Done =>
        ghost var open := All();
        ended := CloseHandled(msg, s, before);
        if ended.Finalised? {
          ClosedAgain(msg, s.sender, before, open, All());
        }
    }

    /** The end of a message whose handler has answered. */
    method CloseHandled(msg: Message, s: Surroundings, ghost before: Desk) returns (ended: Ended)
      requires Replied(msg, s.sender, before, Now())
      modifies ledger, client`read
      ensures Concluded(msg, s.sender, before, Now(), ended)
      ensures CutShort(s, ended) || (ended == Finalised(Ledger.Handled) && Now() == Closed(old(Now()), msg, Ledger.Handled))
    {
      hide Replies, AlertMails, Replied, Abandoned;
      if s.cut.AtFinalize? {
        return Interrupted;
      }
      Close(msg, Ledger.Handled);
      return Finalised(Ledger.Handled);
    }

    /** A question about a weekly report: put off while the model is away, answered otherwise. */
    method AnswerReport(msg: Message, reportId: string, s: Surroundings) returns (ended: Ended)
      modifies outbox`rows, ledger, client`read
      ensures Concluded(msg, s.sender, old(Now()), Now(), ended) && ended != Finalised(Ledger.RejectedSilently)
      ensures ReportAnswered(msg, reportId, s, old(All()), All(), ended)
    {
      hide Replies, AlertMails, Closed, JobsTouched, OneReply, Answers;
      ghost var before := Now();
      NothingTouched(msg, s.sender, before);
      if !s.available {
        return Deferred;
      }
      if s.reportAnswer.Raised? {
        return Interrupted;
      }
      StaysInThread(msg, s.sender, msg.from, Some(reportId), ReportReply);
      var mail := InThread(msg, msg.from, Some(reportId), ReportReply);
      ended := ReplyAndClose(msg, s, mail, Ledger.WeeklyReportReply, before);
    }

    /** While the model is away the message is left for later, and the administrator is told. */
    method PutOff(msg: Message, s: Surroundings) returns (ended: Ended)
      modifies outbox`rows, notifier
      ensures Concluded(msg, s.sender, old(Now()), Now(), ended) && !ended.Finalised?
      ensures || (CutShort(s, ended) && Now() == old(Now()))
              || (ended.Deferred?
                  && Now() == old(Now()).(alerts := Alarmed(old(Now()).alerts, Infrastructure, s)))
    {
      hide Replies, AlertMails, JobsTouched, OneReply, Alarmed;
      NothingTouched(msg, s.sender, Now());
      if s.cut.AtAlert? {
        return Interrupted;
      }
      Alert(Infrastructure, s);
      return Deferred;
    }

    /** What the model cannot make sense of is answered with a question, and the administrator is told. */
    method AskToRephrase(msg: Message, s: Surroundings) returns (ended: Ended)
      modifies outbox`rows, ledger, client`read, notifier
      ensures Concluded(msg, s.sender, old(Now()), Now(), ended)
      ensures || CutShort(s, ended)
              || (ended == Finalised(Ledger.LlmParseFailed)
                  && Now() == Closed(old(Now()).(replies := old(Now()).replies + [InThread(msg, msg.from, None, Clarification)]),
                                     msg, Ledger.LlmParseFailed).(
                       alerts := if s.cut.AtAlert? then old(Now()).alerts
                                 else Alarmed(old(Now()).alerts, LlmParseFailure, s)))
    {
      hide Replies, AlertMails, JobsTouched, OneReply, Answers, Alarmed, InThread, Concluded;
      ghost var before := Now();
      NothingTouched(msg, s.sender, before);
      var mail := InThread(msg, msg.from, None, Clarification);
      StaysInThread(msg, s.sender, msg.from, None, Clarification);
      ended := ReplyAndClose(msg, s, mail, Ledger.LlmParseFailed, before);
      if ended.Finalised? && !s.cut.AtAlert? {
        ghost var closed := Now();
        Alert(LlmParseFailure, s);
        AlertAfterClosing(msg, s.sender, before, closed, Now().alerts, ended);
      }
    }

    method Interpret(msg: Message, threadJobId: Option<string>, s: Surroundings) returns (ended: Ended)
      requires jobStore.Valid() && Sensible(s, files.files)
      modifies jobStore, outbox`rows, files, ledger, client`read, notifier
      ensures jobStore.Valid()
      ensures Concluded(msg, s.sender, old(Now()), Now(), ended) && ended != Finalised(Ledger.RejectedSilently)
      ensures OnlyFile(old(files.files), files.files, s.storedName)
      ensures Interpreted(SetUp(), msg, threadJobId, s, old(All()), All(), ended)
    {
      hide Replies, AlertMails, Concluded, OnlyFile, Sensible, Commanded, Alarmed, InThread, Closed;
      SameFiles(files.files, s.storedName);
      if !s.available {
        ended := PutOff(msg, s);
        return;
      }
      match s.interpretation
      case ParserRaised =>
        NothingDone(msg, s.sender, Now());
        ended := Interrupted;
      case NotUnderstood =>
        ended := AskToRephrase(msg, s);
      case Understood(command) =>
        ended := ExecuteCommand(msg, command, threadJobId, s);
    }

    /** A message of a registered owner: about a report, an answer to a question, or a command. */
    method ProcessAuthorised(msg: Message, s: Surroundings) returns (ended: Ended)
      requires jobStore.Valid() && Sensible(s, files.files)
      modifies jobStore, outbox`rows, files, ledger, client`read, notifier, pending
      ensures jobStore.Valid()
      ensures Concluded(msg, s.sender, old(Now()), Now(), ended) && ended != Finalised(Ledger.RejectedSilently)
      ensures s.lookupRaises ==> ended.Interrupted? && Now() == old(Now())
      ensures OnlyFile(old(files.files), files.files, s.storedName)
      ensures Attended(SetUp(), msg, s, old(All()), All(), ended)
    {
      hide Replies, AlertMails, Closed, JobsTouched, OneReply, Answers, OnlyFile, Sensible;
      hide Continues, Continued, Interpreted, ReportAnswered;
      hide ThreadMatcher.Match, ReportMatcher.MatchReport, AcceptedAnswer, FirstUnquotedLine;
      SameFiles(files.files, s.storedName);
      if s.lookupRaises {
        NothingTouched(msg, s.sender, Now());
        return Interrupted;
      }
      var report := ReportMatcher.MatchReport(casing, HeadersOf(msg), outbox.links, reportOwners, s.sender);
      if report.Some? {
        ended := AnswerReport(msg, report.value, s);
        return;
      }
      var threadJobId := ThreadMatcher.Match(HeadersOf(msg), outbox.links, jobStore.order, jobStore.jobs, s.sender);
      if threadJobId.Some? && threadJobId.value != "" {
        var continued := ContinueClarification(msg, s, threadJobId.value);
        if continued.Some? {
          return continued.value;
        }
      }
      ended := Interpret(msg, threadJobId, s);
    }

    /** A sender who is not registered is told so when the domain is ours, and otherwise left without an answer. */
    method TurnAway(msg: Message, s: Surroundings) returns (ended: Ended)
      requires !s.reason.Authorised?
      modifies outbox`rows, ledger, client`read, notifier
      ensures Concluded(msg, s.sender, old(Now()), Now(), ended)
      ensures ended == Finalised(if s.reason.UnrecognisedInDomain? then Ledger.UnrecognisedSenderReplied
                                 else Ledger.RejectedSilently)
              || (ended.Interrupted? && !s.cut.Nowhere?)
      ensures TurnedAway(SetUp(), msg, s, old(All()), All(), ended)
    {
      hide Replies, AlertMails, JobsTouched, OneReply, Answers, Alarmed;
      ghost var before := Now();
      NothingTouched(msg, s.sender, before);
      if s.reason.UnrecognisedInDomain? {
        if s.cut.AtReply? {
          return Interrupted;
        }
        StaysInThread(msg, s.sender, s.sender, None, Unrecognised);
        var mail := InThread(msg, s.sender, None, Unrecognised);
        Reply(msg, s.sender, mail);
        SameRows(msg, s.sender, before, before, Now());
        ghost var answered := Now();
        assert Replied(msg, s.sender, before, answered);
        if s.cut.AtAlert? {
          return Interrupted;
        }
        Alert(UnauthorisedSender, s);
        OnlyAlerts(msg, s.sender, before, answered, Now().alerts);
        if s.cut.AtFinalize? {
          return Interrupted;
        }
        Close(msg, Ledger.UnrecognisedSenderReplied);
        return Finalised(Ledger.UnrecognisedSenderReplied);
      }
      if s.cut.AtAlert? {
        return Interrupted;
      }
      Alert(UnauthorisedSender, s);
      OnlyAlerts(msg, s.sender, before, before, Now().alerts);
      if s.cut.AtFinalize? {
        return Interrupted;
      }
      Close(msg, Ledger.RejectedSilently);
      return Finalised(Ledger.RejectedSilently);
    }

    /**
     * One message. Refused by the ledger, it is marked as read and nothing else. Let through, the
     * attempt is counted; and if it ends by closing the message, then exactly one reply to its
     * sender has been enqueued, and none exactly when the sender is rejected silently.
     */
    method ProcessMessage(msg: Message, s: Surroundings) returns (ended: Ended)
      requires jobStore.Valid() && Sensible(s, files.files)
      modifies jobStore, outbox`rows, files, ledger, client`read, notifier, pending
      ensures jobStore.Valid()
      ensures ended.Skipped? <==> !Ledger.MayBegin(old(ledger.rows), msg.id)
      ensures ended.Skipped? ==> Now() == old(Now()).(read := old(client.read) + {msg.ref})
      ensures !ended.Skipped? ==>
                Concluded(msg, s.sender, old(Now()).(ledger := Ledger.Begun(old(ledger.rows), msg.id)), Now(), ended)
      ensures ended.Finalised? ==>
                (ended.outcome.RejectedSilently? <==> !s.reason.Authorised? && !s.reason.UnrecognisedInDomain?)
      ensures s.reason.Authorised? && s.lookupRaises && !ended.Skipped? ==> ended.Interrupted?
      ensures OnlyFile(old(files.files), files.files, s.storedName)
      ensures !ended.Skipped? ==>
                Processed(SetUp(), msg, s,
                          old(All()).(desk := old(Now()).(ledger := Ledger.Begun(old(ledger.rows), msg.id))), All(), ended)
    {
      hide Replies, AlertMails, Concluded, Sensible, OnlyFile, Ledger.MayBegin, Attended, TurnedAway;
      SameFiles(files.files, s.storedName);
      var go := ledger.Begin(msg.id);
      if !go {
        client.MarkProcessed(msg.ref);
        return Skipped;
      }
      if !s.reason.Authorised? {
        ended := TurnAway(msg, s);
      } else {
        ended := ProcessAuthorised(msg, s);
      }
      NeverSkipped(msg, s.sender, old(Now()).(ledger := Ledger.Begun(old(ledger.rows), msg.id)), Now(), ended);
    }

    /**
     * One poll. Whatever happens to each message, the ledger, the marks and the jobs created are
     * those of the ledger's own account of the batch, so its bounds hold of the pipeline.
     */
    method PollOnce(batch: seq<Message>, surroundings: seq<Surroundings>, ghost b: Ledger.Mailbox)
      returns (n: nat, ghost attempts: seq<Ledger.Attempt>)
      requires jobStore.Valid() && |surroundings| == |batch| && AllSensible(surroundings, 0, files.files)
      requires Mirrors(b, Now())
      modifies jobStore, outbox`rows, files, ledger, client`read, notifier, pending
      ensures jobStore.Valid()
      ensures n == |batch| == |attempts|
      ensures Mirrors(Ledger.HandleAll(b, Incomings(batch), attempts), Now())
    {
      hide Replies, AlertMails, Concluded, Sensible, OnlyFile, Mirrors, Ledger.MayBegin, Ledger.Begun, Ledger.Handle, AttemptOf;
      n, attempts := 0, [];
      assert batch[..0] == [];
      while n < |batch|
        invariant n <= |batch| && |attempts| == n && jobStore.Valid()
        invariant AllSensible(surroundings, n, files.files)
        invariant Mirrors(Ledger.HandleAll(b, Incomings(batch[..n]), attempts), Now())
      {
        ghost var before, stored := Now(), files.files;
        ghost var mirror := Ledger.HandleAll(b, Incomings(batch[..n]), attempts);
        var ended := ProcessMessage(batch[n], surroundings[n]);
        MirrorsHandle(batch[n], surroundings[n].sender, before, Now(), ended, mirror);
        NextHandled(b, batch, n, attempts, AttemptOf(before, Now(), ended));
        NextSensible(surroundings, n, stored, files.files);
        attempts := attempts + [AttemptOf(before, Now(), ended)];
        n := n + 1;
      }
      assert batch[..n] == batch;
    }
  }

  lemma SavedApart(files: map<Path, Bytes>, path: Path, content: Bytes)
    requires path !in files
    ensures var saved := files[path := content];
            && OnlyFile(files, saved, path.name)
            && OnlyFile(files, Moved(saved, path, FailedDir), path.name)
            && Path(FailedDir, path.name) in Moved(saved, path, FailedDir)
            && Moved(saved, path, FailedDir)[Path(FailedDir, path.name)] == content
    ensures OnlyFile(files, files, path.name)
  {
  }

  lemma SameFiles(files: map<Path, Bytes>, name: string)
    ensures OnlyFile(files, files, name)
  {
  }

  lemma StaysInThread(msg: Message, sender: string, to: string, jobId: Option<string>, kind: MailKind)
    requires !kind.Alert? && (to == sender || to == msg.from)
    ensures Answers(InThread(msg, to, jobId, kind), msg, sender)
  {
  }

  lemma NoQuestion(k: Setup, msg: Message, s: Surroundings, before: Office, jobId: string)
    requires jobId !in before.pending
    ensures !Continues(k, msg, s, before, jobId)
  {
  }

  lemma NotWaiting(k: Setup, msg: Message, s: Surroundings, before: Office, jobId: string)
    requires jobId in before.pending && (exists i :: Chooses(k, msg, before, jobId, i)) && !Waits(s, before.desk, jobId)
    ensures !Continues(k, msg, s, before, jobId)
  {
  }

  lemma AskedAgain(k: Setup, msg: Message, s: Surroundings, jobId: string, before: Office, after: Office, ended: Ended)
    requires jobId in before.pending && forall i :: !Chooses(k, msg, before, jobId, i)
    requires CutShort(s, ended)
             || (ended == Finalised(Ledger.ClarificationSent)
                 && after == before.(desk := Closed(before.desk.(
                      replies := before.desk.replies + [InThread(msg, s.sender, Some(jobId), Clarification)]),
                      msg, Ledger.ClarificationSent)))
    ensures Continues(k, msg, s, before, jobId) && Continued(k, msg, s, jobId, before, after, ended)
  {
    hide Chooses, Closed, InThread;
  }

  lemma AnswerApplied(k: Setup, msg: Message, s: Surroundings, jobId: string, before: Office, after: Office, ended: Ended,
                      chosen: string)
    requires jobId in before.pending && Waits(s, before.desk, jobId)
    requires (exists i :: Chooses(k, msg, before, jobId, i))
             && forall i :: Chooses(k, msg, before, jobId, i) ==>
                  0 <= i < |before.pending[jobId].options| && before.pending[jobId].options[i] == chosen
    requires CutShort(s, ended)
             || (ended == Finalised(Ledger.ClarificationApplied)
                 && var d := before.desk;
                    var row := d.jobs[jobId].(groupHint := Some(chosen), inReplyTo := Some(msg.id), status := Queued);
                    after == before.(
                      desk := Closed(d.(jobs := d.jobs[jobId := row],
                                        replies := d.replies + [InThread(msg, s.sender, Some(jobId), ClarificationReceived)]),
                                     msg, Ledger.ClarificationApplied),
                      pending := before.pending - {jobId}))
    ensures Continues(k, msg, s, before, jobId) && Continued(k, msg, s, jobId, before, after, ended)
  {
    hide Chooses, Closed, InThread, CutShort;
  }

  lemma NothingBegun(msg: Message, sender: string, d: Desk)
    ensures Abandoned(msg, sender, d, d)
  {
    NothingTouched(msg, sender, d);
  }

  lemma CutBefore(msg: Message, sender: string, before: Desk, after: Desk)
    requires Abandoned(msg, sender, before, after)
    ensures Concluded(msg, sender, before, after, Interrupted)
  {
  }

  lemma ClosedAgain(msg: Message, sender: string, before: Desk, open: Office, after: Office)
    requires Replied(msg, sender, before, open.desk)
    requires after == open.(desk := Closed(open.desk, msg, Ledger.Handled))
    ensures after.(desk := after.desk.(ledger := before.ledger, read := before.read)) == open
    ensures after.desk.ledger == Ledger.Finalized(before.ledger, msg.id, Ledger.Handled)
    ensures after.desk.read == before.read + {msg.ref}
  {
  }

  lemma QueriedIs(msg: Message, v: ValidatedCommand, s: Surroundings, before: Office, after: Office, id: string)
    requires Added(before.desk.jobs, after.desk.jobs, before.desk.order, after.desk.order, id, msg, s.sender)
    requires after.desk.jobs[id] == QueuedQuestion(msg, v, s, id)
    requires after.desk.replies == before.desk.replies + [InThread(msg, s.sender, Some(id), Ack)]
    requires after == before.(desk := before.desk.(jobs := after.desk.jobs, order := after.desk.order, replies := after.desk.replies))
    ensures Queried(msg, v, s, before, after)
  {
    hide InThread;
  }

  lemma SubmittedIs(k: Setup, msg: Message, v: ValidatedCommand, s: Surroundings, before: Office, after: Office, id: string)
    requires Resolved(msg, v) && Added(before.desk.jobs, after.desk.jobs, before.desk.order, after.desk.order, id, msg, s.sender)
    requires var parsed := VttParser.Parse(k.decode(SavedContent(msg, v)), k.parseDate);
             var row := AcceptedRow(msg, v, s, id, parsed);
             && after.desk.jobs[id] == row && row.path.Some? && row.path.value in after.files
             && after.files[row.path.value] == SavedContent(msg, v)
             && after.desk.replies == before.desk.replies
                  + [InThread(msg, s.sender, Some(id), if parsed.Success? then Ack else FailureNotice)]
    requires after.links == before.links && after.pending == before.pending && after.desk.alerts == before.desk.alerts
    ensures Submitted(k, msg, v, s, before, after)
  {
    hide InThread, VttParser.Parse, NewJob, Metas;
    var i := SavedAttachment(msg.attachments, v.attachment.value.filename).value;
    var content := SavedContent(msg, v);
    assert |Metas(msg.attachments)| == |msg.attachments|;
    assert FirstOf(Metas(msg.attachments), v.attachment.value.filename, i) && content == msg.attachments[i].content;
  }

  /** The option that the pipeline accepts is the one that is chosen. */
  lemma ChoiceIsAccepted(k: Setup, msg: Message, before: Office, jobId: string)
    requires jobId in before.pending
    ensures var chosen := AcceptedAnswer(k.casing, before.pending[jobId].options, FirstUnquotedLine(msg.body));
            && (chosen.Some? <==> exists i :: Chooses(k, msg, before, jobId, i))
            && forall i :: Chooses(k, msg, before, jobId, i) ==>
                 0 <= i < |before.pending[jobId].options| && chosen == Some(before.pending[jobId].options[i])
  {
    hide AcceptedAnswer, FirstUnquotedLine, SameWords, OthersDiffer;
    var options, line := before.pending[jobId].options, FirstUnquotedLine(msg.body);
    AcceptedExactly(k.casing, options, line);
    forall i ensures Chooses(k, msg, before, jobId, i) <==> Selects(k.casing, options, line, i) {}
  }

  /** What the claims about a message say is the same whatever alerts there are. */
  lemma OnlyAlerts(msg: Message, sender: string, before: Desk, after: Desk, alerts: Alerts)
    ensures JobsTouched(msg, sender, before, after.(alerts := alerts)) == JobsTouched(msg, sender, before, after)
    ensures Replied(msg, sender, before, after.(alerts := alerts)) == Replied(msg, sender, before, after)
    ensures Abandoned(msg, sender, before, after.(alerts := alerts)) == Abandoned(msg, sender, before, after)
  {
  }

  lemma NothingDone(msg: Message, sender: string, d: Desk)
    ensures Concluded(msg, sender, d, d, Interrupted)
  {
    NothingTouched(msg, sender, d);
  }

  /** An alert after a message is closed leaves the claims about it as they are. */
  lemma AlertAfterClosing(msg: Message, sender: string, before: Desk, closed: Desk, alerts: Alerts, ended: Ended)
    requires Concluded(msg, sender, before, closed, ended) && ended.Finalised?
    ensures Concluded(msg, sender, before, closed.(alerts := alerts), ended)
  {
    hide Replied;
    if !ended.outcome.RejectedSilently? {
      var open :| Replied(msg, sender, before, open) && closed == Closed(open, msg, ended.outcome);
      OnlyAlerts(msg, sender, before, open, alerts);
      assert closed.(alerts := alerts) == Closed(open.(alerts := alerts), msg, ended.outcome);
    }
  }

  lemma NeverSkipped(msg: Message, sender: string, before: Desk, after: Desk, ended: Ended)
    requires Concluded(msg, sender, before, after, ended)
    ensures !ended.Skipped?
  {
  }

  lemma SameRows(msg: Message, sender: string, before: Desk, touched: Desk, after: Desk)
    requires JobsTouched(msg, sender, before, touched)
    requires after.jobs == touched.jobs && after.order == touched.order
    ensures JobsTouched(msg, sender, before, after)
  {
  }

  lemma AllStages(s: Surroundings, files: map<Path, Bytes>)
    requires Sensible(s, files)
    ensures forall stage :: Path(stage, s.storedName) !in files
  {
    forall stage ensures Path(stage, s.storedName) !in files {
      match stage
      case IncomingDir =>
      case ProcessingDir =>
      case CompletedDir =>
      case FailedDir =>
    }
  }
}
