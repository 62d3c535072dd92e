# A verified model of the group assessment agent

The agent reads a mailbox, turns messages into jobs, and answers by mail. Two threads share its
tables: the mail thread polls the mailbox, keeps a ledger of messages, creates, cancels and
re-queues jobs and delivers the outbox; the worker thread executes queued jobs against a backend
that may fail at any call. A weekly process shares the outbox. This project models these programs
in Dafny 4.11 and proves what they keep over all their runs. `dafny verify dfyconfig.toml` checks
every file.

## How it is organised

| file | what it holds |
|---|---|
| `JobStates`, `JobProtocol` | the status table, and the two threads as a machine: one step is one store, file or outside call; any call may raise, and a crash drops both program points and keeps the tables |
| `JobSafety`, `JobRuns`, `JobProgress`, `JobLife` | its invariant job by job, the theorems over all interleavings, what the programs achieve when left alone, and the lives of jobs from message to last mail |
| `StatusRaces` | the same two threads with `set_status` split into its SELECT and its UPDATE |
| `GroupMatching`, `JobIds`, `Text` | the two comparisons of group names; identifiers, printed and found in text |
| `JobStore`, `Outbox`, `OutboxRuns`, `ThreadMatcher`, `ReportMatcher` | the jobs table and the clarifications; delivery, message links, and the lookup of replies to jobs and to reports in them |
| `Ledger`, `Pipeline`, `Validator`, `Attachments` | deduplication and retry budget; the handling of one message and of one poll; the trust boundary; stored files |
| `Worker` | one pass of the worker and the two `execute` programs |
| `Refinement` | each execution of `Worker` as a run of `JobProtocol` |
| `VttParser`, `VttRoundTrip` | the transcript parser, and the round trip with a printer of the documented format |
| `Reports`, `AdminNotifier` | weekly reports; rate-limited alerts |

Programs that update tables in place are classes whose fields are the tables; each of their methods
is proved against what it leaves in them, and the theorems are proved of that. Interleavings are
machines, because a method cannot be interrupted between two statements. `Pipeline` and `Worker`
run one thread at a time over the same classes; `PollOnce` is shown to be a run of `Ledger`'s own
account of messages, so that the bounds proved there are bounds on the jobs table, and each execution
of a job to be a run of `JobProtocol`'s calls.

What the outside world answers is an argument over which every result quantifies: the backend, the
language model, the repositories, the mail provider, clocks, generated names, sender authorisation,
and the dates that a library can read. A mail is its recipient, job, kind and reply headers.

## Where the code falls short, and exactly when

- `set_status` is meant to be safe from either thread (app/jobs/models.py:21-23) but reads and then
  writes (app/jobs/store.py:136-157). In every run the table is broken for a job if and only if at some
  overlap of its start with its cancellation both threads go on to write before the process crashes,
  and the job is not waiting for its sender when the cancel is written. Without an overlap no job is
  both reported as cancelled and submitted; after a first one at which the cancel is written, a job is
  both if and only if the worker makes its submission, and from every quiet state a queued job has a
  run to that. The theorems of `JobRuns` take the call as atomic.
- A failing source is meant to cost a question only its part of the answer (app/handlers/assess_query.py:8-10).
  Among the systems' own errors that holds if and only if it is not the language model that fails, after
  the transcript search has found something: `OllamaUnavailable` is not a `DiarisationApiError`
  (app/handlers/assess_query.py:104-111), so the question is FAILED although the board has its answer.
- Path, file and status of a job stay together through every failure of the backend and every
  exception or crash, except one at a call that moves the file, records the move, or sets up the file
  of a new job; after such a one they are apart for good, since nothing takes the job up again.
- Job identifiers above 9999 a day are read back as those of another job; up to 9999 they are read
  back as they are.
- The answer to "which group?" settles the question except for a group with an empty name among
  several, because an empty hint counts as no hint.
- `mark_failed` puts a sent row back in the queue, since the link and the job are written inside the
  same `try` as the sending (app/pipeline.py:365-371): if and only if a call after the mark raises and
  fewer than four failures were recorded before. The mail is then sent again, but never without a
  recorded failure or a flush cut short to show for each extra call.
- Once the index has a mail's message but its job could not be told, `mark_sent` clashes with it on every
  later attempt (app/jobs/store.py:381-391 after app/pipeline.py:365-367): each of them sends the mail
  again, up to five times in all, and the row ends as given up.
- A weekly report is set to QUEUED before its mail is enqueued (app/reports/workflow.py:149-155), and a
  queued report is never taken up again: it is mailed exactly once, unless the process dies between the
  two or a delivery is recorded of a report that was never mailed, and then never.
- Deferring a message because the language model is away spends the same budget of attempts as a
  crash (app/pipeline.py:160-167 after app/pipeline.py:105). A message is given up, unanswered, if and
  only if three attempts were let through and none of them finished; three deferrals are enough.
- `_match_report` calls `.split()` on a tuple (app/pipeline.py:321), which raises. `ReportMatcher` is what
  is meant, the tokens of In-Reply-To and then of References; in `Pipeline` the lookup may also raise,
  as written, and then every message of a registered owner is interrupted with nothing done.
- A weekly insert fails when the lookback was changed so that a period starts where an earlier one did
  (the identifier leaves the end out), and ends that run; no report is mailed twice all the same.
- `create_meeting` counts as one call; the client's own retries of it (app/diarisation/client.py) are
  below this model.

## Model

| member | source | states |
|---|---|---|
| JobRuns.AtMostOneMeeting | app/handlers/submit_transcript.py:107-158 | over every interleaving of the two threads, with any call raising and any crashes, a job makes at most one `create_meeting` call, stays in PROCESSING, COMPLETED or FAILED from then on, makes none once its cancellation was confirmed, and uploads only the content that was accepted |
| JobRuns.StoredWhereTheStatusSays | app/handlers/submit_transcript.py:108-162 | when no thread is at a submission, its recorded path is where its file lies, with the checked content, in the one stage directory that fits its status, if and only if no exception or crash has hit one of the calls between which the three do not go together; every other exception, crash or backend failure leaves them in step |
| JobRuns.UploadsWereChecked | app/commands/validator.py:95-156 | end to end, through any rounds of clarification, interleavings and failures, every content uploaded for a job is that of an attachment of the message the job was made from, ending in .vtt and within the limit of size |
| JobRuns.TornKeepsStorage | app/handlers/submit_transcript.py:60-72 | a crash of both threads, or an exception of the mail thread, parts path and status for good at the listed calls and at no other |
| JobRuns.AtMostTwoRounds | app/handlers/submit_transcript.py:117-127 | while the list of groups does not change and none of several is nameless, no job enters PROCESSING more than twice, whatever the interleaving, answers, failures and crashes |
| JobRuns.StepKeepsInv | app/jobs/store.py:133-157 | one step of either thread, an exception or a crash keeps the invariant that all three results rest on, for every job |
| JobRuns.FixedAnswersSettle | app/pipeline.py:283-306 | with a fixed list of groups every accepted answer is a hint that the next match resolves |
| JobSafety.WorkerKeeps | app/handlers/submit_transcript.py:95-207 | any next call of the worker at a job keeps that job's invariant |
| JobSafety.WorkerRaiseKeeps | app/handlers/submit_transcript.py:172-176 | an exception at any call of the worker, whether or not the call took effect, keeps the job's invariant |
| JobSafety.RaiseKeepsStorage | app/handlers/submit_transcript.py:107-111 | an exception of the worker parts path and status for good at the listed calls and at no other |
| JobSafety.MailKeeps | app/handlers/submit_transcript.py:30-92 | any next call of the mail thread at a job keeps that job's invariant |
| JobSafety.WorkerSparesMail | app/jobs/worker.py:45-49 | what the mail thread relies on at a job survives a call of the worker at the same job |
| JobSafety.MailSparesWorker | app/handlers/cancel.py:24-32 | what the worker relies on at a job survives a call of the mail thread at the same job |
| JobProgress.QueuedJobCompletes | app/handlers/submit_transcript.py:107-170 | from every state, a queued job that the worker takes up is completed when its group is found: one meeting, one upload of the stored content, its file among the completed, nothing else touched |
| JobProgress.UnclearJobAsks | app/handlers/submit_transcript.py:117-127 | when its group is not found it waits for its sender, with the offered names put aside and its file kept |
| JobProgress.AnswerRequeues | app/pipeline.py:299-318 | an applied answer puts the waiting job back into the queue with the chosen name as its hint and the question deleted |
| JobProgress.RunIsPlay | app/handlers/submit_transcript.py:95-176 | consecutive worker calls of the whole machine, answered or raising, are the worker's program on its one job, the rest of the state unchanged |
| JobLife.TranscriptIsQueued | app/handlers/submit_transcript.py:50-92 | from every state with the mail thread idle, an admitted transcript that can be parsed ends QUEUED under its new identifier, its checked content among the incoming files, acknowledged once, and nothing else changed |
| JobLife.TranscriptIsRejected | app/handlers/submit_transcript.py:63-71 | one that cannot be parsed ends FAILED, path and file among the failed, its sender told once |
| JobLife.QuestionIsQueued | app/handlers/assess_query.py:47-65 | a question ends QUEUED and acknowledged |
| JobLife.JobIsCancelled | app/handlers/cancel.py:19-32 | a request to cancel a queued or waiting job leaves it CANCELLED, confirmed exactly once more |
| JobLife.OtherJobIsNotCancelled | app/handlers/cancel.py:34-40 | a request to cancel any other job leaves it as it is |
| JobLife.TranscriptCompletes | app/handlers/submit_transcript.py:30-170 | from every quiet state, the empty one included, the message of an admitted transcript whose group is found leads to COMPLETED: one start, one meeting, one upload of the checked content, an acknowledgement and a report, its file among the completed |
| JobLife.FirstTranscriptCompletes | app/handlers/submit_transcript.py:30-170 | so there is a run from the initial state to a completed job with a meeting |
| JobLife.QuestionEnds | app/handlers/assess_query.py:37-145 | a question whose group is found ends COMPLETED when a source answers and FAILED when none does, with one mail after its acknowledgement |
| JobLife.AnsweredTranscriptCompletes | app/pipeline.py:278-318 | a transcript whose group is not found is asked about, and an answer that selects exactly one offered name, not empty or the only one, completes it: two starts, one meeting, four mails |
| JobLife.OtherAnswerIsNotApplied | app/pipeline.py:283-297 | an answer that selects none or several changes no job |
| JobLife.ExceptionFailsTheJob | app/handlers/submit_transcript.py:172-207 | an exception at any call inside the guarded part, while the job is in progress or asks, leaves it FAILED with its file set aside and its sender told |
| JobLife.ExceptionLetsGo | app/handlers/submit_transcript.py:95-111 | one before the guarded part or inside the handler makes the worker let go with nothing more done |
| JobLife.CrashLeavesTheTables | app/main.py:166-197 | a crash loses the program points and the snapshot, and no table |
| JobLife.MailExceptionLetsGo | app/pipeline.py:92-98 | an exception of the mail thread loses what it was about, and no table |
| Refinement.ExecutionIsARun | app/jobs/worker.py:51-78 | executing a startable transcript or question, whatever the other systems answer or raise, is a run of the protocol: from a state that shows the tables before, the calls of the execution lead to one that shows the tables after, with the meetings created, the contents uploaded and the mails to the sender that the tables and the backend saw |
| Refinement.PlayExecution | app/handlers/submit_transcript.py:107-176 | the run, call by call: up to the call that raises and on through the failure, to the question, or to the completion |
| StatusRaces.NoRaceNoIllegalMove | app/jobs/store.py:133-157 | with the SELECT and the UPDATE of `set_status` as two steps: at a job where no cancel has overlapped a start, every change in every run is one of the ten moves that the programs make, each by its own thread, and COMPLETED, FAILED and CANCELLED are final |
| StatusRaces.NoRaceNoCancelledSubmission | app/handlers/cancel.py:24-32 | in every run, a job at which no cancel has overlapped a start is not both reported as cancelled and submitted |
| StatusRaces.TableBrokenExactly | app/jobs/store.py:136-157 | in every run, crashes included, some change of a job is outside the table if and only if at some overlap of a cancel with its start both pending writes are made before the process crashes, and the job is not waiting for its sender when the cancel writes |
| StatusRaces.MeanwhileIsHarmless | app/handlers/submit_transcript.py:117-127 | the way in which both write and nothing breaks: the job is started and its sender asked before the cancel is written |
| StatusRaces.CancelledJobIsSubmitted | app/handlers/cancel.py:24-32 | from every quiet state of every run with a queued job without an overlap, neither reported as cancelled nor submitted so far, a run does both |
| StatusRaces.CancelledAndSubmittedExactly | app/handlers/submit_transcript.py:129-134 | after a first overlap at which the cancel is written, the job has been both reported as cancelled and submitted if and only if the worker, at that job, makes its submission |
| StatusRaces.StepRespectsTable | app/jobs/models.py:21-37 | one step from a state of the invariant changes an unraced job only along the table |
| StatusRaces.RequestIsJudged | app/handlers/submit_transcript.py:58-83 | from every quiet state a new request ends QUEUED when accepted and FAILED when not |
| StatusRaces.QueuedIsWorkedOff | app/handlers/submit_transcript.py:107-158 | a queued job is started, submitted and brought to COMPLETED or FAILED, and the worker is idle again |
| StatusRaces.QueuedIsAskedAbout | app/handlers/submit_transcript.py:117-127 | a queued job may be asked about instead, and is then not submitted |
| StatusRaces.WaitingIsAnswered | app/pipeline.py:303-306 | an answer queues a waiting job again; a cancellation cancels a waiting or queued one and confirms it |
| StatusRaces.LateFailureIsRefused | app/jobs/store.py:142-143 | a failure recorded after the completion is refused at the lookup and writes nothing |
| StatusRaces.FirstJobIsCancelledAndSubmitted | app/handlers/cancel.py:24-32 | a run from the initial state reports the first job of all as cancelled and submits it |
| JobStates.TableExactly | app/jobs/models.py:24-37 | the thirteen moves of the table, and no other |
| GroupMatching.AcceptedAnswerResolves | app/diarisation/group_matching.py:28-41 | an answer accepted by the casefolded comparison makes the next `match_group` return exactly that group, if and only if the name is not empty or the group is the only one |
| GroupMatching.EmptyNameIsAskedAgain | app/diarisation/group_matching.py:31-41 | the case where it does not: a nameless group among two, accepted and asked about again |
| GroupMatching.MatchedExactly | app/diarisation/group_matching.py:28-41 | a given hint matches if and only if one group alone has that name, and then that group; no hint matches if and only if there is one group |
| GroupMatching.LowerRefinesNormalise | app/pipeline.py:283-284 | whenever the answer selects one option, the lookup by lower case finds that option's group and no other |
| GroupMatching.AcceptedExactly | app/pipeline.py:283-285 | an answer is accepted if and only if exactly one offered name has its words, and then for that name |
| GroupMatching.NormaliseTellsWords | app/pipeline.py:380-381 | two texts are normalised alike if and only if their casefolded texts have the same sequence of words |
| GroupMatching.UnmatchedExactly | app/diarisation/group_matching.py:28-41 | nothing is found if and only if there are no groups or none bears the hint; otherwise the candidates are at least two, of the groups, and bear the hint if there is one |
| Text.FirstWord | app/pipeline.py:381 | the words of a text are its maximal runs of characters other than white space, in order |
| Text.WordsInvertJoin | app/pipeline.py:381 | splitting joined words gives the words again |
| Text.StripRemovesSpaces | app/diarisation/group_matching.py:32-33 | strip removes exactly the white space around a text |
| Text.LineBreaksAreSpace | app/pipeline.py:385-387 | whatever ends a line is white space, and what is not does not |
| Text.LowerFoldsCase | app/jobs/store.py:184 | two texts are equal in lower case if and only if they differ in nothing but the case of letters |
| Worker.AnswerIsFinal | app/handlers/assess_query.py:87-97 | once an answer has been accepted, an execution that lists the same groups asks again if and only if the name is empty among several |
| JobStore.IdsHaveNoGaps | app/jobs/store.py:59-99 | whatever days jobs are created on, the identifiers of each day are exactly those numbered 1 to n |
| JobStore.NextIdIsFree | app/jobs/store.py:68-73 | with the day's identifiers numbered without gaps, the first one tried is not taken |
| JobStore.NextIdKeepsContiguous | app/jobs/store.py:68-91 | inserting it keeps the numbering of every day without gaps |
| JobStore.JobStore.CreateJob | app/jobs/store.py:46-101 | the row inserted is the request under the first free candidate of at most ten, every earlier candidate being taken; it fails exactly when all ten are, and never when the day has no gaps |
| JobStore.JobStore.SetStatus | app/jobs/store.py:133-159 | it succeeds exactly for an existing row and a move of the table or to the same state, writes the status alone, and otherwise changes nothing |
| JobStore.JobStore.Update | app/jobs/store.py:119-131 | the row gets the field and nothing else changes; without a row nothing changes |
| JobStore.JobStore.ListQueued | app/jobs/store.py:192-201 | all queued rows, each once, as they are in the table and in the order of creation |
| JobStore.QueuedJobsListsAll | app/jobs/store.py:192-201 | every queued row is listed, everything listed is a queued row, and none twice |
| JobStore.QueuedInOrder | app/jobs/store.py:192-201 | the list is in the order of creation |
| JobIds.ScanReadsFormattedId | app/mail/thread_matcher.py:16 | an identifier anywhere in a text is read back; it is the identifier itself if and only if the number is at most 9999, and otherwise that of its leading four digits |
| JobIds.FindAllFindsEveryOccurrence | app/mail/thread_matcher.py:32-34 | the leftmost non-overlapping scan finds every place where an identifier stands |
| JobIds.FoundExactly | app/mail/thread_matcher.py:16-34 | an identifier is found if and only if it stands somewhere in the text |
| JobIds.IdsLookLikeThis | app/mail/thread_matcher.py:16 | DIAR, four digits, four digits, four digits, with hyphens between them |
| JobIds.FiveDigitIdIsMisread | app/jobs/store.py:73 | an identifier numbered above 9999 is read as that of a tenth of its number |
| JobIds.FormatIsInjective | app/jobs/store.py:73 | two numbers of a day never have the same identifier |
| Text.ReadDecimalInvertsPad4 | app/jobs/store.py:73 | the zero-padded numeral is read back as its number |
| Validator.CheckedIsSaved | app/commands/validator.py:95-156 | the attachment whose name and size were checked is the very list element that `accept` saves, also with repeated file names, so that its two asserts hold |
| Validator.AcceptedWhenChecked | app/commands/validator.py:131-156 | a submission is accepted if and only if it resolves to a .vtt attachment within the limit |
| Validator.ResolvesTo | app/commands/validator.py:106-129 | it resolves to an attachment if and only if that is the first of the given name or, when none has it, the only .vtt |
| Validator.ValidatedIsReal | app/commands/validator.py:72-198 | only attachments of the message and jobs of the sender come out of the validator |
| Validator.ValidatedExactly | app/commands/validator.py:72-198 | a command that asks to be clarified is; status, results and cancel are for the job they name, or without a name that of the thread, if it is the sender's; a question needs one of its three subjects; help is always given |
| Validator.RefusedExactly | app/commands/validator.py:95-149 | a submission is asked about, or refused for good, each in exactly the stated cases |
| Validator.VttNames | app/commands/validator.py:102-137 | the names taken for transcripts are those whose last four characters are .vtt in any case |
| Validator.AudioNames | app/commands/validator.py:25 | the names taken for audio end in one of the seven extensions, in any case |
| Attachments.FileStore.MoveTo | app/storage/attachments.py:23-31 | the file is in the new directory under its name, with its content, and no longer in the old one; a missing file raises and changes nothing |
| Attachments.MoveKeepsContent | app/storage/attachments.py:23-31 | a move keeps the file's content and every file of another name |
| Ledger.JobsPerMessage | app/jobs/store.py:233-281 | for each Message-ID over all runs and crashes, under whatever provider references: jobs created <= attempts <= 3; no more than the attempts cut short after creating a job, and one more if it was finalised; so at most one without such an attempt, however often it was deferred |
| Ledger.ThreeJobsArePossible | app/jobs/store.py:255-261 | the bound of three is attained by three attempts cut short after creating a job |
| Ledger.GivenUpExactly | app/pipeline.py:105-111 | a message marked as read has been finalised, or was given up: the latter if and only if three attempts were let through and none of them finished, a deferral counting like any other |
| Ledger.ThreeDeferralsGiveUp | app/pipeline.py:160-167 | a message deferred at three polls is marked as read at the fourth, unanswered |
| Ledger.FinalisedOnce | app/jobs/store.py:255-281 | once finalised, a message's row and its number of jobs never change again |
| Ledger.AllWaitingSettle | app/pipeline.py:90-111 | N waiting messages, fetched oldest first and at most L at a time, are all settled after 4 * ceil(N / L) polls, whatever handlers raise or defer |
| Ledger.WaitingMessagesSettle | app/pipeline.py:90-111 | every four polls settle the next L messages, whatever arrives behind them |
| Ledger.PollsSpend | app/jobs/store.py:255-261 | a message among the oldest L loses attempt budget at each poll or is settled |
| Ledger.HistoryGrows | app/pipeline.py:90-99 | handling one batch after another is handling them together, so the bounds hold across polls |
| Ledger.ProcessedMessageStore.Begin | app/jobs/store.py:233-263 | lets through exactly new messages and those in progress with fewer than three attempts, and counts the attempt |
| Ledger.ProcessedMessageStore.Finalize | app/jobs/store.py:265-281 | writes the outcome of an existing row and nothing else |
| OutboxRuns.BoundedSending | app/pipeline.py:348-372 | over any runs of both flushes, a row causes no more `send_email` calls than failures recorded on it, plus one if it is sent, plus one for each flush cut short, hence at most five plus those; and at most one link |
| OutboxRuns.PutBackExactly | app/pipeline.py:365-371 | one attempt marks a pending row as sent and puts it back if and only if a call after the mark raises, the link clashing or not written or the last response not recorded, and fewer than four failures were recorded before |
| OutboxRuns.SentTwice | app/jobs/store.py:375-411 | a run without any crash that sends one mail twice |
| OutboxRuns.LinkedRowIsSentInVain | app/jobs/store.py:381-391 | a pending row whose message is already in the index is sent by every further attempt, and is never left as sent |
| OutboxRuns.SentFiveTimes | app/jobs/store.py:395-411 | so there is a run without any crash in which one mail is sent five times and ends as given up |
| OutboxRuns.CrashSendsAgain | app/pipeline.py:350-365 | a flush that dies after the sending leaves the mail pending with no failure recorded, and the next one sends it again |
| OutboxRuns.HealthyFlushSends | app/pipeline.py:348-368 | when no call fails, each pending row is sent by one call and linked once, and nothing else is touched |
| OutboxRuns.HealthyReportsAreSent | app/weekly_update.py:92-110 | when no call fails, the weekly program does so for the pending report rows, and for no others |
| OutboxRuns.FiveFlushesSettle | app/jobs/store.py:395-411 | from any state of any run, five flushes without new mail leave nothing pending, whatever fails |
| OutboxRuns.StepKeepsInv | app/weekly_update.py:92-113 | a flush of all rows, one of the report rows by the weekly program, either of them cut short, new mail and any other work keep the invariant of rows, links and last responses |
| OutboxRuns.OtherWorkHappens | app/jobs/store.py:119-131 | the runs contain every change of the jobs that leaves their last responses alone |
| Outbox.FlushOutbox | app/pipeline.py:348-372 | every row pending at the start is attempted once, in order, and rows, links, jobs and calls end as the attempts one after the other leave them; the number returned is that of the rows newly sent |
| Outbox.DeliverRow | app/pipeline.py:350-371 | one attempt: sent, linked and told to its job if no call raises; otherwise the failure is counted, the fifth giving up, also over a status already written, and what was done before it stays |
| Outbox.Outbox.MarkSent | app/jobs/store.py:375-393 | the status is written first; the link is added unless it clashes, and then the call fails with the status written |
| Outbox.Outbox.MarkFailed | app/jobs/store.py:395-411 | the attempt is counted, and the row is pending again until the fifth |
| Outbox.PendingIds | app/jobs/store.py:365-373 | exactly the pending rows, oldest first |
| ThreadMatcher.FallbackIsNeverNeeded | app/mail/thread_matcher.py:24-30 | in every store that delivery leads to, looking up the last response never changes the outcome of matching |
| ThreadMatcher.ReplyFindsItsJob | app/mail/thread_matcher.py:24-30 | a reply to a recorded response about one of its sender's jobs is matched with exactly that job |
| ThreadMatcher.MentionedExactly | app/mail/thread_matcher.py:32-38 | a message none of whose references is known is matched with a job if and only if the job's identifier stands in its subject or body, no other does, and the job is the sender's |
| ThreadMatcher.ReferencesFindTheJob | app/mail/thread_matcher.py:24-30 | the first known identifier of In-Reply-To and References together decides, wherever it stands |
| ThreadMatcher.BareReferenceFindsTheJob | app/mail/thread_matcher.py:48-49 | an identifier without brackets, in either header alone, finds its job as well |
| ThreadMatcher.FirstKnownDecides | app/mail/thread_matcher.py:25-30 | references that are not known are passed over, and one that is known is not |
| ThreadMatcher.OnlyOwnJobsMatch | app/mail/thread_matcher.py:24-40 | whatever a message refers to or mentions, it is matched with no job but its own sender's |
| ThreadMatcher.ByLastResponseIsLinked | app/jobs/store.py:161-190 | a job found by its last response is also found by the links |
| ThreadMatcher.FirstTokenIsRead | app/mail/thread_matcher.py:43-49 | a bracketed identifier at the start of the headers is the first one read |
| ReportMatcher.ReplyFindsItsReport | app/pipeline.py:320-324 | in every store that delivery leads to, a reply to a delivered mail about a report of its sender is matched with exactly that report |
| ReportMatcher.ReferencesFindTheReport | app/pipeline.py:321-324 | the first reference of the two headers that stands for a mail about a report of the sender's decides |
| ReportMatcher.MentionedReportExactly | app/pipeline.py:325-331 | without one, it is the first of the sender's reports mentioned in the subject or, after that, the body, and none if none is mentioned |
| ReportMatcher.ReportIdsLookLikeThis | app/pipeline.py:49 | WEEKLY, a date and a number, with hyphens between them |
| ReportMatcher.OnlyOwnReportsMatch | app/pipeline.py:320-331 | whatever a message refers to or mentions, it is taken for a reply to a report of its own sender only |
| VttRoundTrip.ParseInvertsPrint | app/vtt/parser.py:45-101 | printing any non-empty list of cues in the documented format and parsing it gives no warning, the number of cues, and the speakers once each in order of appearance |
| VttRoundTrip.DatedTranscript | app/vtt/parser.py:104-125 | a printed `NOTE meeting-date: v`, its words in any case, gives the transcript the date that v is read as, or one warning when it cannot be read, and changes nothing else |
| VttRoundTrip.NoteBelowIsRead | app/vtt/parser.py:108-111 | the text of a NOTE may also stand on the next line |
| VttRoundTrip.CueBlockKind | app/vtt/parser.py:79-101 | a block with a timing, numbered or not, is skipped without text, labelled if a colon ends its first 1 to 100 characters, and counted without a label otherwise |
| VttRoundTrip.OtherBlockIsSkipped | app/vtt/parser.py:83-85 | any other block is skipped with a warning of its first 80 characters |
| VttRoundTrip.NoTranscript | app/vtt/parser.py:48-71 | the two failures, exactly: no header, and no cue |
| VttRoundTrip.HeaderIsAWord | app/vtt/parser.py:24 | the header is a word of its own |
| VttParser.BlankLinesAreDropped | app/vtt/parser.py:58 | the lines of a block are those that are not white space alone, in order |
| VttParser.SeparatorIsRead | app/vtt/parser.py:29 | a line end and more of them, with or without carriage returns, separate two blocks |
| VttParser.SeparatorHasThatForm | app/vtt/parser.py:29 | and nothing else does |
| VttParser.LineEnds | app/vtt/parser.py:58 | a line ends at any character that ends lines, a carriage return and a newline being one end |
| VttParser.ParseVtt | app/vtt/parser.py:45-73 | the loop over the blocks computes the function that the other results are about, and fails exactly when it does |
| VttParser.Transcript.HandleCueBlock | app/vtt/parser.py:76-101 | one block that is not a NOTE updates count, warnings and speakers as its kind says |
| VttParser.Transcript.HandleNoteBlock | app/vtt/parser.py:104-125 | one NOTE block sets the date if none is set and it can be read, and warns if it cannot |
| VttParser.SpeakersAndDate | app/vtt/parser.py:57-68 | the speakers are the labels without repetition in order of appearance, and the date is that of the first readable NOTE |
| VttParser.Projection | app/vtt/parser.py:57-68 | speakers depend on the cue blocks alone and the date on the NOTE blocks alone, however they interleave |
| VttParser.Accounting | app/vtt/parser.py:57-125 | non-blank blocks = notes + counted cues + skipped blocks; warnings = skipped blocks + unlabelled cues + unreadable dates tried before one was set |
| VttParser.FirstSeenHasSameNames | app/vtt/parser.py:100-101 | no speaker is lost or invented |
| VttParser.FirstSeenHasNoRepeats | app/vtt/parser.py:100-101 | no speaker is listed twice |
| VttParser.FirstSeenInOrder | app/vtt/parser.py:100-101 | speakers are listed in the order in which they first occur |
| Worker.JobWorker.RunOnce | app/jobs/worker.py:45-49 | one pass with the mail thread idle and the files in place: every queued job ends with its final row, question, file and one mail, the administrator is told of each failure, rows of other jobs stay, and this for every choice of answers and errors |
| Worker.EachJobIsSettled | app/jobs/worker.py:45-78 | each job of the pass has the status of its verdict, one mail about it of the kind that goes with it, to its sender and in its thread; the question put aside if it waits, the submission recorded if it is completed, its transcript's content in the directory of its status, and the rest of its row as it was |
| Worker.VerdictExactly | app/handlers/assess_query.py:83-151 | the status that an execution ends with, from the answers of the other systems alone: failed without groups, asked about without a match, and completed in exactly the stated cases |
| Worker.DegradesExactly | app/handlers/assess_query.py:8-10 | when every failing call raises its own system's error and a source answers, a matched question is completed if and only if it is not the language model that fails, after the search has found something |
| Worker.LanguageModelErrorFailsTheQuestion | app/handlers/assess_query.py:104-111 | the failing input: the board has its answer, the language model raises its own error, and the question is FAILED |
| Worker.JobWorker.ProcessJob | app/jobs/worker.py:51-78 | whatever an execution raises is swallowed, no other job's row changes, and a snapshot that is out of date changes nothing and reaches no backend |
| Worker.JobWorker.ExecuteTranscript | app/handlers/submit_transcript.py:95-176 | a startable job is executed without an exception: one final row, one mail, one place for its file; the backend is called for the meeting exactly when the date is known, for the upload of the stored bytes exactly when the meeting was answered too, and for each resolved speaker |
| Worker.JobWorker.Start | app/handlers/submit_transcript.py:107-111 | the status first, then the file, then the refreshed row; it raises exactly when the move is not allowed or the file is missing |
| Worker.JobWorker.Submit | app/handlers/submit_transcript.py:113-170 | it raises exactly when the job is to fail, and then before any table has changed; otherwise the tables are those of the question or of the completion |
| Worker.JobWorker.Upload | app/handlers/submit_transcript.py:129-147 | it succeeds exactly when no call raises; the calls are one meeting, one upload of the stored content, then attendees |
| Worker.JobWorker.AddAttendees | app/handlers/submit_transcript.py:142-147 | each resolved speaker is added once in order, each other one is listed as unresolved |
| Worker.JobWorker.HandleSubmitFailure | app/handlers/submit_transcript.py:179-207 | FAILED, the file set aside, one notice to the sender, one alert if one is due |
| Worker.JobWorker.ExecuteQuestion | app/handlers/assess_query.py:68-151 | a startable question is executed without an exception: one final row and one mail, no file touched |
| Worker.JobWorker.AnswerQuestion | app/handlers/assess_query.py:83-145 | asked about, failed for want of a source, or answered; it raises only when the job is to fail, also for the language model's own error, before any table has changed |
| Worker.AskSources | app/handlers/assess_query.py:100-124 | each source asked for either gives its answer or leaves its own note; it raises exactly for an error that is not the source's own, and for any error of the language model |
| Worker.TranscriptExecuted | app/handlers/submit_transcript.py:107-176 | starting, submitting and failing, one after the other on the tables, is what one execution of a job is defined to do |
| Pipeline.EmailPipeline.ProcessMessage | app/pipeline.py:101-233 | a message refused by the ledger is only marked as read. One let through is counted, and then turned away, answered about its report, continued as an answer to a question, or interpreted, each in exactly its case and with exactly that effect on jobs, mails, alerts, questions and ledger; an attempt ends unfinished only where a call was cut short, raised, or found no free identifier. If it is closed, one reply to its sender has been enqueued, and none if and only if the sender is rejected silently |
| Pipeline.EmailPipeline.PollOnce | app/pipeline.py:90-99 | whatever cuts the attempts short, the ledger, the marks and the number of jobs of every Message-ID after a poll are those of the ledger's own account of the batch |
| Pipeline.JobsOfAMessage | app/pipeline.py:101-111 | in the jobs table itself a Message-ID has no more jobs than attempts, at most three; no more than its attempts cut short after creating one, and one more if finalised; at most one if there was no such attempt |
| Pipeline.MirrorsHandle | app/pipeline.py:101-233 | what the pipeline does with a message is one step of the ledger's account |
| Pipeline.EmailPipeline.ContinueClarification | app/pipeline.py:278-318 | passed on unchanged exactly when there is no question, or the first unquoted line has the words of exactly one offered name but the job is not the sender's or not waiting; asked again exactly when no one name is chosen; otherwise the chosen name is the hint, the job QUEUED, the question gone |
| Pipeline.EmailPipeline.ApplyAnswer | app/pipeline.py:303-318 | hint, reply header, QUEUED, question deleted, one reply, message closed |
| Pipeline.EmailPipeline.AcceptTranscript | app/handlers/submit_transcript.py:30-92 | one new job, field by field, QUEUED with its speakers and the date of its NOTE, of the mail's text or of the mail, or FAILED; under its path the bytes of the attachment that was checked; one acknowledgement or failure notice; cut short at any call, at most one row and no reply |
| Pipeline.EmailPipeline.AcceptQuestion | app/handlers/assess_query.py:37-65 | one new queued job with the three questions, and one acknowledgement; cut short at any call, at most one row and no reply |
| Pipeline.EmailPipeline.CancelJob | app/handlers/cancel.py:15-40 | a job of the sender that is queued or waiting becomes CANCELLED and is confirmed; any other is left and its sender told so |
| Pipeline.EmailPipeline.Report | app/handlers/status.py:9-27 | one mail about the sender's own job, and no job changes; a job that is not the sender's is asked about |
| Pipeline.EmailPipeline.Dispatch | app/pipeline.py:235-276 | each verb does its own: a submission and a question make their job, status, results and help send one mail of their kind and touch no job, cancel cancels or says that it cannot; refused only when the job is not the sender's, and cut short only where a call was or no identifier is free |
| Pipeline.EmailPipeline.ExecuteCommand | app/pipeline.py:188-233 | a command that the validator refuses is answered with a failure or a question, and any other is carried out by its verb and closed |
| Pipeline.EmailPipeline.TurnAway | app/pipeline.py:113-139 | a sender of our domain is answered once, any other not at all; both are reported to the administrator and closed |
| Pipeline.EmailPipeline.ProcessAuthorised | app/pipeline.py:141-233 | a reply to a report, then an answer to a question of the thread's job, then a command, each exactly when it is one and what comes before it is not |
| Pipeline.EmailPipeline.Interpret | app/pipeline.py:160-233 | while the model is away the message is left and the administrator told; what cannot be understood is answered with a question, closed and reported; a command is executed |
| Pipeline.FirstLineDecides | app/pipeline.py:384-389 | the first line, up to any of the characters that end lines or to the end of the body, is the answer if it is neither blank nor quoted; otherwise what follows decides |
| Pipeline.ReplyReferencesExactly | app/pipeline.py:375-377 | the references, the message replied to and the message itself, those that are there, each once, in this order |
| Pipeline.JobsCounted | app/handlers/submit_transcript.py:50-57 | a message adds at most one job, and that to its own Message-ID's count |
| Reports.AtMostOneMailPerReport | app/reports/workflow.py:74-88 | over any number of runs, owners, failures, crashes and changes of the lookback, at most one mail is enqueued for each group and period, and a mailed report is never opened again |
| Reports.MailedExactly | app/reports/workflow.py:149-155 | in every run a report that is COMPLETED, QUEUED or SENT has been mailed exactly once if and only if no step has lost its mail: a crash between status and mail, or a delivery recorded of a report never mailed; one that has not got so far has not been mailed |
| Reports.FixedLookbackNeverClashes | app/reports/store.py:21-44 | while every run has had one lookback, no insert is refused: `create_or_get` makes or finds the row of its group and period |
| Reports.ChangedLookbackClashes | app/reports/store.py:30-38 | after a change an insert may be refused: one day later with one day more reaches back to the same start |
| Reports.RunOnce | app/weekly_update.py:69-83 | one weekly run: each report whose turn came and that was open ends QUEUED with one mail if its graph went well and FAILED without one if not, closed ones and those of owners whose groups cannot be listed are left alone; it stops at the first insert that is refused, and with a lookback that never changed none is |
| Reports.WeeklyReportWorkflow.Run | app/reports/workflow.py:74-88 | an unknown report raises, one that is completed, queued or sent is left alone; any other ends QUEUED with one mail and its evidence stored, or FAILED without a mail |
| Reports.WeeklyReportWorkflow.Invoke | app/reports/workflow.py:90-156 | the status after the node that raised, and the mail exactly if none did and the evidence is distinct |
| Reports.StepKeepsSound | app/reports/workflow.py:74-156 | one run with any lookback, a crash in it or a delivery keeps every report mailed at most once and closed once mailed |
| Reports.PeriodsTile | app/weekly_update.py:25-30 | with runs lookback days apart, every day lies in the period of exactly one run |
| Reports.EachChunkInOneReport | app/reports/sources.py:65-71 | a dated chunk that every run's search finds is evidence of exactly one report |
| Reports.CollectMeetings | app/reports/sources.py:53-83 | the evidence is that of the dated chunks within the half-open period, in order; a failed search leaves none and is reported |
| Reports.PassesFilter | app/reports/sources.py:65-71 | something is evidence if and only if it comes from a found chunk dated within the period |
| Reports.EvidenceInOrder | app/reports/sources.py:65-83 | evidence is in the order of the chunks |
| Reports.SnapshotIsStablySorted | app/reports/store.py:116-132 | the snapshot read back is the collected evidence, sorted by source and otherwise in the order of collection |
| Reports.ReportStore.CreateOrGet | app/reports/store.py:21-44 | an existing row of the group and period is kept, whoever asks; the insert fails exactly when the same start has another end |
| Reports.ReportStore.SetStatus | app/reports/store.py:83-96 | the status of an existing row is written and nothing else |
| Reports.ReportStore.ReplaceEvidence | app/reports/store.py:98-114 | the old snapshot is replaced by the new one if and only if no (source, id) pair repeats; otherwise the rows before the repetition are left |
| Reports.ReportStore.ReadEvidence | app/reports/store.py:116-132 | everything stored is read back, once each, in the order of the sources and within a source in the order it was stored |
| AdminNotifier.AlertsAreLimited | app/admin/notifier.py:43-88 | in any window of length T on a clock that never goes back, the n mails of a category satisfy (n - 1) * cooldown <= T, that is n <= floor(T / cooldown) + 1 |
| AdminNotifier.CategoriesAreIndependent | app/admin/notifier.py:65-76 | what a category sends, and when, does not depend on the calls of the others |
| AdminNotifier.MailsAreSpaced | app/admin/notifier.py:65-88 | two mails of a category are at least a cooldown apart |
| AdminNotifier.SentExactly | app/admin/notifier.py:65-76 | over every run in order, an alert is mailed if and only if each earlier mail of its category was written down at least a cooldown before; so the first always is |
| AdminNotifier.AdminNotifier.Alert | app/admin/notifier.py:43-88 | a mail is enqueued and the time recorded exactly when there is an administrator and the category's cooldown is over |

## Left out

- Mail providers, HTTP clients and their retries, prompts, templates and settings: plumbing, or free text.
- Sender authorisation and the command schema: single decisions, taken as arguments.
- The wording of mails and questions, attachments of result mails, and `unavailable_notes` beyond which notes there are.
- SQLite, the file system and JSON: tables and directories are maps with the uniqueness constraints of app/storage/db.py; store, file and parser calls cut an attempt short in `JobProtocol`, `OutboxRuns` and `Pipeline`; `Worker` and `StatusRaces` let them succeed, and `mark_processed` always succeeds.
- Unicode: white space and line breaks are those of Python, digits and letter case are ASCII, except in `GroupMatching`, where the two foldings are any pair such that equal lower case implies equal casefold.
- Dates are day or microsecond numbers, and a report's identifier is the pair it is printed from.
- The reset of a job left in PROCESSING by a crash: the repository has none.
- Pipeline.EmailPipeline.Report: the text of status and results mails and the file attached to the latter are not modelled.
- Pipeline.EmailPipeline.ProcessMessage: the worker thread does not run while a message is processed; `JobProtocol` has the interleavings.
- Worker.JobWorker.RunOnce: what is promised of a pass needs each queued transcript's file to be on the disk under a name of its own, which `JobRuns.StoredWhereTheStatusSays` gives for undisturbed jobs.
- Reports.RunOnce: the delivery of report mails is a step of the machine in `Reports`, not a loop; its sending and retrying are `OutboxRuns`'s flush of report rows.
- OutboxRuns.BoundedSending: the flushes of the two processes do not overlap; two that read the same pending report row before either marks it both send it. A `mark_failed` that itself raises ends a flush like a crash, and counts as one cut short.
- JobStore.JobStore.SetStatus: the times of start and completion and the error text that are written with the status.
- Reports.ReportStore.SetStatus: the report's text, its error text and its time of completion.
