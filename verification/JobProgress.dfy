/** What the two programs achieve when nothing interferes: each interaction, run to its end. */
module JobProgress {
  import opened Wrappers
  import opened JobStates
  import opened GroupMatching
  import opened Attachments
  import opened JobProtocol
  import Outbox

  // ---- one thread at one job ------------------------------------------------------------

  datatype WorkerView = WorkerView(job: Job, at: Option<Hold>)

  predicate ByWorker(e: Event) {
    e.WorkerCall? || e.WorkerRaises?
  }

  /** The thread's next call, answered or raising. */
  function Next(c: Casing, v: WorkerView, e: Event): WorkerView
    requires ByWorker(e)
  {
    if v.at.None? then v
    else
      var m := match e
               case WorkerCall(a) => WorkerStep(v.job, v.at.value, Read(c, v.at.value.row.groupHint, a))
               case WorkerRaises(called) => WorkerRaise(v.job, v.at.value, called);
      WorkerView(m.job, m.next)
  }

  predicate AllByWorker(events: seq<Event>) {
    forall i :: 0 <= i < |events| ==> ByWorker(events[i])
  }

  function Play(c: Casing, v: WorkerView, events: seq<Event>): WorkerView
    requires AllByWorker(events)
    decreases |events|
  {
    if events == [] then v else Play(c, Next(c, v, events[0]), events[1..])
  }

  function NextCall(c: Casing, v: WorkerView, a: Answer): WorkerView {
    Next(c, v, WorkerCall(a))
  }

  /** n calls, each answered alike as far as the answer is looked at. */
  function Work(c: Casing, v: WorkerView, a: Answer, n: nat): WorkerView {
    Play(c, v, Calls(WorkerCall(a), n))
  }

  function Calls(e: Event, n: nat): (events: seq<Event>)
    ensures |events| == n && forall i :: 0 <= i < n ==> events[i] == e
  {
    if n == 0 then [] else [e] + Calls(e, n - 1)
  }

  lemma RunCalls(c: Casing, s: State, e: Event, n: nat)
    requires n > 0
    ensures Run(c, s, Calls(e, n)) == Run(c, Step(c, s, e), Calls(e, n - 1))
  {
    hide Step;
    assert Calls(e, n)[1..] == Calls(e, n - 1);
  }

  /** Once the thread has let go of its job, its further calls are no calls. */
  lemma {:induction false} IdleWorker(c: Casing, s: State, events: seq<Event>)
    requires s.worker.Nobody? && AllByWorker(events)
    ensures Run(c, s, events) == s
    decreases |events|
  {
    if events != [] {
      IdleWorker(c, s, events[1..]);
    }
  }

  lemma {:induction false} IdleMail(c: Casing, s: State, parses: bool, n: nat)
    requires s.mail.Nobody?
    ensures Run(c, s, Calls(MailCall(parses), n)) == s
  {
    if n > 0 {
      RunCalls(c, s, MailCall(parses), n);
      IdleMail(c, s, parses, n - 1);
    }
  }

  lemma {:induction false} Stopped(c: Casing, v: WorkerView, events: seq<Event>)
    requires v.at.None? && AllByWorker(events)
    ensures Play(c, v, events) == v
    decreases |events|
  {
    if events != [] {
      Stopped(c, v, events[1..]);
    }
  }

  /** A run of worker calls is the worker's program on its job; the rest of the state stays. */
  lemma {:induction false} RunIsPlay(c: Casing, s: State, id: JobId, h: Hold, events: seq<Event>)
    requires id in s.jobs && s.worker == At(id, h) && AllByWorker(events)
    ensures var v := Play(c, WorkerView(s.jobs[id], Some(h)), events);
            Run(c, s, events) == s.(jobs := s.jobs[id := v.job], worker := Apply(id, v.at))
    decreases |events|
  {
    hide WorkerStep, WorkerRaise, Read;
    if events == [] {
      assert s.jobs[id := s.jobs[id]] == s.jobs;
    } else {
      var next := Next(c, WorkerView(s.jobs[id], Some(h)), events[0]);
      var after := Step(c, s, events[0]);
      assert after == s.(jobs := s.jobs[id := next.job], worker := Apply(id, next.at));
      var v := Play(c, next, events[1..]);
      assert s.jobs[id := next.job][id := v.job] == s.jobs[id := v.job];
      if next.at.Some? {
        RunIsPlay(c, after, id, next.at.value, events[1..]);
      } else {
        IdleWorker(c, after, events[1..]);
        Stopped(c, next, events[1..]);
      }
    }
  }

  lemma {:induction false} PlayGoesOn(c: Casing, v: WorkerView, first: seq<Event>, second: seq<Event>)
    requires AllByWorker(first) && AllByWorker(second)
    ensures AllByWorker(first + second)
    ensures Play(c, v, first + second) == Play(c, Play(c, v, first), second)
    decreases |first|
  {
    hide Next;
    if first == [] {
      assert first + second == second;
    } else {
      assert (first + second)[1..] == first[1..] + second;
      PlayGoesOn(c, Next(c, v, first[0]), first[1..], second);
    }
  }

  lemma NoCalls(c: Casing, s: State, e: Event)
    ensures Run(c, s, Calls(e, 0)) == s
  {
  }

  lemma WorkGoesOn(c: Casing, v: WorkerView, a: Answer, m: nat, n: nat)
    ensures Work(c, Work(c, v, a, m), a, n) == Work(c, v, a, m + n)
  {
    hide Play;
    var e := WorkerCall(a);
    assert Calls(e, m + n) == Calls(e, m) + Calls(e, n);
    PlayGoesOn(c, v, Calls(e, m), Calls(e, n));
  }

  lemma LastCall(c: Casing, v: WorkerView, a: Answer, n: nat)
    ensures Work(c, v, a, n + 1) == NextCall(c, Work(c, v, a, n), a)
  {
    hide Next;
    WorkGoesOn(c, v, a, n, 1);
    var u, e := Work(c, v, a, n), WorkerCall(a);
    assert Calls(e, 1)[1..] == [];
    assert Play(c, u, Calls(e, 1)) == Play(c, Next(c, u, e), []);
  }

  lemma FiveCalls(c: Casing, v: WorkerView, a: Answer)
    ensures var v1 := NextCall(c, v, a); var v2 := NextCall(c, v1, a); var v3 := NextCall(c, v2, a);
            var v4 := NextCall(c, v3, a);
            && Work(c, v, a, 1) == v1 && Work(c, v, a, 2) == v2 && Work(c, v, a, 3) == v3
            && Work(c, v, a, 4) == v4 && Work(c, v, a, 5) == NextCall(c, v4, a)
  {
    hide NextCall, Work;
    NoWork(c, v, a);
    LastCall(c, v, a, 0);
    LastCall(c, v, a, 1);
    LastCall(c, v, a, 2);
    LastCall(c, v, a, 3);
    LastCall(c, v, a, 4);
  }

  lemma NoWork(c: Casing, v: WorkerView, a: Answer)
    ensures Work(c, v, a, 0) == v
  {
  }

  // ---- the worker's program, run to its end ---------------------------------------------

  predicate Ready(job: Job, stage: Stage, content: Bytes) {
    && job.operation.SubmitTranscript? && job.status.Queued?
    && job.path == Some(stage) && job.file == Some(StoredFile(stage, content))
  }

  function Started(job: Job, content: Bytes): Job {
    job.(status := Processing, starts := job.starts + 1, path := Some(ProcessingDir),
         file := Some(StoredFile(ProcessingDir, content)))
  }

  function Submitted(job: Job, content: Bytes): Job {
    Started(job, content).(status := Completed, meetings := job.meetings + 1, uploads := job.uploads + [content],
                           path := Some(CompletedDir), file := Some(StoredFile(CompletedDir, content)),
                           notices := job.notices + [Outbox.Completion])
  }

  lemma StartsWork(c: Casing, job: Job, stage: Stage, content: Bytes, a: Answer)
    requires job.operation.SubmitTranscript? && MayMove(job.status, Processing)
    requires job.path == Some(stage) && job.file == Some(StoredFile(stage, content))
    ensures var started := Started(job, content);
            Work(c, WorkerView(job, Some(Hold(RowOf(job), Start))), a, 4)
            == WorkerView(started, Some(Hold(RowOf(started), AskBackend)))
  {
    hide Read, Work;
    var v := WorkerView(job, Some(Hold(RowOf(job), Start)));
    FiveCalls(c, v, a);
    var v1 := NextCall(c, v, a);
    var v2 := NextCall(c, v1, a);
    assert v2.at == Some(Hold(RowOf(job), RecordMove));
    var v3 := NextCall(c, v2, a);
    assert v3 == WorkerView(Started(job, content), Some(Hold(RowOf(job), Refresh)));
  }

  lemma MeetingCalls(c: Casing, job: Job, content: Bytes, a: Answer)
    requires job.operation.SubmitTranscript? && Read(c, job.groupHint, a).GroupFound?
    requires job.path == Some(ProcessingDir) && job.file == Some(StoredFile(ProcessingDir, content))
    ensures var v := WorkerView(job, Some(Hold(RowOf(job), AskBackend)));
            NextCall(c, NextCall(c, NextCall(c, v, a), a), a)
            == WorkerView(job.(meetings := job.meetings + 1), Some(Hold(RowOf(job), Upload(content))))
  {
    hide Read;
    var v := WorkerView(job, Some(Hold(RowOf(job), AskBackend)));
    var v1 := NextCall(c, v, a);
    assert v1 == WorkerView(job, Some(Hold(RowOf(job), CreateMeeting)));
    var v2 := NextCall(c, v1, a);
    assert v2 == WorkerView(job.(meetings := job.meetings + 1), Some(Hold(RowOf(job), ReadFile)));
  }

  lemma UploadCalls(c: Casing, job: Job, row: Row, content: Bytes, a: Answer)
    ensures NextCall(c, NextCall(c, WorkerView(job, Some(Hold(row, Upload(content)))), a), a)
            == WorkerView(job.(uploads := job.uploads + [content]), Some(Hold(row, RecordResults)))
  {
    hide Read;
    var v1 := NextCall(c, WorkerView(job, Some(Hold(row, Upload(content)))), a);
    assert v1 == WorkerView(job.(uploads := job.uploads + [content]), Some(Hold(row, Attendees)));
  }

  /** With the group found, the transcript is uploaded under a new meeting. */
  lemma UploadsWork(c: Casing, job: Job, content: Bytes, a: Answer)
    requires job.operation.SubmitTranscript? && Read(c, job.groupHint, a).GroupFound?
    requires job.path == Some(ProcessingDir) && job.file == Some(StoredFile(ProcessingDir, content))
    ensures Work(c, WorkerView(job, Some(Hold(RowOf(job), AskBackend))), a, 5)
            == WorkerView(job.(meetings := job.meetings + 1, uploads := job.uploads + [content]),
                          Some(Hold(RowOf(job), RecordResults)))
  {
    hide Read, Work, NextCall;
    FiveCalls(c, WorkerView(job, Some(Hold(RowOf(job), AskBackend))), a);
    MeetingCalls(c, job, content, a);
    UploadCalls(c, job.(meetings := job.meetings + 1), RowOf(job), content, a);
  }

  /** The job is completed, and its file moved to where completed jobs have theirs. */
  lemma CompletesWork(c: Casing, job: Job, content: Bytes, a: Answer)
    requires job.operation.SubmitTranscript? && job.status.Processing?
    requires job.path == Some(ProcessingDir) && job.file == Some(StoredFile(ProcessingDir, content))
    ensures Work(c, WorkerView(job, Some(Hold(RowOf(job), RecordResults))), a, 5)
            == WorkerView(job.(status := Completed, path := Some(CompletedDir),
                               file := Some(StoredFile(CompletedDir, content)),
                               notices := job.notices + [Outbox.Completion]), None)
  {
    hide Read, Work;
    var v := WorkerView(job, Some(Hold(RowOf(job), RecordResults)));
    FiveCalls(c, v, a);
    var v1 := NextCall(c, v, a);
    assert v1 == WorkerView(job, Some(Hold(RowOf(job), Complete)));
    var v2 := NextCall(c, v1, a);
    assert v2 == WorkerView(job.(status := Completed), Some(Hold(RowOf(job), MoveCompleted)));
    var v3 := NextCall(c, v2, a);
    assert v3.at == Some(Hold(RowOf(job), RecordCompleted));
  }

  /** With no group found, the offered names are put aside for the sender's answer. */
  lemma AsksWork(c: Casing, job: Job, a: Answer)
    requires job.status.Processing? && Read(c, job.groupHint, a).GroupUnclear?
    ensures Work(c, WorkerView(job, Some(Hold(RowOf(job), AskBackend))), a, 4)
            == WorkerView(job.(status := NeedsClarification, pending := Some(Read(c, job.groupHint, a).names),
                               notices := job.notices + [Outbox.Clarification]), None)
  {
    hide Read, Work;
    var v := WorkerView(job, Some(Hold(RowOf(job), AskBackend)));
    FiveCalls(c, v, a);
    var names := Read(c, job.groupHint, a).names;
    var v1 := NextCall(c, v, a);
    assert v1 == WorkerView(job, Some(Hold(RowOf(job), NeedGroup(names))));
    var v2 := NextCall(c, v1, a);
    assert v2.at == Some(Hold(RowOf(job), PutPending(names)));
  }

  lemma SetAsideCalls(c: Casing, job: Job, content: Bytes, a: Answer)
    requires job.operation.SubmitTranscript? && MayMove(job.status, Failed)
    requires job.path == Some(ProcessingDir) && job.file == Some(StoredFile(ProcessingDir, content))
    ensures var v := WorkerView(job, Some(Hold(RowOf(job), Fail)));
            NextCall(c, NextCall(c, NextCall(c, v, a), a), a)
            == WorkerView(job.(status := Failed, path := Some(FailedDir), file := Some(StoredFile(FailedDir, content))),
                          Some(Hold(RowOf(job), MailFailure)))
  {
    hide Read;
    var v1 := NextCall(c, WorkerView(job, Some(Hold(RowOf(job), Fail))), a);
    assert v1 == WorkerView(job.(status := Failed), Some(Hold(RowOf(job), MoveFailed)));
    var v2 := NextCall(c, v1, a);
    assert v2.at == Some(Hold(RowOf(job), RecordFailed));
  }

  lemma NotifyCalls(c: Casing, job: Job, row: Row, a: Answer)
    ensures NextCall(c, NextCall(c, WorkerView(job, Some(Hold(row, MailFailure))), a), a)
            == WorkerView(Noticed(job, Outbox.FailureNotice), None)
  {
    hide Read;
  }

  /** A failed transcript is set aside, and its sender and the administrator are told. */
  lemma GivesUpWork(c: Casing, job: Job, content: Bytes, a: Answer)
    requires job.operation.SubmitTranscript? && MayMove(job.status, Failed)
    requires job.path == Some(ProcessingDir) && job.file == Some(StoredFile(ProcessingDir, content))
    ensures Work(c, WorkerView(job, Some(Hold(RowOf(job), Fail))), a, 5)
            == WorkerView(job.(status := Failed, path := Some(FailedDir), file := Some(StoredFile(FailedDir, content)),
                               notices := job.notices + [Outbox.FailureNotice]), None)
  {
    hide Read, Work, NextCall;
    FiveCalls(c, WorkerView(job, Some(Hold(RowOf(job), Fail))), a);
    SetAsideCalls(c, job, content, a);
    NotifyCalls(c, job.(status := Failed, path := Some(FailedDir), file := Some(StoredFile(FailedDir, content))),
                RowOf(job), a);
  }

  /**
   * A transcript job that the worker takes up from its snapshot is completed in fourteen calls
   * when its group is found: one meeting, one upload of the stored content, nothing else touched.
   */
  lemma QueuedJobCompletes(c: Casing, s: State, id: JobId, stage: Stage, content: Bytes, groups: seq<Group>)
    requires id in s.jobs && Ready(s.jobs[id], stage, content)
    requires s.worker == At(id, Hold(RowOf(s.jobs[id]), Start))
    requires MatchGroup(c, s.jobs[id].groupHint, groups).Matched?
    ensures Run(c, s, Calls(WorkerCall(Groups(groups)), 14))
            == s.(jobs := s.jobs[id := Submitted(s.jobs[id], content)], worker := Nobody)
  {
    hide Play, MatchGroup;
    var a, job := Groups(groups), s.jobs[id];
    var v, started := WorkerView(job, Some(Hold(RowOf(job), Start))), Started(job, content);
    StartsWork(c, job, stage, content, a);
    UploadsWork(c, started, content, a);
    var uploaded := started.(meetings := job.meetings + 1, uploads := job.uploads + [content]);
    CompletesWork(c, uploaded, content, a);
    WorkGoesOn(c, v, a, 4, 5);
    WorkGoesOn(c, v, a, 9, 5);
    RunIsPlay(c, s, id, Hold(RowOf(job), Start), Calls(WorkerCall(a), 14));
  }

  /** When its group is not found, it waits for its sender with the names that were offered, its file kept. */
  lemma UnclearJobAsks(c: Casing, s: State, id: JobId, stage: Stage, content: Bytes, groups: seq<Group>)
    requires id in s.jobs && Ready(s.jobs[id], stage, content)
    requires s.worker == At(id, Hold(RowOf(s.jobs[id]), Start))
    requires !MatchGroup(c, s.jobs[id].groupHint, groups).Matched?
    ensures Run(c, s, Calls(WorkerCall(Groups(groups)), 8))
            == s.(jobs := s.jobs[id := Started(s.jobs[id], content).(status := NeedsClarification,
                                                                     pending := Some(Names(groups)),
                                                                     notices := s.jobs[id].notices + [Outbox.Clarification])],
                  worker := Nobody)
  {
    hide Play, MatchGroup;
    var a, job := Groups(groups), s.jobs[id];
    var v := WorkerView(job, Some(Hold(RowOf(job), Start)));
    StartsWork(c, job, stage, content, a);
    AsksWork(c, Started(job, content), a);
    WorkGoesOn(c, v, a, 4, 4);
    RunIsPlay(c, s, id, Hold(RowOf(job), Start), Calls(WorkerCall(a), 8));
  }

  // ---- the mail thread's programs, run to their ends ------------------------------------

  datatype MailView = MailView(job: Job, at: Option<MailPoint>)

  function NextServed(v: MailView, parses: bool): MailView {
    if v.at.None? then v
    else
      var m := MailStep(v.job, v.at.value, parses);
      MailView(m.job, m.next)
  }

  function Serve(v: MailView, parses: bool, n: nat): MailView
    decreases n
  {
    if n == 0 then v else Serve(NextServed(v, parses), parses, n - 1)
  }

  lemma {:induction false} Served(v: MailView, parses: bool, n: nat)
    requires v.at.None?
    ensures Serve(v, parses, n) == v
  {
    if n > 0 {
      Served(v, parses, n - 1);
    }
  }

  /** A run of mail-thread calls is its program on the job it is at; the rest of the state stays. */
  lemma {:induction false} RunIsServe(c: Casing, s: State, id: JobId, p: MailPoint, parses: bool, n: nat)
    requires id in s.jobs && s.mail == At(id, p)
    ensures var v := Serve(MailView(s.jobs[id], Some(p)), parses, n);
            Run(c, s, Calls(MailCall(parses), n)) == s.(jobs := s.jobs[id := v.job], mail := Apply(id, v.at))
    decreases n
  {
    hide MailStep, Run;
    if n == 0 {
      NoCalls(c, s, MailCall(parses));
      assert s.jobs[id := s.jobs[id]] == s.jobs;
    } else {
      RunCalls(c, s, MailCall(parses), n);
      var next := NextServed(MailView(s.jobs[id], Some(p)), parses);
      var after := Step(c, s, MailCall(parses));
      var v := Serve(next, parses, n - 1);
      assert s.jobs[id := next.job][id := v.job] == s.jobs[id := v.job];
      if next.at.Some? {
        RunIsServe(c, after, id, next.at.value, parses, n - 1);
      } else {
        IdleMail(c, after, parses, n - 1);
        Served(next, parses, n - 1);
      }
    }
  }

  lemma FourServed(v: MailView, parses: bool, n: nat)
    requires n >= 4
    ensures Serve(v, parses, n)
            == Serve(NextServed(NextServed(NextServed(NextServed(v, parses), parses), parses), parses), parses, n - 4)
  {
    hide NextServed;
    var v1 := NextServed(v, parses);
    var v2 := NextServed(v1, parses);
    var v3 := NextServed(v2, parses);
    assert Serve(v, parses, n) == Serve(v1, parses, n - 1) == Serve(v2, parses, n - 2) == Serve(v3, parses, n - 3);
  }

  lemma ThreeServed(v: MailView, parses: bool)
    ensures Serve(v, parses, 1) == NextServed(v, parses)
    ensures Serve(v, parses, 2) == NextServed(NextServed(v, parses), parses)
    ensures Serve(v, parses, 3) == NextServed(NextServed(NextServed(v, parses), parses), parses)
  {
    hide NextServed;
    var v1 := NextServed(v, parses);
    var v2 := NextServed(v1, parses);
    assert Serve(v, parses, 3) == Serve(v1, parses, 2) == Serve(v2, parses, 1);
    assert Serve(v, parses, 2) == Serve(v1, parses, 1);
  }

  /** An accepted answer puts a waiting job back into the queue, with the chosen name as its hint. */
  lemma AnswerRequeues(c: Casing, s: State, id: JobId, choice: string, parses: bool)
    requires id in s.jobs && s.jobs[id].status.NeedsClarification?
    requires s.mail == At(id, ApplyCheck(choice))
    ensures Run(c, s, Calls(MailCall(parses), 5))
            == s.(jobs := s.jobs[id := s.jobs[id].(status := Queued, groupHint := Some(choice), pending := None,
                                                   notices := s.jobs[id].notices + [Outbox.ClarificationReceived])],
                  mail := Nobody)
  {
    hide Run, Serve;
    var job := s.jobs[id];
    var v := MailView(job, Some(ApplyCheck(choice)));
    FourServed(v, parses, 5);
    var v1 := NextServed(v, parses);
    var v2 := NextServed(v1, parses);
    assert v2 == MailView(job.(groupHint := Some(choice)), Some(ApplyQueue));
    var v3 := NextServed(v2, parses);
    var v4 := NextServed(v3, parses);
    assert v4.at == Some(ApplyMail);
    ThreeServed(v4, parses);
    RunIsServe(c, s, id, ApplyCheck(choice), parses, 5);
  }
}
