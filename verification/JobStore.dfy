/** The jobs table and the table of pending clarifications. */
module JobStore {
  import opened Wrappers
  import opened Text
  import opened JobStates
  import opened JobIds
  import opened GroupMatching
  import opened Attachments

  datatype Job = Job(
    jobId: string,
    senderEmail: string,
    backendUserId: int,
    sourceMessageId: string,
    operation: Operation,
    status: JobState,
    groupHint: Option<string>,
    attachmentFilename: Option<string>,
    path: Option<Path>,
    meetingDate: Option<int>,
    speakers: seq<string>,
    transcriptFocus: Option<string>,
    githubFocus: Option<string>,
    trelloFocus: Option<string>,
    outcome: Option<Submission>,
    lastResponse: Option<string>,
    inReplyTo: Option<string>)

  /** What the backend was told, recorded once a transcript is submitted. */
  datatype Submission = Submission(group: Group, meetingId: int, resolved: seq<string>, unresolved: seq<string>)

  /** The keyword arguments that JobStore.update is called with. */
  datatype Field =
    | GroupHint(hint: string)
    | InReplyTo(messageId: string)
    | StoragePath(path: Path)
    | MeetingFacts(speakers: seq<string>, date: int)
    | Outcome(submission: Submission)
    | LastResponse(messageId: string)

  function Assign(job: Job, f: Field): Job {
    match f
    case GroupHint(hint) => job.(groupHint := Some(hint))
    case InReplyTo(id) => job.(inReplyTo := Some(id))
    case StoragePath(path) => job.(path := Some(path))
    case MeetingFacts(speakers, date) => job.(speakers := speakers, meetingDate := Some(date))
    case Outcome(submission) => job.(outcome := Some(submission))
    case LastResponse(id) => job.(lastResponse := Some(id))
  }

  datatype StoreError = InvalidTransition | IdAllocation

  // ---- allocating identifiers -----------------------------------------------------------

  /** SELECT ... WHERE job_id LIKE prefix% */
  function DayIds(order: seq<string>, prefix: string): seq<string> {
    if order == [] then []
    else
      var init, last := order[..|order| - 1], order[|order| - 1];
      DayIds(init, prefix) + (if HasPrefix(last, prefix) then [last] else [])
  }

  /** The identifiers of a day are exactly those numbered 1 to n, in order of creation. */
  predicate Contiguous(order: seq<string>, prefix: string) {
    var ids := DayIds(order, prefix);
    forall i :: 0 <= i < |ids| ==> ids[i] == Format(prefix, i + 1)
  }

  lemma {:induction false} DayIdsFindsAll(order: seq<string>, prefix: string, id: string)
    requires HasPrefix(id, prefix) && id in order
    ensures id in DayIds(order, prefix)
  {
    var init, last := order[..|order| - 1], order[|order| - 1];
    if last != id {
      assert order == init + [last];
      DayIdsFindsAll(init, prefix, id);
    }
  }

  /** The identifier tried at an attempt: the day's count, plus one, plus the attempts that failed. */
  function Candidate(order: seq<string>, prefix: string, attempt: nat): string {
    Format(prefix, |DayIds(order, prefix)| + 1 + attempt)
  }

  /** The first identifier tried is free. */
  lemma NextIdIsFree(order: seq<string>, prefix: string)
    requires Contiguous(order, prefix)
    ensures Candidate(order, prefix, 0) !in order
  {
    hide Format;
    var ids := DayIds(order, prefix);
    var next := Candidate(order, prefix, 0);
    FormatIsInjective(prefix, |ids| + 1, |ids| + 1);
    if next in order {
      DayIdsFindsAll(order, prefix, next);
      var i :| 0 <= i < |ids| && ids[i] == next;
      FormatIsInjective(prefix, i + 1, |ids| + 1);
      assert false;
    }
  }

  /** Allocating it keeps the numbering of every day without gaps. */
  lemma NextIdKeepsContiguous(order: seq<string>, prefix: string, other: string)
    requires IsPrefix(prefix) && IsPrefix(other)
    requires Contiguous(order, prefix) && Contiguous(order, other)
    ensures Contiguous(order + [Candidate(order, prefix, 0)], other)
  {
    hide Format;
    var next := Candidate(order, prefix, 0);
    assert (order + [next])[..|order|] == order;
    FormatIsInjective(prefix, 0, |DayIds(order, prefix)| + 1);
    var ids := DayIds(order + [next], other);
    assert ids == DayIds(order, other) + (if HasPrefix(next, other) then [next] else []);
    if HasPrefix(next, other) {
      assert other == next[..PREFIX_LENGTH] == prefix;
      assert next == Format(prefix, |ids| - 1 + 1);
    }
  }

  /** Whatever days jobs are created on, the identifiers of each day are numbered without a gap. */
  function CreateAll(order: seq<string>, days: seq<string>): seq<string> {
    if days == [] then order
    else
      var before := CreateAll(order, days[..|days| - 1]);
      var day := days[|days| - 1];
      before + [Candidate(before, day, 0)]
  }

  lemma {:induction false} IdsHaveNoGaps(days: seq<string>, day: string)
    requires IsPrefix(day) && forall d :: d in days ==> IsPrefix(d)
    ensures Contiguous(CreateAll([], days), day)
  {
    if days != [] {
      var init, last := days[..|days| - 1], days[|days| - 1];
      IdsHaveNoGaps(init, day);
      IdsHaveNoGaps(init, last);
      NextIdKeepsContiguous(CreateAll([], init), last, day);
    }
  }

  const MAX_ID_ATTEMPTS := 10

  // ---- queries --------------------------------------------------------------------------

  function Owned(jobs: map<string, Job>, id: string, sender: string): Option<Job> {
    if id in jobs && Lower(jobs[id].senderEmail) == Lower(sender) then Some(jobs[id]) else None
  }

  /** SELECT * FROM jobs WHERE status = QUEUED ORDER BY created_at ASC */
  function QueuedJobs(jobs: map<string, Job>, order: seq<string>): (queued: seq<Job>)
    requires forall id :: id in order ==> id in jobs
    ensures forall j :: j in queued ==> j.status.Queued?
    decreases |order|
  {
    if order == [] then []
    else
      (if jobs[order[0]].status.Queued? then [jobs[order[0]]] else []) + QueuedJobs(jobs, order[1..])
  }

  /** The first was created before the second. */
  predicate Before(order: seq<string>, first: string, second: string) {
    exists p, q :: 0 <= p < q < |order| && order[p] == first && order[q] == second
  }

  lemma BeforeInTail(order: seq<string>, first: string, second: string)
    requires order != [] && (Before(order[1..], first, second) || (order[0] == first && second in order[1..]))
    ensures Before(order, first, second)
  {
    if order[0] == first && second in order[1..] {
      var q :| 0 <= q < |order[1..]| && order[1..][q] == second;
      assert order[q + 1] == second;
    } else {
      var p, q :| 0 <= p < q < |order[1..]| && order[1..][p] == first && order[1..][q] == second;
      assert order[p + 1] == first && order[q + 1] == second;
    }
  }

  /** Queued jobs are listed in the order in which they were created. */
  lemma {:induction false} QueuedInOrder(jobs: map<string, Job>, order: seq<string>, i: nat, j: nat)
    requires forall id :: id in order ==> id in jobs && jobs[id].jobId == id
    requires i < j < |QueuedJobs(jobs, order)|
    ensures Before(order, QueuedJobs(jobs, order)[i].jobId, QueuedJobs(jobs, order)[j].jobId)
    decreases |order|
  {
    hide Before;
    var rest := QueuedJobs(jobs, order[1..]);
    var first, second := QueuedJobs(jobs, order)[i].jobId, QueuedJobs(jobs, order)[j].jobId;
    if !jobs[order[0]].status.Queued? {
      QueuedInOrder(jobs, order[1..], i, j);
    } else if i > 0 {
      QueuedInOrder(jobs, order[1..], i - 1, j - 1);
    } else {
      QueuedAreListed(jobs, order[1..], rest[j - 1]);
    }
    BeforeInTail(order, first, second);
  }

  lemma {:induction false} QueuedAreListed(jobs: map<string, Job>, order: seq<string>, job: Job)
    requires forall id :: id in order ==> id in jobs && jobs[id].jobId == id
    requires job in QueuedJobs(jobs, order)
    ensures job.jobId in order
    decreases |order|
  {
    if order != [] && job in QueuedJobs(jobs, order[1..]) {
      QueuedAreListed(jobs, order[1..], job);
    }
  }

  lemma {:induction false} QueuedJobsListsAll(jobs: map<string, Job>, order: seq<string>)
    requires forall id :: id in order ==> id in jobs && jobs[id].jobId == id
    requires forall i, j :: 0 <= i < j < |order| ==> order[i] != order[j]
    ensures forall id :: id in order && jobs[id].status.Queued? ==> jobs[id] in QueuedJobs(jobs, order)
    ensures forall j :: j in QueuedJobs(jobs, order) ==> j.jobId in order && jobs[j.jobId] == j
    ensures forall i, j :: 0 <= i < j < |QueuedJobs(jobs, order)|
                           ==> QueuedJobs(jobs, order)[i].jobId != QueuedJobs(jobs, order)[j].jobId
    decreases |order|
  {
    if order != [] {
      QueuedJobsListsAll(jobs, order[1..]);
      assert order == [order[0]] + order[1..];
    }
  }

  lemma Overwritten(jobs: map<string, Job>, id: string, first: Job, second: Job)
    ensures jobs[id := first][id := second] == jobs[id := second]
  {
  }

  class JobStore {
    var jobs: map<string, Job>
    var order: seq<string>

    constructor ()
      ensures Valid() && jobs == map[] && order == []
    {
      jobs, order := map[], [];
    }

    /** The order of creation lists every row once, under its own identifier. */
    ghost predicate Valid()
      reads this
    {
      && (forall id :: id in jobs <==> id in order)
      && (forall id :: id in jobs ==> jobs[id].jobId == id)
      && (forall i, j :: 0 <= i < j < |order| ==> order[i] != order[j])
    }

    /** Up to ten attempts, each inserting the next number after the day's count. */
    method CreateJob(prefix: string, request: Job) returns (r: Result<Job, StoreError>)
      requires Valid() && IsPrefix(prefix)
      modifies this
      ensures Valid()
      ensures r.Success? ==>
                && r.value.jobId !in old(jobs)
                && r.value == request.(jobId := r.value.jobId, status := Received)
                && jobs == old(jobs)[r.value.jobId := r.value] && order == old(order) + [r.value.jobId]
      ensures r.Failure? ==> jobs == old(jobs) && order == old(order)
      ensures if r.Success? then
                exists k :: 0 <= k < 10 && r.value.jobId == Candidate(old(order), prefix, k)
                            && forall i :: 0 <= i < k ==> Candidate(old(order), prefix, i) in old(jobs)
              else forall i :: 0 <= i < 10 ==> Candidate(old(order), prefix, i) in old(jobs)
      ensures Contiguous(old(order), prefix)
              ==> r.Success? && r.value.jobId == Candidate(old(order), prefix, 0)
    {
      if Contiguous(order, prefix) {
        NextIdIsFree(order, prefix);
      }
      for attempt := 0 to MAX_ID_ATTEMPTS
        invariant jobs == old(jobs) && order == old(order)
        invariant forall i :: 0 <= i < attempt ==> Candidate(order, prefix, i) in jobs
      {
        var id := Candidate(order, prefix, attempt);
        if id !in jobs {
          var job := request.(jobId := id, status := Received);
          jobs := jobs[id := job];
          order := order + [id];
          return Success(job);
        }
      }
      return Failure(IdAllocation);
    }

    method SetStatus(id: string, next: JobState) returns (r: Result<(), StoreError>)
      requires Valid()
      modifies this`jobs
      ensures Valid()
      ensures r.Success? <==> id in old(jobs) && MayMove(old(jobs)[id].status, next)
      ensures r.Success? ==> jobs == old(jobs)[id := old(jobs)[id].(status := next)]
      ensures r.Failure? ==> jobs == old(jobs)
    {
      if id !in jobs || !MayMove(jobs[id].status, next) {
        return Failure(InvalidTransition);
      }
      jobs := jobs[id := jobs[id].(status := next)];
      return Success(());
    }

    /** An UPDATE of a row that is not there changes nothing. */
    method Update(id: string, field: Field)
      requires Valid()
      modifies this`jobs
      ensures Valid()
      ensures jobs == if id in old(jobs) then old(jobs)[id := Assign(old(jobs)[id], field)] else old(jobs)
    {
      if id in jobs {
        jobs := jobs[id := Assign(jobs[id], field)];
      }
    }

    method ListQueued() returns (queued: seq<Job>)
      requires Valid()
      ensures queued == QueuedJobs(jobs, order)
      ensures forall id :: id in jobs && jobs[id].status.Queued? ==> jobs[id] in queued
      ensures forall j :: j in queued ==> j.jobId in jobs && jobs[j.jobId] == j && j.status.Queued?
      ensures forall i, j :: 0 <= i < j < |queued| ==>
                queued[i].jobId != queued[j].jobId && Before(order, queued[i].jobId, queued[j].jobId)
    {
      hide Before;
      queued := QueuedJobs(jobs, order);
      QueuedJobsListsAll(jobs, order);
      forall i, j | 0 <= i < j < |queued| ensures Before(order, queued[i].jobId, queued[j].jobId) {
        QueuedInOrder(jobs, order, i, j);
      }
    }
  }

  datatype PendingClarification = PendingClarification(question: string, options: seq<string>)

  class PendingClarificationStore {
    var rows: map<string, PendingClarification>

    constructor ()
      ensures rows == map[]
    {
      rows := map[];
    }

    method Put(jobId: string, question: string, options: seq<string>)
      modifies this
      ensures rows == old(rows)[jobId := PendingClarification(question, options)]
    {
      rows := rows[jobId := PendingClarification(question, options)];
    }

    method Delete(jobId: string)
      modifies this
      ensures rows == old(rows) - {jobId}
    {
      rows := rows - {jobId};
    }
  }
}
