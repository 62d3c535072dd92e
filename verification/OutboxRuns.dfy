/**
 * What delivery keeps over whole runs: new mail, flushes by the mail loop and by the weekly program,
 * flushes cut short, and other work on the jobs.
 */
module OutboxRuns {
  import opened Wrappers
  import opened JobStore
  import opened Outbox

  /** crashes counts the flushes cut short between two calls: by a crash, or because mark_failed itself raised. */
  datatype State = State(d: Delivery, crashes: nat)

  const Initial := State(Delivery([], [], map[], multiset{}), 0)

  datatype Event =
    | Enqueue(mail: Mail)
    | FlushAll(attempt: nat -> Attempt)
    | CrashInFlush(attempt: nat -> Attempt, delivered: nat)
    | FlushReports(attempt: nat -> Attempt)
    | CrashInReports(attempt: nat -> Attempt, delivered: nat)
    | OtherWork(jobs: map<string, Job>)

  const REPORT_ID_START := "WEEKLY-"

  predicate IsReport(mail: Mail) {
    mail.jobId.Some? && |mail.jobId.value| >= |REPORT_ID_START| && mail.jobId.value[..|REPORT_ID_START|] == REPORT_ID_START
  }

  /** The rows that the weekly program sends: the pending ones about a report. */
  function PendingReports(rows: seq<Row>): (ids: seq<nat>)
    ensures forall k :: 0 <= k < |ids| ==> ids[k] < |rows| && rows[ids[k]].status.Pending? && IsReport(rows[ids[k]].mail)
    ensures forall i :: 0 <= i < |rows| && rows[i].status.Pending? && IsReport(rows[i].mail) ==> i in ids
    ensures forall j, k :: 0 <= j < k < |ids| ==> ids[j] < ids[k]
  {
    if rows == [] then []
    else
      var n := |rows| - 1;
      hide IsReport;
      var before := PendingReports(rows[..n]);
      assert forall k :: 0 <= k < |before| ==> before[k] < n;
      before + (if rows[n].status.Pending? && IsReport(rows[n].mail) then [n] else [])
  }

  /** The rows before the k-th are attempted; at the k-th the flush is cut short, with nothing recorded. */
  function CutShort(d: Delivery, ids: seq<nat>, attempt: nat -> Attempt, k: nat): Delivery
    requires k < |ids| && forall i :: 0 <= i < |ids| ==> ids[i] < |d.rows|
  {
    Effects(FlushRows(d, ids[..k], attempt), ids[k], attempt(ids[k]))
  }

  /** Nothing but delivery writes last_response_message_id, and new jobs have none. */
  predicate KeepsResponses(before: map<string, Job>, after: map<string, Job>) {
    forall id :: id in after ==>
      after[id].lastResponse == if id in before then before[id].lastResponse else None
  }

  function Step(s: State, e: Event): State {
    var d := s.d;
    match e
    case Enqueue(mail) => s.(d := d.(rows := d.rows + [Row(mail, Pending, 0)]))
    case FlushAll(attempt) => s.(d := Flush(d, attempt))
    case CrashInFlush(attempt, k) =>
      var ids := PendingIds(d.rows);
      if k < |ids| then State(CutShort(d, ids, attempt, k), s.crashes + 1) else s
    case FlushReports(attempt) =>
      s.(d := FlushRows(d, PendingReports(d.rows), attempt).(jobs := d.jobs))
    case CrashInReports(attempt, k) =>
      var ids := PendingReports(d.rows);
      if k < |ids| then State(CutShort(d, ids, attempt, k).(jobs := d.jobs), s.crashes + 1) else s
    case OtherWork(jobs) => if KeepsResponses(d.jobs, jobs) then s.(d := d.(jobs := jobs)) else s
  }

  function Run(s: State, events: seq<Event>): State
    decreases |events|
  {
    if events == [] then s else Run(Step(s, events[0]), events[1..])
  }

  // ---- the invariant --------------------------------------------------------------------

  predicate RowOk(row: Row) {
    row.attempts <= MAX_SEND_ATTEMPTS && (row.status.GivenUp? <==> row.attempts == MAX_SEND_ATTEMPTS)
  }

  /** Each send is paid for by a counted attempt, by being sent, or by a crash. */
  predicate Paid(d: Delivery, crashes: nat, i: nat)
    requires i < |d.rows|
  {
    d.calls[i] <= d.rows[i].attempts + (if d.rows[i].status.Sent? then 1 else 0) + crashes
  }

  ghost predicate RowsOk(d: Delivery, crashes: nat) {
    && (forall i :: 0 <= i < |d.rows| ==> RowOk(d.rows[i]) && Paid(d, crashes, i))
    && (forall i :: i >= |d.rows| ==> d.calls[i] == 0)
  }

  predicate LinksOk(d: Delivery) {
    && (forall k :: 0 <= k < |d.links| ==>
          d.links[k].outboxId < |d.rows| && d.links[k].jobId == d.rows[d.links[k].outboxId].mail.jobId)
    && (forall j, k :: 0 <= j < k < |d.links| ==>
          d.links[j].outboxId != d.links[k].outboxId && d.links[j].messageId != d.links[k].messageId)
  }

  predicate IsLinked(links: seq<Link>, jobId: string, messageId: string) {
    exists l :: l in links && l.jobId == Some(jobId) && l.messageId == messageId
  }

  /** The last response recorded on a job is always also in the index. */
  predicate ResponsesLinked(d: Delivery) {
    forall id :: id in d.jobs && d.jobs[id].lastResponse.Some? && d.jobs[id].lastResponse.value != "" ==>
      IsLinked(d.links, id, d.jobs[id].lastResponse.value)
  }

  ghost predicate Inv(s: State) {
    RowsOk(s.d, s.crashes) && LinksOk(s.d) && ResponsesLinked(s.d)
  }

  // ---- one row --------------------------------------------------------------------------

  /** An attempt sends nothing and changes nothing, or makes one call and may mark the row, and then link it. */
  lemma EffectsShape(d: Delivery, id: nat, a: Attempt)
    requires id < |d.rows|
    ensures var after, marked := Effects(d, id, a), d.rows[id := d.rows[id].(status := Sent)];
            && (|| (after.rows == d.rows && after.calls == d.calls && after.links == d.links)
                || (after.rows == d.rows && after.calls == d.calls + multiset{id} && after.links == d.links)
                || (after.rows == marked && after.calls == d.calls + multiset{id}))
            && (Reached(d, id, a).Finished? ==> after.rows == marked)
            && (after.links != d.links ==>
                  && after.links == d.links + [Link(id, d.rows[id].mail.jobId, a.messageId)]
                  && !Clashes(d.links, id, a.messageId))
  {
  }

  lemma CallAndMark(d: Delivery, crashes: nat, id: nat, after: Delivery)
    requires RowsOk(d, crashes) && id < |d.rows| && d.rows[id].status.Pending?
    requires after.rows == d.rows || after.rows == d.rows[id := d.rows[id].(status := Sent)]
    requires after.calls == d.calls + multiset{id} || (after.calls == d.calls && after.rows == d.rows)
    ensures RowsOk(after, crashes + 1)
    ensures after.rows != d.rows ==> RowsOk(after, crashes)
    ensures RowsOk(after.(rows := after.rows[id := FailedRow(after.rows[id])]), crashes)
  {
    var failed := after.(rows := after.rows[id := FailedRow(after.rows[id])]);
    forall i | 0 <= i < |d.rows|
      ensures RowOk(after.rows[i]) && Paid(after, crashes + 1, i) && RowOk(failed.rows[i]) && Paid(failed, crashes, i)
      ensures after.rows != d.rows ==> Paid(after, crashes, i)
    {
      assert RowOk(d.rows[i]) && Paid(d, crashes, i);
    }
  }

  lemma EffectsOnRows(d: Delivery, crashes: nat, id: nat, a: Attempt)
    requires RowsOk(d, crashes) && id < |d.rows| && d.rows[id].status.Pending?
    ensures |Effects(d, id, a).rows| == |d.rows|
    ensures RowsOk(Effects(d, id, a), crashes + 1)
    ensures RowsOk(FlushRow(d, id, a), crashes)
    ensures forall i :: 0 <= i < |d.rows| && i != id ==> FlushRow(d, id, a).rows[i] == d.rows[i]
    ensures !FlushRow(d, id, a).rows[id].status.Pending? || FlushRow(d, id, a).rows[id].attempts == d.rows[id].attempts + 1
  {
    hide Effects, Reached, RowsOk;
    EffectsShape(d, id, a);
    CallAndMark(d, crashes, id, Effects(d, id, a));
    assert d.rows[id].status != Sent;
  }

  lemma EffectsOnLinks(d: Delivery, id: nat, a: Attempt)
    requires LinksOk(d) && id < |d.rows|
    ensures LinksOk(Effects(d, id, a)) && LinksOk(FlushRow(d, id, a))
  {
    hide Effects, Reached;
    EffectsShape(d, id, a);
    var after, failed := Effects(d, id, a), FlushRow(d, id, a);
    assert forall i :: 0 <= i < |d.rows| ==> after.rows[i].mail == d.rows[i].mail && failed.rows[i].mail == d.rows[i].mail;
    assert failed.links == after.links;
  }

  lemma EffectsOnResponses(d: Delivery, id: nat, a: Attempt)
    requires ResponsesLinked(d) && id < |d.rows|
    ensures ResponsesLinked(Effects(d, id, a)) && ResponsesLinked(FlushRow(d, id, a))
  {
    var after := Effects(d, id, a);
    forall j | j in after.jobs && after.jobs[j].lastResponse.Some? && after.jobs[j].lastResponse.value != ""
      ensures IsLinked(after.links, j, after.jobs[j].lastResponse.value)
    {
      var p := after.jobs[j].lastResponse.value;
      if after.jobs[j] == d.jobs[j] {
        var l :| l in d.links && l.jobId == Some(j) && l.messageId == p;
        assert l in after.links;
      } else {
        assert after.links == d.links + [Link(id, Some(j), p)];
        assert after.links[|d.links|] in after.links;
      }
    }
  }

  // ---- one flush ------------------------------------------------------------------------

  /** The rows that are not attempted stay, and an attempted one is settled or has its attempt counted. */
  predicate Attempted(before: seq<Row>, after: seq<Row>, ids: seq<nat>) {
    && |after| == |before|
    && (forall i :: 0 <= i < |before| && i !in ids ==> after[i] == before[i])
    && (forall i :: 0 <= i < |before| && i in ids ==>
          !after[i].status.Pending? || after[i].attempts == before[i].attempts + 1)
  }

  predicate Increasing(ids: seq<nat>) {
    forall j, k :: 0 <= j < k < |ids| ==> ids[j] < ids[k]
  }

  predicate PendingAt(rows: seq<Row>, ids: seq<nat>) {
    forall k :: 0 <= k < |ids| ==> ids[k] < |rows| && rows[ids[k]].status.Pending?
  }

  lemma AttemptedSnoc(before: seq<Row>, between: seq<Row>, after: seq<Row>, init: seq<nat>, last: nat)
    requires Attempted(before, between, init) && |after| == |between|
    requires last < |before| && last !in init
    requires forall i :: 0 <= i < |between| && i != last ==> after[i] == between[i]
    requires !after[last].status.Pending? || after[last].attempts == between[last].attempts + 1
    ensures Attempted(before, after, init + [last])
  {
    assert between[last] == before[last];
  }

  lemma LastIsNew(ids: seq<nat>)
    requires ids != [] && Increasing(ids)
    ensures ids[|ids| - 1] !in ids[..|ids| - 1]
  {
  }

  /** One more row of a flush. */
  lemma FlushRowKeepsInv(d: Delivery, crashes: nat, id: nat, a: Attempt)
    requires Inv(State(d, crashes)) && id < |d.rows| && d.rows[id].status.Pending?
    ensures Inv(State(FlushRow(d, id, a), crashes)) && Inv(State(Effects(d, id, a), crashes + 1))
    ensures |Effects(d, id, a).rows| == |d.rows|
    ensures forall i :: 0 <= i < |d.rows| && i != id ==> FlushRow(d, id, a).rows[i] == d.rows[i]
    ensures !FlushRow(d, id, a).rows[id].status.Pending? || FlushRow(d, id, a).rows[id].attempts == d.rows[id].attempts + 1
  {
    hide Effects, FlushRow, RowsOk, LinksOk, ResponsesLinked;
    EffectsOnRows(d, crashes, id, a);
    EffectsOnLinks(d, id, a);
    EffectsOnResponses(d, id, a);
  }

  lemma {:induction false} FlushRowsKeepsInv(d: Delivery, crashes: nat, ids: seq<nat>, attempt: nat -> Attempt)
    requires Inv(State(d, crashes)) && PendingAt(d.rows, ids) && Increasing(ids)
    ensures var after := FlushRows(d, ids, attempt);
            Inv(State(after, crashes)) && Attempted(d.rows, after.rows, ids)
  {
    if ids != [] {
      hide Inv, FlushRow;
      var init, last := ids[..|ids| - 1], ids[|ids| - 1];
      FlushRowsKeepsInv(d, crashes, init, attempt);
      var before := FlushRows(d, init, attempt);
      LastIsNew(ids);
      assert before.rows[last] == d.rows[last];
      FlushRowKeepsInv(before, crashes, last, attempt(last));
      AttemptedSnoc(d.rows, before.rows, FlushRow(before, last, attempt(last)).rows, init, last);
      assert ids == init + [last];
    }
  }

  lemma {:induction false} FlushRowsGrowsLinks(d: Delivery, ids: seq<nat>, attempt: nat -> Attempt)
    requires forall k :: 0 <= k < |ids| ==> ids[k] < |d.rows|
    ensures d.links <= FlushRows(d, ids, attempt).links
  {
    if ids != [] {
      hide Effects, Reached;
      var init, last := ids[..|ids| - 1], ids[|ids| - 1];
      FlushRowsGrowsLinks(d, init, attempt);
      EffectsShape(FlushRows(d, init, attempt), last, attempt(last));
    }
  }

  lemma CutShortGrowsLinks(d: Delivery, ids: seq<nat>, attempt: nat -> Attempt, k: nat)
    requires k < |ids| && forall i :: 0 <= i < |ids| ==> ids[i] < |d.rows|
    ensures d.links <= CutShort(d, ids, attempt, k).links
  {
    hide Effects, Reached, FlushRows;
    FlushRowsGrowsLinks(d, ids[..k], attempt);
    EffectsShape(FlushRows(d, ids[..k], attempt), ids[k], attempt(ids[k]));
  }

  /** The weekly program writes no job. */
  lemma WithoutJobs(before: State, after: State)
    requires Inv(before) && Inv(after) && before.d.links <= after.d.links
    ensures Inv(after.(d := after.d.(jobs := before.d.jobs)))
  {
    hide RowOk;
    var t := after.d.(jobs := before.d.jobs);
    assert forall i :: 0 <= i < |t.rows| ==> Paid(after.d, after.crashes, i) ==> Paid(t, after.crashes, i);
    forall id | id in t.jobs && t.jobs[id].lastResponse.Some? && t.jobs[id].lastResponse.value != ""
      ensures IsLinked(t.links, id, t.jobs[id].lastResponse.value)
    {
      assert IsLinked(before.d.links, id, t.jobs[id].lastResponse.value);
    }
  }

  lemma ReportsKeepInv(s: State, attempt: nat -> Attempt)
    requires Inv(s)
    ensures Inv(Step(s, FlushReports(attempt)))
  {
    hide Inv, FlushRows, PendingReports;
    var ids := PendingReports(s.d.rows);
    FlushRowsKeepsInv(s.d, s.crashes, ids, attempt);
    FlushRowsGrowsLinks(s.d, ids, attempt);
    WithoutJobs(s, State(FlushRows(s.d, ids, attempt), s.crashes));
  }

  lemma CrashInReportsKeepsInv(s: State, attempt: nat -> Attempt, k: nat)
    requires Inv(s) && k < |PendingReports(s.d.rows)|
    ensures Inv(Step(s, CrashInReports(attempt, k)))
  {
    hide Inv, CutShort, PendingReports;
    var ids := PendingReports(s.d.rows);
    CutShortKeepsInv(s, ids, attempt, k);
    CutShortGrowsLinks(s.d, ids, attempt, k);
    WithoutJobs(s, State(CutShort(s.d, ids, attempt, k), s.crashes + 1));
  }

  lemma EnqueueKeepsInv(s: State, mail: Mail)
    requires Inv(s)
    ensures Inv(Step(s, Event.Enqueue(mail)))
  {
    var t := Step(s, Event.Enqueue(mail));
    assert forall i :: 0 <= i < |s.d.rows| ==> t.d.rows[i] == s.d.rows[i] && Paid(s.d, s.crashes, i);
  }

  lemma CutShortKeepsInv(s: State, ids: seq<nat>, attempt: nat -> Attempt, k: nat)
    requires Inv(s) && PendingAt(s.d.rows, ids) && Increasing(ids) && k < |ids|
    ensures Inv(State(CutShort(s.d, ids, attempt, k), s.crashes + 1))
  {
    hide Inv, FlushRow, FlushRows, Effects;
    FlushRowsKeepsInv(s.d, s.crashes, ids[..k], attempt);
    var before := FlushRows(s.d, ids[..k], attempt);
    LastIsNew(ids[..k + 1]);
    assert ids[..k + 1][..k] == ids[..k];
    assert before.rows[ids[k]] == s.d.rows[ids[k]];
    FlushRowKeepsInv(before, s.crashes, ids[k], attempt(ids[k]));
  }

  lemma OtherWorkKeepsInv(s: State, jobs: map<string, Job>)
    requires Inv(s)
    ensures Inv(Step(s, OtherWork(jobs)))
  {
    hide RowOk, IsLinked;
    var t := Step(s, OtherWork(jobs));
    assert forall i :: 0 <= i < |s.d.rows| ==> Paid(s.d, s.crashes, i) ==> Paid(t.d, t.crashes, i);
  }

  lemma StepKeepsInv(s: State, e: Event)
    requires Inv(s)
    ensures Inv(Step(s, e))
  {
    match e
    case Enqueue(mail) => EnqueueKeepsInv(s, mail);
    case FlushAll(attempt) =>
      hide Inv, FlushRows, PendingIds;
      FlushRowsKeepsInv(s.d, s.crashes, PendingIds(s.d.rows), attempt);
    case CrashInFlush(attempt, k) =>
      hide Inv, CutShort, PendingIds;
      if k < |PendingIds(s.d.rows)| {
        CutShortKeepsInv(s, PendingIds(s.d.rows), attempt, k);
      }
    case FlushReports(attempt) => ReportsKeepInv(s, attempt);
    case CrashInReports(attempt, k) =>
      hide Inv, CutShort, PendingReports;
      if k < |PendingReports(s.d.rows)| {
        CrashInReportsKeepsInv(s, attempt, k);
      }
    case OtherWork(jobs) => OtherWorkKeepsInv(s, jobs);
  }

  lemma {:induction false} RunKeepsInv(s: State, events: seq<Event>)
    requires Inv(s)
    ensures Inv(Run(s, events))
    decreases |events|
  {
    if events != [] {
      StepKeepsInv(s, events[0]);
      RunKeepsInv(Step(s, events[0]), events[1..]);
    }
  }

  /**
   * Over every run, a row causes no more calls of send_email than failures recorded on it, plus one
   * if it is sent, plus one for each flush cut short; so at most five, plus one for each flush cut
   * short. It causes at most one link, and no two links share a message identifier.
   */
  lemma BoundedSending(events: seq<Event>, i: nat)
    requires i < |Run(Initial, events).d.rows|
    ensures var s := Run(Initial, events);
            && s.d.calls[i] <= s.d.rows[i].attempts + (if s.d.rows[i].status.Sent? then 1 else 0) + s.crashes
            && s.d.calls[i] <= 5 + s.crashes
            && (forall j, k :: 0 <= j < k < |s.d.links| ==>
                  s.d.links[j].outboxId != s.d.links[k].outboxId && s.d.links[j].messageId != s.d.links[k].messageId)
  {
    RunKeepsInv(Initial, events);
    var s := Run(Initial, events);
    assert Paid(s.d, s.crashes, i) && RowOk(s.d.rows[i]);
  }

  // ---- a mail that is sent twice --------------------------------------------------------

  /**
   * One attempt at a pending row marks it as sent and then puts it back in the queue if and only if
   * a call after the mark raises (the link clashes with one in the index, cannot be written, or the
   * last response cannot be recorded) and fewer than four failures were recorded before.
   */
  lemma PutBackExactly(d: Delivery, id: nat, a: Attempt)
    requires id < |d.rows| && d.rows[id].status.Pending?
    ensures Effects(d, id, a).rows[id].status.Sent? && FlushRow(d, id, a).rows[id].status.Pending?
            <==> && (|| a.reach.Marked? || a.reach.Linked?
                     || (a.reach.Finished? && a.messageId != "" && Clashes(d.links, id, a.messageId)))
                 && d.rows[id].attempts < 4
  {
  }

  /**
   * A row whose message is already in the index, because only the last call after the mark failed,
   * is never left as sent: each further attempt that gets to send it sends it, and puts it back or,
   * at the fifth failure, gives it up.
   */
  lemma LinkedRowIsSentInVain(d: Delivery, id: nat, a: Attempt)
    requires id < |d.rows| && d.rows[id].status.Pending?
    requires exists l :: l in d.links && l.outboxId == id
    requires a.messageId != "" && !a.reach.Unread?
    ensures var after := FlushRow(d, id, a);
            && after.calls == d.calls + multiset{id}
            && after.rows[id] == Row(d.rows[id].mail, if d.rows[id].attempts < 4 then Pending else GivenUp,
                                     d.rows[id].attempts + 1)
            && after.links == d.links
  {
  }

  /** The messages of this flush are new to the index and to one another. */
  predicate Healthy(d: Delivery, attempt: nat -> Attempt) {
    && (forall i :: 0 <= i < |d.rows| && d.rows[i].status.Pending? ==>
          attempt(i).reach.Finished? && attempt(i).messageId != "" && !Clashes(d.links, i, attempt(i).messageId))
    && (forall i, j :: 0 <= i < j < |d.rows| && d.rows[i].status.Pending? && d.rows[j].status.Pending? ==>
          attempt(i).messageId != attempt(j).messageId)
  }

  /** The links of the rows of this flush. */
  function NewLinks(rows: seq<Row>, ids: seq<nat>, attempt: nat -> Attempt): seq<Link>
    requires forall k :: 0 <= k < |ids| ==> ids[k] < |rows|
  {
    seq(|ids|, k requires 0 <= k < |ids| => Link(ids[k], rows[ids[k]].mail.jobId, attempt(ids[k]).messageId))
  }

  lemma OneMoreLink(rows: seq<Row>, ids: seq<nat>, attempt: nat -> Attempt, n: nat)
    requires forall k :: 0 <= k < |ids| ==> ids[k] < |rows|
    requires n == |ids| - 1
    ensures NewLinks(rows, ids, attempt)
            == NewLinks(rows, ids[..n], attempt) + [Link(ids[n], rows[ids[n]].mail.jobId, attempt(ids[n]).messageId)]
  {
  }

  lemma StaysUnlinked(d: Delivery, ids: seq<nat>, attempt: nat -> Attempt, n: nat)
    requires Healthy(d, attempt) && PendingAt(d.rows, ids) && Increasing(ids) && n < |ids|
    ensures !Clashes(d.links + NewLinks(d.rows, ids[..n], attempt), ids[n], attempt(ids[n]).messageId)
  {
    assert forall k :: 0 <= k < n ==> ids[k] < ids[n];
  }

  predicate NowSent(before: seq<Row>, after: seq<Row>, ids: seq<nat>) {
    && |after| == |before|
    && forall i :: 0 <= i < |before| ==> after[i] == if i in ids then before[i].(status := Sent) else before[i]
  }

  lemma NowSentSnoc(before: seq<Row>, between: seq<Row>, after: seq<Row>, init: seq<nat>, last: nat)
    requires NowSent(before, between, init) && last < |before| && last !in init
    requires after == between[last := Row(between[last].mail, Sent, between[last].attempts)]
    ensures NowSent(before, after, init + [last])
  {
    assert between[last] == before[last];
  }

  predicate SentAndLinked(d: Delivery, after: Delivery, ids: seq<nat>, attempt: nat -> Attempt)
    requires forall k :: 0 <= k < |ids| ==> ids[k] < |d.rows|
  {
    && NowSent(d.rows, after.rows, ids)
    && after.links == d.links + NewLinks(d.rows, ids, attempt)
    && after.calls == d.calls + multiset(ids)
  }

  lemma NextHealthy(d: Delivery, between: Delivery, ids: seq<nat>, n: nat, attempt: nat -> Attempt)
    requires Healthy(d, attempt) && PendingAt(d.rows, ids) && Increasing(ids) && n == |ids| - 1
    requires SentAndLinked(d, between, ids[..n], attempt) && |between.rows| == |d.rows|
    ensures SentAndLinked(d, FlushRow(between, ids[n], attempt(ids[n])), ids, attempt)
  {
    hide Healthy, Clashes, NewLinks, FlushRow, NowSent;
    var last := ids[n];
    StaysUnlinked(d, ids, attempt, n);
    IsFinished(d, attempt, last);
    SameMails(d.rows, between.rows, ids[..n], last);
    FlushRowDelivers(between, last, attempt(last));
    OneMoreLink(d.rows, ids, attempt, n);
    LastIsNew(ids);
    NowSentSnoc(d.rows, between.rows, FlushRow(between, last, attempt(last)).rows, ids[..n], last);
    assert ids == ids[..n] + [last];
  }

  lemma {:induction false} HealthyRows(d: Delivery, ids: seq<nat>, attempt: nat -> Attempt)
    requires Healthy(d, attempt) && PendingAt(d.rows, ids) && Increasing(ids)
    ensures SentAndLinked(d, FlushRows(d, ids, attempt), ids, attempt)
  {
    if ids == [] {
      assert d.links + NewLinks(d.rows, ids, attempt) == d.links;
    } else {
      hide Healthy, FlushRow, SentAndLinked;
      var n := |ids| - 1;
      HealthyRows(d, ids[..n], attempt);
      NextHealthy(d, FlushRows(d, ids[..n], attempt), ids, n, attempt);
    }
  }

  lemma SameMails(before: seq<Row>, after: seq<Row>, ids: seq<nat>, i: nat)
    requires NowSent(before, after, ids) && i < |before|
    ensures |after| == |before| && after[i].mail == before[i].mail
  {
  }

  lemma IsFinished(d: Delivery, attempt: nat -> Attempt, i: nat)
    requires Healthy(d, attempt) && i < |d.rows| && d.rows[i].status.Pending?
    ensures attempt(i).reach.Finished? && attempt(i).messageId != ""
  {
  }

  /** When no call of a flush fails, every pending row is sent by one call, and linked once; nothing else is touched. */
  lemma HealthyFlushSends(d: Delivery, attempt: nat -> Attempt)
    requires Healthy(d, attempt)
    ensures var after := Flush(d, attempt);
            && |after.rows| == |d.rows|
            && (forall i :: 0 <= i < |d.rows| ==>
                  after.rows[i] == if d.rows[i].status.Pending? then d.rows[i].(status := Sent) else d.rows[i])
            && after.links == d.links + NewLinks(d.rows, PendingIds(d.rows), attempt)
            && after.calls == d.calls + multiset(PendingIds(d.rows))
  {
    hide Healthy, FlushRows;
    HealthyRows(d, PendingIds(d.rows), attempt);
  }

  /** When no call fails, the weekly program sends and links every pending report mail, and touches nothing else. */
  lemma HealthyReportsAreSent(s: State, attempt: nat -> Attempt)
    requires Healthy(s.d, attempt)
    ensures var after := Step(s, FlushReports(attempt));
            && |after.d.rows| == |s.d.rows|
            && (forall i :: 0 <= i < |s.d.rows| ==>
                  after.d.rows[i] == if s.d.rows[i].status.Pending? && IsReport(s.d.rows[i].mail)
                                     then s.d.rows[i].(status := Sent) else s.d.rows[i])
            && after.d.links == s.d.links + NewLinks(s.d.rows, PendingReports(s.d.rows), attempt)
            && after.d.calls == s.d.calls + multiset(PendingReports(s.d.rows))
            && after.d.jobs == s.d.jobs && after.crashes == s.crashes
  {
    hide Healthy, FlushRows, IsReport;
    HealthyRows(s.d, PendingReports(s.d.rows), attempt);
  }

  lemma {:induction false} OnlyPending(rows: seq<Row>, row: Row)
    requires rows == [row] && row.status.Pending?
    ensures PendingIds(rows) == [0]
  {
    assert rows[..0] == [];
    assert PendingIds(rows[..0]) == [];
  }

  lemma FlushOfOne(d: Delivery, attempt: nat -> Attempt)
    requires |d.rows| == 1 && d.rows[0].status.Pending?
    ensures Flush(d, attempt) == FlushRow(d, 0, attempt(0))
  {
    OnlyPending(d.rows, d.rows[0]);
    FlushOneMore(d, [0], 0, attempt);
    assert [0][..0] == [] && [0][..1] == [0];
  }

  /** The attempts of every row go the same way. */
  function Always(reach: Reach, messageId: string): nat -> Attempt {
    (id: nat) => Attempt(reach, messageId)
  }

  lemma ThreeSteps(s: State, e1: Event, e2: Event, e3: Event)
    ensures Run(s, [e1, e2, e3]) == Step(Step(Step(s, e1), e2), e3)
  {
    hide Step;
    assert [e1, e2, e3][1..] == [e2, e3] && [e2, e3][1..] == [e3] && [e3][1..] == [];
    assert Run(Step(Step(s, e1), e2), [e3]) == Step(Step(Step(s, e1), e2), e3);
    assert Run(Step(s, e1), [e2, e3]) == Run(Step(Step(s, e1), e2), [e3]);
  }

  lemma FirstAttempt(d: Delivery, mail: Mail, messageId: string)
    requires d.rows == [Row(mail, Pending, 0)]
    ensures FlushRow(d, 0, Attempt(Marked, messageId))
            == d.(rows := [Row(mail, Pending, 1)], calls := d.calls + multiset{0})
  {
  }

  lemma SecondAttempt(d: Delivery, mail: Mail, messageId: string)
    requires d.rows == [Row(mail, Pending, 1)] && d.links == []
    ensures var after := FlushRow(d, 0, Attempt(Finished, messageId));
            after.rows == [Row(mail, Sent, 1)] && after.calls == d.calls + multiset{0}
  {
  }

  /** Any mail is sent twice when the index cannot be written at the first attempt and nothing fails at the second. */
  lemma SentTwice(mail: Mail, first: string, second: string)
    ensures var s := Run(Initial, [Enqueue(mail), FlushAll(Always(Marked, first)), FlushAll(Always(Finished, second))]);
            s.d.calls[0] == 2 && |s.d.rows| == 1 && s.d.rows[0].status.Sent? && s.crashes == 0
  {
    hide Flush, FlushRow, Run;
    var e1, e2, e3 := Enqueue(mail), FlushAll(Always(Marked, first)), FlushAll(Always(Finished, second));
    var s1 := Step(Initial, e1);
    FlushOfOne(s1.d, Always(Marked, first));
    var s2 := Step(s1, e2);
    FirstAttempt(s1.d, mail, first);
    FlushOfOne(s2.d, Always(Finished, second));
    SecondAttempt(s2.d, mail, second);
    ThreeSteps(Initial, e1, e2, e3);
  }

  lemma OnlyReport(rows: seq<Row>)
    requires |rows| == 1 && rows[0].status.Pending? && IsReport(rows[0].mail)
    ensures PendingReports(rows) == [0]
  {
    assert rows[..0] == [] && PendingReports(rows[..0]) == [];
  }

  lemma CutAtTheFirst(d: Delivery, reach: Reach, messageId: string)
    requires |d.rows| == 1
    ensures CutShort(d, [0], Always(reach, messageId), 0) == Effects(d, 0, Attempt(reach, messageId))
  {
    assert [0][..0] == [];
  }

  /** A flush that dies after the sending leaves the mail pending with no failure recorded, so it is sent again. */
  lemma CrashSendsAgain(mail: Mail, first: string, second: string)
    ensures var s := Run(Initial, [Enqueue(mail), CrashInFlush(Always(Called, first), 0), FlushAll(Always(Finished, second))]);
            s.d.calls[0] == 2 && s.d.rows == [Row(mail, Sent, 0)] && s.crashes == 1
    ensures IsReport(mail) ==>
              var s := Run(Initial, [Enqueue(mail), CrashInReports(Always(Called, first), 0), FlushReports(Always(Finished, second))]);
              s.d.calls[0] == 2 && s.d.rows == [Row(mail, Sent, 0)] && s.crashes == 1
  {
    hide Flush, FlushRow, FlushRows, Run, CutShort, IsReport, PendingIds, PendingReports;
    var e1 := Enqueue(mail);
    var s1 := Step(Initial, e1);
    var cut := s1.d.(calls := s1.d.calls + multiset{0});
    OnlyPending(s1.d.rows, s1.d.rows[0]);
    CutAtTheFirst(s1.d, Called, first);
    FlushOfOne(cut, Always(Finished, second));
    FlushRowDelivers(cut, 0, Attempt(Finished, second));
    ThreeSteps(Initial, e1, CrashInFlush(Always(Called, first), 0), FlushAll(Always(Finished, second)));
    if IsReport(mail) {
      OnlyReport(s1.d.rows);
      FlushOneMore(cut, [0], 0, Always(Finished, second));
      FlushNone(cut, Always(Finished, second));
      assert [0][..0] == [] && [0][..1] == [0];
      ThreeSteps(Initial, e1, CrashInReports(Always(Called, first), 0), FlushReports(Always(Finished, second)));
    }
  }

  /** Whatever else happens to the jobs, as long as it leaves the last responses alone, may happen in a run. */
  lemma OtherWorkHappens(s: State, jobs: map<string, Job>)
    ensures KeepsResponses(s.d.jobs, jobs) ==> Step(s, OtherWork(jobs)) == s.(d := s.d.(jobs := jobs))
  {
  }

  function Repeated(e: Event, n: nat): seq<Event> {
    if n == 0 then [] else [e] + Repeated(e, n - 1)
  }

  lemma {:induction false} SentAgainAndAgain(s: State, mail: Mail, n: nat, k: nat, messageId: string)
    requires s.d.rows == [Row(mail, Pending, n)] && 1 <= k == 5 - n && messageId != ""
    requires exists l :: l in s.d.links && l.outboxId == 0
    ensures var after := Run(s, Repeated(FlushAll(Always(Finished, messageId)), k));
            && after.d.rows == [Row(mail, GivenUp, 5)] && after.d.calls == s.d.calls + multiset(seq(k, _ => 0))
            && after.crashes == s.crashes
    decreases k
  {
    hide Flush, FlushRow;
    var e := FlushAll(Always(Finished, messageId));
    FlushOfOne(s.d, Always(Finished, messageId));
    LinkedRowIsSentInVain(s.d, 0, Attempt(Finished, messageId));
    var next := Step(s, e);
    assert Repeated(e, k)[0] == e && Repeated(e, k)[1..] == Repeated(e, k - 1);
    assert next.d.rows == [next.d.rows[0]];
    assert seq(k, _ => 0) == [0] + seq(k - 1, _ => 0);
    if k > 1 {
      SentAgainAndAgain(next, mail, n + 1, k - 1, messageId);
    } else {
      assert Repeated(e, 0) == [] && seq(0, _ => 0) == [];
      assert Run(next, []) == next;
    }
  }

  /**
   * The bound of five is attained without any crash: once the index has a mail's message but its
   * job could not be told, every later attempt sends the mail once more, and it ends as given up.
   */
  lemma SentFiveTimes(mail: Mail, first: string, second: string)
    requires first != "" && second != ""
    ensures var s := Run(Initial, [Enqueue(mail), FlushAll(Always(Linked, first))]
                                  + Repeated(FlushAll(Always(Finished, second)), 4));
            s.d.calls[0] == 5 && s.d.rows == [Row(mail, GivenUp, 5)] && s.crashes == 0
  {
    hide Flush, FlushRow, Run;
    var e1, e2, rest := Enqueue(mail), FlushAll(Always(Linked, first)), Repeated(FlushAll(Always(Finished, second)), 4);
    var s1 := Step(Initial, e1);
    FlushOfOne(s1.d, Always(Linked, first));
    FlushRowDelivers(s1.d, 0, Attempt(Linked, first));
    var s2 := Step(s1, e2);
    assert s2.d.rows == [s2.d.rows[0]] && s2.d.links == [Link(0, mail.jobId, first)];
    assert s2.d.links[0] in s2.d.links;
    SentAgainAndAgain(s2, mail, 1, 4, second);
    TwoSteps(Initial, e1, e2, rest);
    assert multiset(seq(4, _ => 0))[0] == 4 by {
      assert seq(4, _ => 0) == [0, 0, 0, 0];
    }
  }

  lemma TwoSteps(s: State, e1: Event, e2: Event, rest: seq<Event>)
    ensures Run(s, [e1, e2] + rest) == Run(Step(Step(s, e1), e2), rest)
  {
    hide Step;
    assert ([e1, e2] + rest)[1..] == [e2] + rest && ([e2] + rest)[1..] == rest;
    assert Run(Step(s, e1), [e2] + rest) == Run(Step(Step(s, e1), e2), rest);
  }

  // ---- progress -------------------------------------------------------------------------

  function Flushes(d: Delivery, attempts: seq<nat -> Attempt>): Delivery {
    if attempts == [] then d
    else Flush(Flushes(d, attempts[..|attempts| - 1]), attempts[|attempts| - 1])
  }

  lemma {:induction false} AttemptsGrow(s: State, attempts: seq<nat -> Attempt>)
    requires Inv(s)
    ensures var after := Flushes(s.d, attempts);
            && Inv(State(after, s.crashes)) && |after.rows| == |s.d.rows|
            && forall i :: 0 <= i < |after.rows| && after.rows[i].status.Pending? ==> after.rows[i].attempts >= |attempts|
  {
    if attempts != [] {
      var init, last := attempts[..|attempts| - 1], attempts[|attempts| - 1];
      AttemptsGrow(s, init);
      var before := Flushes(s.d, init);
      FlushRowsKeepsInv(before, s.crashes, PendingIds(before.rows), last);
      StepKeepsInv(State(before, s.crashes), FlushAll(last));
    }
  }

  /** From any state of any run, five flushes without new mail or a crash leave nothing pending, whatever fails. */
  lemma FiveFlushesSettle(events: seq<Event>, attempts: seq<nat -> Attempt>)
    requires |attempts| == 5
    ensures PendingIds(Flushes(Run(Initial, events).d, attempts).rows) == []
  {
    hide Flushes, Run;
    RunKeepsInv(Initial, events);
    AttemptsGrow(Run(Initial, events), attempts);
    var after := Flushes(Run(Initial, events).d, attempts);
    forall i | 0 <= i < |after.rows|
      ensures !after.rows[i].status.Pending?
    {
      assert RowOk(after.rows[i]);
    }
    NothingPending(after.rows);
  }

  lemma {:induction false} NothingPending(rows: seq<Row>)
    requires forall i :: 0 <= i < |rows| ==> !rows[i].status.Pending?
    ensures PendingIds(rows) == []
  {
    if rows != [] {
      NothingPending(rows[..|rows| - 1]);
    }
  }
}
