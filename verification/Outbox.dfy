/** The outbound queue, its delivery, and the index of sent messages that later replies are looked up in. */
module Outbox {
  import opened Wrappers
  import opened JobStore

  datatype AlertCategory =
    | UnauthorisedSender
    | LlmParseFailure
    | BackendSubmissionFailure
    | AssessQueryFailure
    | Infrastructure

  datatype MailKind =
    | Ack
    | Clarification
    | ClarificationReceived
    | Completion
    | AssessResult
    | FailureNotice
    | CancelledNotice
    | CannotCancel
    | StatusReport
    | ResultsReport
    | HelpText
    | Unrecognised
    | ReportReply
    | Alert(category: AlertCategory)

  /** A mail without its wording. */
  datatype Mail = Mail(
    jobId: Option<string>,
    to: string,
    kind: MailKind,
    inReplyTo: Option<string>,
    references: Option<string>)

  datatype OutboxStatus = Pending | Sent | GivenUp

  /** The row's identifier is its position in the table. */
  datatype Row = Row(mail: Mail, status: OutboxStatus, attempts: nat)

  datatype Link = Link(outboxId: nat, jobId: Option<string>, messageId: string)

  const MAX_SEND_ATTEMPTS := 5

  function FailedRow(row: Row): Row {
    row.(attempts := row.attempts + 1,
         status := if row.attempts + 1 >= MAX_SEND_ATTEMPTS then GivenUp else Pending)
  }

  /** The two UNIQUE constraints of message_links. */
  predicate Clashes(links: seq<Link>, id: nat, messageId: string) {
    exists l :: l in links && (l.outboxId == id || l.messageId == messageId)
  }

  function PendingIds(rows: seq<Row>): (ids: seq<nat>)
    ensures forall k :: 0 <= k < |ids| ==> ids[k] < |rows| && rows[ids[k]].status.Pending?
    ensures forall i :: 0 <= i < |rows| && rows[i].status.Pending? ==> i in ids
    ensures forall j, k :: 0 <= j < k < |ids| ==> ids[j] < ids[k]
  {
    if rows == [] then []
    else
      var n := |rows| - 1;
      var before := PendingIds(rows[..n]);
      assert forall k :: 0 <= k < |before| ==> before[k] < n;
      before + (if rows[n].status.Pending? then [n] else [])
  }

  /** The mails that are not alerts to the administrator. */
  function Replies(rows: seq<Row>): seq<Mail> {
    if rows == [] then []
    else
      var last := rows[|rows| - 1].mail;
      Replies(rows[..|rows| - 1]) + (if last.kind.Alert? then [] else [last])
  }

  /** The alerts to the administrator. */
  function AlertMails(rows: seq<Row>): seq<Mail> {
    if rows == [] then []
    else
      var last := rows[|rows| - 1].mail;
      AlertMails(rows[..|rows| - 1]) + (if last.kind.Alert? then [last] else [])
  }

  lemma RepliesSnoc(rows: seq<Row>, row: Row)
    ensures Replies(rows + [row]) == Replies(rows) + (if row.mail.kind.Alert? then [] else [row.mail])
    ensures AlertMails(rows + [row]) == AlertMails(rows) + (if row.mail.kind.Alert? then [row.mail] else [])
  {
    assert (rows + [row])[..|rows|] == rows;
  }

  class Outbox {
    var rows: seq<Row>
    var links: seq<Link>

    constructor ()
      ensures rows == [] && links == []
    {
      rows, links := [], [];
    }

    method Enqueue(mail: Mail)
      modifies this`rows
      ensures rows == old(rows) + [Row(mail, Pending, 0)]
    {
      rows := rows + [Row(mail, Pending, 0)];
    }

    /** The status is written before the link is, and stays written when the link cannot be. */
    method MarkSent(id: nat, messageId: string, databaseFails: bool) returns (ok: bool)
      requires id < |rows|
      modifies this
      ensures rows == old(rows)[id := old(rows)[id].(status := Sent)]
      ensures ok <==> !databaseFails && (messageId == "" || !Clashes(old(links), id, messageId))
      ensures links == if ok && messageId != "" then old(links) + [Link(id, old(rows)[id].mail.jobId, messageId)]
                       else old(links)
    {
      rows := rows[id := rows[id].(status := Sent)];
      if databaseFails || (messageId != "" && Clashes(links, id, messageId)) {
        return false;
      }
      if messageId != "" {
        links := links + [Link(id, rows[id].mail.jobId, messageId)];
      }
      return true;
    }

    method MarkFailed(id: nat)
      requires id < |rows|
      modifies this`rows
      ensures rows == old(rows)[id := Row(old(rows)[id].mail, if old(rows)[id].attempts >= 4 then GivenUp else Pending,
                                          old(rows)[id].attempts + 1)]
    {
      var attempts := rows[id].attempts + 1;
      var status := if attempts >= MAX_SEND_ATTEMPTS then GivenUp else Pending;
      rows := rows[id := rows[id].(attempts := attempts, status := status)];
    }
  }

  /** The mail provider: the send_email calls made for each outbox row, and the messages marked as read. */
  class MailClient {
    var calls: multiset<nat>
    var read: set<string>

    constructor ()
      ensures calls == multiset{} && read == {}
    {
      calls, read := multiset{}, {};
    }

    method SendEmail(id: nat)
      modifies this`calls
      ensures calls == old(calls) + multiset{id}
    {
      calls := calls + multiset{id};
    }

    method MarkProcessed(ref: string)
      modifies this`read
      ensures read == old(read) + {ref}
    {
      read := read + {ref};
    }
  }

  // ---- delivering one row ---------------------------------------------------------------

  /** How far the calls of one attempt get before one of them raises; Finished if none does. */
  datatype Reach = Unread | Called | Marked | Linked | Finished

  datatype Attempt = Attempt(reach: Reach, messageId: string)

  /** The tables that delivery touches, and the calls made so far. */
  datatype Delivery = Delivery(rows: seq<Row>, links: seq<Link>, jobs: map<string, Job>, calls: multiset<nat>)

  function Notified(jobs: map<string, Job>, jobId: Option<string>, messageId: string): map<string, Job> {
    if jobId.Some? && jobId.value != "" && jobId.value in jobs then
      jobs[jobId.value := Assign(jobs[jobId.value], LastResponse(messageId))]
    else jobs
  }

  /** How far the attempt really gets: a link that clashes is never written. */
  function Reached(d: Delivery, id: nat, a: Attempt): Reach {
    if (a.reach.Linked? || a.reach.Finished?) && a.messageId != "" && Clashes(d.links, id, a.messageId) then Marked
    else a.reach
  }

  /** What an attempt leaves behind before its failure, if any, is recorded. */
  function Effects(d: Delivery, id: nat, a: Attempt): Delivery
    requires id < |d.rows|
  {
    var reach := Reached(d, id, a);
    if reach.Unread? then d
    else
      var called := d.(calls := d.calls + multiset{id});
      if reach.Called? then called
      else
        var marked := called.(rows := d.rows[id := d.rows[id].(status := Sent)]);
        if reach.Marked? then marked
        else
          var jobId := d.rows[id].mail.jobId;
          var linked := if a.messageId == "" then marked
                        else marked.(links := d.links + [Link(id, jobId, a.messageId)]);
          if reach.Linked? then linked
          else linked.(jobs := Notified(d.jobs, jobId, a.messageId))
  }

  function FlushRow(d: Delivery, id: nat, a: Attempt): (after: Delivery)
    requires id < |d.rows|
    ensures |after.rows| == |d.rows|
  {
    var after := Effects(d, id, a);
    if Reached(d, id, a).Finished? then after else after.(rows := after.rows[id := FailedRow(after.rows[id])])
  }

  function FlushRows(d: Delivery, ids: seq<nat>, attempt: nat -> Attempt): (after: Delivery)
    requires forall k :: 0 <= k < |ids| ==> ids[k] < |d.rows|
    ensures |after.rows| == |d.rows|
  {
    if ids == [] then d
    else
      var init, last := ids[..|ids| - 1], ids[|ids| - 1];
      FlushRow(FlushRows(d, init, attempt), last, attempt(last))
  }

  function Flush(d: Delivery, attempt: nat -> Attempt): Delivery {
    FlushRows(d, PendingIds(d.rows), attempt)
  }

  lemma FlushNone(d: Delivery, attempt: nat -> Attempt)
    ensures FlushRows(d, [], attempt) == d
  {
  }

  lemma FlushIsRows(d: Delivery, attempt: nat -> Attempt)
    ensures Flush(d, attempt) == FlushRows(d, PendingIds(d.rows), attempt)
  {
  }

  lemma FlushOneMore(d: Delivery, ids: seq<nat>, k: nat, attempt: nat -> Attempt)
    requires k < |ids| && forall i :: 0 <= i < |ids| ==> ids[i] < |d.rows|
    ensures FlushRows(d, ids[..k + 1], attempt) == FlushRow(FlushRows(d, ids[..k], attempt), ids[k], attempt(ids[k]))
  {
    assert ids[..k + 1][..k] == ids[..k];
  }

  /** The job whose sender a delivered mail is for remembers it as the last response. */
  predicate Delivered(before: Delivery, after: Delivery, id: nat, messageId: string)
    requires id < |before.rows|
  {
    var row := before.rows[id];
    var about := row.mail.jobId;
    && after.rows == before.rows[id := Row(row.mail, Sent, row.attempts)]
    && after.links == before.links + (if messageId == "" then [] else [Link(id, about, messageId)])
    && after.jobs == (if about.Some? && about.value != "" && about.value in before.jobs then
                        before.jobs[about.value := before.jobs[about.value].(lastResponse := Some(messageId))]
                      else before.jobs)
    && after.calls == before.calls + multiset{id}
  }

  /** The failure is counted, and the fifth is the last; what was done before it stays done. */
  predicate Undelivered(before: Delivery, after: Delivery, id: nat, a: Attempt)
    requires id < |before.rows|
  {
    var row := before.rows[id];
    && after.rows == before.rows[id := Row(row.mail, if row.attempts >= 4 then GivenUp else Pending, row.attempts + 1)]
    && after.links == before.links + (if a.reach.Linked? && a.messageId != "" && !Clashes(before.links, id, a.messageId)
                                      then [Link(id, row.mail.jobId, a.messageId)] else [])
    && after.jobs == before.jobs
    && after.calls == before.calls + (if a.reach.Unread? then multiset{} else multiset{id})
  }

  lemma FlushRowDelivers(d: Delivery, id: nat, a: Attempt)
    requires id < |d.rows|
    ensures if a.reach.Finished? && (a.messageId == "" || !Clashes(d.links, id, a.messageId))
            then Delivered(d, FlushRow(d, id, a), id, a.messageId) else Undelivered(d, FlushRow(d, id, a), id, a)
  {
    hide Clashes;
  }

  method DeliverRow(outbox: Outbox, jobStore: JobStore, client: MailClient, id: nat, a: Attempt)
    returns (sent: bool)
    requires jobStore.Valid() && id < |outbox.rows|
    modifies outbox, jobStore`jobs, client`calls
    ensures jobStore.Valid()
    ensures sent <==> a.reach.Finished? && (a.messageId == "" || !Clashes(old(outbox.links), id, a.messageId))
    ensures var before := Delivery(old(outbox.rows), old(outbox.links), old(jobStore.jobs), old(client.calls));
            var after := Delivery(outbox.rows, outbox.links, jobStore.jobs, client.calls);
            && (if sent then Delivered(before, after, id, a.messageId) else Undelivered(before, after, id, a))
            && after == FlushRow(before, id, a)
  {
    hide Clashes, FlushRow;
    ghost var before := Delivery(outbox.rows, outbox.links, jobStore.jobs, client.calls);
    var raised := a.reach.Unread?;
    if !raised {
      client.SendEmail(id);
      raised := a.reach.Called?;
    }
    if !raised {
      var ok := outbox.MarkSent(id, a.messageId, a.reach.Marked?);
      raised := !ok || a.reach.Linked?;
    }
    if !raised {
      var jobId := outbox.rows[id].mail.jobId;
      if jobId.Some? && jobId.value != "" {
        jobStore.Update(jobId.value, LastResponse(a.messageId));
      }
    } else {
      outbox.MarkFailed(id);
    }
    sent := !raised;
    FlushRowDelivers(before, id, a);
  }

  lemma OneRowDelivered(d: Delivery, id: nat, a: Attempt)
    requires id < |d.rows| && d.rows[id].status.Pending?
    ensures var after := FlushRow(d, id, a);
            && (forall i :: 0 <= i < |d.rows| && i != id ==> after.rows[i] == d.rows[i])
            && SentRows(after.rows) == SentRows(d.rows)
                 + (if a.reach.Finished? && (a.messageId == "" || !Clashes(d.links, id, a.messageId)) then 1 else 0)
  {
    hide FlushRow, Clashes;
    FlushRowDelivers(d, id, a);
    OneRowWritten(d.rows, id, FlushRow(d, id, a).rows[id]);
  }

  function SentRows(rows: seq<Row>): nat {
    if rows == [] then 0
    else SentRows(rows[..|rows| - 1]) + (if rows[|rows| - 1].status.Sent? then 1 else 0)
  }

  lemma {:induction false} OneRowWritten(rows: seq<Row>, i: nat, row: Row)
    requires i < |rows|
    ensures SentRows(rows[i := row])
            == SentRows(rows) - (if rows[i].status.Sent? then 1 else 0) + (if row.status.Sent? then 1 else 0)
  {
    var n := |rows| - 1;
    if i == n {
      assert rows[i := row][..n] == rows[..n];
    } else {
      assert rows[i := row][..n] == rows[..n][i := row];
      OneRowWritten(rows[..n], i, row);
    }
  }

  method FlushOutbox(outbox: Outbox, jobStore: JobStore, client: MailClient, attempt: nat -> Attempt)
    returns (sent: nat)
    requires jobStore.Valid()
    modifies outbox, jobStore`jobs, client`calls
    ensures jobStore.Valid()
    ensures Delivery(outbox.rows, outbox.links, jobStore.jobs, client.calls)
            == Flush(Delivery(old(outbox.rows), old(outbox.links), old(jobStore.jobs), old(client.calls)), attempt)
    ensures SentRows(outbox.rows) == SentRows(old(outbox.rows)) + sent
  {
    hide *;
    ghost var before := Delivery(outbox.rows, outbox.links, jobStore.jobs, client.calls);
    var ids := PendingIds(outbox.rows);
    sent := 0;
    FlushNone(before, attempt);
    FlushIsRows(before, attempt);
    for k := 0 to |ids|
      invariant jobStore.Valid() && |outbox.rows| == |before.rows|
      invariant Delivery(outbox.rows, outbox.links, jobStore.jobs, client.calls) == FlushRows(before, ids[..k], attempt)
      invariant forall i :: k <= i < |ids| ==> outbox.rows[ids[i]] == before.rows[ids[i]]
      invariant SentRows(outbox.rows) == SentRows(before.rows) + sent
    {
      FlushOneMore(before, ids, k, attempt);
      OneRowDelivered(Delivery(outbox.rows, outbox.links, jobStore.jobs, client.calls), ids[k], attempt(ids[k]));
      var delivered := DeliverRow(outbox, jobStore, client, ids[k], attempt(ids[k]));
      if delivered {
        sent := sent + 1;
      }
    }
    assert ids[..|ids|] == ids;
  }
}
