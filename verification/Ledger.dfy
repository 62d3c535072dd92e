/** The inbound ledger: deduplication by Message-ID and a retry budget for attempts that never finished. */
module Ledger {
  import opened Wrappers

  datatype Outcome =
    | UnrecognisedSenderReplied
    | RejectedSilently
    | WeeklyReportReply
    | ClarificationSent
    | ClarificationApplied
    | LlmParseFailed
    | CommandRejected
    | Handled

  /** An outcome of None is the source's 'in_progress'. */
  datatype Row = Row(attempts: nat, outcome: Option<Outcome>)

  const MAX_PROCESSING_ATTEMPTS := 3

  /** Whether begin lets the message through. */
  predicate MayBegin(rows: map<string, Row>, id: string) {
    id !in rows || (rows[id].outcome.None? && rows[id].attempts < MAX_PROCESSING_ATTEMPTS)
  }

  function Begun(rows: map<string, Row>, id: string): map<string, Row> {
    if !MayBegin(rows, id) then rows
    else if id !in rows then rows[id := Row(1, None)]
    else rows[id := rows[id].(attempts := rows[id].attempts + 1)]
  }

  function Finalized(rows: map<string, Row>, id: string, outcome: Outcome): map<string, Row> {
    if id in rows then rows[id := rows[id].(outcome := Some(outcome))] else rows
  }

  class ProcessedMessageStore {
    var rows: map<string, Row>

    constructor ()
      ensures rows == map[]
    {
      rows := map[];
    }

    /** INSERT, and on a collision a bounded number of further attempts while the row is in progress. */
    method Begin(id: string) returns (go: bool)
      modifies this
      ensures go <==> id !in old(rows) || (old(rows)[id].outcome.None? && old(rows)[id].attempts < 3)
      ensures rows == if !go then old(rows)
                      else old(rows)[id := Row(if id in old(rows) then old(rows)[id].attempts + 1 else 1, None)]
      ensures go <==> MayBegin(old(rows), id)
      ensures rows == Begun(old(rows), id)
    {
      if id !in rows {
        rows := rows[id := Row(1, None)];
        return true;
      }
      var row := rows[id];
      if row.outcome.None? && row.attempts < MAX_PROCESSING_ATTEMPTS {
        rows := rows[id := row.(attempts := row.attempts + 1)];
        return true;
      }
      return false;
    }

    method Finalize(id: string, outcome: Outcome)
      modifies this
      ensures rows == if id in old(rows) then old(rows)[id := Row(old(rows)[id].attempts, Some(outcome))] else old(rows)
      ensures rows == Finalized(old(rows), id, outcome)
    {
      if id in rows {
        rows := rows[id := rows[id].(outcome := Some(outcome))];
      }
    }
  }

  // ---- handling messages ----------------------------------------------------------------

  /** A message as the mailbox knows it: its Message-ID, and the provider's own reference, which is unique. */
  datatype Incoming = Incoming(id: string, ref: string)

  /** How an attempt that was let through goes: whether it creates a job, and how it is finalised, if it is. */
  datatype Attempt = Attempt(creates: bool, outcome: Option<Outcome>)

  /**
   * The ledger and the references marked as read; and as history, for each message, the jobs created,
   * the attempts that were let through and did not finish, and those of them that had created a job.
   */
  datatype Mailbox = Mailbox(
    rows: map<string, Row>,
    read: set<string>,
    created: map<string, nat>,
    unfinished: map<string, nat>,
    torn: map<string, nat>)

  const Fresh := Mailbox(map[], {}, map[], map[], map[])

  function Tally(counts: map<string, nat>, id: string): nat {
    if id in counts then counts[id] else 0
  }

  function OneMore(counts: map<string, nat>, id: string): map<string, nat> {
    counts[id := Tally(counts, id) + 1]
  }

  function Created(b: Mailbox, id: string): nat {
    Tally(b.created, id)
  }

  /** One pass of _process_message: refused, finished and marked, or left in progress and unread. */
  function Handle(b: Mailbox, m: Incoming, a: Attempt): Mailbox {
    if !MayBegin(b.rows, m.id) then b.(read := b.read + {m.ref})
    else
      var created := if a.creates then OneMore(b.created, m.id) else b.created;
      if a.outcome.Some? then
        b.(rows := Finalized(Begun(b.rows, m.id), m.id, a.outcome.value), read := b.read + {m.ref}, created := created)
      else
        b.(rows := Begun(b.rows, m.id), created := created, unfinished := OneMore(b.unfinished, m.id),
           torn := if a.creates then OneMore(b.torn, m.id) else b.torn)
  }

  function HandleAll(b: Mailbox, batch: seq<Incoming>, attempts: seq<Attempt>): Mailbox
    requires |attempts| == |batch|
  {
    if batch == [] then b
    else
      var n := |batch| - 1;
      Handle(HandleAll(b, batch[..n], attempts[..n]), batch[n], attempts[n])
  }

  // ---- what holds for each Message-ID over every run ------------------------------------

  /** Everything a mailbox says of one message. */
  datatype Account = Account(row: Option<Row>, created: nat, unfinished: nat, torn: nat)

  function AccountOf(b: Mailbox, id: string): Account {
    Account(if id in b.rows then Some(b.rows[id]) else None, Created(b, id), Tally(b.unfinished, id), Tally(b.torn, id))
  }

  predicate Open(acc: Account) {
    acc.row.None? || (acc.row.value.outcome.None? && acc.row.value.attempts < MAX_PROCESSING_ATTEMPTS)
  }

  function NextAccount(acc: Account, a: Attempt): Account {
    if !Open(acc) then acc
    else
      Account(Some(Row(if acc.row.None? then 1 else acc.row.value.attempts + 1, a.outcome)),
              acc.created + (if a.creates then 1 else 0),
              acc.unfinished + (if a.outcome.None? then 1 else 0),
              acc.torn + (if a.outcome.None? && a.creates then 1 else 0))
  }

  /** A message is affected by its own deliveries only. */
  lemma HandleOnAccount(b: Mailbox, m: Incoming, a: Attempt, id: string)
    ensures AccountOf(Handle(b, m, a), id) == if m.id == id then NextAccount(AccountOf(b, id), a) else AccountOf(b, id)
    ensures MayBegin(b.rows, id) <==> Open(AccountOf(b, id))
  {
    if m.id == id {
      HandleOwn(b, m, a);
    } else {
      HandleOther(b, m, a, id);
    }
  }

  lemma HandleOwn(b: Mailbox, m: Incoming, a: Attempt)
    ensures AccountOf(Handle(b, m, a), m.id) == NextAccount(AccountOf(b, m.id), a)
  {
    hide OneMore, Tally;
    CountedOnceMore(b.created, m.id);
    CountedOnceMore(b.unfinished, m.id);
    CountedOnceMore(b.torn, m.id);
  }

  lemma CountedOnceMore(counts: map<string, nat>, id: string)
    ensures Tally(OneMore(counts, id), id) == Tally(counts, id) + 1
  {
  }

  lemma HandleOther(b: Mailbox, m: Incoming, a: Attempt, id: string)
    requires m.id != id
    ensures AccountOf(Handle(b, m, a), id) == AccountOf(b, id)
  {
  }

  predicate Sound(acc: Account) {
    match acc.row
    case None => acc.created == 0 && acc.torn == 0 && acc.unfinished == 0
    case Some(row) =>
      var closed := if row.outcome.Some? then 1 else 0;
      && 1 <= row.attempts <= MAX_PROCESSING_ATTEMPTS
      && acc.unfinished + closed == row.attempts
      && acc.created <= acc.torn + closed
      && acc.torn <= acc.unfinished
  }

  predicate IdOk(b: Mailbox, id: string) {
    Sound(AccountOf(b, id))
  }

  lemma HandleKeepsId(b: Mailbox, m: Incoming, a: Attempt, id: string)
    requires IdOk(b, id)
    ensures IdOk(Handle(b, m, a), id)
  {
    hide Handle, AccountOf;
    HandleOnAccount(b, m, a, id);
  }

  lemma {:induction false} RunKeepsIds(batch: seq<Incoming>, attempts: seq<Attempt>, id: string)
    requires |attempts| == |batch|
    ensures IdOk(HandleAll(Fresh, batch, attempts), id)
  {
    if batch != [] {
      hide Handle;
      var n := |batch| - 1;
      RunKeepsIds(batch[..n], attempts[..n], id);
      HandleKeepsId(HandleAll(Fresh, batch[..n], attempts[..n]), batch[n], attempts[n], id);
    }
  }

  /**
   * For each Message-ID, in any sequence of deliveries under any provider references, with any
   * attempts raising, deferring or crashing: at most three attempts are let through; the jobs
   * created are no more than the attempts that created one and were cut short, and one more if the
   * message was finalised. So a message none of whose attempts was cut short after creating a job
   * has at most one, however often it was deferred.
   */
  lemma {:induction false} JobsPerMessage(batch: seq<Incoming>, attempts: seq<Attempt>, id: string)
    requires |attempts| == |batch|
    ensures var b := HandleAll(Fresh, batch, attempts);
            && (id in b.rows ==> Created(b, id) <= b.rows[id].attempts <= 3)
            && Created(b, id) <= Tally(b.torn, id) + (if id in b.rows && b.rows[id].outcome.Some? then 1 else 0)
            && (id !in b.rows ==> Created(b, id) == 0)
            && (Tally(b.torn, id) == 0 ==> Created(b, id) <= 1)
  {
    RunKeepsIds(batch, attempts, id);
  }

  // ---- which messages are given up ------------------------------------------------------

  /** The provider's reference stands for one message. */
  predicate RefersTo(batch: seq<Incoming>, m: Incoming) {
    forall i :: 0 <= i < |batch| && batch[i].ref == m.ref ==> batch[i].id == m.id
  }

  lemma {:induction false} MarkedWhenDone(batch: seq<Incoming>, attempts: seq<Attempt>, m: Incoming)
    requires |attempts| == |batch| && RefersTo(batch, m)
    ensures var b := HandleAll(Fresh, batch, attempts);
            m.ref in b.read ==> m.id in b.rows && !MayBegin(b.rows, m.id)
  {
    if batch != [] {
      var n := |batch| - 1;
      MarkedWhenDone(batch[..n], attempts[..n], m);
    }
  }

  /**
   * A message that is marked as read has been finalised, or else three attempts were let through
   * and none of them finished: it is given up exactly then. Deferrals count like any other
   * attempt that does not finish.
   */
  lemma {:induction false} GivenUpExactly(batch: seq<Incoming>, attempts: seq<Attempt>, m: Incoming)
    requires |attempts| == |batch| && RefersTo(batch, m)
    requires m.ref in HandleAll(Fresh, batch, attempts).read
    ensures var b := HandleAll(Fresh, batch, attempts);
            && m.id in b.rows
            && (b.rows[m.id].outcome.None? <==> Tally(b.unfinished, m.id) == 3)
  {
    hide HandleAll;
    MarkedWhenDone(batch, attempts, m);
    RunKeepsIds(batch, attempts, m.id);
  }

  const Deferral := Attempt(false, None)

  /** A message deferred at three polls is given up at the fourth, though nothing ever went wrong with it. */
  lemma ThreeDeferralsGiveUp(m: Incoming, fourth: Attempt)
    ensures var b := HandleAll(Fresh, [m, m, m, m], [Deferral, Deferral, Deferral, fourth]);
            m.ref in b.read && b.rows == map[m.id := Row(3, None)] && Created(b, m.id) == 0
  {
    var b1 := Handle(Fresh, m, Deferral);
    var b2 := Handle(b1, m, Deferral);
    var b3 := Handle(b2, m, Deferral);
    assert b3.rows == map[m.id := Row(3, None)];
    FourHandled(Fresh, m, [Deferral, Deferral, Deferral, fourth]);
  }

  /** The bound of three jobs is attained: three attempts, each cut short after creating a job. */
  lemma ThreeJobsArePossible(m: Incoming, fourth: Attempt)
    ensures var torn := Attempt(true, None);
            var b := HandleAll(Fresh, [m, m, m, m], [torn, torn, torn, fourth]);
            Created(b, m.id) == 3 && m.ref in b.read
  {
    var torn := Attempt(true, None);
    var b1 := Handle(Fresh, m, torn);
    var b2 := Handle(b1, m, torn);
    var b3 := Handle(b2, m, torn);
    assert b3.rows == map[m.id := Row(3, None)] && Created(b3, m.id) == 3;
    FourHandled(Fresh, m, [torn, torn, torn, fourth]);
  }

  lemma FourHandled(b: Mailbox, m: Incoming, attempts: seq<Attempt>)
    requires |attempts| == 4
    ensures HandleAll(b, [m, m, m, m], attempts)
            == Handle(Handle(Handle(Handle(b, m, attempts[0]), m, attempts[1]), m, attempts[2]), m, attempts[3])
  {
    hide Handle;
    assert [m, m, m, m][..3] == [m, m, m] && [m, m, m][..2] == [m, m] && [m, m][..1] == [m] && [m][..0] == [];
    assert attempts[..3][..2] == attempts[..2] && attempts[..2][..1] == attempts[..1] && attempts[..1][..0] == [];
    assert HandleAll(b, [m], attempts[..1]) == Handle(b, m, attempts[0]);
    assert HandleAll(b, [m, m], attempts[..2]) == Handle(Handle(b, m, attempts[0]), m, attempts[1]);
    assert HandleAll(b, [m, m, m], attempts[..3]) == Handle(HandleAll(b, [m, m], attempts[..2]), m, attempts[2]);
  }

  /** Handling one batch after another is handling them together. */
  lemma {:induction false} HistoryGrows(b: Mailbox, first: seq<Incoming>, tried: seq<Attempt>,
                                        second: seq<Incoming>, next: seq<Attempt>)
    requires |tried| == |first| && |next| == |second|
    ensures HandleAll(HandleAll(b, first, tried), second, next) == HandleAll(b, first + second, tried + next)
    decreases |second|
  {
    hide Handle;
    if second == [] {
      assert first + second == first && tried + next == tried;
    } else {
      var n := |second| - 1;
      HistoryGrows(b, first, tried, second[..n], next[..n]);
      assert (first + second)[..|first| + n] == first + second[..n];
      assert (tried + next)[..|first| + n] == tried + next[..n];
    }
  }

  /** Once finalised, a message is never handled again: its row and its jobs stay as they are. */
  lemma {:induction false} FinalisedOnce(b: Mailbox, batch: seq<Incoming>, attempts: seq<Attempt>, id: string)
    requires |attempts| == |batch|
    requires id in b.rows && b.rows[id].outcome.Some?
    ensures var after := HandleAll(b, batch, attempts);
            id in after.rows && after.rows[id] == b.rows[id] && Created(after, id) == Created(b, id)
  {
    if batch != [] {
      var n := |batch| - 1;
      FinalisedOnce(b, batch[..n], attempts[..n], id);
    }
  }

  // ---- polling settles every message ----------------------------------------------------

  function Unread(inbox: seq<Incoming>, read: set<string>): seq<Incoming> {
    if inbox == [] then []
    else (if inbox[0].ref !in read then [inbox[0]] else []) + Unread(inbox[1..], read)
  }

  /** fetch_new_messages: the oldest unread messages, at most limit of them. */
  function Fetch(inbox: seq<Incoming>, read: set<string>, limit: nat): seq<Incoming> {
    var unread := Unread(inbox, read);
    if |unread| <= limit then unread else unread[..limit]
  }

  /** One poll of an inbox in which later messages have arrived behind the waiting ones. */
  datatype PollEvent = PollEvent(later: seq<Incoming>, attempt: nat -> Attempt)

  function Attempts(n: nat, attempt: nat -> Attempt): (attempts: seq<Attempt>)
    ensures |attempts| == n
  {
    seq(n, i requires 0 <= i < n => attempt(i))
  }

  function Poll(b: Mailbox, waiting: seq<Incoming>, limit: nat, e: PollEvent): Mailbox {
    var batch := Fetch(waiting + e.later, b.read, limit);
    HandleAll(b, batch, Attempts(|batch|, e.attempt))
  }

  function Polls(b: Mailbox, waiting: seq<Incoming>, limit: nat, events: seq<PollEvent>): Mailbox {
    if events == [] then b
    else
      var n := |events| - 1;
      Poll(Polls(b, waiting, limit, events[..n]), waiting, limit, events[n])
  }

  /** How many more fetches a message can take before it is settled. */
  function Budget(rows: map<string, Row>, id: string): (n: nat)
    ensures 1 <= n <= MAX_PROCESSING_ATTEMPTS + 1
  {
    if id !in rows then MAX_PROCESSING_ATTEMPTS + 1
    else if rows[id].outcome.Some? || rows[id].attempts >= MAX_PROCESSING_ATTEMPTS then 1
    else MAX_PROCESSING_ATTEMPTS + 1 - rows[id].attempts
  }

  lemma NextSpends(acc: Account, a: Attempt, rows: map<string, Row>, next: map<string, Row>, id: string)
    requires acc.row == (if id in rows then Some(rows[id]) else None)
    requires NextAccount(acc, a).row == (if id in next then Some(next[id]) else None)
    requires acc.row.Some? ==> acc.row.value.attempts >= 1
    ensures Budget(next, id) <= Budget(rows, id)
    ensures Open(acc) && a.outcome.None? ==> Budget(next, id) < Budget(rows, id)
    ensures NextAccount(acc, a).row.Some? ==> NextAccount(acc, a).row.value.attempts >= 1
  {
  }

  lemma HandleSpends(b: Mailbox, m: Incoming, a: Attempt, id: string)
    requires id in b.rows ==> b.rows[id].attempts >= 1
    ensures var after := Handle(b, m, a);
            && b.read <= after.read
            && Budget(after.rows, id) <= Budget(b.rows, id)
            && (m.id == id ==> m.ref in after.read || Budget(after.rows, id) < Budget(b.rows, id))
            && (id in after.rows ==> after.rows[id].attempts >= 1)
  {
    hide Budget, NextAccount;
    HandleReads(b, m, a);
    HandleOnAccount(b, m, a, id);
    hide Handle;
    SameBudget(b.rows, Handle(b, m, a).rows, id);
    if m.id == id {
      NextSpends(AccountOf(b, id), a, b.rows, Handle(b, m, a).rows, id);
    }
  }

  lemma SameBudget(rows: map<string, Row>, next: map<string, Row>, id: string)
    ensures (id in rows <==> id in next) && (id in rows ==> rows[id] == next[id]) ==> Budget(rows, id) == Budget(next, id)
  {
  }

  lemma HandleReads(b: Mailbox, m: Incoming, a: Attempt)
    ensures b.read <= Handle(b, m, a).read
    ensures m.ref in Handle(b, m, a).read || (MayBegin(b.rows, m.id) && a.outcome.None?)
  {
  }

  ghost predicate Counted(b: Mailbox) {
    forall id :: id in b.rows ==> b.rows[id].attempts >= 1
  }

  lemma HandleKeepsCounted(b: Mailbox, m: Incoming, a: Attempt)
    requires Counted(b)
    ensures Counted(Handle(b, m, a))
  {
    hide Handle, Budget;
    forall id | id in Handle(b, m, a).rows ensures Handle(b, m, a).rows[id].attempts >= 1 {
      HandleSpends(b, m, a, id);
    }
  }

  lemma {:induction false} HandleAllSpends(b: Mailbox, batch: seq<Incoming>, attempts: seq<Attempt>, m: Incoming)
    requires |attempts| == |batch| && Counted(b)
    ensures var after := HandleAll(b, batch, attempts);
            && Counted(after)
            && b.read <= after.read
            && Budget(after.rows, m.id) <= Budget(b.rows, m.id)
            && (m in batch ==> m.ref in after.read || Budget(after.rows, m.id) < Budget(b.rows, m.id))
  {
    if batch != [] {
      var n := |batch| - 1;
      hide Handle, Budget;
      HandleAllSpends(b, batch[..n], attempts[..n], m);
      var before := HandleAll(b, batch[..n], attempts[..n]);
      HandleKeepsCounted(before, batch[n], attempts[n]);
      HandleSpends(before, batch[n], attempts[n], m.id);
      assert batch == batch[..n] + [batch[n]];
    }
  }

  /** With everything before position s read, an unread message at i is among the first i - s + 1 unread ones. */
  lemma {:induction false} UnreadPosition(inbox: seq<Incoming>, read: set<string>, s: nat, i: nat) returns (k: nat)
    requires s <= i < |inbox| && inbox[i].ref !in read
    requires forall j :: 0 <= j < s ==> inbox[j].ref in read
    ensures k <= i - s && k < |Unread(inbox, read)| && Unread(inbox, read)[k] == inbox[i]
  {
    if i == 0 {
      k := 0;
    } else if s > 0 {
      k := UnreadPosition(inbox[1..], read, s - 1, i - 1);
    } else {
      k := UnreadPosition(inbox[1..], read, 0, i - 1);
      if inbox[0].ref !in read {
        k := k + 1;
      }
    }
  }

  ghost predicate AllRead(waiting: seq<Incoming>, read: set<string>, upTo: int) {
    forall j :: 0 <= j < |waiting| && j < upTo ==> waiting[j].ref in read
  }

  /** A message among the first limit that are not yet settled loses budget at every poll, or is settled. */
  lemma {:induction false} PollsSpend(b: Mailbox, waiting: seq<Incoming>, limit: nat, events: seq<PollEvent>,
                                      s: nat, i: nat)
    requires Counted(b) && AllRead(waiting, b.read, s)
    requires s <= i < |waiting| && i < s + limit
    ensures var after := Polls(b, waiting, limit, events);
            && Counted(after) && b.read <= after.read
            && (waiting[i].ref in after.read
                || Budget(after.rows, waiting[i].id) + |events| <= MAX_PROCESSING_ATTEMPTS + 1)
  {
    if events != [] {
      var n := |events| - 1;
      PollsSpend(b, waiting, limit, events[..n], s, i);
      var before := Polls(b, waiting, limit, events[..n]);
      var inbox := waiting + events[n].later;
      var batch := Fetch(inbox, before.read, limit);
      if waiting[i].ref !in before.read {
        var k := UnreadPosition(inbox, before.read, s, i);
        assert batch[k] == waiting[i];
      }
      HandleAllSpends(before, batch, Attempts(|batch|, events[n].attempt), waiting[i]);
    }
  }

  lemma {:induction false} PollsCompose(b: Mailbox, waiting: seq<Incoming>, limit: nat,
                                        first: seq<PollEvent>, second: seq<PollEvent>)
    ensures Polls(b, waiting, limit, first + second)
            == Polls(Polls(b, waiting, limit, first), waiting, limit, second)
  {
    if second == [] {
      assert first + second == first;
    } else {
      var n := |second| - 1;
      assert (first + second)[..|first + second| - 1] == first + second[..n];
      PollsCompose(b, waiting, limit, first, second[..n]);
    }
  }

  /** Four polls settle the next limit messages. */
  lemma FourPollsSettle(b: Mailbox, waiting: seq<Incoming>, limit: nat, events: seq<PollEvent>, s: nat)
    requires |events| == MAX_PROCESSING_ATTEMPTS + 1
    requires Counted(b) && AllRead(waiting, b.read, s)
    ensures var after := Polls(b, waiting, limit, events);
            Counted(after) && AllRead(waiting, after.read, s + limit)
  {
    hide Polls;
    var after := Polls(b, waiting, limit, events);
    PollsKeep(b, waiting, limit, events);
    forall j | 0 <= j < |waiting| && j < s + limit
      ensures waiting[j].ref in after.read
    {
      if j >= s {
        PollsSpend(b, waiting, limit, events, s, j);
      }
    }
  }

  lemma {:induction false} PollsKeep(b: Mailbox, waiting: seq<Incoming>, limit: nat, events: seq<PollEvent>)
    requires Counted(b)
    ensures var after := Polls(b, waiting, limit, events); Counted(after) && b.read <= after.read
  {
    if events != [] {
      var n := |events| - 1;
      PollsKeep(b, waiting, limit, events[..n]);
      var before := Polls(b, waiting, limit, events[..n]);
      var batch := Fetch(waiting + events[n].later, before.read, limit);
      HandleAllSpends(before, batch, Attempts(|batch|, events[n].attempt), Incoming("", ""));
    }
  }

  /**
   * With at most limit messages fetched at a time, oldest first, waiting messages are all settled
   * after four polls for each limit of them, whatever the handlers raise or defer and whatever
   * arrives behind them. The measure is the attempt budget that is left.
   */
  lemma {:induction false} WaitingMessagesSettle(b: Mailbox, waiting: seq<Incoming>, limit: nat,
                                                 events: seq<PollEvent>, rounds: nat)
    requires Counted(b)
    requires |events| == 4 * rounds
    ensures var after := Polls(b, waiting, limit, events);
            Counted(after) && AllRead(waiting, after.read, rounds * limit)
    decreases rounds
  {
    hide Polls;
    PollsKeep(b, waiting, limit, events);
    if rounds > 0 {
      var n := 4 * (rounds - 1);
      WaitingMessagesSettle(b, waiting, limit, events[..n], rounds - 1);
      var before := Polls(b, waiting, limit, events[..n]);
      FourPollsSettle(before, waiting, limit, events[n..], (rounds - 1) * limit);
      PollsCompose(b, waiting, limit, events[..n], events[n..]);
      assert events[..n] + events[n..] == events;
      assert (rounds - 1) * limit + limit == rounds * limit;
    }
  }

  /** Stated for all of N waiting messages: 4 * ceil(N / L) polls settle every one of them. */
  lemma AllWaitingSettle(b: Mailbox, waiting: seq<Incoming>, limit: nat, events: seq<PollEvent>)
    requires Counted(b) && limit > 0
    requires |events| == 4 * Ceiling(|waiting|, limit)
    ensures forall m :: m in waiting ==> m.ref in Polls(b, waiting, limit, events).read
  {
    hide Polls;
    var rounds := Ceiling(|waiting|, limit);
    WaitingMessagesSettle(b, waiting, limit, events, rounds);
    CeilingCovers(|waiting|, limit);
    var after := Polls(b, waiting, limit, events);
    forall m | m in waiting ensures m.ref in after.read {
      var j :| 0 <= j < |waiting| && waiting[j] == m;
      assert waiting[j].ref in after.read;
    }
  }

  function Ceiling(n: nat, l: nat): nat
    requires l > 0
  {
    (n + l - 1) / l
  }

  lemma CeilingCovers(n: nat, l: nat)
    requires l > 0
    ensures Ceiling(n, l) * l >= n
  {
    var q, r := (n + l - 1) / l, (n + l - 1) % l;
    assert n + l - 1 == l * q + r;
    assert l * q == q * l;
  }
}
