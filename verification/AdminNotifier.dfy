/** Alerts to the administrator, rate-limited for each category. Times are in microseconds. */
module AdminNotifier {
  import opened Wrappers
  import opened Outbox

  /** _should_send */
  predicate Due(lastSent: map<AlertCategory, int>, c: AlertCategory, now: int, cooldown: int) {
    c in lastSent ==> now - lastSent[c] >= cooldown
  }

  function AlertMail(to: string, c: AlertCategory): Mail {
    Mail(None, to, Alert(c), None, None)
  }

  /** The administrator and the cooldown, the alerts enqueued so far, and the times that were written down for them. */
  datatype Alerts = Alerts(adminEmail: Option<string>, cooldown: int, mails: seq<Mail>, lastSent: map<AlertCategory, int>)

  /** A call of alert: a mail if there is an administrator and the category's last one is a cooldown ago. */
  function Alerted(x: Alerts, c: AlertCategory, checked: int, recorded: int): Alerts {
    if x.adminEmail.Some? && x.adminEmail.value != "" && (c in x.lastSent ==> checked - x.lastSent[c] >= x.cooldown) then
      x.(mails := x.mails + [Mail(None, x.adminEmail.value, Alert(c), None, None)], lastSent := x.lastSent[c := recorded])
    else x
  }

  class AdminNotifier {
    const adminEmail: Option<string>
    const cooldown: int
    var lastSent: map<AlertCategory, int>

    constructor (adminEmail: Option<string>, cooldown: int)
      ensures this.adminEmail == adminEmail && this.cooldown == cooldown && lastSent == map[]
    {
      this.adminEmail, this.cooldown, lastSent := adminEmail, cooldown, map[];
    }

    ghost function State(outbox: Outbox): Alerts
      reads this, outbox
    {
      Alerts(adminEmail, cooldown, AlertMails(outbox.rows), lastSent)
    }

    /** The clock is read once to decide and once more to record. */
    method Alert(outbox: Outbox, c: AlertCategory, checked: int, recorded: int) returns (sent: bool)
      modifies this, outbox`rows
      ensures sent <==> adminEmail.Some? && adminEmail.value != ""
                        && (c in old(lastSent) ==> checked - old(lastSent)[c] >= cooldown)
      ensures outbox.rows == if sent then old(outbox.rows) + [Row(Mail(None, adminEmail.value, MailKind.Alert(c), None, None), Pending, 0)]
                             else old(outbox.rows)
      ensures lastSent == if sent then old(lastSent)[c := recorded] else old(lastSent)
      ensures State(outbox) == Alerted(old(State(outbox)), c, checked, recorded)
      ensures Replies(outbox.rows) == Replies(old(outbox.rows))
    {
      if adminEmail.Some? {
        RepliesSnoc(outbox.rows, Row(AlertMail(adminEmail.value, c), Pending, 0));
      }
      if adminEmail.None? || adminEmail.value == "" {
        return false;
      }
      if !Due(lastSent, c, checked, cooldown) {
        return false;
      }
      outbox.Enqueue(AlertMail(adminEmail.value, c));
      lastSent := lastSent[c := recorded];
      return true;
    }
  }

  // ---- whole runs -----------------------------------------------------------------------

  /** One call of alert: when it looked, when its mail (if any) was enqueued, and when it wrote the time down. */
  datatype Call = Call(category: AlertCategory, checked: int, enqueued: int, recorded: int)

  /** Calls one after the other on a clock that never goes back. */
  predicate InOrder(calls: seq<Call>) {
    && (forall i :: 0 <= i < |calls| ==> calls[i].checked <= calls[i].enqueued <= calls[i].recorded)
    && (forall i, j :: 0 <= i < j < |calls| ==> calls[i].recorded <= calls[j].checked)
  }

  function LastSent(calls: seq<Call>, cooldown: int): map<AlertCategory, int> {
    if calls == [] then map[]
    else
      var before, call := LastSent(calls[..|calls| - 1], cooldown), calls[|calls| - 1];
      if Due(before, call.category, call.checked, cooldown) then before[call.category := call.recorded] else before
  }

  /** When mails of a category were enqueued, in order. */
  function SentTimes(calls: seq<Call>, c: AlertCategory, cooldown: int): seq<int> {
    if calls == [] then []
    else
      var init, call := calls[..|calls| - 1], calls[|calls| - 1];
      SentTimes(init, c, cooldown)
      + (if call.category == c && Due(LastSent(init, cooldown), c, call.checked, cooldown) then [call.enqueued] else [])
  }

  /** The k-th call enqueues a mail. */
  predicate Sends(calls: seq<Call>, k: nat, cooldown: int)
    requires k < |calls|
  {
    Due(LastSent(calls[..k], cooldown), calls[k].category, calls[k].checked, cooldown)
  }

  /** The last time written down for a category is that of its latest mail. */
  lemma {:induction false} LastSentIsLatest(calls: seq<Call>, n: nat, c: AlertCategory, cooldown: int)
    requires InOrder(calls) && n <= |calls|
    ensures var last := LastSent(calls[..n], cooldown);
            && (forall j :: 0 <= j < n && calls[j].category == c && Sends(calls, j, cooldown)
                            ==> c in last && calls[j].recorded <= last[c])
            && (c in last ==> exists j :: 0 <= j < n && calls[j].category == c && Sends(calls, j, cooldown)
                                          && calls[j].recorded == last[c])
  {
    if n > 0 {
      LastSentIsLatest(calls, n - 1, c, cooldown);
      assert calls[..n][..n - 1] == calls[..n - 1];
      var before, last := LastSent(calls[..n - 1], cooldown), LastSent(calls[..n], cooldown);
      if calls[n - 1].category == c && Sends(calls, n - 1, cooldown) {
        assert last[c] == calls[n - 1].recorded;
      } else {
        assert c in last <==> c in before;
        assert c in last ==> last[c] == before[c];
      }
    }
  }

  /**
   * Over every run, an alert is mailed if and only if each earlier mail of its category was written
   * down at least a cooldown before; so the first one always is. The times of the mails are those calls'.
   */
  lemma SentExactly(calls: seq<Call>, k: nat, cooldown: int)
    requires InOrder(calls) && k < |calls|
    ensures Sends(calls, k, cooldown) <==>
            forall j :: 0 <= j < k && calls[j].category == calls[k].category && Sends(calls, j, cooldown)
                        ==> calls[k].checked - calls[j].recorded >= cooldown
    ensures forall c :: SentTimes(calls[..k + 1], c, cooldown)
                        == SentTimes(calls[..k], c, cooldown)
                           + (if calls[k].category == c && Sends(calls, k, cooldown) then [calls[k].enqueued] else [])
  {
    LastSentIsLatest(calls, k, calls[k].category, cooldown);
    assert calls[..k + 1][..k] == calls[..k];
  }

  predicate Spaced(times: seq<int>, gap: int) {
    forall i, j :: 0 <= i < j < |times| ==> times[j] - times[i] >= gap
  }

  predicate AtMost(times: seq<int>, bound: int) {
    forall i :: 0 <= i < |times| ==> times[i] <= bound
  }

  lemma SpacedSnoc(times: seq<int>, gap: int, bound: int, next: int)
    requires Spaced(times, gap) && AtMost(times, bound) && bound + gap <= next
    ensures Spaced(times + [next], gap)
  {
  }

  predicate SpacedSoFar(times: seq<int>, lastSent: map<AlertCategory, int>, c: AlertCategory, gap: int, now: int) {
    && Spaced(times, gap)
    && (if c in lastSent then AtMost(times, lastSent[c]) && lastSent[c] <= now else times == [])
  }

  lemma OneCall(times: seq<int>, lastSent: map<AlertCategory, int>, call: Call, c: AlertCategory, gap: int, now: int)
    requires SpacedSoFar(times, lastSent, c, gap, now)
    requires now <= call.checked <= call.enqueued <= call.recorded
    ensures var due := Due(lastSent, call.category, call.checked, gap);
            SpacedSoFar(times + (if call.category == c && due then [call.enqueued] else []),
                        if due then lastSent[call.category := call.recorded] else lastSent, c, gap, call.recorded)
  {
    if call.category == c && Due(lastSent, c, call.checked, gap) {
      if c in lastSent {
        SpacedSnoc(times, gap, lastSent[c], call.enqueued);
      }
    } else {
      assert times + [] == times;
    }
  }

  lemma {:induction false} MailsAreSpaced(calls: seq<Call>, c: AlertCategory, cooldown: int, now: int)
    requires InOrder(calls)
    requires forall i :: 0 <= i < |calls| ==> calls[i].recorded <= now
    ensures SpacedSoFar(SentTimes(calls, c, cooldown), LastSent(calls, cooldown), c, cooldown, now)
  {
    if calls != [] {
      hide SpacedSoFar, Due;
      var init, call := calls[..|calls| - 1], calls[|calls| - 1];
      MailsAreSpaced(init, c, cooldown, call.checked);
      OneCall(SentTimes(init, c, cooldown), LastSent(init, cooldown), call, c, cooldown, call.checked);
      Later(SentTimes(calls, c, cooldown), LastSent(calls, cooldown), c, cooldown, call.recorded, now);
    }
  }

  lemma Later(times: seq<int>, lastSent: map<AlertCategory, int>, c: AlertCategory, gap: int, now: int, later: int)
    requires SpacedSoFar(times, lastSent, c, gap, now) && now <= later
    ensures SpacedSoFar(times, lastSent, c, gap, later)
  {
  }

  function CountIn(times: seq<int>, lo: int, hi: int): nat {
    if times == [] then 0
    else
      var last := times[|times| - 1];
      CountIn(times[..|times| - 1], lo, hi) + (if lo <= last <= hi then 1 else 0)
  }

  lemma {:induction false} CountBelow(times: seq<int>, lo: int, hi: int, top: int)
    requires top <= hi && forall i :: 0 <= i < |times| ==> times[i] <= top
    ensures CountIn(times, lo, hi) == CountIn(times, lo, top)
    ensures top < lo ==> CountIn(times, lo, hi) == 0
  {
    if times != [] {
      CountBelow(times[..|times| - 1], lo, hi, top);
    }
  }

  lemma {:induction false} SpacedCount(times: seq<int>, gap: int, lo: int, hi: int)
    requires Spaced(times, gap) && gap > 0 && lo <= hi
    ensures Times(CountIn(times, lo, hi), gap) <= hi - lo + gap
  {
    if times != [] {
      var init, last := times[..|times| - 1], times[|times| - 1];
      if lo <= last <= hi {
        CountBelow(init, lo, hi, last - gap);
        if last - gap >= lo {
          SpacedCount(init, gap, lo, last - gap);
        }
      } else {
        SpacedCount(init, gap, lo, hi);
      }
    }
  }

  function Times(n: nat, gap: int): int {
    if n == 0 then 0 else Times(n - 1, gap) + gap
  }

  lemma {:induction false} TimesIsProduct(n: nat, gap: int)
    ensures Times(n, gap) == n * gap
  {
    if n > 0 {
      TimesIsProduct(n - 1, gap);
    }
  }

  /** In any window of length T, the n mails that a category enqueues satisfy (n - 1) * cooldown <= T. */
  lemma AlertsAreLimited(calls: seq<Call>, c: AlertCategory, cooldown: int, start: int, length: nat)
    requires InOrder(calls) && cooldown > 0
    ensures (CountIn(SentTimes(calls, c, cooldown), start, start + length) - 1) * cooldown <= length
  {
    MailsAreSpaced(calls, c, cooldown, if calls == [] then 0 else calls[|calls| - 1].recorded);
    var times := SentTimes(calls, c, cooldown);
    SpacedCount(times, cooldown, start, start + length);
    TimesIsProduct(CountIn(times, start, start + length), cooldown);
  }

  function Only(calls: seq<Call>, c: AlertCategory): seq<Call> {
    if calls == [] then []
    else
      var init, call := calls[..|calls| - 1], calls[|calls| - 1];
      Only(init, c) + (if call.category == c then [call] else [])
  }

  /** What a category sends does not depend on the calls of the others. */
  lemma {:induction false} CategoriesAreIndependent(calls: seq<Call>, c: AlertCategory, cooldown: int)
    ensures SentTimes(calls, c, cooldown) == SentTimes(Only(calls, c), c, cooldown)
    ensures c in LastSent(calls, cooldown) <==> c in LastSent(Only(calls, c), cooldown)
    ensures c in LastSent(calls, cooldown) ==> LastSent(calls, cooldown)[c] == LastSent(Only(calls, c), cooldown)[c]
  {
    if calls != [] {
      var init, call := calls[..|calls| - 1], calls[|calls| - 1];
      CategoriesAreIndependent(init, c, cooldown);
      if call.category == c {
        assert (Only(init, c) + [call])[..|Only(init, c)|] == Only(init, c);
      } else {
        assert Only(calls, c) == Only(init, c);
      }
    }
  }
}
