/** Weekly reports: their periods, their evidence, and the durable workflow that mails each of them once. */
module Reports {
  import opened Wrappers

  /** A calendar day, as a day number. */
  type Day = int

  /** WEEKLY-{period_start}-{group_id:04d}: a date of fixed width and a zero-padded number, so the pair it is made of. */
  datatype ReportId = ReportId(start: Day, group: nat)

  datatype ReportStatus = Received | Collecting | Synthesising | Queued | Sent | Completed | Failed

  datatype Report = Report(group: nat, owner: string, start: Day, end: Day, status: ReportStatus)

  datatype Source = Github | Meetings | Trello

  datatype Evidence = Evidence(source: Source, evidenceId: string, content: string)

  datatype IntegrityError = IntegrityError

  datatype UnknownReport = UnknownReport

  // ---- reporting periods ----------------------------------------------------------------

  /** reporting_period: the lookback days before the day of the run, that day excluded. */
  function ReportingPeriod(today: Day, lookback: nat): (Day, Day) {
    (today - lookback, today)
  }

  predicate InPeriod(day: Day, today: Day, lookback: nat) {
    today - lookback <= day < today
  }

  lemma Ordered(k: int, m: int, lookback: int)
    requires k < m && lookback > 0
    ensures k * lookback + lookback <= m * lookback
  {
    assert (m - k - 1) * lookback >= 0;
    assert (m - k - 1) * lookback == m * lookback - k * lookback - lookback;
  }

  /** With runs lookback days apart, every day falls into the period of exactly one run. */
  lemma PeriodsTile(firstRun: Day, lookback: nat, day: Day) returns (k: int)
    requires lookback > 0
    ensures InPeriod(day, firstRun + k * lookback, lookback)
    ensures forall m: int :: InPeriod(day, firstRun + m * lookback, lookback) ==> m == k
  {
    var q, r := (day - firstRun) / lookback, (day - firstRun) % lookback;
    k := q + 1;
    assert day - firstRun == q * lookback + r;
    assert k * lookback == q * lookback + lookback;
    forall m: int | InPeriod(day, firstRun + m * lookback, lookback)
      ensures m == k
    {
      if m < k {
        Ordered(m, k, lookback);
      } else if k < m {
        Ordered(k, m, lookback);
      }
    }
  }

  // ---- collecting evidence --------------------------------------------------------------

  /** A transcript chunk found by the search; date is None when its first ten characters are no date. */
  datatype Chunk = Chunk(chunkId: string, date: Option<Day>, text: string)

  function FromChunk(c: Chunk): Evidence {
    Evidence(Meetings, c.chunkId, c.text)
  }

  function WithinPeriod(chunks: seq<Chunk>, start: Day, end: Day): seq<Evidence> {
    if chunks == [] then []
    else
      var n := |chunks| - 1;
      WithinPeriod(chunks[..n], start, end)
      + (if chunks[n].date.Some? && start <= chunks[n].date.value < end then [FromChunk(chunks[n])] else [])
  }

  /** The search may raise; then there is no evidence, and the source is reported as unavailable. */
  method CollectMeetings(search: Option<seq<Chunk>>, start: Day, end: Day)
    returns (evidence: seq<Evidence>, available: bool)
    ensures available <==> search.Some?
    ensures evidence == if search.Some? then WithinPeriod(search.value, start, end) else []
  {
    evidence := [];
    available := search.Some?;
    if search.None? {
      return;
    }
    var chunks := search.value;
    for i := 0 to |chunks|
      invariant evidence == WithinPeriod(chunks[..i], start, end)
    {
      assert chunks[..i + 1][..i] == chunks[..i];
      if chunks[i].date.None? {
        continue;
      }
      if !(start <= chunks[i].date.value < end) {
        continue;
      }
      evidence := evidence + [FromChunk(chunks[i])];
    }
    assert chunks[..|chunks|] == chunks;
  }

  lemma {:induction false} PassesFilter(chunks: seq<Chunk>, start: Day, end: Day, e: Evidence)
    ensures e in WithinPeriod(chunks, start, end)
            <==> exists c :: c in chunks && c.date.Some? && start <= c.date.value < end && e == FromChunk(c)
  {
    if chunks != [] {
      var n := |chunks| - 1;
      PassesFilter(chunks[..n], start, end, e);
      assert chunks == chunks[..n] + [chunks[n]];
    }
  }

  /** The evidence of more chunks is that of the first and then that of the rest. */
  lemma {:induction false} EvidenceInOrder(first: seq<Chunk>, rest: seq<Chunk>, start: Day, end: Day)
    ensures WithinPeriod(first + rest, start, end) == WithinPeriod(first, start, end) + WithinPeriod(rest, start, end)
    decreases |rest|
  {
    if rest == [] {
      assert first + rest == first;
    } else {
      var n := |rest| - 1;
      assert (first + rest)[..|first| + n] == first + rest[..n];
      EvidenceInOrder(first, rest[..n], start, end);
    }
  }

  /** A dated chunk that every run's search finds is evidence of exactly one report. */
  lemma EachChunkInOneReport(chunks: seq<Chunk>, c: Chunk, firstRun: Day, lookback: nat) returns (k: int)
    requires lookback > 0 && c in chunks && c.date.Some?
    requires forall d :: d in chunks && d.chunkId == c.chunkId ==> d == c
    ensures forall m: int ::
              var period := ReportingPeriod(firstRun + m * lookback, lookback);
              FromChunk(c) in WithinPeriod(chunks, period.0, period.1) <==> m == k
  {
    k := PeriodsTile(firstRun, lookback, c.date.value);
    forall m: int
      ensures var period := ReportingPeriod(firstRun + m * lookback, lookback);
              FromChunk(c) in WithinPeriod(chunks, period.0, period.1) <==> m == k
    {
      var period := ReportingPeriod(firstRun + m * lookback, lookback);
      PassesFilter(chunks, period.0, period.1, FromChunk(c));
      assert InPeriod(c.date.value, firstRun + m * lookback, lookback) <==> m == k;
    }
  }

  // ---- the stored snapshot --------------------------------------------------------------

  /** The order of the source names. */
  function Rank(s: Source): nat {
    match s
    case Github => 0
    case Meetings => 1
    case Trello => 2
  }

  function Insert(sorted: seq<Evidence>, x: Evidence): seq<Evidence> {
    if sorted == [] then [x]
    else if Rank(sorted[0].source) <= Rank(x.source) then [sorted[0]] + Insert(sorted[1..], x)
    else [x] + sorted
  }

  /** SELECT ... ORDER BY source, id, where id is the order of insertion. */
  function OrderedBySource(items: seq<Evidence>): seq<Evidence> {
    if items == [] then []
    else Insert(OrderedBySource(items[..|items| - 1]), items[|items| - 1])
  }

  function Of(items: seq<Evidence>, s: Source): seq<Evidence> {
    if items == [] then []
    else Of(items[..|items| - 1], s) + (if items[|items| - 1].source == s then [items[|items| - 1]] else [])
  }

  predicate AllOf(items: seq<Evidence>, s: Source) {
    forall i :: 0 <= i < |items| ==> items[i].source == s
  }

  lemma {:induction false} OfIsOf(items: seq<Evidence>, s: Source)
    ensures AllOf(Of(items, s), s)
  {
    if items != [] {
      OfIsOf(items[..|items| - 1], s);
    }
  }

  lemma {:induction false} InsertPast(front: seq<Evidence>, rest: seq<Evidence>, x: Evidence)
    requires forall i :: 0 <= i < |front| ==> Rank(front[i].source) <= Rank(x.source)
    ensures Insert(front + rest, x) == front + Insert(rest, x)
  {
    if front == [] {
      assert front + rest == rest;
    } else {
      assert (front + rest)[1..] == front[1..] + rest;
      InsertPast(front[1..], rest, x);
    }
  }

  lemma InsertBefore(rest: seq<Evidence>, x: Evidence)
    requires rest != [] ==> Rank(rest[0].source) > Rank(x.source)
    ensures Insert(rest, x) == [x] + rest
  {
  }

  lemma InsertInto(g: seq<Evidence>, m: seq<Evidence>, t: seq<Evidence>, x: Evidence)
    requires AllOf(g, Github) && AllOf(m, Meetings) && AllOf(t, Trello)
    ensures Insert(g + m + t, x)
            == (if x.source.Github? then g + [x] else g) + (if x.source.Meetings? then m + [x] else m)
               + (if x.source.Trello? then t + [x] else t)
  {
    match x.source
    case Github =>
      InsertPast(g, m + t, x);
      InsertBefore(m + t, x);
      assert g + m + t == g + (m + t);
      assert g + [x] + m + t == g + ([x] + (m + t));
    case Meetings =>
      InsertPast(g + m, t, x);
      InsertBefore(t, x);
      assert g + (m + [x]) + t == g + m + ([x] + t);
    case Trello =>
      InsertPast(g + m + t, [], x);
      assert g + m + t + [] == g + m + t;
      assert g + m + (t + [x]) == g + m + t + [x];
  }

  /** The snapshot read back is the collected evidence, sorted by source and otherwise in the order of collection. */
  lemma {:induction false} SnapshotIsStablySorted(items: seq<Evidence>)
    ensures OrderedBySource(items) == Of(items, Github) + Of(items, Meetings) + Of(items, Trello)
  {
    if items != [] {
      var init, last := items[..|items| - 1], items[|items| - 1];
      SnapshotIsStablySorted(init);
      OfIsOf(init, Github);
      OfIsOf(init, Meetings);
      OfIsOf(init, Trello);
      InsertInto(Of(init, Github), Of(init, Meetings), Of(init, Trello), last);
    }
  }

  lemma {:induction false} OfAppend(front: seq<Evidence>, back: seq<Evidence>, s: Source)
    ensures Of(front + back, s) == Of(front, s) + Of(back, s)
  {
    if back == [] {
      assert front + back == front;
    } else {
      assert (front + back)[..|front + back| - 1] == front + back[..|back| - 1];
      OfAppend(front, back[..|back| - 1], s);
    }
  }

  lemma {:induction false} OfAllOf(items: seq<Evidence>, s: Source, t: Source)
    requires AllOf(items, s)
    ensures Of(items, t) == if s == t then items else []
  {
    if items != [] {
      OfAllOf(items[..|items| - 1], s, t);
    }
  }

  lemma OrderedIsStable(items: seq<Evidence>, s: Source)
    ensures Of(OrderedBySource(items), s) == Of(items, s)
  {
    hide *;
    SnapshotIsStablySorted(items);
    var g, m, t := Of(items, Github), Of(items, Meetings), Of(items, Trello);
    OfIsOf(items, Github);
    OfIsOf(items, Meetings);
    OfIsOf(items, Trello);
    OfAppend(g + m, t, s);
    OfAppend(g, m, s);
    OfAllOf(g, Github, s);
    OfAllOf(m, Meetings, s);
    OfAllOf(t, Trello, s);
  }

  lemma OrderedIsSorted(items: seq<Evidence>)
    ensures var sorted := OrderedBySource(items);
            forall i, j :: 0 <= i < j < |sorted| ==> Rank(sorted[i].source) <= Rank(sorted[j].source)
  {
    SnapshotIsStablySorted(items);
    OfIsOf(items, Github);
    OfIsOf(items, Meetings);
    OfIsOf(items, Trello);
  }

  lemma {:induction false} InsertAdds(sorted: seq<Evidence>, x: Evidence)
    ensures multiset(Insert(sorted, x)) == multiset(sorted) + multiset{x}
  {
    if sorted != [] && Rank(sorted[0].source) <= Rank(x.source) {
      InsertAdds(sorted[1..], x);
      assert sorted == [sorted[0]] + sorted[1..];
    }
  }

  lemma {:induction false} OrderedKeepsAll(items: seq<Evidence>)
    ensures multiset(OrderedBySource(items)) == multiset(items)
  {
    if items != [] {
      var init, last := items[..|items| - 1], items[|items| - 1];
      OrderedKeepsAll(init);
      InsertAdds(OrderedBySource(init), last);
      assert items == init + [last];
    }
  }

  /** UNIQUE(report_id, source, evidence_id) */
  predicate Clashes(stored: seq<Evidence>, x: Evidence) {
    exists e :: e in stored && e.source == x.source && e.evidenceId == x.evidenceId
  }

  predicate DistinctEvidence(items: seq<Evidence>) {
    forall i, j :: 0 <= i < j < |items| ==> items[i].source != items[j].source || items[i].evidenceId != items[j].evidenceId
  }

  class ReportStore {
    var rows: map<ReportId, Report>
    var snapshots: map<ReportId, seq<Evidence>>

    constructor ()
      ensures Valid() && rows == map[] && snapshots == map[]
    {
      rows, snapshots := map[], map[];
    }

    ghost predicate Valid()
      reads this
    {
      forall id :: id in rows ==> rows[id].start == id.start && rows[id].group == id.group
    }

    /**
     * A row of the same group and period is kept as it is. The identifier leaves the end of the
     * period out, so a row of the same group and start but another end makes the insert fail.
     */
    method CreateOrGet(group: nat, owner: string, start: Day, end: Day) returns (r: Result<Report, IntegrityError>)
      requires Valid()
      modifies this`rows
      ensures Valid()
      ensures var id := ReportId(start, group);
              && (r.Failure? <==> id in old(rows) && old(rows)[id].end != end)
              && (r.Failure? ==> rows == old(rows))
              && (r.Success? && id in old(rows) ==> rows == old(rows) && r.value == old(rows)[id])
              && (r.Success? && id !in old(rows) ==>
                    r.value == Report(group, owner, start, end, Received) && rows == old(rows)[id := r.value])
    {
      var id := ReportId(start, group);
      if id in rows && rows[id].end == end {
        return Success(rows[id]);
      }
      if id in rows {
        return Failure(IntegrityError);
      }
      var report := Report(group, owner, start, end, Received);
      rows := rows[id := report];
      return Success(report);
    }

    method SetStatus(id: ReportId, status: ReportStatus)
      requires Valid()
      modifies this`rows
      ensures Valid()
      ensures rows == WithStatus(old(rows), id, status)
    {
      if id in rows {
        rows := rows[id := rows[id].(status := status)];
      }
    }

    /** The old snapshot is deleted first; rows are inserted one by one until one of them clashes. */
    method ReplaceEvidence(id: ReportId, items: seq<Evidence>) returns (ok: bool)
      modifies this`snapshots
      ensures ok <==> DistinctEvidence(items)
      ensures ok ==> snapshots == old(snapshots)[id := items]
      ensures !ok ==> id in snapshots && snapshots[id] <= items && snapshots - {id} == old(snapshots) - {id}
    {
      var stored: seq<Evidence> := [];
      for i := 0 to |items|
        invariant stored == items[..i] && DistinctEvidence(stored)
      {
        if Clashes(stored, items[i]) {
          assert !DistinctEvidence(items) by {
            var e :| e in stored && e.source == items[i].source && e.evidenceId == items[i].evidenceId;
            var j :| 0 <= j < |stored| && stored[j] == e;
            assert items[j] == e;
          }
          snapshots := snapshots[id := stored];
          return false;
        }
        stored := stored + [items[i]];
      }
      assert items[..|items|] == items;
      snapshots := snapshots[id := stored];
      return true;
    }

    /** SELECT ... ORDER BY source, id: by source, within a source as they were stored, and all of them. */
    method ReadEvidence(id: ReportId) returns (items: seq<Evidence>)
      ensures id !in snapshots ==> items == []
      ensures id in snapshots ==>
                && (forall i, j :: 0 <= i < j < |items| ==> Rank(items[i].source) <= Rank(items[j].source))
                && (forall s :: Of(items, s) == Of(snapshots[id], s))
                && multiset(items) == multiset(snapshots[id])
    {
      if id !in snapshots {
        return [];
      }
      items := [];
      var stored := snapshots[id];
      for k := 0 to |stored|
        invariant items == OrderedBySource(stored[..k])
      {
        assert stored[..k + 1][..k] == stored[..k];
        items := Insert(items, stored[k]);
      }
      assert stored[..|stored|] == stored;
      OrderedIsSorted(stored);
      OrderedKeepsAll(stored);
      forall s ensures Of(items, s) == Of(stored, s) {
        OrderedIsStable(stored, s);
      }
    }
  }

  function WithStatus(rows: map<ReportId, Report>, id: ReportId, status: ReportStatus): map<ReportId, Report> {
    if id in rows then rows[id := rows[id].(status := status)] else rows
  }

  // ---- the workflow ---------------------------------------------------------------------

  /** Where the first call of a run of the graph raises, if one does. */
  datatype Trouble = InLoad | InCollect | InPersist | InSynthesise | InQueue | InEnqueue | NoTrouble

  predicate Closed(s: ReportStatus) {
    s.Completed? || s.Queued? || s.Sent?
  }

  class WeeklyReportWorkflow {
    const reports: ReportStore
    var mails: seq<ReportId>

    constructor (reports: ReportStore)
      ensures this.reports == reports && mails == []
    {
      this.reports, mails := reports, [];
    }

    /** One invocation of the graph: load, collect, persist, synthesise, enqueue. */
    method Invoke(id: ReportId, collected: seq<Evidence>, trouble: Trouble) returns (ok: bool)
      requires reports.Valid()
      modifies this`mails, reports
      ensures reports.Valid()
      ensures ok <==> trouble.NoTrouble? && DistinctEvidence(collected)
      ensures mails == if ok then old(mails) + [id] else old(mails)
      ensures id !in old(reports.rows) ==> reports.rows == old(reports.rows)
      ensures id in old(reports.rows) ==>
                var row := old(reports.rows)[id];
                reports.rows == old(reports.rows)[id := row.(status :=
                  if trouble.InLoad? then row.status
                  else if trouble.InCollect? || trouble.InPersist? || !DistinctEvidence(collected) then Collecting
                  else if trouble.InSynthesise? || trouble.InQueue? then Synthesising
                  else Queued)]
      ensures ok ==> reports.snapshots == old(reports.snapshots)[id := collected]
      ensures World(reports.rows, mails)
              == Progress(World(old(reports.rows), old(mails)), id, Effective(trouble, collected))
    {
      hide DistinctEvidence;
      ghost var before := reports.rows;
      assert id in before ==> before[id := before[id].(status := before[id].status)] == before;
      if trouble.InLoad? {
        return false;
      }
      reports.SetStatus(id, Collecting);
      if trouble.InCollect? || trouble.InPersist? {
        return false;
      }
      var stored := reports.ReplaceEvidence(id, collected);
      if !stored {
        return false;
      }
      reports.SetStatus(id, Synthesising);
      LastStatusWins(before, id, Collecting, Synthesising);
      if trouble.InSynthesise? || trouble.InQueue? {
        return false;
      }
      reports.SetStatus(id, Queued);
      LastStatusWins(before, id, Synthesising, Queued);
      if trouble.InEnqueue? {
        return false;
      }
      mails := mails + [id];
      return true;
    }

    /** An unknown report raises; a closed one is left alone; any failure of the graph is recorded as such. */
    method Run(id: ReportId, collected: seq<Evidence>, trouble: Trouble) returns (r: Result<(), UnknownReport>)
      requires reports.Valid()
      modifies this`mails, reports
      ensures reports.Valid()
      ensures r.Failure? <==> id !in old(reports.rows)
      ensures r.Failure? ==> reports.rows == old(reports.rows) && mails == old(mails)
      ensures r.Success? ==>
                var row := old(reports.rows)[id];
                if row.status.Completed? || row.status.Queued? || row.status.Sent? then
                  reports.rows == old(reports.rows) && mails == old(mails)
                else if trouble.NoTrouble? && DistinctEvidence(collected) then
                  && reports.rows == old(reports.rows)[id := row.(status := Queued)] && mails == old(mails) + [id]
                  && reports.snapshots == old(reports.snapshots)[id := collected]
                else reports.rows == old(reports.rows)[id := row.(status := Failed)] && mails == old(mails)
      ensures World(reports.rows, mails)
              == Ran(World(old(reports.rows), old(mails)), id, Effective(trouble, collected))
    {
      hide Progress, DistinctEvidence;
      if id !in reports.rows {
        return Failure(UnknownReport);
      }
      if Closed(reports.rows[id].status) {
        return Success(());
      }
      var ok := Invoke(id, collected, trouble);
      if !ok {
        reports.SetStatus(id, Failed);
      }
      return Success(());
    }
  }

  lemma LastStatusWins(rows: map<ReportId, Report>, id: ReportId, first: ReportStatus, second: ReportStatus)
    ensures WithStatus(WithStatus(rows, id, first), id, second) == WithStatus(rows, id, second)
  {
  }

  /** Repeated evidence is trouble when it is stored. */
  function Effective(trouble: Trouble, collected: seq<Evidence>): Trouble {
    if trouble.InLoad? || trouble.InCollect? || DistinctEvidence(collected) then trouble else InPersist
  }

  /** The report rows and, in order, the reports for which a mail was enqueued. */
  datatype World = World(rows: map<ReportId, Report>, mails: seq<ReportId>)

  /** How far a run gets. */
  function Progress(w: World, id: ReportId, trouble: Trouble): World {
    match trouble
    case InLoad => w
    case InCollect => w.(rows := WithStatus(w.rows, id, Collecting))
    case InPersist => w.(rows := WithStatus(w.rows, id, Collecting))
    case InSynthesise => w.(rows := WithStatus(w.rows, id, Synthesising))
    case InQueue => w.(rows := WithStatus(w.rows, id, Synthesising))
    case InEnqueue => w.(rows := WithStatus(w.rows, id, Queued))
    case NoTrouble => World(WithStatus(w.rows, id, Queued), w.mails + [id])
  }

  function Ran(w: World, id: ReportId, trouble: Trouble): World {
    if id !in w.rows || Closed(w.rows[id].status) then w
    else
      var after := Progress(w, id, trouble);
      if trouble.NoTrouble? then after else after.(rows := WithStatus(after.rows, id, Failed))
  }

  /** The process dies instead of raising: nothing is recorded about it. */
  function Died(w: World, id: ReportId, trouble: Trouble): World {
    if id !in w.rows || Closed(w.rows[id].status) then w else Progress(w, id, trouble)
  }

  /** What a weekly process does for one group, with the lookback of its settings; and the delivery of a mail. */
  datatype Event =
    | Generate(group: nat, owner: string, today: Day, lookback: nat, trouble: Trouble)
    | CrashIn(group: nat, owner: string, today: Day, lookback: nat, trouble: Trouble)
    | Delivered(report: ReportId)

  /** The insert of create_or_get fails: the same group and start, but another end. */
  predicate Refused(rows: map<ReportId, Report>, group: nat, today: Day, lookback: nat) {
    var id := ReportId(today - lookback, group);
    id in rows && rows[id].end != today
  }

  function Opened(w: World, group: nat, owner: string, today: Day, lookback: nat): World {
    var period := ReportingPeriod(today, lookback);
    var id := ReportId(period.0, group);
    if id in w.rows then w else w.(rows := w.rows[id := Report(group, owner, period.0, period.1, Received)])
  }

  function Step(w: World, e: Event): World {
    match e
    case Generate(group, owner, today, lookback, trouble) =>
      if Refused(w.rows, group, today, lookback) then w
      else Ran(Opened(w, group, owner, today, lookback), ReportId(today - lookback, group), trouble)
    case CrashIn(group, owner, today, lookback, trouble) =>
      if Refused(w.rows, group, today, lookback) then w
      else Died(Opened(w, group, owner, today, lookback), ReportId(today - lookback, group), trouble)
    case Delivered(id) => w.(rows := WithStatus(w.rows, id, Sent))
  }

  function RunAll(events: seq<Event>): World {
    if events == [] then World(map[], [])
    else Step(RunAll(events[..|events| - 1]), events[|events| - 1])
  }

  // ---- one weekly run -------------------------------------------------------------------

  /** One group, with what its run of the graph meets. */
  datatype GroupRun = GroupRun(group: nat, collected: seq<Evidence>, trouble: Trouble)

  /** An owner's groups, or None when logging in or listing them raises. */
  datatype Owner = Owner(email: string, listed: Option<seq<GroupRun>>)

  datatype Request = Request(owner: string, run: GroupRun)

  function RequestsOf(owner: string, runs: seq<GroupRun>): (requests: seq<Request>)
    ensures |requests| == |runs|
    ensures forall i :: 0 <= i < |runs| ==> requests[i] == Request(owner, runs[i])
  {
    seq(|runs|, i requires 0 <= i < |runs| => Request(owner, runs[i]))
  }

  function Requests(owners: seq<Owner>): seq<Request> {
    if owners == [] then []
    else
      var last := owners[|owners| - 1];
      Requests(owners[..|owners| - 1]) + (if last.listed.Some? then RequestsOf(last.email, last.listed.value) else [])
  }

  lemma {:induction false} RequestsGrow(owners: seq<Owner>, k: nat)
    requires k <= |owners|
    ensures Requests(owners[..k]) <= Requests(owners)
    decreases |owners| - k
  {
    if k == |owners| {
      assert owners[..k] == owners;
    } else {
      RequestsGrow(owners, k + 1);
      assert owners[..k + 1][..k] == owners[..k];
    }
  }

  function EventOf(r: Request, today: Day, lookback: nat): Event {
    Generate(r.run.group, r.owner, today, lookback, Effective(r.run.trouble, r.run.collected))
  }

  function Steps(w: World, requests: seq<Request>, today: Day, lookback: nat): World {
    if requests == [] then w
    else
      var n := |requests| - 1;
      Step(Steps(w, requests[..n], today, lookback), EventOf(requests[n], today, lookback))
  }

  lemma NextStep(w: World, requests: seq<Request>, r: Request, today: Day, lookback: nat)
    ensures Steps(w, requests + [r], today, lookback)
            == Step(Steps(w, requests, today, lookback), EventOf(r, today, lookback))
  {
    assert (requests + [r])[..|requests|] == requests;
  }

  lemma NoSteps(w: World, today: Day, lookback: nat)
    ensures Steps(w, [], today, lookback) == w
  {
  }

  predicate SamePeriods(rows: map<ReportId, Report>, lookback: nat) {
    forall id :: id in rows ==> rows[id].end == id.start + lookback
  }

  lemma SamePeriodsNeverRefuse(rows: map<ReportId, Report>, group: nat, today: Day, lookback: nat)
    requires SamePeriods(rows, lookback)
    ensures !Refused(rows, group, today, lookback)
  {
  }

  lemma StatusKeepsPeriods(rows: map<ReportId, Report>, id: ReportId, status: ReportStatus, lookback: nat)
    requires SamePeriods(rows, lookback)
    ensures SamePeriods(WithStatus(rows, id, status), lookback)
  {
  }

  lemma ProgressKeepsPeriods(w: World, id: ReportId, trouble: Trouble, lookback: nat)
    requires SamePeriods(w.rows, lookback)
    ensures SamePeriods(Progress(w, id, trouble).rows, lookback)
    ensures SamePeriods(Ran(w, id, trouble).rows, lookback) && SamePeriods(Died(w, id, trouble).rows, lookback)
  {
    hide WithStatus, SamePeriods;
    StatusKeepsPeriods(w.rows, id, Collecting, lookback);
    StatusKeepsPeriods(w.rows, id, Synthesising, lookback);
    StatusKeepsPeriods(w.rows, id, Queued, lookback);
    StatusKeepsPeriods(Progress(w, id, trouble).rows, id, Failed, lookback);
  }

  lemma OpenedKeepsPeriods(w: World, group: nat, owner: string, today: Day, lookback: nat)
    requires SamePeriods(w.rows, lookback)
    ensures SamePeriods(Opened(w, group, owner, today, lookback).rows, lookback)
  {
  }

  lemma StepKeepsPeriods(w: World, e: Event, lookback: nat)
    requires SamePeriods(w.rows, lookback)
    requires !e.Delivered? ==> e.lookback == lookback
    ensures SamePeriods(Step(w, e).rows, lookback)
  {
    hide Refused, SamePeriods, Ran, Died, Opened, WithStatus;
    match e
    case Generate(group, owner, today, _, trouble) =>
      OpenedKeepsPeriods(w, group, owner, today, lookback);
      ProgressKeepsPeriods(Opened(w, group, owner, today, lookback), ReportId(today - lookback, group), trouble, lookback);
    case CrashIn(group, owner, today, _, trouble) =>
      OpenedKeepsPeriods(w, group, owner, today, lookback);
      ProgressKeepsPeriods(Opened(w, group, owner, today, lookback), ReportId(today - lookback, group), trouble, lookback);
    case Delivered(id) => StatusKeepsPeriods(w.rows, id, Sent, lookback);
  }

  // ---- what becomes of each report in one weekly run ------------------------------------

  /** Some group of the run is the report's. */
  ghost predicate Asked(handled: seq<Request>, id: ReportId, start: Day) {
    id.start == start && exists i :: 0 <= i < |handled| && handled[i].run.group == id.group
  }

  /** Some run of the report's graph meets no trouble. */
  ghost predicate WentWell(handled: seq<Request>, id: ReportId, start: Day) {
    id.start == start && exists i :: 0 <= i < |handled| && handled[i].run.group == id.group
                                     && handled[i].run.trouble.NoTrouble? && DistinctEvidence(handled[i].run.collected)
  }

  /**
   * A report that is completed, queued or sent stays so and is not mailed. Any other whose turn
   * came ends queued with one mail if its graph went well, and failed without one if it did not;
   * and a report whose turn did not come is left alone.
   */
  ghost predicate Fate(before: World, after: World, handled: seq<Request>, start: Day, id: ReportId) {
    var closed := id in before.rows && (before.rows[id].status.Completed? || before.rows[id].status.Queued?
                                        || before.rows[id].status.Sent?);
    if Asked(handled, id, start) && !closed then
      var well := WentWell(handled, id, start);
      && id in after.rows && after.rows[id].status == (if well then Queued else Failed)
      && Mailed(after.mails, id) == Mailed(before.mails, id) + (if well then 1 else 0)
    else
      && (id in after.rows <==> id in before.rows) && (id in before.rows ==> after.rows[id] == before.rows[id])
      && Mailed(after.mails, id) == Mailed(before.mails, id)
  }

  ghost predicate Fates(before: World, after: World, handled: seq<Request>, start: Day) {
    forall id :: Fate(before, after, handled, start, id)
  }

  lemma NothingAsked(w: World, start: Day, id: ReportId)
    ensures Fate(w, w, [], start, id)
  {
  }

  lemma FatesCompose(w0: World, w1: World, w2: World, first: seq<Request>, second: seq<Request>, start: Day, id: ReportId)
    requires Fate(w0, w1, first, start, id) && Fate(w1, w2, second, start, id)
    ensures Fate(w0, w2, first + second, start, id)
  {
    hide DistinctEvidence, Mailed;
    AskedTogether(first, second, id, start);
  }

  lemma AskedTogether(first: seq<Request>, second: seq<Request>, id: ReportId, start: Day)
    ensures Asked(first + second, id, start) <==> Asked(first, id, start) || Asked(second, id, start)
    ensures WentWell(first + second, id, start) <==> WentWell(first, id, start) || WentWell(second, id, start)
    ensures WentWell(first, id, start) ==> Asked(first, id, start)
    ensures WentWell(second, id, start) ==> Asked(second, id, start)
  {
    hide DistinctEvidence;
    var all := first + second;
    assert forall i :: 0 <= i < |first| ==> all[i] == first[i];
    assert forall i :: 0 <= i < |second| ==> all[|first| + i] == second[i];
    assert forall i :: |first| <= i < |all| ==> all[i] == second[i - |first|];
  }

  lemma OneAsked(r: Request, id: ReportId, start: Day)
    ensures Asked([r], id, start) <==> id == ReportId(start, r.run.group)
    ensures WentWell([r], id, start)
            <==> id == ReportId(start, r.run.group) && r.run.trouble.NoTrouble? && DistinctEvidence(r.run.collected)
  {
    hide DistinctEvidence;
    assert [r][0] == r;
  }

  lemma MailedOnceMore(mails: seq<ReportId>, report: ReportId, id: ReportId)
    ensures Mailed(mails + [report], id) == Mailed(mails, id) + (if id == report then 1 else 0)
  {
  }

  /** One group: its row is made or found, and then its report is run. */
  method GenerateReport(workflow: WeeklyReportWorkflow, r: Request, today: Day, lookback: nat) returns (ok: bool)
    requires workflow.reports.Valid()
    modifies workflow`mails, workflow.reports
    ensures workflow.reports.Valid()
    ensures ok <==> !Refused(old(workflow.reports.rows), r.run.group, today, lookback)
    ensures var id, before := ReportId(today - lookback, r.run.group), old(workflow.reports.rows);
            && (ok <==> id in before ==> before[id].end == today)
            && (!ok ==> workflow.reports.rows == before && workflow.mails == old(workflow.mails))
            && (ok ==>
                  var row := if id in before then before[id]
                             else Report(r.run.group, r.owner, today - lookback, today, Received);
                  if row.status.Completed? || row.status.Queued? || row.status.Sent? then
                    workflow.reports.rows == before && workflow.mails == old(workflow.mails)
                  else if r.run.trouble.NoTrouble? && DistinctEvidence(r.run.collected) then
                    && workflow.reports.rows == before[id := row.(status := Queued)]
                    && workflow.mails == old(workflow.mails) + [id]
                  else
                    && workflow.reports.rows == before[id := row.(status := Failed)]
                    && workflow.mails == old(workflow.mails))
    ensures World(workflow.reports.rows, workflow.mails)
            == Step(World(old(workflow.reports.rows), old(workflow.mails)), EventOf(r, today, lookback))
    ensures ok ==> Fates(World(old(workflow.reports.rows), old(workflow.mails)),
                         World(workflow.reports.rows, workflow.mails), [r], today - lookback)
  {
    hide Ran, DistinctEvidence, Fates;
    ghost var before := World(workflow.reports.rows, workflow.mails);
    var period := ReportingPeriod(today, lookback);
    var report := workflow.reports.CreateOrGet(r.run.group, r.owner, period.0, period.1);
    if report.Failure? {
      return false;
    }
    var known := workflow.Run(ReportId(period.0, r.run.group), r.run.collected, r.run.trouble);
    GeneratedFates(before, World(workflow.reports.rows, workflow.mails), r, today, lookback);
    return true;
  }

  /** One group's run, from its row before to its row after. */
  lemma GeneratedFate(before: World, after: World, r: Request, today: Day, lookback: nat, id: ReportId)
    requires var report := ReportId(today - lookback, r.run.group);
             var row := if report in before.rows then before.rows[report]
                        else Report(r.run.group, r.owner, today - lookback, today, Received);
             if row.status.Completed? || row.status.Queued? || row.status.Sent? then
               after.rows == before.rows && after.mails == before.mails
             else if r.run.trouble.NoTrouble? && DistinctEvidence(r.run.collected) then
               after.rows == before.rows[report := row.(status := Queued)] && after.mails == before.mails + [report]
             else after.rows == before.rows[report := row.(status := Failed)] && after.mails == before.mails
    ensures Fate(before, after, [r], today - lookback, id)
  {
    hide DistinctEvidence, Mailed, Asked, WentWell;
    OneAsked(r, id, today - lookback);
    MailedOnceMore(before.mails, ReportId(today - lookback, r.run.group), id);
  }

  lemma GeneratedFates(before: World, after: World, r: Request, today: Day, lookback: nat)
    requires var report := ReportId(today - lookback, r.run.group);
             var row := if report in before.rows then before.rows[report]
                        else Report(r.run.group, r.owner, today - lookback, today, Received);
             if row.status.Completed? || row.status.Queued? || row.status.Sent? then
               after.rows == before.rows && after.mails == before.mails
             else if r.run.trouble.NoTrouble? && DistinctEvidence(r.run.collected) then
               after.rows == before.rows[report := row.(status := Queued)] && after.mails == before.mails + [report]
             else after.rows == before.rows[report := row.(status := Failed)] && after.mails == before.mails
    ensures Fates(before, after, [r], today - lookback)
  {
    hide Fate, DistinctEvidence;
    var start := today - lookback;
    forall id ensures Fate(before, after, [r], start, id) {
      GeneratedFate(before, after, r, today, lookback, id);
    }
  }

  /** The groups of one owner, until an insert fails. */
  method RunOwner(workflow: WeeklyReportWorkflow, owner: string, runs: seq<GroupRun>, today: Day, lookback: nat)
    returns (n: nat)
    requires workflow.reports.Valid()
    modifies workflow`mails, workflow.reports
    ensures workflow.reports.Valid() && n <= |runs|
    ensures World(workflow.reports.rows, workflow.mails)
            == Steps(World(old(workflow.reports.rows), old(workflow.mails)), RequestsOf(owner, runs)[..n], today, lookback)
    ensures n < |runs| ==> Refused(workflow.reports.rows, runs[n].group, today, lookback)
    ensures SamePeriods(old(workflow.reports.rows), lookback)
            ==> n == |runs| && SamePeriods(workflow.reports.rows, lookback)
    ensures Fates(World(old(workflow.reports.rows), old(workflow.mails)),
                  World(workflow.reports.rows, workflow.mails), RequestsOf(owner, runs)[..n], today - lookback)
  {
    hide Step, Steps, SamePeriods, Refused, EventOf, Fates, DistinctEvidence;
    ghost var before := World(workflow.reports.rows, workflow.mails);
    ghost var requests := RequestsOf(owner, runs);
    NoSteps(before, today, lookback);
    NoFates(before, today - lookback);
    n := 0;
    while n < |runs|
      invariant workflow.reports.Valid() && n <= |runs|
      invariant World(workflow.reports.rows, workflow.mails) == Steps(before, requests[..n], today, lookback)
      invariant SamePeriods(before.rows, lookback) ==> SamePeriods(workflow.reports.rows, lookback)
      invariant Fates(before, World(workflow.reports.rows, workflow.mails), requests[..n], today - lookback)
    {
      ghost var now := World(workflow.reports.rows, workflow.mails);
      var request := Request(owner, runs[n]);
      var ok := GenerateReport(workflow, request, today, lookback);
      if SamePeriods(now.rows, lookback) {
        SamePeriodsNeverRefuse(now.rows, runs[n].group, today, lookback);
        StepIsKept(now, request, today, lookback);
      }
      if !ok {
        RefusedChangesNothing(now, request, today, lookback);
        return;
      }
      NextStep(before, requests[..n], request, today, lookback);
      assert requests[..n + 1] == requests[..n] + [request];
      AllFatesCompose(before, now, World(workflow.reports.rows, workflow.mails), requests[..n], [request], today - lookback);
      n := n + 1;
    }
  }

  /**
   * One weekly run. An owner whose groups cannot be listed is passed over; the groups of the others
   * each get their step, in order, until an insert fails, which ends the run. With a lookback that
   * has never changed none fails.
   */
  method RunOnce(workflow: WeeklyReportWorkflow, owners: seq<Owner>, today: Day, lookback: nat)
    returns (r: Result<nat, IntegrityError>, ghost handled: seq<Request>)
    requires workflow.reports.Valid()
    modifies workflow`mails, workflow.reports
    ensures workflow.reports.Valid()
    ensures World(workflow.reports.rows, workflow.mails)
            == Steps(World(old(workflow.reports.rows), old(workflow.mails)), handled, today, lookback)
    ensures r.Success? ==> handled == Requests(owners) && r.value == |handled|
    ensures r.Failure? ==> handled < Requests(owners)
                           && Refused(workflow.reports.rows, Requests(owners)[|handled|].run.group, today, lookback)
    ensures SamePeriods(old(workflow.reports.rows), lookback) ==> r.Success?
    ensures Fates(World(old(workflow.reports.rows), old(workflow.mails)),
                  World(workflow.reports.rows, workflow.mails), handled, today - lookback)
  {
    hide Step, Steps, SamePeriods, Refused, EventOf, Fates;
    ghost var before := World(workflow.reports.rows, workflow.mails);
    NoSteps(before, today, lookback);
    NoFates(before, today - lookback);
    var generated := 0;
    handled := [];
    for k := 0 to |owners|
      invariant workflow.reports.Valid() && generated == |handled|
      invariant handled == Requests(owners[..k])
      invariant World(workflow.reports.rows, workflow.mails) == Steps(before, handled, today, lookback)
      invariant SamePeriods(before.rows, lookback) ==> SamePeriods(workflow.reports.rows, lookback)
      invariant Fates(before, World(workflow.reports.rows, workflow.mails), handled, today - lookback)
    {
      ghost var now := World(workflow.reports.rows, workflow.mails);
      RequestsOfNext(owners, k);
      RequestsGrow(owners, k + 1);
      if owners[k].listed.None? {
        continue;
      }
      var runs := owners[k].listed.value;
      ghost var requests := RequestsOf(owners[k].email, runs);
      var n := RunOwner(workflow, owners[k].email, runs, today, lookback);
      StepsCompose(before, handled, requests[..n], today, lookback);
      AllFatesCompose(before, now, World(workflow.reports.rows, workflow.mails), handled, requests[..n], today - lookback);
      if n < |runs| {
        StoppedWithin(handled, requests, n, Requests(owners[..k + 1]), Requests(owners));
        return Failure(IntegrityError), handled + requests[..n];
      }
      assert requests[..n] == requests;
      generated, handled := generated + n, handled + requests;
    }
    assert owners[..|owners|] == owners;
    return Success(generated), handled;
  }

  lemma NoFates(w: World, start: Day)
    ensures Fates(w, w, [], start)
  {
    hide Fate;
    forall id ensures Fate(w, w, [], start, id) {
      NothingAsked(w, start, id);
    }
  }

  lemma AllFatesCompose(w0: World, w1: World, w2: World, first: seq<Request>, second: seq<Request>, start: Day)
    requires Fates(w0, w1, first, start) && Fates(w1, w2, second, start)
    ensures Fates(w0, w2, first + second, start)
  {
    hide Fate;
    forall id ensures Fate(w0, w2, first + second, start, id) {
      FatesCompose(w0, w1, w2, first, second, start, id);
    }
  }

  lemma RequestsOfNext(owners: seq<Owner>, k: nat)
    requires k < |owners|
    ensures Requests(owners[..k + 1]) == Requests(owners[..k])
              + (if owners[k].listed.Some? then RequestsOf(owners[k].email, owners[k].listed.value) else [])
  {
    assert owners[..k + 1][..k] == owners[..k];
  }

  lemma StoppedWithin(handled: seq<Request>, requests: seq<Request>, n: nat, here: seq<Request>, all: seq<Request>)
    requires n < |requests| && here == handled + requests && here <= all
    ensures handled + requests[..n] < all && all[|handled| + n] == requests[n]
  {
    assert here[|handled| + n] == requests[n];
  }

  lemma {:induction false} StepsCompose(w: World, first: seq<Request>, second: seq<Request>, today: Day, lookback: nat)
    ensures Steps(w, first + second, today, lookback) == Steps(Steps(w, first, today, lookback), second, today, lookback)
    decreases |second|
  {
    hide Step;
    if second == [] {
      assert first + second == first;
    } else {
      var n := |second| - 1;
      StepsCompose(w, first, second[..n], today, lookback);
      assert (first + second)[..|first| + n] == first + second[..n];
    }
  }

  lemma RefusedChangesNothing(w: World, r: Request, today: Day, lookback: nat)
    requires Refused(w.rows, r.run.group, today, lookback)
    ensures Step(w, EventOf(r, today, lookback)) == w
  {
  }

  lemma StepIsKept(w: World, r: Request, today: Day, lookback: nat)
    requires SamePeriods(w.rows, lookback)
    ensures SamePeriods(Step(w, EventOf(r, today, lookback)).rows, lookback)
  {
    StepKeepsPeriods(w, EventOf(r, today, lookback), lookback);
  }

  // ---- whole runs -----------------------------------------------------------------------

  function Mailed(mails: seq<ReportId>, id: ReportId): nat {
    multiset(mails)[id]
  }

  /** A report that has been mailed is closed, and was mailed once. */
  predicate Sound(w: World, id: ReportId) {
    && Mailed(w.mails, id) <= 1
    && (Mailed(w.mails, id) == 1 ==> id in w.rows && Closed(w.rows[id].status))
    && (id in w.rows ==> w.rows[id].start == id.start && w.rows[id].group == id.group)
  }

  lemma OpenedKeepsSound(w: World, group: nat, owner: string, today: Day, lookback: nat, id: ReportId)
    requires Sound(w, id)
    ensures Sound(Opened(w, group, owner, today, lookback), id)
  {
  }

  /** An open report has not been mailed; it is closed by the step that mails it. */
  lemma ProgressKeepsSound(w: World, report: ReportId, trouble: Trouble, id: ReportId)
    requires Sound(w, id) && report in w.rows && !Closed(w.rows[report].status)
    ensures Sound(Progress(w, report, trouble), id)
    ensures !trouble.NoTrouble? ==> Progress(w, report, trouble).mails == w.mails
  {
    assert multiset(w.mails + [report]) == multiset(w.mails) + multiset{report};
  }

  lemma FailureKeepsSound(w: World, report: ReportId, id: ReportId)
    requires Sound(w, id) && Mailed(w.mails, report) == 0
    ensures Sound(w.(rows := WithStatus(w.rows, report, Failed)), id)
  {
  }

  lemma RanKeepsSound(w: World, report: ReportId, trouble: Trouble, id: ReportId)
    requires Sound(w, id) && Sound(w, report)
    ensures Sound(Ran(w, report, trouble), id)
  {
    hide WithStatus, Progress;
    if report in w.rows && !Closed(w.rows[report].status) {
      ProgressKeepsSound(w, report, trouble, id);
      if !trouble.NoTrouble? {
        FailureKeepsSound(Progress(w, report, trouble), report, id);
      }
    }
  }

  lemma DiedKeepsSound(w: World, report: ReportId, trouble: Trouble, id: ReportId)
    requires Sound(w, id)
    ensures Sound(Died(w, report, trouble), id)
  {
    hide Progress, Sound;
    if report in w.rows && !Closed(w.rows[report].status) {
      ProgressKeepsSound(w, report, trouble, id);
    }
  }

  lemma DeliveryKeepsSound(w: World, report: ReportId, id: ReportId)
    requires Sound(w, id)
    ensures Sound(w.(rows := WithStatus(w.rows, report, Sent)), id)
  {
  }

  /** The report that a step is about. */
  function Subject(e: Event): ReportId {
    match e
    case Generate(group, _, today, lookback, _) => ReportId(today - lookback, group)
    case CrashIn(group, _, today, lookback, _) => ReportId(today - lookback, group)
    case Delivered(report) => report
  }

  lemma StepKeepsSound(w: World, e: Event, id: ReportId)
    requires Sound(w, id) && Sound(w, Subject(e))
    ensures Sound(Step(w, e), id)
  {
    hide Ran, Died, Opened, Sound, WithStatus, Refused;
    var report := Subject(e);
    match e
    case Generate(group, owner, today, lookback, trouble) =>
      OpenedKeepsSound(w, group, owner, today, lookback, id);
      OpenedKeepsSound(w, group, owner, today, lookback, report);
      RanKeepsSound(Opened(w, group, owner, today, lookback), report, trouble, id);
    case CrashIn(group, owner, today, lookback, trouble) =>
      OpenedKeepsSound(w, group, owner, today, lookback, id);
      DiedKeepsSound(Opened(w, group, owner, today, lookback), report, trouble, id);
    case Delivered(_) =>
      DeliveryKeepsSound(w, report, id);
  }

  lemma {:induction false} RunsAreSound(events: seq<Event>, id: ReportId)
    ensures Sound(RunAll(events), id)
    decreases |events|
  {
    if events != [] {
      hide Sound, Step, Subject;
      var init, last := events[..|events| - 1], events[|events| - 1];
      RunsAreSound(init, id);
      RunsAreSound(init, Subject(last));
      StepKeepsSound(RunAll(init), last, id);
    }
  }

  /**
   * Over any number of runs, owners, failures, crashes and changes of the lookback, with one weekly
   * process at a time: each report is mailed at most once, and a mailed report is never reopened.
   */
  lemma {:induction false} AtMostOneMailPerReport(events: seq<Event>, id: ReportId)
    ensures var w := RunAll(events);
            && Mailed(w.mails, id) <= 1
            && (Mailed(w.mails, id) == 1 ==> id in w.rows && Closed(w.rows[id].status))
  {
    hide RunAll;
    RunsAreSound(events, id);
  }

  /**
   * What keeps a report from ever being mailed: the process dies after a report that is open has
   * been set to QUEUED and before its mail is enqueued, or a report that has not been mailed is
   * recorded as SENT.
   */
  predicate Loses(w: World, e: Event, id: ReportId) {
    match e
    case Generate(_, _, _, _, _) => false
    case CrashIn(group, _, today, lookback, trouble) =>
      && trouble.InEnqueue? && id == ReportId(today - lookback, group)
      && (id in w.rows ==>
            && w.rows[id].end == today
            && !w.rows[id].status.Completed? && !w.rows[id].status.Queued? && !w.rows[id].status.Sent?)
    case Delivered(report) => report == id && id in w.rows && Mailed(w.mails, id) == 0
  }

  /** A report has its mail, or has lost it, exactly when it is closed, and never both. */
  predicate Accounted(w: World, id: ReportId, lost: bool) {
    && Sound(w, id)
    && (Mailed(w.mails, id) == 1 ==> !lost)
    && (id in w.rows && Closed(w.rows[id].status) <==> Mailed(w.mails, id) == 1 || lost)
  }

  /** A step that is about another report leaves this one alone. */
  lemma OthersKept(w: World, e: Event, id: ReportId)
    requires Subject(e) != id
    ensures var after := Step(w, e);
            && (id in after.rows <==> id in w.rows) && (id in w.rows ==> after.rows[id] == w.rows[id])
            && Mailed(after.mails, id) == Mailed(w.mails, id)
  {
    hide Mailed;
    MailedOnceMore(w.mails, Subject(e), id);
  }

  lemma GenerateAccounts(w: World, e: Event, lost: bool)
    requires e.Generate? && Accounted(w, Subject(e), lost) && Sound(Step(w, e), Subject(e))
    ensures Accounted(Step(w, e), Subject(e), lost)
  {
    hide Mailed, Sound;
    OpenIsUnmailed(w, Subject(e), lost);
    MailedOnceMore(w.mails, Subject(e), Subject(e));
  }

  lemma CrashAccounts(w: World, e: Event, lost: bool)
    requires e.CrashIn? && Accounted(w, Subject(e), lost) && Sound(Step(w, e), Subject(e))
    ensures Accounted(Step(w, e), Subject(e), lost || Loses(w, e, Subject(e)))
  {
    hide Mailed, Sound;
    OpenIsUnmailed(w, Subject(e), lost);
    MailedOnceMore(w.mails, Subject(e), Subject(e));
  }

  lemma OpenIsUnmailed(w: World, id: ReportId, lost: bool)
    requires Accounted(w, id, lost)
    ensures Mailed(w.mails, id) <= 1 && (Mailed(w.mails, id) == 1 ==> id in w.rows && Closed(w.rows[id].status))
  {
  }

  lemma DeliveryAccounts(w: World, e: Event, lost: bool)
    requires e.Delivered? && Accounted(w, Subject(e), lost) && Sound(Step(w, e), Subject(e))
    ensures Accounted(Step(w, e), Subject(e), lost || Loses(w, e, Subject(e)))
  {
    hide Mailed;
  }

  lemma StepAccounts(w: World, e: Event, id: ReportId, lost: bool)
    requires Accounted(w, id, lost) && Sound(Step(w, e), id)
    ensures Accounted(Step(w, e), id, lost || Loses(w, e, id))
  {
    hide Mailed, Step, Sound;
    if Subject(e) != id {
      OthersKept(w, e, id);
      AboutAnother(w, e, id);
    } else {
      hide Accounted, Loses;
      match e
      case Generate(_, _, _, _, _) =>
        GenerateAccounts(w, e, lost);
        GenerateLosesNothing(w, e, id);
      case CrashIn(_, _, _, _, _) => CrashAccounts(w, e, lost);
      case Delivered(_) => DeliveryAccounts(w, e, lost);
    }
  }

  lemma AboutAnother(w: World, e: Event, id: ReportId)
    requires Subject(e) != id
    ensures !Loses(w, e, id)
  {
  }

  lemma GenerateLosesNothing(w: World, e: Event, id: ReportId)
    requires e.Generate?
    ensures !Loses(w, e, id)
  {
  }

  ghost predicate EverLost(events: seq<Event>, id: ReportId) {
    exists i :: 0 <= i < |events| && Loses(RunAll(events[..i]), events[i], id)
  }

  lemma EverLostSnoc(events: seq<Event>, id: ReportId)
    requires events != []
    ensures var n := |events| - 1;
            EverLost(events, id) <==> EverLost(events[..n], id) || Loses(RunAll(events[..n]), events[n], id)
  {
    hide RunAll, Loses;
    var n := |events| - 1;
    assert forall i :: 0 <= i < n ==> events[..n][..i] == events[..i];
    if Loses(RunAll(events[..n]), events[n], id) {
      assert EverLost(events, id);
    }
  }

  lemma {:induction false} RunsAccount(events: seq<Event>, id: ReportId)
    ensures Accounted(RunAll(events), id, EverLost(events, id))
    decreases |events|
  {
    if events != [] {
      hide Accounted, Step, Loses, EverLost, Sound;
      var n := |events| - 1;
      RunsAccount(events[..n], id);
      EverLostSnoc(events, id);
      RunsAreSound(events, id);
      StepAccounts(RunAll(events[..n]), events[n], id, EverLost(events[..n], id));
    }
  }

  /**
   * Over every run, a report that is completed, queued or sent has been mailed exactly once, if and
   * only if no step of the run has lost its mail; and one that has not got so far has not been mailed.
   */
  lemma MailedExactly(events: seq<Event>, id: ReportId)
    ensures var w := RunAll(events);
            var closed := id in w.rows && (w.rows[id].status.Completed? || w.rows[id].status.Queued? || w.rows[id].status.Sent?);
            Mailed(w.mails, id) == if closed && !EverLost(events, id) then 1 else 0
  {
    hide RunAll, EverLost;
    RunsAccount(events, id);
  }

  predicate FixedLookback(events: seq<Event>, lookback: nat) {
    forall i :: 0 <= i < |events| && !events[i].Delivered? ==> events[i].lookback == lookback
  }

  lemma {:induction false} RunsKeepPeriods(events: seq<Event>, lookback: nat)
    requires FixedLookback(events, lookback)
    ensures SamePeriods(RunAll(events).rows, lookback)
    decreases |events|
  {
    if events != [] {
      hide Step, SamePeriods;
      RunsKeepPeriods(events[..|events| - 1], lookback);
      StepKeepsPeriods(RunAll(events[..|events| - 1]), events[|events| - 1], lookback);
    } else {
      assert RunAll(events).rows == map[];
    }
  }

  /** While the lookback is fixed, no insert is refused: every run makes the row of its period or finds it. */
  lemma {:induction false} FixedLookbackNeverClashes(events: seq<Event>, lookback: nat, group: nat, today: Day)
    requires FixedLookback(events, lookback)
    ensures var rows, period := RunAll(events).rows, ReportingPeriod(today, lookback);
            var id := ReportId(period.0, group);
            && !Refused(rows, group, today, lookback)
            && (id in rows ==> rows[id].end == period.1 && rows[id].start == period.0 && rows[id].group == group)
  {
    hide RunAll;
    RunsKeepPeriods(events, lookback);
    RunsAreSound(events, ReportId(today - lookback, group));
    SamePeriodsNeverRefuse(RunAll(events).rows, group, today, lookback);
  }

  /** After a change it may be: one day later with one day more reaches back to the same start. */
  lemma ChangedLookbackClashes(group: nat, owner: string, today: Day, lookback: nat, trouble: Trouble)
    ensures Refused(RunAll([Generate(group, owner, today, lookback, trouble)]).rows, group, today + 1, lookback + 1)
  {
    var first := Generate(group, owner, today, lookback, trouble);
    assert [first][..0] == [];
    assert RunAll([first]) == Step(World(map[], []), first);
  }
}
