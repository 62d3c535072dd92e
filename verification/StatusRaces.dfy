/**
 * set_status as the database sees it: a SELECT of the current status, then an UPDATE, with the
 * other thread free to act in between. Here a job is only its status, and store calls do not
 * raise; the guard at the SELECT is the same as in the atomic protocol.
 */
module StatusRaces {
  import opened JobStates

  type JobId = nat

  /** The worker: the next status it is about to look up, or to write, for the job it is at. */
  datatype WorkerPc =
    | WorkerIdle
    | WorkerSelect(id: JobId, target: JobState)
    | WorkerUpdate(id: JobId, target: JobState)
    | Working(id: JobId)
    | Submitting(id: JobId)
    | Finishing(id: JobId)

  datatype MailPc =
    | MailIdle
    | MailSelect(id: JobId, target: JobState)
    | MailUpdate(id: JobId, target: JobState)
    | Accepting(id: JobId)

  /**
   * The last three fields are history: jobs submitted to the backend, jobs reported to their sender
   * as cancelled, and jobs at which a cancel and a start have overlapped.
   */
  datatype State = State(
    status: map<JobId, JobState>,
    worker: WorkerPc,
    waiting: set<JobId>,
    mail: MailPc,
    submitted: set<JobId>,
    confirmed: set<JobId>,
    raced: set<JobId>)

  const Initial := State(map[], WorkerIdle, {}, MailIdle, {}, {}, {})

  datatype Event =
    | ListQueued
    | NextJob(job: JobId)
    | WorkerSelects
    | WorkerUpdates
    | Submit
    | Decide(target: JobState)
    | Finish(fails: bool)
    | NewRequest(newId: JobId)
    | Judge(accept: bool)
    | CancelRequest(job: JobId)
    | AnswerReply(job: JobId)
    | MailSelects
    | MailUpdates
    | Crash

  /** Both threads have passed the guard, one to start the job and one to cancel it. */
  predicate Overlap(s: State, id: JobId) {
    s.worker == WorkerUpdate(id, Processing) && s.mail == MailUpdate(id, Cancelled)
  }

  function Act(s: State, e: Event): State {
    match e
    case ListQueued =>
      if s.worker.WorkerIdle? && s.waiting == {} then
        s.(waiting := set id | id in s.status && s.status[id].Queued?)
      else s
    case NextJob(id) =>
      if s.worker.WorkerIdle? && id in s.waiting then
        s.(worker := WorkerSelect(id, Processing), waiting := s.waiting - {id})
      else s
    case WorkerSelects =>
      if s.worker.WorkerSelect? && s.worker.id in s.status then
        var id, t := s.worker.id, s.worker.target;
        if MayMove(s.status[id], t) then s.(worker := WorkerUpdate(id, t))
        else if t.Processing? || t.Failed? then s.(worker := WorkerIdle)
        else s.(worker := WorkerSelect(id, Failed))
      else s
    case WorkerUpdates =>
      if s.worker.WorkerUpdate? then
        var id, t := s.worker.id, s.worker.target;
        s.(status := s.status[id := t],
           worker := if t.Processing? then Working(id) else if t.Completed? then Finishing(id) else WorkerIdle)
      else s
    case Submit =>
      if s.worker.Working? then
        s.(worker := Submitting(s.worker.id), submitted := s.submitted + {s.worker.id})
      else s
    case Decide(t) =>
      if (s.worker.Working? && (t.NeedsClarification? || t.Completed? || t.Failed?))
         || (s.worker.Submitting? && (t.Completed? || t.Failed?))
      then s.(worker := WorkerSelect(s.worker.id, t)) else s
    case Finish(fails) =>
      if s.worker.Finishing? then s.(worker := if fails then WorkerSelect(s.worker.id, Failed) else WorkerIdle)
      else s
    case NewRequest(id) =>
      if s.mail.MailIdle? && id !in s.status then
        s.(status := s.status[id := Received], mail := MailSelect(id, Validating))
      else s
    case Judge(accept) =>
      if s.mail.Accepting? then
        s.(mail := MailSelect(s.mail.id, if accept then Queued else Failed))
      else s
    case CancelRequest(id) =>
      if s.mail.MailIdle? && id in s.status
         && (s.status[id].Queued? || s.status[id].NeedsClarification?)
      then s.(mail := MailSelect(id, Cancelled)) else s
    case AnswerReply(id) =>
      if s.mail.MailIdle? && id in s.status && s.status[id].NeedsClarification? then
        s.(mail := MailSelect(id, Queued))
      else s
    case MailSelects =>
      if s.mail.MailSelect? && s.mail.id in s.status then
        if MayMove(s.status[s.mail.id], s.mail.target) then s.(mail := MailUpdate(s.mail.id, s.mail.target))
        else s.(mail := MailIdle)
      else s
    case MailUpdates =>
      if s.mail.MailUpdate? then
        var id, t := s.mail.id, s.mail.target;
        s.(status := s.status[id := t],
           mail := if t.Validating? then Accepting(id) else MailIdle,
           confirmed := if t.Cancelled? then s.confirmed + {id} else s.confirmed)
      else s
    case Crash => s.(worker := WorkerIdle, waiting := {}, mail := MailIdle)
  }

  function Step(s: State, e: Event): State {
    var t := Act(s, e);
    if t.worker.WorkerUpdate? && Overlap(t, t.worker.id) then t.(raced := t.raced + {t.worker.id}) else t
  }

  function Run(s: State, events: seq<Event>): State
    decreases |events|
  {
    if events == [] then s else Run(Step(s, events[0]), events[1..])
  }

  // ---- without overlap, the table is respected ------------------------------------------

  predicate WorkerFits(s: State, id: JobId)
    requires id in s.status
  {
    var now := s.status[id];
    match s.worker
    case WorkerIdle => true
    case WorkerSelect(at, t) =>
      at == id ==>
        if t.Processing? then now.Queued? || now.Cancelled?
        else (t.NeedsClarification? && now.Processing?) || (t.Completed? && now.Processing?)
             || (t.Failed? && (now.Processing? || now.Completed?))
    case WorkerUpdate(at, t) =>
      at == id ==>
        if t.Processing? then now.Queued?
        else (t.NeedsClarification? || t.Completed? || t.Failed?) && now.Processing?
    case Working(at) => at == id ==> now.Processing?
    case Submitting(at) => at == id ==> now.Processing?
    case Finishing(at) => at == id ==> now.Completed?
  }

  predicate MailFits(s: State, id: JobId)
    requires id in s.status
  {
    var now := s.status[id];
    match s.mail
    case MailIdle => true
    case MailSelect(at, t) =>
      at == id ==>
        if t.Validating? then now.Received?
        else if t.Queued? then now.Validating? || now.NeedsClarification?
        else if t.Failed? then now.Validating?
        else t.Cancelled? && !now.Received? && !now.Validating?
    case MailUpdate(at, t) =>
      at == id ==>
        if t.Validating? then now.Received?
        else if t.Queued? then now.Validating? || now.NeedsClarification?
        else if t.Failed? then now.Validating?
        else
          && t.Cancelled?
          && (now.Queued? || now.NeedsClarification? || now.Cancelled?)
          && s.worker != WorkerUpdate(id, Processing)
    case Accepting(at) => at == id ==> now.Validating?
  }

  /** The program points and the status of a job go together. */
  predicate TableFits(s: State, id: JobId)
    requires id in s.status
  {
    && WorkerFits(s, id)
    && MailFits(s, id)
    && (id in s.waiting ==> s.status[id].Queued? || s.status[id].Cancelled?)
    && (s.worker != WorkerIdle && s.worker.id == id ==> id !in s.waiting)
  }

  predicate Before(w: WorkerPc, id: JobId) {
    w == Working(id) || w == WorkerSelect(id, NeedsClarification) || w == WorkerUpdate(id, NeedsClarification)
  }

  /** A submitted job is never let go again, and one reported as cancelled is. */
  predicate HistoryFits(s: State, id: JobId)
    requires id in s.status
  {
    var now := s.status[id];
    && (id in s.submitted ==> now.Processing? || now.Completed? || now.Failed?)
    && (id in s.submitted ==> !Before(s.worker, id))
    && (id in s.confirmed ==> now.Cancelled?)
  }

  predicate Fits(s: State, id: JobId)
    requires id in s.status
  {
    TableFits(s, id) && HistoryFits(s, id)
  }

  predicate Shape(s: State) {
    && (s.worker != WorkerIdle ==> s.worker.id in s.status)
    && (s.mail != MailIdle ==> s.mail.id in s.status)
    && s.waiting <= s.status.Keys && s.submitted <= s.status.Keys && s.confirmed <= s.status.Keys
  }

  predicate Inv(s: State) {
    Shape(s) && forall id :: id in s.status && id !in s.raced ==> Fits(s, id)
  }

  lemma ActKeepsShape(s: State, e: Event)
    requires Shape(s)
    ensures Shape(Act(s, e)) && s.status.Keys <= Act(s, e).status.Keys
    ensures forall id :: id in Act(s, e).status && id !in s.status ==> e == NewRequest(id)
    ensures Act(s, e).raced == s.raced
  {
  }

  predicate SchedulerEvent(e: Event) {
    e.ListQueued? || e.NextJob? || e.Crash?
  }

  predicate MailEvent(e: Event) {
    e.NewRequest? || e.Judge? || e.CancelRequest? || e.AnswerReply? || e.MailSelects? || e.MailUpdates?
  }

  lemma WorkerKeepsTable(s: State, e: Event, id: JobId)
    requires Shape(s) && id in s.status && TableFits(s, id)
    requires ByWorker(e) && !Overlap(Act(s, e), id)
    ensures TableFits(Act(s, e), id)
  {
  }

  lemma MailKeepsTable(s: State, e: Event, id: JobId)
    requires Shape(s) && id in s.status && TableFits(s, id)
    requires MailEvent(e) && !Overlap(Act(s, e), id)
    ensures TableFits(Act(s, e), id)
  {
  }

  lemma SchedulerKeepsTable(s: State, e: Event, id: JobId)
    requires Shape(s) && id in s.status && TableFits(s, id)
    requires SchedulerEvent(e)
    ensures TableFits(Act(s, e), id)
  {
  }

  lemma NewJobFits(s: State, id: JobId)
    requires Shape(s) && id !in s.status && id in Act(s, NewRequest(id)).status
    ensures Fits(Act(s, NewRequest(id)), id)
  {
  }

  lemma ActKeepsTable(s: State, e: Event, id: JobId)
    requires Shape(s) && (id in s.status ==> TableFits(s, id))
    requires id in Act(s, e).status && !Overlap(Act(s, e), id)
    ensures TableFits(Act(s, e), id)
  {
    hide Act, TableFits, Overlap, HistoryFits;
    ActKeepsShape(s, e);
    if id !in s.status {
      NewJobFits(s, id);
    } else if ByWorker(e) {
      WorkerKeepsTable(s, e, id);
    } else if SchedulerEvent(e) {
      SchedulerKeepsTable(s, e, id);
    } else {
      MailKeepsTable(s, e, id);
    }
  }

  lemma ActKeepsHistory(s: State, e: Event, id: JobId)
    requires Shape(s) && id in s.status && Fits(s, id)
    requires !Overlap(Act(s, e), id)
    ensures id in Act(s, e).status && HistoryFits(Act(s, e), id)
  {
  }

  lemma ActKeepsFits(s: State, e: Event, id: JobId)
    requires Shape(s) && (id in s.status ==> Fits(s, id))
    requires id in Act(s, e).status && !Overlap(Act(s, e), id)
    ensures Fits(Act(s, e), id)
  {
    hide Act, TableFits, Overlap, HistoryFits;
    ActKeepsTable(s, e, id);
    ActKeepsShape(s, e);
    if id in s.status {
      ActKeepsHistory(s, e, id);
    } else {
      NewJobFits(s, id);
    }
  }

  /** Where overlaps are recorded makes no difference. */
  lemma SameFits(s: State, raced: set<JobId>, id: JobId)
    requires id in s.status
    ensures Fits(s.(raced := raced), id) == Fits(s, id) && TableFits(s.(raced := raced), id) == TableFits(s, id)
  {
  }

  lemma StepKeepsInv(s: State, e: Event)
    requires Inv(s)
    ensures Inv(Step(s, e))
  {
    hide Act, Fits;
    var t := Act(s, e);
    ActKeepsShape(s, e);
    forall id | id in Step(s, e).status && id !in Step(s, e).raced ensures Fits(Step(s, e), id) {
      ActKeepsFits(s, e, id);
      SameFits(t, Step(s, e).raced, id);
    }
  }

  /** Which thread an event belongs to. */
  predicate ByWorker(e: Event) {
    e.WorkerSelects? || e.WorkerUpdates? || e.Submit? || e.Decide? || e.Finish?
  }

  /** The moves that the programs make, thread by thread: a state other than Queued is left by one of them only. */
  predicate Moves(now: JobState, next: JobState, byWorker: bool) {
    if byWorker then
      || (now.Queued? && next.Processing?)
      || (now.Processing? && (next.Completed? || next.Failed? || next.NeedsClarification?))
    else
      || (now.Received? && next.Validating?)
      || (now.Validating? && (next.Queued? || next.Failed?))
      || (now.NeedsClarification? && (next.Queued? || next.Cancelled?))
      || (now.Queued? && next.Cancelled?)
  }

  lemma StepRespectsTable(s: State, e: Event, id: JobId)
    requires Inv(s) && id in s.status && id !in Step(s, e).raced
    ensures var now, next := s.status[id], Step(s, e).status[id];
            && (now != next ==> Moves(now, next, ByWorker(e)) && Allowed(now, next))
            && (now.Completed? || now.Failed? || now.Cancelled? ==> next == now)
  {
    assert Fits(s, id);
  }

  lemma {:induction false} RunKeepsInv(s: State, events: seq<Event>)
    requires Inv(s)
    ensures Inv(Run(s, events))
    decreases |events|
  {
    if events != [] {
      StepKeepsInv(s, events[0]);
      RunKeepsInv(Step(s, events[0]), events[1..]);
    }
  }

  /**
   * At every step of every run, a job at which no cancel has overlapped a start changes status
   * only along the table, never leaves a terminal state, and leaves every state but Queued by the
   * hand of one thread.
   */
  lemma NoRaceNoIllegalMove(before: seq<Event>, e: Event, id: JobId)
    requires id in Run(Initial, before).status
    requires id !in Step(Run(Initial, before), e).raced
    ensures var s := Run(Initial, before);
            var now, next := s.status[id], Step(s, e).status[id];
            && (now != next ==> Moves(now, next, ByWorker(e)) && Allowed(now, next))
            && (now.Completed? || now.Failed? || now.Cancelled? ==> next == now)
  {
    RunKeepsInv(Initial, before);
    StepRespectsTable(Run(Initial, before), e, id);
  }

  /** Without such an overlap, no job is reported to its sender as cancelled and submitted all the same. */
  lemma NoRaceNoCancelledSubmission(events: seq<Event>, id: JobId)
    requires var t := Run(Initial, events); id in t.confirmed && id !in t.raced
    ensures id !in Run(Initial, events).submitted
  {
    RunKeepsInv(Initial, events);
    assert Fits(Run(Initial, events), id);
  }

  // ---- with overlap, it is broken, but for one case -------------------------------------

  predicate BadMove(s: State, t: State, id: JobId) {
    id in s.status && id in t.status && s.status[id] != t.status[id] && !Allowed(s.status[id], t.status[id])
  }

  /** Some change of the job's status in the run is not in the table. */
  predicate Breaks(s: State, events: seq<Event>, id: JobId)
    decreases |events|
  {
    events != [] && (BadMove(s, Step(s, events[0]), id) || Breaks(Step(s, events[0]), events[1..], id))
  }

  /** The state in which the mail thread makes its next UPDATE. */
  function AtMailUpdate(s: State, events: seq<Event>): State
    decreases |events|
  {
    if events == [] || events[0].MailUpdates? then s else AtMailUpdate(Step(s, events[0]), events[1..])
  }

  /** The worker's pending UPDATE is made before the process crashes. */
  predicate WorkerWrites(events: seq<Event>)
    decreases |events|
  {
    events != [] && !events[0].Crash? && (events[0].WorkerUpdates? || WorkerWrites(events[1..]))
  }

  predicate MailWrites(events: seq<Event>)
    decreases |events|
  {
    events != [] && !events[0].Crash? && (events[0].MailUpdates? || MailWrites(events[1..]))
  }

  /** The pending cancel is written, and not to a job that is waiting for its sender. */
  predicate CancelLands(s: State, events: seq<Event>, id: JobId) {
    MailWrites(events)
    && var t := AtMailUpdate(s, events);
       id in t.status && !t.status[id].NeedsClarification?
  }

  /** At some overlap of the run both pending writes are made, and the cancel lands. */
  predicate Collides(s: State, events: seq<Event>, id: JobId)
    decreases |events|
  {
    || (Overlap(s, id) && WorkerWrites(events) && CancelLands(s, events, id))
    || (events != [] && Collides(Step(s, events[0]), events[1..], id))
  }

  /** Both writes are pending, for a job that was queued at both lookups. */
  predicate BothPending(s: State, id: JobId) {
    Overlap(s, id) && id in s.status && s.status[id].Queued? && id !in s.waiting
  }

  /** The worker has written, and is still at the job or has ended it; the cancel has not been written. */
  predicate CancelPending(s: State, id: JobId) {
    && id in s.status && s.mail == MailUpdate(id, Cancelled) && id !in s.waiting
    && (s.status[id].Processing? || s.status[id].Completed? || s.status[id].Failed?)
    && WorkerFits(s, id)
  }

  /** The worker has written, and asked the sender; the cancel has not been written. */
  predicate AskedMeanwhile(s: State, id: JobId) {
    && id in s.status && s.mail == MailUpdate(id, Cancelled) && id !in s.waiting
    && s.status[id].NeedsClarification? && (s.worker != WorkerIdle ==> s.worker.id != id)
  }

  /** The cancel has written; the worker has not. */
  predicate StartPending(s: State, id: JobId) {
    id in s.status && s.status[id].Cancelled? && s.worker == WorkerUpdate(id, Processing) && id !in s.waiting
    && (s.mail != MailIdle ==> s.mail.id != id)
  }

  /** Nothing is pending that could break the table. */
  predicate Calm(s: State, id: JobId) {
    id in s.status ==> TableFits(s, id)
  }

  lemma CalmStep(s: State, e: Event, id: JobId)
    requires Shape(s) && Calm(s, id)
    ensures !Overlap(s, id) || id !in s.status
    ensures !BadMove(s, Step(s, e), id)
    ensures Calm(Step(s, e), id) || BothPending(Step(s, e), id)
  {
    hide TableFits;
    CalmIsNoOverlap(s, id);
    CalmMoves(s, e, id);
    if id in Act(s, e).status {
      SameFits(Act(s, e), Step(s, e).raced, id);
      if Overlap(Act(s, e), id) {
        OverlapOfCalm(s, e, id);
      } else {
        ActKeepsTable(s, e, id);
      }
    }
  }

  lemma CalmIsNoOverlap(s: State, id: JobId)
    requires id !in s.status || TableFits(s, id)
    ensures id in s.status ==> !Overlap(s, id)
  {
  }

  lemma CalmMoves(s: State, e: Event, id: JobId)
    requires Shape(s) && Calm(s, id)
    ensures !BadMove(s, Step(s, e), id)
  {
  }

  lemma OverlapOfCalm(s: State, e: Event, id: JobId)
    requires Shape(s) && Calm(s, id) && id in Act(s, e).status && Overlap(Act(s, e), id)
    ensures BothPending(Step(s, e), id)
  {
  }

  lemma BothPendingStep(s: State, e: Event, id: JobId)
    requires BothPending(s, id)
    ensures !BadMove(s, Step(s, e), id)
    ensures if e.WorkerUpdates? then CancelPending(Step(s, e), id) && Step(s, e).worker == Working(id)
            else if e.MailUpdates? then StartPending(Step(s, e), id)
            else if e.Crash? then Calm(Step(s, e), id)
            else BothPending(Step(s, e), id)
  {
  }

  lemma CancelPendingStep(s: State, e: Event, id: JobId)
    requires CancelPending(s, id)
    ensures !Overlap(s, id)
    ensures if e.MailUpdates? then BadMove(s, Step(s, e), id)
            else
              && !BadMove(s, Step(s, e), id)
              && if e.Crash? then Calm(Step(s, e), id)
                 else CancelPending(Step(s, e), id) || AskedMeanwhile(Step(s, e), id)
  {
  }

  lemma AskedMeanwhileStep(s: State, e: Event, id: JobId)
    requires AskedMeanwhile(s, id)
    ensures Calm(s, id)
    ensures !e.MailUpdates? && !e.Crash? ==> AskedMeanwhile(Step(s, e), id)
  {
  }

  lemma StartPendingStep(s: State, e: Event, id: JobId)
    requires StartPending(s, id)
    ensures !Overlap(s, id)
    ensures if e.WorkerUpdates? then BadMove(s, Step(s, e), id)
            else
              && !BadMove(s, Step(s, e), id)
              && if e.Crash? then Calm(Step(s, e), id) else StartPending(Step(s, e), id)
  {
  }

  lemma {:induction false} AskedNeverLands(s: State, events: seq<Event>, id: JobId)
    requires AskedMeanwhile(s, id)
    ensures !CancelLands(s, events, id)
    decreases |events|
  {
    hide Step, AskedMeanwhile;
    AskedIsWaiting(s, id);
    if events != [] && !events[0].MailUpdates? && !events[0].Crash? {
      AskedMeanwhileStep(s, events[0], id);
      AskedNeverLands(Step(s, events[0]), events[1..], id);
    }
  }

  lemma AskedIsWaiting(s: State, id: JobId)
    requires AskedMeanwhile(s, id)
    ensures id in s.status && s.status[id].NeedsClarification?
  {
  }

  predicate Phase(s: State, id: JobId) {
    Calm(s, id) || BothPending(s, id) || CancelPending(s, id) || StartPending(s, id)
  }

  /** What is left to be made of a pending write breaks the table. */
  predicate Looms(s: State, events: seq<Event>, id: JobId) {
    (CancelPending(s, id) && CancelLands(s, events, id)) || (StartPending(s, id) && WorkerWrites(events))
  }

  lemma OnePhase(s: State, id: JobId)
    ensures CancelPending(s, id) ==> !BothPending(s, id) && !StartPending(s, id) && !Calm(s, id)
    ensures StartPending(s, id) ==> !BothPending(s, id) && !Calm(s, id)
    ensures BothPending(s, id) ==> !Calm(s, id)
    ensures BothPending(s, id) ==> Overlap(s, id) && id in s.status && !s.status[id].NeedsClarification?
    ensures Calm(s, id) && Shape(s) ==> !Overlap(s, id)
    ensures CancelPending(s, id) || StartPending(s, id) ==> !Overlap(s, id)
    ensures CancelPending(s, id) ==> id in s.status && !s.status[id].NeedsClarification?
  {
  }

  lemma StepKeepsShape(s: State, e: Event)
    requires Shape(s)
    ensures Shape(Step(s, e))
  {
    hide Act;
    ActKeepsShape(s, e);
  }

  /** From any phase, what breaks the table is exactly a collision to come, or a write that already looms. */
  lemma {:induction false} BreaksExactly(s: State, events: seq<Event>, id: JobId)
    requires Shape(s) && Phase(s, id)
    ensures Breaks(s, events, id) <==> Collides(s, events, id) || Looms(s, events, id)
    decreases |events|
  {
    hide Step, BadMove, Overlap, Calm, BothPending, CancelPending, StartPending, AskedMeanwhile, Shape;
    OnePhase(s, id);
    if events != [] {
      var e, t, rest := events[0], Step(s, events[0]), events[1..];
      StepKeepsShape(s, e);
      OnePhase(t, id);
      if Calm(s, id) {
        CalmStep(s, e, id);
        BreaksExactly(t, rest, id);
      } else if BothPending(s, id) {
        BothPendingStep(s, e, id);
        BreaksExactly(t, rest, id);
      } else if CancelPending(s, id) {
        CancelPendingStep(s, e, id);
        if !e.MailUpdates? {
          if AskedMeanwhile(t, id) {
            AskedMeanwhileStep(t, e, id);
            AskedNeverLands(t, rest, id);
          }
          BreaksExactly(t, rest, id);
        }
      } else {
        StartPendingStep(s, e, id);
        if !e.WorkerUpdates? {
          BreaksExactly(t, rest, id);
        }
      }
    }
  }

  /**
   * In every run, some change of a job's status is not in the table if and only if at some overlap
   * of a cancel with a start of the job both threads go on to write before the process crashes, and
   * the job is not waiting for its sender at the moment the cancel writes.
   */
  lemma TableBrokenExactly(events: seq<Event>, id: JobId)
    ensures Breaks(Initial, events, id) <==> Collides(Initial, events, id)
  {
    hide Breaks, Collides;
    BreaksExactly(Initial, events, id);
  }

  /** The one harmless way: the worker starts the job and asks its sender before the cancel is written. */
  const Meanwhile: seq<Event> :=
    [WorkerUpdates, Decide(NeedsClarification), WorkerSelects, WorkerUpdates, MailUpdates]

  lemma MeanwhileRuns(s: State, id: JobId)
    requires BothPending(s, id)
    ensures var t := AtMailUpdate(s, Meanwhile);
            && id in t.status && t.status[id].NeedsClarification? && t.mail == MailUpdate(id, Cancelled)
            && Run(s, Meanwhile) == Step(t, MailUpdates)
    ensures WorkerWrites(Meanwhile) && MailWrites(Meanwhile)
  {
    var s1 := Step(s, WorkerUpdates);
    var s2 := Step(s1, Decide(NeedsClarification));
    var s3 := Step(s2, WorkerSelects);
    assert s3.worker == WorkerUpdate(id, NeedsClarification);
    FourSteps(s, WorkerUpdates, Decide(NeedsClarification), WorkerSelects, WorkerUpdates);
  }

  lemma FourSteps(s: State, e1: Event, e2: Event, e3: Event, e4: Event)
    requires !e1.MailUpdates? && !e2.MailUpdates? && !e3.MailUpdates? && !e4.MailUpdates?
    requires e1.WorkerUpdates? && !e2.Crash? && !e3.Crash? && !e4.Crash?
    ensures var events, t := [e1, e2, e3, e4, MailUpdates], Step(Step(Step(Step(s, e1), e2), e3), e4);
            && AtMailUpdate(s, events) == t
            && Run(s, events) == Step(t, MailUpdates)
            && WorkerWrites(events) && MailWrites(events)
  {
    hide Step;
    var events := [e1, e2, e3, e4, MailUpdates];
    var s1 := Step(s, e1);
    var s2 := Step(s1, e2);
    var s3 := Step(s2, e3);
    var s4 := Step(s3, e4);
    assert events[1..] == [e2, e3, e4, MailUpdates] && [e2, e3, e4, MailUpdates][1..] == [e3, e4, MailUpdates];
    assert [e3, e4, MailUpdates][1..] == [e4, MailUpdates] && [e4, MailUpdates][1..] == [MailUpdates];
    assert AtMailUpdate(s2, [e3, e4, MailUpdates]) == AtMailUpdate(s4, [MailUpdates]);
    assert [MailUpdates][1..] == [];
    assert Run(s4, [MailUpdates]) == Step(s4, MailUpdates);
    assert Run(s2, [e3, e4, MailUpdates]) == Run(s4, [MailUpdates]);
    assert MailWrites([MailUpdates]);
    assert MailWrites([e4, MailUpdates]);
    assert MailWrites([e3, e4, MailUpdates]);
    assert MailWrites([e2, e3, e4, MailUpdates]);
  }

  /** Both threads write, and nothing is broken. */
  lemma MeanwhileIsHarmless(s: State, id: JobId)
    requires Shape(s) && BothPending(s, id)
    ensures WorkerWrites(Meanwhile) && MailWrites(Meanwhile) && !CancelLands(s, Meanwhile, id)
    ensures !BadMove(AtMailUpdate(s, Meanwhile), Run(s, Meanwhile), id)
    ensures id in Run(s, Meanwhile).status && Run(s, Meanwhile).status[id].Cancelled?
  {
    MeanwhileRuns(s, id);
    hide AtMailUpdate, BothPending, Run, WorkerWrites, MailWrites;
  }

  function Approach(id: JobId): seq<Event> {
    [ListQueued, NextJob(id), WorkerSelects, CancelRequest(id), MailSelects]
  }

  const Collide: seq<Event> := [WorkerUpdates, MailUpdates, Submit]

  lemma OverlapArises(s: State, id: JobId)
    requires id in s.status && s.status[id].Queued?
    requires s.worker.WorkerIdle? && s.waiting == {} && s.mail.MailIdle?
    ensures Overlap(Run(s, Approach(id)), id)
    ensures Run(s, Approach(id)).status == s.status
  {
    var s0 := Step(s, ListQueued);
    assert id in s0.waiting && s0 == s.(waiting := s0.waiting);
    var s1 := Step(s0, NextJob(id));
    var s2 := Step(s1, WorkerSelects);
    assert s2 == s0.(waiting := s0.waiting - {id}, worker := WorkerUpdate(id, Processing));
    var s3 := Step(s2, CancelRequest(id));
    assert s3 == s2.(mail := MailSelect(id, Cancelled));
    Cons(s, Approach(id));
    Cons(s0, Approach(id)[1..]);
    Cons(s1, Approach(id)[2..]);
    Cons(s2, Approach(id)[3..]);
    Cons(s3, Approach(id)[4..]);
  }

  lemma Cons(s: State, events: seq<Event>)
    requires events != []
    ensures Run(s, events) == Run(Step(s, events[0]), events[1..])
  {
  }

  lemma CollisionSubmitsCancelled(s: State, id: JobId)
    requires id in s.status && Overlap(s, id)
    ensures var t := Run(s, Collide);
            id in t.status && t.status[id].Cancelled? && id in t.confirmed && id in t.submitted
  {
    var s0 := Step(s, WorkerUpdates);
    var s1 := Step(s0, MailUpdates);
    assert s1.worker == Working(id);
    Cons(s, Collide);
    Cons(s0, Collide[1..]);
    Cons(s1, Collide[2..]);
  }

  lemma {:induction false} RunAppends(s: State, first: seq<Event>, second: seq<Event>)
    ensures Run(s, first + second) == Run(Run(s, first), second)
    decreases |first|
  {
    if first == [] {
      assert first + second == second;
    } else {
      assert (first + second)[1..] == first[1..] + second;
      RunAppends(Step(s, first[0]), first[1..], second);
    }
  }

  /**
   * From every quiet state of every run, a queued job at which there has been no overlap has been
   * neither submitted nor reported as cancelled; and a run leads to both.
   */
  lemma CancelledJobIsSubmitted(before: seq<Event>, id: JobId)
    requires var s := Run(Initial, before);
             && id in s.status && s.status[id].Queued? && id !in s.raced
             && s.worker.WorkerIdle? && s.waiting == {} && s.mail.MailIdle?
    ensures var s := Run(Initial, before);
            && id !in s.submitted && id !in s.confirmed
            && var t := Run(s, Approach(id) + Collide);
               id in t.status && t.status[id].Cancelled? && id in t.confirmed && id in t.submitted
  {
    hide Act, Step;
    var s := Run(Initial, before);
    RunKeepsInv(Initial, before);
    assert Fits(s, id);
    OverlapArises(s, id);
    CollisionSubmitsCancelled(Run(s, Approach(id)), id);
    RunAppends(s, Approach(id), Collide);
  }

  /** The worker, at this job, makes its submission. */
  predicate SubmissionMade(s: State, events: seq<Event>, id: JobId)
    decreases |events|
  {
    events != []
    && ((events[0].Submit? && s.worker == Working(id)) || SubmissionMade(Step(s, events[0]), events[1..], id))
  }

  lemma HistoryStep(s: State, e: Event, id: JobId)
    ensures id in Step(s, e).submitted <==> id in s.submitted || (e.Submit? && s.worker == Working(id))
    ensures s.confirmed <= Step(s, e).confirmed
    ensures s.mail == MailUpdate(id, Cancelled) ==>
              if e.MailUpdates? then id in Step(s, e).confirmed else !e.Crash? ==> Step(s, e).mail == s.mail
  {
  }

  lemma {:induction false} SubmittedWhenMade(s: State, events: seq<Event>, id: JobId)
    ensures id in Run(s, events).submitted <==> id in s.submitted || SubmissionMade(s, events, id)
    ensures id in s.confirmed ==> id in Run(s, events).confirmed
    decreases |events|
  {
    if events != [] {
      hide Step;
      HistoryStep(s, events[0], id);
      SubmittedWhenMade(Step(s, events[0]), events[1..], id);
    }
  }

  lemma {:induction false} ConfirmedWhenWritten(s: State, events: seq<Event>, id: JobId)
    requires s.mail == MailUpdate(id, Cancelled) && MailWrites(events)
    ensures id in Run(s, events).confirmed
    decreases |events|
  {
    hide Step;
    HistoryStep(s, events[0], id);
    if events[0].MailUpdates? {
      SubmittedWhenMade(Step(s, events[0]), events[1..], id);
    } else {
      ConfirmedWhenWritten(Step(s, events[0]), events[1..], id);
    }
  }

  /**
   * After a first overlap at which the cancel is written, the job has been both reported as
   * cancelled and submitted if and only if the worker makes its submission.
   */
  lemma CancelledAndSubmittedExactly(before: seq<Event>, e: Event, events: seq<Event>, id: JobId)
    requires var s := Run(Initial, before);
             id in s.status && id !in s.raced && Overlap(Act(s, e), id)
    requires MailWrites(events)
    ensures var s := Step(Run(Initial, before), e);
            var t := Run(s, events);
            id in t.confirmed && id in t.submitted <==> SubmissionMade(s, events, id)
  {
    hide Run, SubmissionMade, MailWrites;
    var s := Run(Initial, before);
    RunKeepsInv(Initial, before);
    assert Fits(s, id);
    OverlapIsUnsubmitted(s, e, id);
    SubmittedWhenMade(Step(s, e), events, id);
    ConfirmedWhenWritten(Step(s, e), events, id);
  }

  lemma OverlapIsUnsubmitted(s: State, e: Event, id: JobId)
    requires Shape(s) && id in s.status && Fits(s, id) && Overlap(Act(s, e), id)
    ensures id !in Step(s, e).submitted && Step(s, e).mail == MailUpdate(id, Cancelled)
  {
  }

  // ---- what each program achieves when nothing interferes -------------------------------

  predicate Quiet(s: State) {
    s.worker.WorkerIdle? && s.waiting == {} && s.mail.MailIdle?
  }

  lemma TwoMore(s: State, e1: Event, e2: Event, rest: seq<Event>)
    ensures Run(s, [e1, e2] + rest) == Run(Step(Step(s, e1), e2), rest)
  {
    hide Step;
    Cons(s, [e1, e2] + rest);
    assert ([e1, e2] + rest)[1..] == [e2] + rest && ([e2] + rest)[1..] == rest;
    Cons(Step(s, e1), [e2] + rest);
  }

  /** A status that the table allows is looked up and written by the mail thread. */
  lemma MailSets(s: State, id: JobId, target: JobState, rest: seq<Event>)
    requires s.mail == MailSelect(id, target) && id in s.status && MayMove(s.status[id], target)
    requires s.worker.WorkerIdle?
    ensures Run(s, [MailSelects, MailUpdates] + rest)
            == Run(s.(status := s.status[id := target], mail := if target.Validating? then Accepting(id) else MailIdle,
                      confirmed := if target.Cancelled? then s.confirmed + {id} else s.confirmed), rest)
  {
    hide Run, MayMove;
    TwoMore(s, MailSelects, MailUpdates, rest);
    var t := Step(s, MailSelects);
    assert t == s.(mail := MailUpdate(id, target));
  }

  lemma WorkerSets(s: State, id: JobId, target: JobState, rest: seq<Event>)
    requires s.worker == WorkerSelect(id, target) && id in s.status && MayMove(s.status[id], target)
    requires s.mail.MailIdle?
    ensures Run(s, [WorkerSelects, WorkerUpdates] + rest)
            == Run(s.(status := s.status[id := target],
                      worker := if target.Processing? then Working(id) else if target.Completed? then Finishing(id)
                                else WorkerIdle), rest)
  {
    hide Run, MayMove;
    TwoMore(s, WorkerSelects, WorkerUpdates, rest);
    var t := Step(s, WorkerSelects);
    assert t == s.(worker := WorkerUpdate(id, target));
  }

  lemma OneMore(s: State, e: Event, rest: seq<Event>)
    ensures Run(s, [e] + rest) == Run(Step(s, e), rest)
  {
    hide Step;
    Cons(s, [e] + rest);
    assert ([e] + rest)[1..] == rest;
  }

  function Accept(id: JobId, accept: bool): seq<Event> {
    [NewRequest(id)] + ([MailSelects, MailUpdates] + ([Judge(accept)] + ([MailSelects, MailUpdates] + [])))
  }

  /** A new request ends queued when it is accepted, and failed when it is not. */
  lemma RequestIsJudged(s: State, id: JobId, accept: bool)
    requires Quiet(s) && id !in s.status
    ensures Run(s, Accept(id, accept)) == s.(status := s.status[id := if accept then Queued else Failed])
  {
    hide Run;
    var write := [MailSelects, MailUpdates];
    OneMore(s, NewRequest(id), write + ([Judge(accept)] + (write + [])));
    var s1 := s.(status := s.status[id := Received], mail := MailSelect(id, Validating));
    assert Step(s, NewRequest(id)) == s1;
    MailSets(s1, id, Validating, [Judge(accept)] + (write + []));
    var s2 := s1.(status := s1.status[id := Validating], mail := Accepting(id));
    IsJudged(s2, id, accept);
    assert s1.status[id := Validating][id := if accept then Queued else Failed]
           == s.status[id := if accept then Queued else Failed];
  }

  lemma IsJudged(s: State, id: JobId, accept: bool)
    requires s.worker.WorkerIdle? && s.mail == Accepting(id) && id in s.status && s.status[id].Validating?
    ensures Run(s, [Judge(accept)] + ([MailSelects, MailUpdates] + []))
            == s.(status := s.status[id := if accept then Queued else Failed], mail := MailIdle)
  {
    hide Run;
    OneMore(s, Judge(accept), [MailSelects, MailUpdates] + []);
    var s1 := s.(mail := MailSelect(id, if accept then Queued else Failed));
    assert Step(s, Judge(accept)) == s1;
    MailSets(s1, id, if accept then Queued else Failed, []);
    NoMore(s.(status := s.status[id := if accept then Queued else Failed], mail := MailIdle));
  }

  lemma NoMore(s: State)
    ensures Run(s, []) == s
  {
  }

  function Work(id: JobId, target: JobState): seq<Event> {
    [ListQueued] + ([NextJob(id)] + ([WorkerSelects, WorkerUpdates]
      + ([Submit] + ([Decide(target)] + ([WorkerSelects, WorkerUpdates] + [Finish(false)])))))
  }

  /** A queued job, the only one, is started, submitted, and completed or failed; then the worker is idle again. */
  lemma QueuedIsWorkedOff(s: State, id: JobId, target: JobState)
    requires Quiet(s) && id in s.status && s.status[id].Queued? && (target.Completed? || target.Failed?)
    requires forall j :: j in s.status && s.status[j].Queued? ==> j == id
    ensures Run(s, Work(id, target))
            == s.(status := s.status[id := target], submitted := s.submitted + {id})
  {
    hide Run;
    var last := [WorkerSelects, WorkerUpdates] + [Finish(false)];
    var s2 := s.(worker := WorkerSelect(id, Processing));
    TakenUp(s, id, [WorkerSelects, WorkerUpdates] + ([Submit] + ([Decide(target)] + last)));
    WorkerSets(s2, id, Processing, [Submit] + ([Decide(target)] + last));
    var s3 := s.(status := s.status[id := Processing], worker := Working(id));
    OneMore(s3, Submit, [Decide(target)] + last);
    var s4 := s3.(worker := Submitting(id), submitted := s.submitted + {id});
    OneMore(s4, Decide(target), last);
    var s5 := s4.(worker := WorkerSelect(id, target));
    WorkerSets(s5, id, target, [Finish(false)]);
    assert s3.status[id := target] == s.status[id := target];
    var s6 := s5.(status := s.status[id := target], worker := if target.Completed? then Finishing(id) else WorkerIdle);
    assert [Finish(false)] == [Finish(false)] + [];
    OneMore(s6, Finish(false), []);
    NoMore(Step(s6, Finish(false)));
  }

  lemma TakenUp(s: State, id: JobId, rest: seq<Event>)
    requires Quiet(s) && id in s.status && s.status[id].Queued?
    requires forall j :: j in s.status && s.status[j].Queued? ==> j == id
    ensures Run(s, [ListQueued] + ([NextJob(id)] + rest)) == Run(s.(worker := WorkerSelect(id, Processing)), rest)
  {
    hide Run;
    OneMore(s, ListQueued, [NextJob(id)] + rest);
    var s1 := Step(s, ListQueued);
    assert s1 == s.(waiting := {id});
    OneMore(s1, NextJob(id), rest);
    assert s1.waiting - {id} == {};
  }

  function Ask(id: JobId): seq<Event> {
    [ListQueued] + ([NextJob(id)] + ([WorkerSelects, WorkerUpdates]
      + ([Decide(NeedsClarification)] + ([WorkerSelects, WorkerUpdates] + []))))
  }

  /** A queued job may be asked about instead; it waits for its sender, not submitted. */
  lemma QueuedIsAskedAbout(s: State, id: JobId)
    requires Quiet(s) && id in s.status && s.status[id].Queued?
    requires forall j :: j in s.status && s.status[j].Queued? ==> j == id
    ensures Run(s, Ask(id)) == s.(status := s.status[id := NeedsClarification])
  {
    hide Run;
    var last := [WorkerSelects, WorkerUpdates] + [];
    TakenUp(s, id, [WorkerSelects, WorkerUpdates] + ([Decide(NeedsClarification)] + last));
    WorkerSets(s.(worker := WorkerSelect(id, Processing)), id, Processing, [Decide(NeedsClarification)] + last);
    var s1 := s.(status := s.status[id := Processing], worker := Working(id));
    OneMore(s1, Decide(NeedsClarification), last);
    var s2 := s1.(worker := WorkerSelect(id, NeedsClarification));
    WorkerSets(s2, id, NeedsClarification, []);
    assert s1.status[id := NeedsClarification] == s.status[id := NeedsClarification];
    NoMore(s.(status := s.status[id := NeedsClarification]));
  }

  /** Its sender's answer queues it again, and a request to cancel cancels it, as it does a queued one. */
  lemma WaitingIsAnswered(s: State, id: JobId)
    requires Quiet(s) && id in s.status
    ensures s.status[id].NeedsClarification? ==>
              Run(s, [AnswerReply(id)] + ([MailSelects, MailUpdates] + [])) == s.(status := s.status[id := Queued])
    ensures s.status[id].NeedsClarification? || s.status[id].Queued? ==>
              Run(s, [CancelRequest(id)] + ([MailSelects, MailUpdates] + []))
              == s.(status := s.status[id := Cancelled], confirmed := s.confirmed + {id})
  {
    hide Run;
    var write := [MailSelects, MailUpdates] + [];
    if s.status[id].NeedsClarification? {
      OneMore(s, AnswerReply(id), write);
      MailSets(Step(s, AnswerReply(id)), id, Queued, []);
      NoMore(s.(status := s.status[id := Queued]));
    }
    if s.status[id].NeedsClarification? || s.status[id].Queued? {
      OneMore(s, CancelRequest(id), write);
      MailSets(Step(s, CancelRequest(id)), id, Cancelled, []);
      NoMore(s.(status := s.status[id := Cancelled], confirmed := s.confirmed + {id}));
    }
  }

  /** A failure recorded after the completion is refused at the lookup, and nothing is written. */
  lemma LateFailureIsRefused(s: State, id: JobId)
    requires s.worker == Finishing(id) && id in s.status && s.status[id].Completed?
    ensures Step(s, Finish(true)).worker == WorkerSelect(id, Failed)
    ensures Run(s, [Finish(true)] + ([WorkerSelects] + [])) == s.(worker := WorkerIdle)
  {
    hide Run;
    OneMore(s, Finish(true), [WorkerSelects] + []);
    OneMore(Step(s, Finish(true)), WorkerSelects, []);
    NoMore(s.(worker := WorkerIdle));
  }

  /** A crash loses what the threads were about, and nothing that is written. */
  lemma CrashLeavesTheTables(s: State)
    ensures Quiet(Step(s, Crash)) && Step(s, Crash).status == s.status
  {
  }

  /** So the failure shows with the first request of all. */
  lemma FirstJobIsCancelledAndSubmitted(id: JobId)
    ensures var t := Run(Initial, Accept(id, true) + (Approach(id) + Collide));
            id in t.status && t.status[id].Cancelled? && id in t.confirmed && id in t.submitted
  {
    hide Run;
    RequestIsJudged(Initial, id, true);
    RunAppends(Initial, Accept(id, true), Approach(id) + Collide);
    CancelledJobIsSubmitted(Accept(id, true), id);
  }
}
