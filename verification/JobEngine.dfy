/** The job tables and the transactions on them, as values (internal/database/jobs.go).
    Each transaction is one atomic step: row locks serialize it. A transaction is a function of the
    tables and of its inputs; clock readings, generated ids and the row order an unordered query
    yields are inputs. */
module JobEngine {
  import opened Helpers
  import opened Uuids
  import opened JobDomain

  datatype Role = Viewer | OperatorRole | Admin

  predicate MayExecute(r: Role) {
    r == OperatorRole || r == Admin
  }

  datatype Operator = Operator(username: string, role: Role, disabled: bool)
  datatype Audit = JobCreatedAudit(operator: Uuid, username: string, job: Uuid)

  datatype Store = Store(
    operators: map<Uuid, Operator>,
    agents: set<Uuid>,
    jobs: map<Uuid, Job>,
    events: seq<Event>,
    audit: seq<Audit>)

  // ---------- readings of the clock ----------

  /** The readings a pass takes for one row: by the query that judges it, and by the update that ends it, which reads
      the clock once for `finished_at` and once for `updated_at`, in no particular order. */
  datatype Stamps = Stamps(check: Time, finish: Time, update: Time)

  /** The readings of a whole pass, row by row. */
  type Clock = Uuid -> Stamps

  /** One reading that serves for everything. */
  function AtOnce(ts: Time): Stamps {
    Stamps(ts, ts, ts)
  }

  function Still(ts: Time): Clock {
    (id: Uuid) => AtOnce(ts)
  }

  predicate StampsOK(at: Stamps, from: Time, to: Time) {
    from <= at.check <= at.finish <= to && at.check <= at.update <= to
  }

  ghost predicate ClockOK(clk: Clock, from: Time, to: Time) {
    from <= to && forall id: Uuid :: StampsOK(clk(id), from, to)
  }

  // ---------- row changes: one UPDATE of a job row with the one event it inserts ----------

  datatype Move =
    | Requeue(id: Uuid, at: Stamps)
    | Exhaust(id: Uuid, at: Stamps)
    | Expire(id: Uuid, at: Stamps)
    | Dispatch(id: Uuid, ts: Time)
    | Begin(id: Uuid, ts: Time)
    | Finish(id: Uuid, ts: Time, ok: bool)

  predicate RowEnabled(j: Job, m: Move) {
    match m
    case Requeue(_, at) => LeaseExpired(j, at.check) && j.attempt < MAX_ATTEMPTS
    case Exhaust(_, at) => LeaseExpired(j, at.check) && j.attempt >= MAX_ATTEMPTS
    case Expire(_, at) => DeadlineExpired(j, at.check)
    case Dispatch(_, _) =>
      j.state == Queued && 0 <= j.attempt < MAX_ATTEMPTS
    case Begin(_, ts) =>
      j.state == Dispatched && j.dispatchExpiresAt.Some? && ts < j.dispatchExpiresAt.value
    case Finish(_, ts, _) =>
      j.state == Running && j.executionDeadlineAt.Some? && ts < j.executionDeadlineAt.value
  }

  function MoveRow(j: Job, m: Move): Job {
    match m
    case Requeue(_, at) =>
      j.(state := Queued, dispatchedAt := None, dispatchExpiresAt := None, updatedAt := at.update)
    case Exhaust(_, at) =>
      j.(state := Failed, failure := Some(DispatchExhausted), dispatchExpiresAt := None,
         finishedAt := Some(at.finish), updatedAt := at.update)
    case Expire(_, at) =>
      j.(state := Unknown, failure := Some(ExecutionTimeout), executionDeadlineAt := None,
         finishedAt := Some(at.finish), updatedAt := at.update)
    case Dispatch(_, ts) =>
      j.(state := Dispatched, attempt := j.attempt + 1, dispatchedAt := Some(ts),
         dispatchExpiresAt := Some(ts + DISPATCH_LEASE), updatedAt := ts)
    case Begin(_, ts) =>
      j.(state := Running, startedAt := Some(ts), executionDeadlineAt := Some(ts + RESULT_DEADLINE),
         dispatchExpiresAt := None, updatedAt := ts)
    case Finish(_, ts, ok) =>
      j.(state := if ok then Succeeded else Failed, failure := if ok then None else Some(ExecutorError),
         executionDeadlineAt := None, finishedAt := Some(ts), updatedAt := ts)
  }

  function MoveEvent(j: Job, m: Move): Event {
    match m
    case Requeue(_, _) => Event(j.id, JobRequeued, j.attempt, ControllerActor, None)
    case Exhaust(_, _) => Event(j.id, JobFailed, j.attempt, ControllerActor, Some(DispatchExhausted))
    case Expire(_, _) => Event(j.id, JobUnknown, j.attempt, ControllerActor, Some(ExecutionTimeout))
    case Dispatch(_, _) => Event(j.id, JobDispatched, j.attempt + 1, ControllerActor, None)
    case Begin(_, _) => Event(j.id, JobStarted, j.attempt, AgentActor(j.agent), None)
    case Finish(_, _, ok) =>
      if ok then Event(j.id, JobSucceeded, j.attempt, AgentActor(j.agent), None)
      else Event(j.id, JobFailed, j.attempt, AgentActor(j.agent), Some(ExecutorError))
  }

  predicate HasInFlight(jobs: map<Uuid, Job>, agent: Uuid) {
    exists id :: id in jobs && jobs[id].agent == agent && IsInFlight(jobs[id].state)
  }

  predicate Enabled(s: Store, m: Move) {
    && m.id in s.jobs
    && RowEnabled(s.jobs[m.id], m)
    && (m.Dispatch? ==> !HasInFlight(s.jobs, s.jobs[m.id].agent))
  }

  function Do(s: Store, m: Move): Store
    requires m.id in s.jobs
  {
    s.(jobs := s.jobs[m.id := MoveRow(s.jobs[m.id], m)], events := s.events + [MoveEvent(s.jobs[m.id], m)])
  }

  // ---------- reconciliation ----------

  predicate LeaseExpired(j: Job, check: Time) {
    j.state == Dispatched && j.dispatchExpiresAt.Some? && j.dispatchExpiresAt.value <= check
  }

  predicate DeadlineExpired(j: Job, check: Time) {
    j.state == Running && j.executionDeadlineAt.Some? && j.executionDeadlineAt.value <= check
  }

  predicate Expired(j: Job, check: Time) {
    LeaseExpired(j, check) || DeadlineExpired(j, check)
  }

  function ExpiryMove(j: Job, id: Uuid, at: Stamps): Move {
    if j.state == Running then Expire(id, at)
    else if j.attempt < MAX_ATTEMPTS then Requeue(id, at)
    else Exhaust(id, at)
  }

  /** One row reconciled; the single-job reconciler is the case of one reading. */
  function ReconcileOne(s: Store, id: Uuid, at: Stamps): Store {
    if id in s.jobs && Expired(s.jobs[id], at.check) then Do(s, ExpiryMove(s.jobs[id], id, at)) else s
  }

  /** Rows reconciled one after another. */
  function ReconcileAll(s: Store, ids: seq<Uuid>, clk: Clock): Store {
    if ids == [] then s
    else ReconcileOne(ReconcileAll(s, ids[..|ids| - 1], clk), ids[|ids| - 1], clk(ids[|ids| - 1]))
  }

  /** Which rows a reconciliation pass may see: one agent's, or all that nobody else has locked. */
  datatype Scope = AgentScope(agent: Uuid) | GlobalScope(limit: int, locked: set<Uuid>)

  predicate InScope(id: Uuid, j: Job, sc: Scope) {
    match sc
    case AgentScope(a) => j.agent == a
    case GlobalScope(_, locked) => id !in locked
  }

  function LeaseCandidates(jobs: map<Uuid, Job>, sc: Scope, clk: Clock): set<Uuid> {
    set id | id in jobs && InScope(id, jobs[id], sc) && LeaseExpired(jobs[id], clk(id).check)
  }

  function DeadlineCandidates(jobs: map<Uuid, Job>, sc: Scope, clk: Clock): set<Uuid> {
    set id | id in jobs && InScope(id, jobs[id], sc) && DeadlineExpired(jobs[id], clk(id).check)
  }

  function ExpiryInstant(j: Job): Time {
    if j.state == Dispatched && j.dispatchExpiresAt.Some? then j.dispatchExpiresAt.value
    else if j.executionDeadlineAt.Some? then j.executionDeadlineAt.value
    else 0
  }

  ghost predicate Distinct<T(!new)>(xs: seq<T>) {
    forall i, j :: 0 <= i < j < |xs| ==> xs[i] != xs[j]
  }

  /** A query result: every candidate when `cap` is None, else the `cap` earliest to expire,
      in expiry order. */
  ghost predicate IsSelection(jobs: map<Uuid, Job>, candidates: set<Uuid>, cap: Option<nat>, sel: seq<Uuid>) {
    && Distinct(sel)
    && (forall i :: 0 <= i < |sel| ==> sel[i] in candidates && sel[i] in jobs)
    && match cap
       case None => forall c :: c in candidates ==> c in sel
       case Some(n) =>
         && |sel| == (if n <= |candidates| then n else |candidates|)
         && (forall i, j :: 0 <= i < j < |sel| ==> ExpiryInstant(jobs[sel[i]]) <= ExpiryInstant(jobs[sel[j]]))
         && (forall i, c :: 0 <= i < |sel| && c in candidates && c in jobs && c !in sel
               ==> ExpiryInstant(jobs[sel[i]]) <= ExpiryInstant(jobs[c]))
  }

  lemma SelectionMember(jobs: map<Uuid, Job>, candidates: set<Uuid>, cap: Option<nat>, sel: seq<Uuid>)
    requires IsSelection(jobs, candidates, cap, sel)
    ensures sel == [] || sel[0] in candidates
  {
  }

  function EffectiveLimit(limit: int): (n: nat)
    ensures 1 <= n <= 100 && (1 <= limit <= 100 ==> n == limit)
  {
    if limit <= 0 || limit > 100 then 100 else limit
  }

  /** The rows a pass picks: expired leases first, then expired deadlines; a global pass spends one
      limit on both and stops early when the leases used it up. */
  ghost predicate PassSelects(s: Store, sc: Scope, clk: Clock, leases: seq<Uuid>, deadlines: seq<Uuid>) {
    match sc
    case AgentScope(_) =>
      && IsSelection(s.jobs, LeaseCandidates(s.jobs, sc, clk), None, leases)
      && IsSelection(s.jobs, DeadlineCandidates(s.jobs, sc, clk), None, deadlines)
    case GlobalScope(limit, _) =>
      && IsSelection(s.jobs, LeaseCandidates(s.jobs, sc, clk), Some(EffectiveLimit(limit)), leases)
      && |leases| <= EffectiveLimit(limit)
      && IsSelection(s.jobs, DeadlineCandidates(s.jobs, sc, clk), Some(EffectiveLimit(limit) - |leases|), deadlines)
  }

  // ---------- creation ----------

  predicate HoldsKey(j: Job, operator: Uuid, key: Hash) {
    j.creator == operator && j.keyHash == key
  }

  predicate KeyTaken(jobs: map<Uuid, Job>, operator: Uuid, key: Hash) {
    exists id :: id in jobs && HoldsKey(jobs[id], operator, key)
  }

  ghost function KeyHolder(jobs: map<Uuid, Job>, operator: Uuid, key: Hash): (id: Uuid)
    requires KeyTaken(jobs, operator, key)
    ensures id in jobs && HoldsKey(jobs[id], operator, key)
  {
    var id :| id in jobs && HoldsKey(jobs[id], operator, key);
    id
  }

  function ActiveJobs(jobs: map<Uuid, Job>, agent: Uuid): set<Uuid> {
    set id | id in jobs && jobs[id].agent == agent && IsActive(jobs[id].state)
  }

  datatype CreateError =
    | OperatorAuthRequired | PermissionDenied | IdempotencyConflict | AgentNotFound | QueueFull | CreateInternal

  datatype CreateReply = CreateOk(job: Job, isNew: bool) | CreateErr(error: CreateError)

  predicate Authorized(s: Store, operator: Uuid) {
    operator in s.operators && !s.operators[operator].disabled && MayExecute(s.operators[operator].role)
  }

  function NewJob(id: Uuid, agent: Uuid, operator: Uuid, username: string, key: Hash, action: Action,
                  createdAt: Time): Job {
    Job(id, agent, operator, username, key, action, Queued, 0, None, createdAt, createdAt, None, None, None, None, None)
  }

  function Insert(s: Store, j: Job): Store {
    s.(jobs := s.jobs[j.id := j],
       events := s.events + [Event(j.id, JobCreated, 0, OperatorActor(j.username), None)],
       audit := s.audit + [JobCreatedAudit(j.creator, j.username, j.id)])
  }

  /** `newId` and `createdAt` are the column defaults. The primary key and the action check
      constraint refuse an insert with an internal error. */
  ghost function CreateJob(s: Store, operator: Uuid, agent: Uuid, action: Action, key: Hash, newId: Uuid,
                           createdAt: Time)
    : (Store, CreateReply)
  {
    if operator !in s.operators || s.operators[operator].disabled then (s, CreateErr(OperatorAuthRequired))
    else if !MayExecute(s.operators[operator].role) then (s, CreateErr(PermissionDenied))
    else if KeyTaken(s.jobs, operator, key) then
      var existing := s.jobs[KeyHolder(s.jobs, operator, key)];
      if !ValidateJobRow(existing) then (s, CreateErr(CreateInternal))
      else if existing.agent == agent && existing.action == action then (s, CreateOk(existing, false))
      else (s, CreateErr(IdempotencyConflict))
    else if agent !in s.agents then (s, CreateErr(AgentNotFound))
    else if |ActiveJobs(s.jobs, agent)| >= MAX_ACTIVE then (s, CreateErr(QueueFull))
    else if newId in s.jobs || action != AgentPing then (s, CreateErr(CreateInternal))
    else
      var j := NewJob(newId, agent, operator, s.operators[operator].username, key, action, createdAt);
      (Insert(s, j), CreateOk(j, true))
  }

  // ---------- claim ----------

  datatype Assignment = Assignment(job: Uuid, attempt: int, action: Action)
  datatype ClaimReply = NoJob | Assigned(assignment: Assignment) | ClaimCorrupt

  predicate IsQueuedOf(j: Job, agent: Uuid) {
    j.agent == agent && j.state == Queued
  }

  predicate HasQueued(jobs: map<Uuid, Job>, agent: Uuid) {
    exists id :: id in jobs && IsQueuedOf(jobs[id], agent)
  }

  /** First in (created_at, id) order among the agent's queued rows. */
  predicate IsOldest(jobs: map<Uuid, Job>, agent: Uuid, id: Uuid) {
    && id in jobs && IsQueuedOf(jobs[id], agent)
    && forall other :: other in jobs && IsQueuedOf(jobs[other], agent) && other != id ==> Before(jobs[id], jobs[other])
  }

  /** Every row is filed under its own id. */
  predicate Keyed(jobs: map<Uuid, Job>) {
    forall id :: id in jobs ==> jobs[id].id == id
  }

  lemma {:induction false} OldestIn(jobs: map<Uuid, Job>, ids: set<Uuid>) returns (id: Uuid)
    requires Keyed(jobs) && ids != {} && ids <= jobs.Keys
    ensures id in ids && forall other :: other in ids && other != id ==> Before(jobs[id], jobs[other])
    decreases |ids|
  {
    var x :| x in ids;
    var rest := ids - {x};
    assert forall other :: other in ids ==> other == x || other in rest;
    if rest == {} {
      id := x;
    } else {
      var least := OldestIn(jobs, rest);
      assert jobs[x].id != jobs[least].id;
      id := if Before(jobs[x], jobs[least]) then x else least;
    }
  }

  lemma OldestExists(jobs: map<Uuid, Job>, agent: Uuid)
    requires Keyed(jobs) && HasQueued(jobs, agent)
    ensures exists id :: IsOldest(jobs, agent, id)
  {
    var queued := set id | id in jobs && IsQueuedOf(jobs[id], agent);
    var first :| first in jobs && IsQueuedOf(jobs[first], agent);
    assert first in queued;
    var id := OldestIn(jobs, queued);
    assert IsOldest(jobs, agent, id);
  }

  ghost function Oldest(jobs: map<Uuid, Job>, agent: Uuid): (id: Uuid)
    requires Keyed(jobs) && HasQueued(jobs, agent)
    ensures IsOldest(jobs, agent, id)
  {
    OldestExists(jobs, agent);
    var id :| IsOldest(jobs, agent, id);
    id
  }

  /** The order is strict, so the head of the queue is one row. */
  lemma OldestUnique(jobs: map<Uuid, Job>, agent: Uuid, a: Uuid, b: Uuid)
    requires IsOldest(jobs, agent, a) && IsOldest(jobs, agent, b)
    ensures a == b
  {
  }

  lemma {:induction false} ReconcileAllKeyed(s: Store, ids: seq<Uuid>, clk: Clock)
    requires Keyed(s.jobs)
    ensures Keyed(ReconcileAll(s, ids, clk).jobs)
    decreases |ids|
  {
    if ids != [] {
      ReconcileAllKeyed(s, ids[..|ids| - 1], clk);
    }
  }

  /** Reconcile the agent's rows, then dispatch the head of its queue unless a job is in flight.
      A corrupt head rolls the whole transaction back. */
  ghost function ClaimNextAgentJob(s: Store, agent: Uuid, sel: seq<Uuid>, clk: Clock, ts: Time)
    : (Store, ClaimReply)
    requires Keyed(s.jobs)
  {
    if agent !in s.agents then (s, NoJob)
    else
      var s1 := ReconcileAll(s, sel, clk);
      ReconcileAllKeyed(s, sel, clk);
      if HasInFlight(s1.jobs, agent) || !HasQueued(s1.jobs, agent) then (s1, NoJob)
      else
        var id := Oldest(s1.jobs, agent);
        var j := s1.jobs[id];
        if j.action != AgentPing || j.attempt < 0 || j.attempt >= MAX_ATTEMPTS then (s, ClaimCorrupt)
        else (Do(s1, Dispatch(id, ts)), Assigned(Assignment(id, j.attempt + 1, j.action)))
  }

  // ---------- start and complete ----------

  datatype Reply = Accepted | Conflict | Corrupt

  function StartAgentJob(s: Store, agent: Uuid, job: Uuid, attempt: int, ts: Time): (Store, Reply) {
    if job !in s.jobs then (s, Conflict)
    else
      var j := s.jobs[job];
      if j.state != Dispatched || j.agent != agent || j.attempt != attempt || j.dispatchExpiresAt.None?
          then (s, Conflict)
      else if j.dispatchExpiresAt.value <= ts then (s, Conflict)
      else (Do(s, Begin(job, ts)), Accepted)
  }

  /** What an agent may report, and the two texts that go with it. */
  datatype Outcome = SucceededOutcome | FailedOutcome | OtherOutcome(text: string)
  datatype Code = NoCode | ExecutorErrorCode | OtherCode(text: string)

  predicate ConsistentOutcome(outcome: Outcome, code: Code) {
    match outcome
    case SucceededOutcome => code == NoCode
    case FailedOutcome => code == ExecutorErrorCode
    case OtherOutcome(_) => false
  }

  /** A terminal row that records exactly this outcome. */
  predicate Records(j: Job, outcome: Outcome) {
    match outcome
    case SucceededOutcome => j.state == Succeeded && j.failure == None
    case FailedOutcome => j.state == Failed && j.failure == Some(ExecutorError)
    case OtherOutcome(_) => false
  }

  function CompleteAgentJob(s: Store, agent: Uuid, job: Uuid, attempt: int, outcome: Outcome, code: Code,
                            ts: Time): (Store, Reply) {
    if !ConsistentOutcome(outcome, code) then (s, Conflict)
    else if job !in s.jobs then (s, Conflict)
    else
      var j := s.jobs[job];
      if j.agent != agent || j.attempt != attempt then (s, Conflict)
      else if j.state == Running then
        if j.executionDeadlineAt.None? then (s, Corrupt)
        else if j.executionDeadlineAt.value <= ts then (Do(s, Expire(job, AtOnce(ts))), Conflict)
        else (Do(s, Finish(job, ts, outcome == SucceededOutcome)), Accepted)
      else if Records(j, outcome) then (s, Accepted)
      else (s, Conflict)
  }

  // ---------- transactions as data ----------

  datatype Op =
    | CreateOp(operator: Uuid, agent: Uuid, action: Action, key: Hash, newId: Uuid, createdAt: Time)
    | ClaimOp(agent: Uuid, leases: seq<Uuid>, deadlines: seq<Uuid>, clk: Clock, ts: Time)
    | StartOp(agent: Uuid, job: Uuid, attempt: int, ts: Time)
    | CompleteOp(agent: Uuid, job: Uuid, attempt: int, outcome: Outcome, code: Code, ts: Time)
    | SweepOp(scope: Scope, leases: seq<Uuid>, deadlines: seq<Uuid>, clk: Clock)
    | LookOp(job: Uuid, ts: Time)
    | DirectoryOp(operators: map<Uuid, Operator>, newAgents: set<Uuid>)

  /** The inputs the database itself supplies are what it can supply: readings of a clock that was
      at `now` before and is at `later` after, and rows that the queries select. */
  ghost predicate OpOK(s: Store, op: Op, now: Time, later: Time) {
    && now <= later
    && match op
       case CreateOp(_, _, _, _, _, createdAt) => createdAt <= later
       case ClaimOp(agent, leases, deadlines, clk, ts) =>
         ClockOK(clk, now, ts) && ts <= later && PassSelects(s, AgentScope(agent), clk, leases, deadlines)
       case StartOp(_, _, _, ts) => now <= ts <= later
       case CompleteOp(_, _, _, _, _, ts) => now <= ts <= later
       case SweepOp(scope, leases, deadlines, clk) =>
         ClockOK(clk, now, later) && PassSelects(s, scope, clk, leases, deadlines)
       case LookOp(_, ts) => now <= ts <= later
       case DirectoryOp(_, _) => true
  }

  /** The tables after a committed transaction. */
  ghost function Apply(s: Store, op: Op): Store
    requires Keyed(s.jobs)
  {
    match op
    case CreateOp(operator, agent, action, key, newId, createdAt) =>
      CreateJob(s, operator, agent, action, key, newId, createdAt).0
    case ClaimOp(agent, leases, deadlines, clk, ts) =>
      ClaimNextAgentJob(s, agent, leases + deadlines, clk, ts).0
    case StartOp(agent, job, attempt, ts) => StartAgentJob(s, agent, job, attempt, ts).0
    case CompleteOp(agent, job, attempt, outcome, code, ts) =>
      CompleteAgentJob(s, agent, job, attempt, outcome, code, ts).0
    case SweepOp(_, leases, deadlines, clk) => ReconcileAll(s, leases + deadlines, clk)
    case LookOp(job, ts) => ReconcileOne(s, job, AtOnce(ts))
    case DirectoryOp(operators, newAgents) => s.(operators := operators, agents := s.agents + newAgents)
  }
}
