/** The job domain: states, failure codes, rows, events and the pure checks on them
    (internal/job/state.go, internal/job/job.go, and the row check of internal/database/jobs.go). */
module JobDomain {
  import opened Helpers
  import opened Uuids

  /** Instants and durations in microseconds, the resolution of the database clock. */
  type Time = int
  type Hash = nat

  const SECOND: int := 1_000_000
  const DISPATCH_LEASE: int := 30 * SECOND
  const RESULT_DEADLINE: int := 60 * SECOND
  const MAX_ATTEMPTS: int := 5
  const MAX_ACTIVE: nat := 64

  datatype State = Queued | Dispatched | Running | Succeeded | Failed | Unknown
  datatype FailureCode = ExecutorError | DispatchExhausted | ExecutionTimeout
  datatype Action = AgentPing | OtherAction(name: string)

  predicate IsTerminal(s: State) {
    s == Succeeded || s == Failed || s == Unknown
  }

  predicate IsInFlight(s: State) {
    s == Dispatched || s == Running
  }

  predicate IsActive(s: State) {
    s == Queued || IsInFlight(s)
  }

  predicate ValidateTransition(from: State, to: State) {
    match from
    case Queued => to == Dispatched
    case Dispatched => to == Running || to == Queued || to == Failed
    case Running => to == Succeeded || to == Failed || to == Unknown
    case _ => false
  }

  predicate ValidateStateFailureCode(s: State, fc: Option<FailureCode>) {
    match s
    case Failed => fc == Some(ExecutorError) || fc == Some(DispatchExhausted)
    case Unknown => fc == Some(ExecutionTimeout)
    case _ => fc == None
  }

  datatype Job = Job(
    id: Uuid,
    agent: Uuid,
    creator: Uuid,
    username: string,
    keyHash: Hash,
    action: Action,
    state: State,
    attempt: int,
    failure: Option<FailureCode>,
    createdAt: Time,
    updatedAt: Time,
    dispatchedAt: Option<Time>,
    dispatchExpiresAt: Option<Time>,
    startedAt: Option<Time>,
    executionDeadlineAt: Option<Time>,
    finishedAt: Option<Time>)

  datatype EventKind =
    | JobCreated | JobDispatched | JobRequeued | JobStarted
    | JobSucceeded | JobFailed | JobUnknown

  datatype Actor = OperatorActor(username: string) | AgentActor(agent: Uuid) | ControllerActor

  datatype Event = Event(job: Uuid, kind: EventKind, attempt: int, actor: Actor, failure: Option<FailureCode>)

  /** The fail-closed check every row read passes through. */
  predicate ValidateJobRow(j: Job) {
    && j.action == AgentPing
    && 0 <= j.attempt <= MAX_ATTEMPTS
    && ValidateStateFailureCode(j.state, j.failure)
  }

  /** Whether a start was ever accepted for this row. */
  predicate Started(j: Job) {
    j.state == Running || j.state == Succeeded || j.state == Unknown
    || (j.state == Failed && j.failure == Some(ExecutorError))
  }

  /** Whether the row carries an outcome an agent reported. */
  predicate Reported(j: Job) {
    j.state == Succeeded || (j.state == Failed && j.failure == Some(ExecutorError))
  }

  /** The columns no step after creation may touch. */
  predicate SameOrigin(a: Job, b: Job) {
    && a.id == b.id && a.agent == b.agent && a.creator == b.creator && a.username == b.username
    && a.keyHash == b.keyHash && a.action == b.action && a.createdAt == b.createdAt
  }

  /** First-in-first-out order of an agent's queue. */
  predicate Before(a: Job, b: Job) {
    a.createdAt < b.createdAt || (a.createdAt == b.createdAt && a.id < b.id)
  }

  predicate StampBy(t: Option<Time>, now: Time) {
    t.Some? ==> t.value <= now
  }

  /** The shape of a row in each state, with its timing windows; every stamp lies in the past. */
  predicate RowShape(j: Job) {
    && j.action == AgentPing
    && match j.state
       case Queued =>
         && 0 <= j.attempt < MAX_ATTEMPTS && j.failure == None
         && j.dispatchedAt == None && j.dispatchExpiresAt == None && j.startedAt == None
         && j.executionDeadlineAt == None && j.finishedAt == None
       case Dispatched =>
         && 1 <= j.attempt <= MAX_ATTEMPTS && j.failure == None
         && j.dispatchedAt.Some? && j.dispatchExpiresAt == Some(j.dispatchedAt.value + DISPATCH_LEASE)
         && j.startedAt == None && j.executionDeadlineAt == None && j.finishedAt == None
       case Running =>
         && 1 <= j.attempt <= MAX_ATTEMPTS && j.failure == None
         && StartedInLease(j)
         && j.executionDeadlineAt == Some(j.startedAt.value + RESULT_DEADLINE) && j.finishedAt == None
       case Succeeded =>
         j.failure == None && ReportedInTime(j)
       case Failed =>
         || (j.failure == Some(ExecutorError) && ReportedInTime(j))
         || (j.failure == Some(DispatchExhausted) && ExhaustedAfterLease(j))
       case Unknown =>
         && j.failure == Some(ExecutionTimeout) && 1 <= j.attempt <= MAX_ATTEMPTS
         && StartedInLease(j) && j.executionDeadlineAt == None
         && j.finishedAt.Some? && j.startedAt.value + RESULT_DEADLINE <= j.finishedAt.value
  }

  predicate StartedInLease(j: Job) {
    && j.dispatchedAt.Some? && j.startedAt.Some? && j.dispatchExpiresAt == None
    && j.dispatchedAt.value <= j.startedAt.value < j.dispatchedAt.value + DISPATCH_LEASE
  }

  predicate ReportedInTime(j: Job) {
    && 1 <= j.attempt <= MAX_ATTEMPTS && StartedInLease(j) && j.executionDeadlineAt == None
    && j.finishedAt.Some?
    && j.startedAt.value <= j.finishedAt.value < j.startedAt.value + RESULT_DEADLINE
  }

  predicate ExhaustedAfterLease(j: Job) {
    && j.attempt == MAX_ATTEMPTS && j.startedAt == None
    && j.dispatchExpiresAt == None && j.executionDeadlineAt == None
    && j.dispatchedAt.Some? && j.finishedAt.Some?
    && j.dispatchedAt.value + DISPATCH_LEASE <= j.finishedAt.value
  }

  predicate StampsBy(j: Job, now: Time) {
    && j.createdAt <= now && j.updatedAt <= now
    && StampBy(j.dispatchedAt, now) && StampBy(j.startedAt, now) && StampBy(j.finishedAt, now)
  }

  /** The row was last updated when it entered its state. Where the controller ended it, the update stamp and the
      finish stamp may be two readings of the clock; both lie past the expiry. */
  predicate Touched(j: Job) {
    match j.state
    case Queued => true
    case Dispatched => j.dispatchedAt == Some(j.updatedAt)
    case Running => j.startedAt == Some(j.updatedAt)
    case Succeeded => j.finishedAt == Some(j.updatedAt)
    case Failed =>
      if j.failure == Some(ExecutorError) then j.finishedAt == Some(j.updatedAt)
      else j.dispatchedAt.Some? ==> j.dispatchedAt.value + DISPATCH_LEASE <= j.updatedAt
    case Unknown => j.startedAt.Some? ==> j.startedAt.value + RESULT_DEADLINE <= j.updatedAt
  }

  predicate RowOK(j: Job, now: Time) {
    RowShape(j) && StampsBy(j, now) && Touched(j)
  }

  /** How many state changes a row can still make, at most. */
  function Measure(j: Job): (n: nat)
    requires RowShape(j)
    ensures n <= 11
    ensures n == 0 <==> IsTerminal(j.state)
  {
    match j.state
    case Queued => 11 - 2 * j.attempt
    case Dispatched => 12 - 2 * j.attempt
    case Running => 1
    case _ => 0
  }
}
