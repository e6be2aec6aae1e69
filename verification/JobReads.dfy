/** Reading a job: the reconciliation commits first, and the row is read in a later statement, with any transactions in
    between. */
module JobReads {
  import opened Uuids
  import opened JobDomain
  import opened JobEngine
  import opened JobLog
  import opened JobInvariants
  import opened JobRuns
  import opened JobReconcile

  datatype JobRead = Found(job: Job) | NotFound | CorruptRow

  function ReadRow(s: Store, job: Uuid): JobRead {
    if job !in s.jobs then NotFound else if ValidateJobRow(s.jobs[job]) then Found(s.jobs[job]) else CorruptRow
  }

  /** The row is there and nothing about it was due by `ts`. */
  predicate NotDue(s: Store, job: Uuid, ts: Time) {
    job in s.jobs && !Expired(s.jobs[job], ts)
  }

  lemma BatchKeepsNotDue(s: Store, ids: seq<Uuid>, clk: Clock, job: Uuid, ts: Time)
    requires Keyed(s.jobs) && NotDue(s, job, ts)
    ensures NotDue(ReconcileAll(s, ids, clk), job, ts)
  {
    hide ReconcileAll, Log;
    BatchIsPointwise(s, ids, clk);
  }

  lemma ClaimKeepsNotDue(s: Store, agent: Uuid, sel: seq<Uuid>, clk: Clock, at: Time, job: Uuid, ts: Time)
    requires Keyed(s.jobs) && NotDue(s, job, ts) && ts <= at
    ensures NotDue(ClaimNextAgentJob(s, agent, sel, clk, at).0, job, ts)
  {
    hide ReconcileAll, ClaimNextAgentJob, HasInFlight, IsOldest, Keyed;
    BatchKeepsNotDue(s, sel, clk, job, ts);
    ClaimCases(s, agent, sel, clk, at);
  }

  lemma CreateKeepsNotDue(s: Store, operator: Uuid, agent: Uuid, action: Action, key: Hash, newId: Uuid,
                          createdAt: Time,
                          job: Uuid, ts: Time)
    requires NotDue(s, job, ts)
    ensures NotDue(CreateJob(s, operator, agent, action, key, newId, createdAt).0, job, ts)
  {
    hide KeyTaken, ActiveJobs, ValidateJobRow;
  }

  /** No transaction makes anything due that lies in the past: the leases and deadlines it sets end later. */
  lemma StepKeepsNotDue(s: Store, op: Op, now: Time, later: Time, job: Uuid, ts: Time)
    requires Keyed(s.jobs) && OpOK(s, op, now, later) && ts <= now && NotDue(s, job, ts)
    ensures NotDue(Apply(s, op), job, ts)
  {
    hide ReconcileAll, ClaimNextAgentJob, CreateJob, PassSelects, Keyed, MoveEvent;
    match op {
      case CreateOp(operator, agent, action, key, newId, createdAt) =>
        CreateKeepsNotDue(s, operator, agent, action, key, newId, createdAt, job, ts);
      case ClaimOp(agent, leases, deadlines, clk, at) =>
        ClaimKeepsNotDue(s, agent, leases + deadlines, clk, at, job, ts);
      case SweepOp(_, leases, deadlines, clk) => BatchKeepsNotDue(s, leases + deadlines, clk, job, ts);
      case _ =>
    }
  }

  lemma {:induction false} RunKeepsNotDue(s: Store, now: Time, steps: seq<Step>, t: Store, end: Time, job: Uuid,
                                          ts: Time)
    requires Inv(s, now) && Run(s, now, steps, t, end) && ts <= now && NotDue(s, job, ts)
    ensures NotDue(t, job, ts)
    decreases |steps|
  {
    hide Inv, Evolves, Apply, OpOK, NotDue;
    if steps != [] {
      OpMovesOn(s, steps[0].op, now, steps[0].later);
      TransactionKeepsInv(s, steps[0].op, now, steps[0].later);
      StepKeepsNotDue(s, steps[0].op, now, steps[0].later, job, ts);
      RunKeepsNotDue(Apply(s, steps[0].op), steps[0].later, steps[1..], t, end, job, ts);
    }
  }

  lemma OpMovesOn(s: Store, op: Op, now: Time, later: Time)
    requires OpOK(s, op, now, later)
    ensures now <= later
  {
    hide PassSelects, ClockOK;
  }

  lemma LookSettles(s: Store, job: Uuid, ts: Time)
    requires job in s.jobs
    ensures NotDue(ReconcileOne(s, job, AtOnce(ts)), job, ts)
  {
  }

  /** A job is looked at, which reconciles it and commits, and read after any further transactions: the read finds a row
      that passes the row check, has evolved from the one that was looked at, and shows no lease or deadline that was
      past at the look. */
  lemma ReadFollowsLook(s: Store, now: Time, job: Uuid, ts: Time, steps: seq<Step>, t: Store, end: Time)
    requires Inv(s, now) && now <= ts && Run(ReconcileOne(s, job, AtOnce(ts)), ts, steps, t, end) && job in s.jobs
    ensures ReadRow(t, job).Found?
    ensures RowEvolves(s.jobs[job], ReadRow(t, job).job) && !Expired(ReadRow(t, job).job, ts)
  {
    hide Inv, Run, RowEvolves, ValidateJobRow, ReconcileOne, Expired;
    ReconcileOneKeepsInv(s, job, AtOnce(ts), now, ts);
    var looked := ReconcileOne(s, job, AtOnce(ts));
    RunKeepsInv(looked, ts, steps, t, end);
    EvolvesTrans(s, looked, t);
    GuardsUnreachable(t, end);
    LookSettles(s, job, ts);
    RunKeepsNotDue(looked, ts, steps, t, end, job, ts);
  }
}
