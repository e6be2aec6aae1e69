/** Which transactions guarantee that the two stamps of a row the controller ends agree, and that the others do not. */
module JobStamps {
  import opened Helpers
  import opened Uuids
  import opened JobDomain
  import opened JobEngine
  import opened JobLog
  import opened JobInvariants
  import opened JobRuns
  import opened JobReconcile

  predicate EndedByController(j: Job) {
    j.state == Unknown || (j.state == Failed && j.failure == Some(DispatchExhausted))
  }

  lemma BatchEndStamps(s: Store, ids: seq<Uuid>, clk: Clock, id: Uuid)
    requires Keyed(s.jobs) && id in s.jobs && IsActive(s.jobs[id].state) && s.jobs[id].failure == None
    ensures var t := ReconcileAll(s, ids, clk);
            && id in t.jobs
            && (EndedByController(t.jobs[id]) ==>
                 t.jobs[id].finishedAt == Some(clk(id).finish) && t.jobs[id].updatedAt == clk(id).update)
  {
    hide ReconcileAll, Log;
    BatchIsPointwise(s, ids, clk);
  }

  /** The row transactions take one reading. */
  lemma RowEndStamps(s: Store, op: Op, id: Uuid)
    requires op.StartOp? || op.CompleteOp? || op.LookOp? || op.DirectoryOp?
    requires Keyed(s.jobs) && id in s.jobs && IsActive(s.jobs[id].state)
    ensures var t := Apply(s, op);
            && id in t.jobs
            && (EndedByController(t.jobs[id]) ==> t.jobs[id].finishedAt == Some(t.jobs[id].updatedAt))
  {
    hide MoveEvent, Keyed;
  }

  // ---------- which transactions guarantee it ----------

  predicate Agree(j: Job) {
    j.finishedAt == Some(j.updatedAt)
  }

  /** The same call: what its caller supplies is the same; the readings of the clock and the rows its queries select,
      which the database supplies, may differ. */
  predicate SameCall(a: Op, b: Op) {
    match a
    case CreateOp(operator, agent, action, key, _, _) =>
      b.CreateOp? && b.operator == operator && b.agent == agent && b.action == action && b.key == key
    case ClaimOp(agent, _, _, _, _) => b.ClaimOp? && b.agent == agent
    case StartOp(agent, job, attempt, _) => b.StartOp? && b.agent == agent && b.job == job && b.attempt == attempt
    case CompleteOp(agent, job, attempt, outcome, code, _) =>
      b.CompleteOp? && b.agent == agent && b.job == job && b.attempt == attempt && b.outcome == outcome
          && b.code == code
    case SweepOp(scope, _, _, _) => b.SweepOp? && b.scope == scope
    case LookOp(job, _) => b.LookOp? && b.job == job
    case DirectoryOp(operators, newAgents) => b.DirectoryOp? && b.operators == operators && b.newAgents == newAgents
  }

  ghost predicate Ends(s: Store, op: Op, id: Uuid)
    requires Keyed(s.jobs)
  {
    id in Apply(s, op).jobs && EndedByController(Apply(s, op).jobs[id])
  }

  /** However the database answers this call, if it ends the row then with stamps that agree. */
  ghost predicate Guarantees(s: Store, op: Op, now: Time, id: Uuid)
    requires Keyed(s.jobs)
  {
    forall op', later' :: SameCall(op, op') && OpOK(s, op', now, later') && Ends(s, op', id) ==>
        Agree(Apply(s, op').jobs[id])
  }

  /** The pass judges every row at the same instant but writes `updated_at` only at `ts`. */
  function Late(clk: Clock, ts: Time): Clock {
    (id: Uuid) => Stamps(clk(id).check, clk(id).finish, ts)
  }

  lemma LateSelects(s: Store, sc: Scope, clk: Clock, ts: Time, leases: seq<Uuid>, deadlines: seq<Uuid>)
    requires PassSelects(s, sc, clk, leases, deadlines)
    ensures PassSelects(s, sc, Late(clk, ts), leases, deadlines)
  {
    assert LeaseCandidates(s.jobs, sc, Late(clk, ts)) == LeaseCandidates(s.jobs, sc, clk);
    assert DeadlineCandidates(s.jobs, sc, Late(clk, ts)) == DeadlineCandidates(s.jobs, sc, clk);
  }

  lemma LateClock(clk: Clock, now: Time, later: Time)
    requires ClockOK(clk, now, later)
    ensures ClockOK(Late(clk, later + 1), now, later + 1)
  {
    var late := Late(clk, later + 1);
    forall id: Uuid ensures StampsOK(late(id), now, later + 1) {
      assert StampsOK(clk(id), now, later);
    }
  }

  /** A pass that ends a row ends it too when it writes late. */
  lemma LateBatchEnds(s: Store, ids: seq<Uuid>, clk: Clock, ts: Time, id: Uuid)
    requires Keyed(s.jobs) && id in s.jobs && id in ReconcileAll(s, ids, clk).jobs
    requires IsActive(s.jobs[id].state) && EndedByController(ReconcileAll(s, ids, clk).jobs[id])
    ensures var t := ReconcileAll(s, ids, Late(clk, ts)); id in t.jobs && EndedByController(t.jobs[id])
  {
    hide ReconcileAll, Log;
    BatchIsPointwise(s, ids, clk);
    BatchIsPointwise(s, ids, Late(clk, ts));
  }

  lemma SweepCanDiffer(s: Store, op: Op, now: Time, later: Time, id: Uuid) returns (op': Op)
    requires op.SweepOp? && Keyed(s.jobs) && OpOK(s, op, now, later) && Ends(s, op, id)
    requires id in s.jobs && IsActive(s.jobs[id].state) && s.jobs[id].failure == None
    ensures SameCall(op, op') && OpOK(s, op', now, later + 1) && Ends(s, op', id) && !Agree(Apply(s, op').jobs[id])
  {
    hide ReconcileAll, PassSelects, Keyed, ClockOK;
    var ids, clk := op.leases + op.deadlines, Late(op.clk, later + 1);
    op' := SweepOp(op.scope, op.leases, op.deadlines, clk);
    LateSelects(s, op.scope, op.clk, later + 1, op.leases, op.deadlines);
    LateClock(op.clk, now, later);
    LateBatchEnds(s, ids, op.clk, later + 1, id);
    BatchEndStamps(s, ids, clk, id);
    FinishBy(op.clk, now, later, id);
  }

  lemma FinishBy(clk: Clock, now: Time, later: Time, id: Uuid)
    requires ClockOK(clk, now, later)
    ensures clk(id).finish <= later
  {
    assert StampsOK(clk(id), now, later);
  }

  lemma ClaimCanDiffer(s: Store, op: Op, now: Time, later: Time, id: Uuid) returns (op': Op)
    requires Inv(s, now) && op.ClaimOp? && Keyed(s.jobs) && OpOK(s, op, now, later) && Ends(s, op, id)
    requires id in s.jobs && IsActive(s.jobs[id].state) && s.jobs[id].failure == None
    ensures SameCall(op, op') && OpOK(s, op', now, later + 1) && Ends(s, op', id) && !Agree(Apply(s, op').jobs[id])
  {
    hide Inv, ReconcileAll, ClaimNextAgentJob, PassSelects, Keyed, ClockOK;
    var ids, clk := op.leases + op.deadlines, Late(op.clk, op.ts + 1);
    op' := ClaimOp(op.agent, op.leases, op.deadlines, clk, op.ts + 1);
    LateSelects(s, AgentScope(op.agent), op.clk, op.ts + 1, op.leases, op.deadlines);
    LateClock(op.clk, now, op.ts);
    ClaimEndsInPass(s, op.agent, ids, op.clk, op.ts, id);
    LateBatchEnds(s, ids, op.clk, op.ts + 1, id);
    ClaimNeverCorrupt(s, op.agent, ids, clk, op.ts + 1, now);
    ClaimLeaves(s, op.agent, ids, clk, op.ts + 1, id);
    BatchEndStamps(s, ids, clk, id);
    FinishBy(op.clk, now, op.ts, id);
  }

  /** A claim ends a row only in its pass. */
  lemma ClaimEndsInPass(s: Store, agent: Uuid, sel: seq<Uuid>, clk: Clock, ts: Time, id: Uuid)
    requires Keyed(s.jobs) && id in s.jobs && IsActive(s.jobs[id].state)
    requires var t := ClaimNextAgentJob(s, agent, sel, clk, ts).0; id in t.jobs && EndedByController(t.jobs[id])
    ensures agent in s.agents && id in ReconcileAll(s, sel, clk).jobs
            && EndedByController(ReconcileAll(s, sel, clk).jobs[id])
  {
    hide ReconcileAll;
  }

  /** For a call that ends a row on the controller's account, that the finish and update stamps agree is guaranteed,
      whatever the clock reads, exactly if the call is neither a claim nor a sweep. */
  lemma StampsGuaranteedIff(s: Store, op: Op, now: Time, later: Time, id: Uuid)
    requires Inv(s, now) && Keyed(s.jobs) && OpOK(s, op, now, later)
    requires id in s.jobs && IsActive(s.jobs[id].state) && Ends(s, op, id)
    ensures Guarantees(s, op, now, id) <==> !op.ClaimOp? && !op.SweepOp?
  {
    hide Inv, Keyed, OpOK, Apply;
    ActiveHasNoFailure(s, now, id);
    if op.SweepOp? {
      var op' := SweepCanDiffer(s, op, now, later, id);
    } else if op.ClaimOp? {
      var op' := ClaimCanDiffer(s, op, now, later, id);
    } else {
      forall op', later' | SameCall(op, op') && OpOK(s, op', now, later') && Ends(s, op', id)
        ensures Agree(Apply(s, op').jobs[id])
      {
        OthersAgree(s, op', id);
      }
    }
  }

  lemma OthersAgree(s: Store, op: Op, id: Uuid)
    requires Keyed(s.jobs) && id in s.jobs && IsActive(s.jobs[id].state) && s.jobs[id].failure == None
    requires !op.ClaimOp? && !op.SweepOp? && Ends(s, op, id)
    ensures Agree(Apply(s, op).jobs[id])
  {
    hide Keyed, CreateJob, StartAgentJob, CompleteAgentJob, ReconcileOne;
    match op {
      case CreateOp(operator, agent, action, key, newId, createdAt) =>
        CreateLeavesRow(s, operator, agent, action, key, newId, createdAt, id);
      case _ => RowEndStamps(s, op, id);
    }
  }

  lemma ActiveHasNoFailure(s: Store, now: Time, id: Uuid)
    requires Inv(s, now) && id in s.jobs && IsActive(s.jobs[id].state)
    ensures s.jobs[id].failure == None
  {
    hide LogsAgree, Conserved, QueueBounded, OneInFlight, KeysUnique, AgentsKnown;
    assert RowOK(s.jobs[id], now);
  }

  lemma CreateLeavesRow(s: Store, operator: Uuid, agent: Uuid, action: Action, key: Hash, newId: Uuid, createdAt: Time,
                        id: Uuid)
    requires id in s.jobs
    ensures var t := CreateJob(s, operator, agent, action, key, newId, createdAt).0;
            id in t.jobs && t.jobs[id] == s.jobs[id]
  {
    hide KeyTaken, ActiveJobs, ValidateJobRow;
  }

  /** Readings for one row that differ by a tick. */
  function TickApart(ts: Time): Clock {
    (id: Uuid) => Stamps(ts, ts, ts + 1)
  }

  /** They can disagree: from any table with a running row, a claim by its agent once the deadline has passed leaves
      that row unknown with an update stamp one tick after its finish stamp. */
  lemma EndStampsCanDiffer(s: Store, now: Time, id: Uuid) returns (op: Op, later: Time)
    requires Inv(s, now) && id in s.jobs && s.jobs[id].state == Running
    ensures Keyed(s.jobs) && OpOK(s, op, now, later)
    ensures var t := Apply(s, op);
            && id in t.jobs && t.jobs[id].state == Unknown && t.jobs[id].finishedAt.Some?
            && t.jobs[id].updatedAt == t.jobs[id].finishedAt.value + 1
  {
    hide LogsAgree, Conserved, QueueBounded, KeysUnique, OneInFlight, ReconcileAll, ClaimNextAgentJob, PassSelects;
    var j := s.jobs[id];
    assert RowOK(j, now);
    var ts := if now <= j.executionDeadlineAt.value then j.executionDeadlineAt.value else now;
    var clk := TickApart(ts);
    later := ts + 1;
    op := ClaimOp(j.agent, [], [id], clk, later);
    OnlyThisRow(s, id, clk);
    ReconcileThis(s, id, clk);
    ClaimNeverCorrupt(s, j.agent, [id], clk, later, now);
    ClaimLeaves(s, j.agent, [id], clk, later, id);
    assert [] + [id] == [id];
  }

  lemma OnlyThisRow(s: Store, id: Uuid, clk: Clock)
    requires OneInFlight(s.jobs) && id in s.jobs && s.jobs[id].state == Running
             && DeadlineExpired(s.jobs[id], clk(id).check)
    ensures PassSelects(s, AgentScope(s.jobs[id].agent), clk, [], [id])
  {
    var sc := AgentScope(s.jobs[id].agent);
    assert LeaseCandidates(s.jobs, sc, clk) == {};
    assert DeadlineCandidates(s.jobs, sc, clk) == {id};
  }

  lemma ReconcileThis(s: Store, id: Uuid, clk: Clock)
    ensures ReconcileAll(s, [id], clk) == ReconcileOne(s, id, clk(id))
  {
    assert [id][..0] == [];
  }

  lemma ClaimLeaves(s: Store, agent: Uuid, sel: seq<Uuid>, clk: Clock, ts: Time, id: Uuid)
    requires Keyed(s.jobs) && agent in s.agents
    requires id in ReconcileAll(s, sel, clk).jobs && EndedByController(ReconcileAll(s, sel, clk).jobs[id])
    requires ClaimNextAgentJob(s, agent, sel, clk, ts).1 != ClaimCorrupt
    ensures var t := ClaimNextAgentJob(s, agent, sel, clk, ts).0;
            id in t.jobs && t.jobs[id] == ReconcileAll(s, sel, clk).jobs[id]
  {
    hide ReconcileAll;
  }
}
