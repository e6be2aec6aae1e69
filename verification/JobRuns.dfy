/** Properties of whole runs: any sequence of transactions, in any interleaving, from any tables
    that satisfy the invariant (the empty tables do). */
module JobRuns {
  import opened Helpers
  import opened Uuids
  import opened JobDomain
  import opened JobEngine
  import opened JobLog
  import opened JobInvariants

  datatype Step = Step(op: Op, later: Time)

  /** The transactions `steps`, committed in this order from `s` at `now`, lead to `t` at `end`.
      A transaction that fails before its commit is no step; one whose commit succeeds is a step even
      when its caller sees an error. */
  ghost predicate Run(s: Store, now: Time, steps: seq<Step>, t: Store, end: Time)
    decreases |steps|
  {
    if steps == [] then s == t && now == end
    else
      && Keyed(s.jobs)
      && OpOK(s, steps[0].op, now, steps[0].later)
      && Run(Apply(s, steps[0].op), steps[0].later, steps[1..], t, end)
  }

  lemma {:induction false} RunKeepsInv(s: Store, now: Time, steps: seq<Step>, t: Store, end: Time)
    requires Inv(s, now) && Run(s, now, steps, t, end)
    ensures Inv(t, end) && Evolves(s, t) && now <= end
    decreases |steps|
  {
    hide Inv, Evolves, Apply;
    if steps == [] {
      EvolvesSame(s);
    } else {
      var next := Apply(s, steps[0].op);
      TransactionKeepsInv(s, steps[0].op, now, steps[0].later);
      RunKeepsInv(next, steps[0].later, steps[1..], t, end);
      EvolvesTrans(s, next, t);
    }
  }

  // ---------- the log is the history ----------

  lemma {:induction false} LogPrefix(a: seq<Event>, b: seq<Event>, id: Uuid)
    requires a <= b
    ensures Log(a, id) <= Log(b, id)
    decreases |b|
  {
    if |a| < |b| {
      LogPrefix(a, b[..|b| - 1], id);
    } else {
      assert a == b;
    }
  }

  /** In every state, a job's stored events replay to exactly its state, attempt and failure code; they
      walk the declared transitions from queued to the current state, hold at most one start, and
      number at most 12, so the default listing limit of 100 never cuts them. */
  lemma LogIsHistory(s: Store, now: Time, id: Uuid)
    requires Inv(s, now) && id in s.jobs
    ensures var j := s.jobs[id]; var log := Log(s.events, id);
            && log == CanonicalLog(j)
            && Fold(log) == Some(Summary(j.state, j.attempt, j.failure))
            && 1 <= |log| <= 12 && |log| + Measure(j) <= 12
            && IsPath(States(log)) && States(log)[0] == Queued && States(log)[|log| - 1] == j.state
            && AtMostOneStart(log)
  {
    var j := s.jobs[id];
    FoldCanonical(j);
    CanonicalLength(j);
    CanonicalStartsOnce(j);
    FoldIsPath(CanonicalLog(j));
  }

  /** Over any run, a job's history only grows, and the part that was added is a walk along the declared
      transitions from the old state to the new one. */
  lemma RunWalksTransitions(s: Store, now: Time, steps: seq<Step>, t: Store, end: Time, id: Uuid)
    requires Inv(s, now) && Run(s, now, steps, t, end) && id in s.jobs
    ensures id in t.jobs && RowEvolves(s.jobs[id], t.jobs[id])
    ensures var before, after := Log(s.events, id), Log(t.events, id);
            && 1 <= |before| <= |after| && before <= after
            && States(after)[|before| - 1] == s.jobs[id].state
            && States(after)[|after| - 1] == t.jobs[id].state
            && IsPath(States(after)[|before| - 1..])
  {
    hide Inv, Run, Log, Fold, CanonicalLog, States, IsPath, RowEvolves, AtMostOneStart;
    RunKeepsInv(s, now, steps, t, end);
    LogIsHistory(s, now, id);
    LogIsHistory(t, end, id);
    LogPrefix(s.events, t.events, id);
    WalkBetween(Log(s.events, id), Log(t.events, id));
  }

  lemma WalkBetween(before: seq<Event>, after: seq<Event>)
    requires 1 <= |before| && before <= after && IsPath(States(after))
    ensures States(after)[|before| - 1] == States(before)[|before| - 1]
    ensures IsPath(States(after)[|before| - 1..])
  {
    assert after[|before| - 1] == before[|before| - 1];
    var walk := States(after)[|before| - 1..];
    forall i | 0 <= i < |walk| - 1 ensures ValidateTransition(walk[i], walk[i + 1]) {
      var k := |before| - 1 + i;
      assert walk[i] == States(after)[k] && walk[i + 1] == States(after)[k + 1];
    }
  }

  // ---------- concurrency ----------

  function InFlightJobs(jobs: map<Uuid, Job>, agent: Uuid): set<Uuid> {
    set id | id in jobs && jobs[id].agent == agent && IsInFlight(jobs[id].state)
  }

  /** In every state an agent has at most one dispatched or running job and at most 64 that are not terminal. */
  lemma ConcurrencyBounds(s: Store, now: Time)
    requires Inv(s, now)
    ensures forall agent: Uuid :: |InFlightJobs(s.jobs, agent)| <= 1 && |ActiveJobs(s.jobs, agent)| <= 64
  {
    hide LogsAgree, Conserved, Rows, KeysUnique, AgentsKnown;
    forall agent: Uuid ensures |InFlightJobs(s.jobs, agent)| <= 1 && |ActiveJobs(s.jobs, agent)| <= 64 {
      var ids := InFlightJobs(s.jobs, agent);
      if ids != {} {
        var one :| one in ids;
        assert ids == {one};
      }
      assert |ActiveJobs(s.jobs, agent)| <= MAX_ACTIVE;
    }
  }

  // ---------- first in, first out ----------

  /** When a claim hands out a job, every other job of that agent that is ahead of it in (created_at, id)
      order is terminal, also when the claim first requeued the very job it then dispatched. */
  lemma ClaimIsFifo(s: Store, agent: Uuid, sel: seq<Uuid>, clk: Clock, ts: Time, now: Time)
    requires Inv(s, now) && ClockOK(clk, now, ts)
    requires ClaimNextAgentJob(s, agent, sel, clk, ts).1.Assigned?
    ensures var (t, reply) := ClaimNextAgentJob(s, agent, sel, clk, ts);
            var id := reply.assignment.job;
            && id in s.jobs && id in t.jobs && t.jobs[id].agent == agent && t.jobs[id].state == Dispatched
            && t.jobs[id].attempt == reply.assignment.attempt
            && forall other :: other in t.jobs && t.jobs[other].agent == agent && other != id ==>
                 IsTerminal(t.jobs[other].state) || (t.jobs[other].state == Queued && Before(t.jobs[id], t.jobs[other]))
  {
    hide ReconcileAll, Inv, ClaimNextAgentJob, HasInFlight;
    InvKeyed(s, now);
    ReconcileAllSameIds(s, sel, clk);
    ClaimCases(s, agent, sel, clk, ts);
    var s1 := ReconcileAll(s, sel, clk);
    HeadIsFifo(s1, agent, ClaimNextAgentJob(s, agent, sel, clk, ts).1.assignment.job, ts);
  }

  lemma HeadIsFifo(s1: Store, agent: Uuid, id: Uuid, ts: Time)
    requires IsOldest(s1.jobs, agent, id) && !HasInFlight(s1.jobs, agent)
    ensures var t := Do(s1, Dispatch(id, ts));
            forall other :: other in t.jobs && t.jobs[other].agent == agent && other != id ==>
              IsTerminal(t.jobs[other].state) || (t.jobs[other].state == Queued && Before(t.jobs[id], t.jobs[other]))
  {
    var t := Do(s1, Dispatch(id, ts));
    forall other | other in t.jobs && t.jobs[other].agent == agent && other != id
      ensures IsTerminal(t.jobs[other].state) || (t.jobs[other].state == Queued && Before(t.jobs[id], t.jobs[other]))
    {
      assert t.jobs[other] == s1.jobs[other];
      if !IsTerminal(t.jobs[other].state) {
        assert !IsInFlight(s1.jobs[other].state);
        assert IsQueuedOf(s1.jobs[other], agent);
      }
    }
  }

  lemma {:induction false} ReconcileAllSameIds(s: Store, ids: seq<Uuid>, clk: Clock)
    ensures var t := ReconcileAll(s, ids, clk);
            t.jobs.Keys == s.jobs.Keys && t.agents == s.agents && t.operators == s.operators
    decreases |ids|
  {
    if ids != [] {
      ReconcileAllSameIds(s, ids[..|ids| - 1], clk);
    }
  }

  // ---------- fail-closed guards never fire ----------

  /** Every row read passes the row check, and completion cannot meet a corrupt row. */
  lemma GuardsUnreachable(s: Store, now: Time)
    requires Inv(s, now)
    ensures forall id :: id in s.jobs ==> ValidateJobRow(s.jobs[id])
    ensures forall agent, job, attempt, outcome, code, ts ::
              CompleteAgentJob(s, agent, job, attempt, outcome, code, ts).1 != Corrupt
  {
    hide LogsAgree, Conserved, QueueBounded, OneInFlight, KeysUnique, StampsBy, Do;
    forall id | id in s.jobs ensures ValidateJobRow(s.jobs[id]) {
      assert RowOK(s.jobs[id], now);
    }
  }

  lemma ClaimNeverCorrupt(s: Store, agent: Uuid, sel: seq<Uuid>, clk: Clock, ts: Time, now: Time)
    requires Inv(s, now) && ClockOK(clk, now, ts)
    ensures var reply := ClaimNextAgentJob(s, agent, sel, clk, ts).1;
            reply != ClaimCorrupt
            && (reply.Assigned? ==>
                 1 <= reply.assignment.attempt <= MAX_ATTEMPTS && reply.assignment.action == AgentPing)
  {
    ReconcileAllKeepsInv(s, sel, clk, now, ts);
    var s1 := ReconcileAll(s, sel, clk);
    assert Rows(s1.jobs, ts);
  }

  // ---------- the heartbeat hint ----------

  /** The hint a heartbeat computes. */
  predicate HasActiveJobs(jobs: map<Uuid, Job>, agent: Uuid) {
    exists id :: id in jobs && jobs[id].agent == agent && IsActive(jobs[id].state)
  }

  /** Skipping the claim when the hint is false loses nothing: the claim would return nothing and change nothing. */
  lemma HintIsExact(s: Store, agent: Uuid, leases: seq<Uuid>, deadlines: seq<Uuid>, clk: Clock, ts: Time)
    requires Keyed(s.jobs) && PassSelects(s, AgentScope(agent), clk, leases, deadlines)
    requires !HasActiveJobs(s.jobs, agent)
    ensures ClaimNextAgentJob(s, agent, leases + deadlines, clk, ts) == (s, NoJob)
  {
    SelectionMember(s.jobs, LeaseCandidates(s.jobs, AgentScope(agent), clk), None, leases);
    SelectionMember(s.jobs, DeadlineCandidates(s.jobs, AgentScope(agent), clk), None, deadlines);
    assert leases + deadlines == [];
  }

  // ---------- creation is idempotent ----------

  /** Once a job holds an operator's key, then after any run a create with that key from an authorized
      operator changes nothing, even at a full queue: the same target and action get the same job back,
      anything else a conflict. And no second job ever holds the key. */
  lemma CreateIsIdempotent(s: Store, now: Time, steps: seq<Step>, t: Store, end: Time, id: Uuid,
                           agent: Uuid, action: Action, newId: Uuid, createdAt: Time)
    requires Inv(s, now) && Run(s, now, steps, t, end) && id in s.jobs
    requires Authorized(t, s.jobs[id].creator)
    ensures var j := s.jobs[id];
            var (u, reply) := CreateJob(t, j.creator, agent, action, j.keyHash, newId, createdAt);
            && u == t && id in t.jobs && SameOrigin(j, t.jobs[id])
            && reply == (if agent == j.agent && action == j.action then CreateOk(t.jobs[id], false)
                         else CreateErr(IdempotencyConflict))
    ensures forall other :: other in t.jobs && HoldsKey(t.jobs[other], s.jobs[id].creator, s.jobs[id].keyHash) ==>
            other == id
  {
    hide LogsAgree, Conserved, QueueBounded, OneInFlight, Rows, Run, ValidateJobRow, CreateJob;
    RunKeepsInv(s, now, steps, t, end);
    GuardsUnreachable(t, end);
    var j := s.jobs[id];
    assert RowEvolves(j, t.jobs[id]);
    TakenKeyReplays(t, id, j.creator, j.keyHash, agent, action, newId, createdAt);
  }

  lemma TakenKeyReplays(t: Store, id: Uuid, operator: Uuid, key: Hash, agent: Uuid, action: Action, newId: Uuid,
                        createdAt: Time)
    requires KeysUnique(t.jobs) && Authorized(t, operator)
    requires id in t.jobs && HoldsKey(t.jobs[id], operator, key) && ValidateJobRow(t.jobs[id])
    ensures CreateJob(t, operator, agent, action, key, newId, createdAt) ==
            (t, if agent == t.jobs[id].agent && action == t.jobs[id].action then CreateOk(t.jobs[id], false)
                else CreateErr(IdempotencyConflict))
    ensures forall other :: other in t.jobs && HoldsKey(t.jobs[other], operator, key) ==> other == id
  {
    assert KeyHolder(t.jobs, operator, key) == id;
  }

  /** A successful create leaves a job that holds the key, so the retries above apply to it, and a new job is
      one the table did not have. */
  lemma CreateTakesKey(s: Store, operator: Uuid, agent: Uuid, action: Action, key: Hash, newId: Uuid, createdAt: Time,
                       now: Time)
    requires Inv(s, now)
    ensures var (t, reply) := CreateJob(s, operator, agent, action, key, newId, createdAt);
            && (reply.CreateOk? ==>
                 var id := reply.job.id;
                 && id in t.jobs && t.jobs[id] == reply.job && HoldsKey(reply.job, operator, key)
                 && reply.job.agent == agent && reply.job.action == action
                 && (reply.isNew <==> id !in s.jobs))
            && (reply.CreateOk? && reply.isNew <==> t != s)
  {
    hide RowOK, LogsAgree, Conserved, QueueBounded, OneInFlight;
    var (t, reply) := CreateJob(s, operator, agent, action, key, newId, createdAt);
    if reply.CreateOk? && reply.isNew {
      assert |t.events| > |s.events|;
    }
  }

  // ---------- completion is replay-stable, stale traffic is fenced ----------

  /** Once a completion is accepted, then after any run the identical one is accepted without change and the
      opposite outcome is refused without change. */
  lemma CompletionIsStable(s: Store, now: Time, agent: Uuid, job: Uuid, attempt: int, ok: bool, ts: Time,
                           steps: seq<Step>, t: Store, end: Time, ts': Time)
    requires Inv(s, now) && now <= ts
    requires CompleteAgentJob(s, agent, job, attempt, OutcomeOf(ok), CodeOf(ok), ts).1 == Accepted
    requires Run(CompleteAgentJob(s, agent, job, attempt, OutcomeOf(ok), CodeOf(ok), ts).0, ts, steps, t, end)
    ensures CompleteAgentJob(t, agent, job, attempt, OutcomeOf(ok), CodeOf(ok), ts') == (t, Accepted)
    ensures CompleteAgentJob(t, agent, job, attempt, OutcomeOf(!ok), CodeOf(!ok), ts') == (t, Conflict)
  {
    hide Inv, CompleteAgentJob, Run;
    CompleteKeepsInv(s, agent, job, attempt, OutcomeOf(ok), CodeOf(ok), ts, now);
    AcceptedIsRecorded(s, agent, job, attempt, ok, ts);
    var s1 := CompleteAgentJob(s, agent, job, attempt, OutcomeOf(ok), CodeOf(ok), ts).0;
    RunKeepsInv(s1, ts, steps, t, end);
    assert RowEvolves(s1.jobs[job], t.jobs[job]);
    RecordedReplays(t, agent, job, attempt, ok, ts');
  }

  lemma AcceptedIsRecorded(s: Store, agent: Uuid, job: Uuid, attempt: int, ok: bool, ts: Time)
    requires CompleteAgentJob(s, agent, job, attempt, OutcomeOf(ok), CodeOf(ok), ts).1 == Accepted
    ensures var t := CompleteAgentJob(s, agent, job, attempt, OutcomeOf(ok), CodeOf(ok), ts).0;
            job in t.jobs && t.jobs[job].agent == agent && t.jobs[job].attempt == attempt
                && Records(t.jobs[job], OutcomeOf(ok))
  {
  }

  lemma RecordedReplays(t: Store, agent: Uuid, job: Uuid, attempt: int, ok: bool, ts: Time)
    requires job in t.jobs && t.jobs[job].agent == agent && t.jobs[job].attempt == attempt
             && Records(t.jobs[job], OutcomeOf(ok))
    ensures CompleteAgentJob(t, agent, job, attempt, OutcomeOf(ok), CodeOf(ok), ts) == (t, Accepted)
    ensures CompleteAgentJob(t, agent, job, attempt, OutcomeOf(!ok), CodeOf(!ok), ts) == (t, Conflict)
  {
  }

  function OutcomeOf(ok: bool): Outcome {
    if ok then SucceededOutcome else FailedOutcome
  }

  function CodeOf(ok: bool): Code {
    if ok then NoCode else ExecutorErrorCode
  }

  /** A start or completion for an attempt that has been superseded, at any later time, or from another
      agent, is refused and changes nothing. */
  lemma StaleIsFenced(s: Store, now: Time, steps: seq<Step>, t: Store, end: Time,
                      agent: Uuid, job: Uuid, attempt: int, outcome: Outcome, code: Code, ts: Time)
    requires Inv(s, now) && Run(s, now, steps, t, end) && job in s.jobs
    requires attempt < s.jobs[job].attempt || agent != s.jobs[job].agent
    ensures StartAgentJob(t, agent, job, attempt, ts) == (t, Conflict)
    ensures CompleteAgentJob(t, agent, job, attempt, outcome, code, ts) == (t, Conflict)
  {
    RunKeepsInv(s, now, steps, t, end);
    assert RowEvolves(s.jobs[job], t.jobs[job]);
  }

  // ---------- only finitely many changes ----------

  function Without(events: seq<Event>, id: Uuid): (es: seq<Event>)
    ensures forall i :: 0 <= i < |es| ==> es[i] in events && es[i].job != id
  {
    if events == [] then []
    else
      var last := events[|events| - 1];
      Without(events[..|events| - 1], id) + (if last.job == id then [] else [last])
  }

  lemma {:induction false} WithoutSplits(events: seq<Event>, id: Uuid, other: Uuid)
    ensures |events| == |Log(events, id)| + |Without(events, id)|
    ensures other != id ==> Log(Without(events, id), other) == Log(events, other)
  {
    if events != [] {
      var front, last := events[..|events| - 1], events[|events| - 1];
      WithoutSplits(front, id, other);
      if last.job != id {
        LogAppend(Without(front, id), last, other);
      } else if other != id {
        assert Without(events, id) == Without(front, id) && Log(events, other) == Log(front, other);
      }
    }
  }

  lemma {:induction false} EventsBound(events: seq<Event>, ids: set<Uuid>)
    requires forall i :: 0 <= i < |events| ==> events[i].job in ids
    requires forall id :: id in ids ==> |Log(events, id)| <= 12
    ensures |events| <= 12 * |ids|
    decreases |ids|
  {
    if events != [] {
      var x := events[0].job;
      var rest := Without(events, x);
      WithoutSplits(events, x, x);
      forall id | id in ids - {x} ensures |Log(rest, id)| <= 12 {
        WithoutSplits(events, x, id);
      }
      EventsBound(rest, ids - {x});
    }
  }

  lemma EventBudget(s: Store, now: Time)
    requires Inv(s, now)
    ensures |s.events| <= 12 * |s.jobs.Keys|
  {
    forall id | id in s.jobs.Keys ensures |Log(s.events, id)| <= 12 {
      LogIsHistory(s, now, id);
    }
    EventsBound(s.events, s.jobs.Keys);
  }

  /** How many transactions of a run changed some job row. */
  ghost function Changes(s: Store, steps: seq<Step>): nat
    decreases |steps|
  {
    if steps == [] || !Keyed(s.jobs) then 0
    else
      var t := Apply(s, steps[0].op);
      (if t.jobs == s.jobs then 0 else 1) + Changes(t, steps[1..])
  }

  lemma {:induction false} ReconcileAllLogs(s: Store, ids: seq<Uuid>, clk: Clock)
    ensures var t := ReconcileAll(s, ids, clk);
            |s.events| <= |t.events| && (t.jobs != s.jobs ==> |s.events| < |t.events|)
    decreases |ids|
  {
    if ids != [] {
      ReconcileAllLogs(s, ids[..|ids| - 1], clk);
    }
  }

  /** A transaction that changes a row writes an event, and only a creation adds a row. */
  lemma ClaimIsLogged(s: Store, agent: Uuid, sel: seq<Uuid>, clk: Clock, ts: Time)
    requires Keyed(s.jobs)
    ensures var t := ClaimNextAgentJob(s, agent, sel, clk, ts).0;
            |s.events| <= |t.events| && (t.jobs != s.jobs ==> |s.events| < |t.events|) && t.jobs.Keys == s.jobs.Keys
  {
    hide ReconcileAll, ClaimNextAgentJob, Keyed, HasInFlight, IsOldest, RowEnabled, MoveRow, MoveEvent;
    ReconcileAllLogs(s, sel, clk);
    ReconcileAllSameIds(s, sel, clk);
    ClaimCases(s, agent, sel, clk, ts);
  }

  lemma ChangeIsLogged(s: Store, op: Op)
    requires Keyed(s.jobs)
    ensures |s.events| <= |Apply(s, op).events|
    ensures Apply(s, op).jobs != s.jobs ==> |s.events| < |Apply(s, op).events|
    ensures !op.CreateOp? ==> Apply(s, op).jobs.Keys == s.jobs.Keys
  {
    hide ReconcileAll, ClaimNextAgentJob, CreateJob, StartAgentJob, CompleteAgentJob, Keyed, MoveRow, MoveEvent;
    match op {
      case StartOp(agent, job, attempt, ts) => StartIsLogged(s, agent, job, attempt, ts);
      case CompleteOp(agent, job, attempt, outcome, code, ts) =>
        CompleteIsLogged(s, agent, job, attempt, outcome, code, ts);
      case CreateOp(operator, agent, action, key, newId, createdAt) =>
        CreateIsLogged(s, operator, agent, action, key, newId, createdAt);
      case ClaimOp(agent, leases, deadlines, clk, ts) =>
        ClaimIsLogged(s, agent, leases + deadlines, clk, ts);
      case SweepOp(_, leases, deadlines, clk) =>
        ReconcileAllLogs(s, leases + deadlines, clk);
        ReconcileAllSameIds(s, leases + deadlines, clk);
      case _ =>
    }
  }

  lemma StartIsLogged(s: Store, agent: Uuid, job: Uuid, attempt: int, ts: Time)
    ensures var t := StartAgentJob(s, agent, job, attempt, ts).0;
            t == s || (|t.events| == |s.events| + 1 && t.jobs.Keys == s.jobs.Keys)
  {
    hide MoveRow, MoveEvent;
  }

  lemma CompleteIsLogged(s: Store, agent: Uuid, job: Uuid, attempt: int, outcome: Outcome, code: Code, ts: Time)
    ensures var t := CompleteAgentJob(s, agent, job, attempt, outcome, code, ts).0;
            t == s || (|t.events| == |s.events| + 1 && t.jobs.Keys == s.jobs.Keys)
  {
    hide MoveRow, MoveEvent, ConsistentOutcome, Records;
  }

  lemma CreateIsLogged(s: Store, operator: Uuid, agent: Uuid, action: Action, key: Hash, newId: Uuid, createdAt: Time)
    ensures var t := CreateJob(s, operator, agent, action, key, newId, createdAt).0;
            |s.events| <= |t.events| && (t.jobs != s.jobs ==> |s.events| < |t.events|)
  {
    hide KeyTaken, ActiveJobs, ValidateJobRow;
  }

  lemma {:induction false} ChangesAreLogged(s: Store, now: Time, steps: seq<Step>, t: Store, end: Time)
    requires Run(s, now, steps, t, end)
    requires forall i :: 0 <= i < |steps| ==> !steps[i].op.CreateOp?
    ensures |s.events| + Changes(s, steps) <= |t.events| && t.jobs.Keys == s.jobs.Keys
    decreases |steps|
  {
    hide Apply;
    if steps != [] {
      ChangeIsLogged(s, steps[0].op);
      ChangesAreLogged(Apply(s, steps[0].op), steps[0].later, steps[1..], t, end);
    }
  }

  /** Between creations only finitely many transactions can change a row: at most 12 per job, counting
      the events already written. */
  lemma RunsSettle(s: Store, now: Time, steps: seq<Step>, t: Store, end: Time)
    requires Inv(s, now) && Run(s, now, steps, t, end)
    requires forall i :: 0 <= i < |steps| ==> !steps[i].op.CreateOp?
    ensures Changes(s, steps) <= 12 * |s.jobs.Keys| - |s.events|
  {
    RunKeepsInv(s, now, steps, t, end);
    ChangesAreLogged(s, now, steps, t, end);
    EventBudget(t, end);
  }

  // ---------- conservation and timing, read off the invariant ----------

  lemma {:induction false} DistinctCard(xs: seq<Uuid>, ids: set<Uuid>)
    requires Distinct(xs) && forall id :: id in ids <==> id in xs
    ensures |ids| == |xs|
    decreases |xs|
  {
    if xs == [] {
      assert ids == {};
    } else {
      var front, last := xs[..|xs| - 1], xs[|xs| - 1];
      assert xs == front + [last];
      assert forall i :: 0 <= i < |front| ==> front[i] == xs[i];
      DistinctCard(front, ids - {last});
    }
  }

  /** As many jobs as creation events as audit records, in the same order, each record naming its job's creator. */
  lemma JobsAreConserved(s: Store, now: Time)
    requires Inv(s, now)
    ensures |s.jobs.Keys| == |CreatedIds(s.events)| == |s.audit|
    ensures CreatedIds(s.events) == AuditedIds(s.audit) && AuditTrue(s.jobs, s.audit)
  {
    hide LogsAgree, Rows, QueueBounded, OneInFlight, KeysUnique;
    DistinctCard(AuditedIds(s.audit), s.jobs.Keys);
  }

  /** Every started job started strictly inside its 30 s lease; a reported outcome came strictly inside the 60 s
      deadline; a timeout and an exhaustion were recorded only once the deadline or lease had run out. */
  lemma TimingWindows(s: Store, now: Time, id: Uuid)
    requires Inv(s, now) && id in s.jobs
    ensures var j := s.jobs[id];
            && (Started(j) <==> j.startedAt.Some?)
            && (Started(j) ==>
                 && j.dispatchedAt.Some?
                 && j.dispatchedAt.value <= j.startedAt.value < j.dispatchedAt.value + 30 * SECOND)
            && (Reported(j) ==>
                 && j.finishedAt.Some?
                 && j.startedAt.value <= j.finishedAt.value < j.startedAt.value + 60 * SECOND)
            && (j.state == Unknown ==> j.finishedAt.Some? && j.startedAt.value + 60 * SECOND <= j.finishedAt.value)
            && (j.failure == Some(DispatchExhausted) ==>
                 && j.attempt == 5 && j.dispatchedAt.Some? && j.finishedAt.Some?
                 && j.dispatchedAt.value + 30 * SECOND <= j.finishedAt.value)
            && (j.dispatchExpiresAt.Some? <==> j.state == Dispatched)
            && (j.executionDeadlineAt.Some? <==> j.state == Running)
            && (j.finishedAt.Some? <==> IsTerminal(j.state))
            && (j.state == Dispatched ==> Some(j.updatedAt) == j.dispatchedAt)
            && (j.state == Running ==> Some(j.updatedAt) == j.startedAt)
            && (Reported(j) ==> Some(j.updatedAt) == j.finishedAt)
            && (j.state == Unknown ==> j.startedAt.value + 60 * SECOND <= j.updatedAt)
            && (j.failure == Some(DispatchExhausted) ==> j.dispatchedAt.value + 30 * SECOND <= j.updatedAt)
  {
    assert RowOK(s.jobs[id], now);
  }
}
