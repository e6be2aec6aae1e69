/** What every transaction keeps, for all tables and all inputs. */
module JobInvariants {
  import opened Helpers
  import opened Uuids
  import opened JobDomain
  import opened JobEngine
  import opened JobLog

  // ---------- the invariant ----------

  predicate Rows(jobs: map<Uuid, Job>, now: Time) {
    forall id :: id in jobs ==> jobs[id].id == id && RowOK(jobs[id], now)
  }

  predicate OneInFlight(jobs: map<Uuid, Job>) {
    forall a, b ::
      (a in jobs && b in jobs && jobs[a].agent == jobs[b].agent
       && IsInFlight(jobs[a].state) && IsInFlight(jobs[b].state)) ==> a == b
  }

  ghost predicate QueueBounded(jobs: map<Uuid, Job>) {
    forall agent: Uuid :: |ActiveJobs(jobs, agent)| <= MAX_ACTIVE
  }

  predicate KeysUnique(jobs: map<Uuid, Job>) {
    forall a, b ::
      (a in jobs && b in jobs && jobs[a].creator == jobs[b].creator && jobs[a].keyHash == jobs[b].keyHash) ==> a == b
  }

  predicate AgentsKnown(jobs: map<Uuid, Job>, agents: set<Uuid>) {
    forall id :: id in jobs ==> jobs[id].agent in agents
  }

  /** The stored events of every job are the history its row implies, and no event is about anything else. */
  predicate LogsAgree(jobs: map<Uuid, Job>, events: seq<Event>) {
    && (forall id :: id in jobs ==> Log(events, id) == CanonicalLog(jobs[id]))
    && (forall i :: 0 <= i < |events| ==> events[i].job in jobs)
  }

  function CreatedIds(events: seq<Event>): seq<Uuid> {
    if events == [] then []
    else
      var last := events[|events| - 1];
      CreatedIds(events[..|events| - 1]) + (if last.kind == JobCreated then [last.job] else [])
  }

  function AuditedIds(audit: seq<Audit>): seq<Uuid> {
    seq(|audit|, i requires 0 <= i < |audit| => audit[i].job)
  }

  /** Every audit record names the job's creator as the job row does. */
  predicate AuditTrue(jobs: map<Uuid, Job>, audit: seq<Audit>) {
    forall i :: 0 <= i < |audit| ==>
      audit[i].job in jobs && audit[i].operator == jobs[audit[i].job].creator
          && audit[i].username == jobs[audit[i].job].username
  }

  /** Jobs, creation events and audit records are in one-to-one correspondence, in the same order. */
  ghost predicate Conserved(s: Store) {
    && AuditTrue(s.jobs, s.audit)
    && CreatedIds(s.events) == AuditedIds(s.audit)
    && Distinct(AuditedIds(s.audit))
    && (forall id :: id in s.jobs <==> id in AuditedIds(s.audit))
  }

  ghost predicate Inv(s: Store, now: Time) {
    && Rows(s.jobs, now)
    && OneInFlight(s.jobs)
    && QueueBounded(s.jobs)
    && KeysUnique(s.jobs)
    && AgentsKnown(s.jobs, s.agents)
    && LogsAgree(s.jobs, s.events)
    && Conserved(s)
  }

  lemma InvLater(s: Store, now: Time, later: Time)
    requires Inv(s, now) && now <= later
    ensures Inv(s, later)
  {
  }

  lemma EmptyInv(now: Time)
    ensures Inv(Store(map[], {}, map[], [], []), now)
  {
    var s := Store(map[], {}, map[], [], []);
    forall agent: Uuid ensures |ActiveJobs(s.jobs, agent)| <= MAX_ACTIVE {
      assert ActiveJobs(s.jobs, agent) == {};
    }
  }

  // ---------- how tables may evolve ----------

  /** A row only ever moves on: terminal rows are frozen, a started row keeps its attempt and start,
      and a changed row has strictly fewer changes left. */
  predicate RowEvolves(a: Job, b: Job) {
    && SameOrigin(a, b)
    && (IsTerminal(a.state) ==> a == b)
    && a.attempt <= b.attempt
    && (Started(a) ==> Started(b) && a.attempt == b.attempt && a.startedAt == b.startedAt)
    && (a == b || (RowShape(a) && RowShape(b) && Measure(b) < Measure(a)))
  }

  predicate Evolves(s: Store, t: Store) {
    && s.agents <= t.agents
    && s.events <= t.events
    && s.audit <= t.audit
    && (forall id :: id in s.jobs ==> id in t.jobs && RowEvolves(s.jobs[id], t.jobs[id]))
  }

  lemma EvolvesTrans(s: Store, t: Store, u: Store)
    requires Evolves(s, t) && Evolves(t, u)
    ensures Evolves(s, u)
  {
  }

  lemma EvolvesSame(s: Store)
    ensures Evolves(s, s)
  {
  }

  // ---------- one row change ----------

  /** The move's readings are those of a clock that was at `now` before and is at `later` after; those of an expiry
      need only lie past the expiry. */
  predicate TimeOK(m: Move, now: Time, later: Time) {
    && now <= later
    && if m.Requeue? || m.Exhaust? || m.Expire? then StampsOK(m.at, m.at.check, later) else now <= m.ts <= later
  }

  lemma MoveKeepsRow(j: Job, m: Move, now: Time, later: Time)
    requires RowOK(j, now) && RowEnabled(j, m) && TimeOK(m, now, later)
    ensures RowOK(MoveRow(j, m), later)
    ensures RowEvolves(j, MoveRow(j, m)) && MoveRow(j, m) != j
    ensures ValidateTransition(j.state, MoveRow(j, m).state)
  {
  }

  lemma MoveKeepsRows(s: Store, m: Move, now: Time, later: Time)
    requires Rows(s.jobs, now) && Enabled(s, m) && TimeOK(m, now, later)
    ensures Rows(Do(s, m).jobs, later) && Evolves(s, Do(s, m))
  {
    hide RowShape, Touched, MoveRow, MoveEvent, RowEnabled;
    MoveKeepsRow(s.jobs[m.id], m, now, later);
    MoveKeepsId(s.jobs[m.id], m);
    forall id | id in s.jobs ensures RowEvolves(s.jobs[id], Do(s, m).jobs[id]) {
    }
  }

  lemma MoveKeepsId(j: Job, m: Move)
    ensures MoveRow(j, m).id == j.id
  {
  }

  lemma MoveKeepsOneInFlight(s: Store, m: Move)
    requires OneInFlight(s.jobs) && Enabled(s, m)
    ensures OneInFlight(Do(s, m).jobs)
  {
    var j, jobs' := s.jobs[m.id], Do(s, m).jobs;
    forall a, b | a in jobs' && b in jobs' && jobs'[a].agent == jobs'[b].agent
                  && IsInFlight(jobs'[a].state) && IsInFlight(jobs'[b].state)
      ensures a == b
    {
      if m.Dispatch? {
        assert a != m.id ==> IsInFlight(s.jobs[a].state) && s.jobs[a].agent == jobs'[a].agent;
      }
    }
  }

  lemma MoveKeepsQueueBound(s: Store, m: Move)
    requires QueueBounded(s.jobs) && Enabled(s, m)
    ensures QueueBounded(Do(s, m).jobs)
  {
    forall agent: Uuid ensures |ActiveJobs(Do(s, m).jobs, agent)| <= MAX_ACTIVE {
      assert ActiveJobs(Do(s, m).jobs, agent) <= ActiveJobs(s.jobs, agent);
      SubsetCard(ActiveJobs(Do(s, m).jobs, agent), ActiveJobs(s.jobs, agent));
    }
  }

  lemma MoveKeepsLogs(s: Store, m: Move, now: Time)
    requires Rows(s.jobs, now) && LogsAgree(s.jobs, s.events) && Enabled(s, m)
    ensures LogsAgree(Do(s, m).jobs, Do(s, m).events)
  {
    hide CanonicalLog, Log, RowShape, StampsBy, RowEnabled;
    var j, e, t := s.jobs[m.id], MoveEvent(s.jobs[m.id], m), Do(s, m);
    MoveExtendsLog(j, m);
    forall id | id in t.jobs ensures Log(t.events, id) == CanonicalLog(t.jobs[id]) {
      LogAppend(s.events, e, id);
    }
  }

  lemma CreatedIdsAppend(events: seq<Event>, e: Event)
    ensures CreatedIds(events + [e]) == CreatedIds(events) + (if e.kind == JobCreated then [e.job] else [])
  {
    assert (events + [e])[..|events|] == events;
  }

  lemma MoveKeepsConserved(s: Store, m: Move)
    requires Conserved(s) && Enabled(s, m)
    ensures Conserved(Do(s, m))
  {
    hide MoveRow, MoveEvent, RowEnabled, CreatedIds;
    var j := s.jobs[m.id];
    CreatedIdsAppend(s.events, MoveEvent(j, m));
    MoveKeepsOrigin(j, m);
  }

  lemma MoveKeepsOrigin(j: Job, m: Move)
    ensures SameOrigin(j, MoveRow(j, m)) && MoveEvent(j, m).kind != JobCreated
  {
  }

  lemma MoveKeepsInv(s: Store, m: Move, now: Time, later: Time)
    requires Inv(s, now) && Enabled(s, m) && TimeOK(m, now, later)
    ensures Inv(Do(s, m), later) && Evolves(s, Do(s, m))
  {
    MoveKeepsRows(s, m, now, later);
    MoveKeepsOneInFlight(s, m);
    MoveKeepsQueueBound(s, m);
    MoveKeepsLogs(s, m, now);
    MoveKeepsConserved(s, m);
  }

  // ---------- reconciliation ----------

  lemma ReconcileOneKeepsInv(s: Store, id: Uuid, at: Stamps, now: Time, later: Time)
    requires Inv(s, now) && StampsOK(at, at.check, later) && now <= later
    ensures Inv(ReconcileOne(s, id, at), later) && Evolves(s, ReconcileOne(s, id, at))
  {
    hide Inv, Evolves, Do;
    if id in s.jobs && Expired(s.jobs[id], at.check) {
      MoveKeepsInv(s, ExpiryMove(s.jobs[id], id, at), now, later);
    } else {
      InvLater(s, now, later);
      EvolvesSame(s);
    }
  }

  lemma {:induction false} ReconcileAllKeepsInv(s: Store, ids: seq<Uuid>, clk: Clock, now: Time, later: Time)
    requires Inv(s, now) && ClockOK(clk, now, later)
    ensures Inv(ReconcileAll(s, ids, clk), later) && Evolves(s, ReconcileAll(s, ids, clk))
    decreases |ids|
  {
    hide Inv, Evolves, ReconcileOne;
    if ids == [] {
      InvLater(s, now, later);
      EvolvesSame(s);
    } else {
      var front, last := ids[..|ids| - 1], ids[|ids| - 1];
      ReconcileAllKeepsInv(s, front, clk, now, later);
      var mid := ReconcileAll(s, front, clk);
      assert StampsOK(clk(last), now, later);
      ReconcileOneKeepsInv(mid, last, clk(last), later, later);
      EvolvesTrans(s, mid, ReconcileAll(s, ids, clk));
    }
  }

  // ---------- creation ----------

  lemma InsertKeepsQueueBound(s: Store, j: Job)
    requires QueueBounded(s.jobs) && j.id !in s.jobs && |ActiveJobs(s.jobs, j.agent)| < MAX_ACTIVE
    ensures QueueBounded(Insert(s, j).jobs)
  {
    var t := Insert(s, j);
    forall agent: Uuid ensures |ActiveJobs(t.jobs, agent)| <= MAX_ACTIVE {
      if agent == j.agent {
        var more := ActiveJobs(s.jobs, agent) + {j.id};
        assert ActiveJobs(t.jobs, agent) <= more;
        SubsetCard(ActiveJobs(t.jobs, agent), more);
      } else {
        assert ActiveJobs(t.jobs, agent) == ActiveJobs(s.jobs, agent);
      }
    }
  }

  lemma InsertKeepsLogs(s: Store, j: Job)
    requires LogsAgree(s.jobs, s.events) && j.id !in s.jobs && j.state == Queued && j.attempt == 0
    ensures LogsAgree(Insert(s, j).jobs, Insert(s, j).events)
  {
    hide CanonicalLog, Log;
    var t := Insert(s, j);
    forall id | id in t.jobs ensures Log(t.events, id) == CanonicalLog(t.jobs[id]) {
      LogAppend(s.events, Created(j), id);
      if id == j.id {
        LogAbsent(s.events, id);
        FreshLog(j);
      }
    }
  }

  lemma FreshLog(j: Job)
    requires j.state == Queued && j.attempt == 0
    ensures CanonicalLog(j) == [Created(j)]
  {
  }

  lemma InsertKeepsConserved(s: Store, j: Job)
    requires Conserved(s) && j.id !in s.jobs
    ensures Conserved(Insert(s, j))
  {
    CreatedIdsAppend(s.events, Created(j));
    var t := Insert(s, j);
    assert AuditedIds(t.audit) == AuditedIds(s.audit) + [j.id];
    assert j.id in AuditedIds(t.audit) by {
      assert AuditedIds(t.audit)[|s.audit|] == j.id;
    }
  }

  lemma InsertKeepsInv(s: Store, j: Job, now: Time)
    requires Inv(s, now) && j.id !in s.jobs && j.agent in s.agents && RowOK(j, now) && j.state == Queued
             && j.attempt == 0
    requires !KeyTaken(s.jobs, j.creator, j.keyHash) && |ActiveJobs(s.jobs, j.agent)| < MAX_ACTIVE
    ensures Inv(Insert(s, j), now) && Evolves(s, Insert(s, j))
  {
    InsertKeepsQueueBound(s, j);
    InsertKeepsLogs(s, j);
    InsertKeepsConserved(s, j);
    InsertKeepsTable(s, j);
    InsertKeepsRows(s, j, now);
  }

  lemma InsertKeepsRows(s: Store, j: Job, now: Time)
    requires Rows(s.jobs, now) && AgentsKnown(s.jobs, s.agents) && j.id !in s.jobs && j.agent in s.agents
             && RowOK(j, now)
    ensures Rows(Insert(s, j).jobs, now) && AgentsKnown(Insert(s, j).jobs, s.agents) && Evolves(s, Insert(s, j))
  {
  }

  lemma InsertKeepsTable(s: Store, j: Job)
    requires OneInFlight(s.jobs) && KeysUnique(s.jobs) && j.id !in s.jobs && j.state == Queued
    requires !KeyTaken(s.jobs, j.creator, j.keyHash)
    ensures OneInFlight(Insert(s, j).jobs) && KeysUnique(Insert(s, j).jobs)
  {
    forall id | id in s.jobs ensures !HoldsKey(s.jobs[id], j.creator, j.keyHash) {
    }
  }

  lemma CreateKeepsInv(s: Store, operator: Uuid, agent: Uuid, action: Action, key: Hash, newId: Uuid, createdAt: Time,
                       now: Time, later: Time)
    requires Inv(s, now) && now <= later && createdAt <= later
    ensures var t := CreateJob(s, operator, agent, action, key, newId, createdAt).0; Inv(t, later) && Evolves(s, t)
  {
    hide Rows, OneInFlight, QueueBounded, KeysUnique, AgentsKnown, LogsAgree, Conserved, Evolves;
    InvLater(s, now, later);
    EvolvesSame(s);
    var reply := CreateJob(s, operator, agent, action, key, newId, createdAt).1;
    if reply.CreateOk? && reply.isNew {
      InsertKeepsInv(s, reply.job, later);
    }
  }

  // ---------- every transaction ----------

  lemma InvKeyed(s: Store, now: Time)
    requires Inv(s, now)
    ensures Keyed(s.jobs)
  {
  }

  lemma ClaimKeepsInv(s: Store, agent: Uuid, sel: seq<Uuid>, clk: Clock, ts: Time, now: Time)
    requires Inv(s, now) && ClockOK(clk, now, ts)
    ensures var t := ClaimNextAgentJob(s, agent, sel, clk, ts).0; Inv(t, ts) && Evolves(s, t)
  {
    hide Inv, Evolves, ClaimNextAgentJob, ReconcileAll, Enabled, Do, IsOldest, HasInFlight;
    InvKeyed(s, now);
    ClaimCases(s, agent, sel, clk, ts);
    var s1 := ReconcileAll(s, sel, clk);
    var (t, reply) := ClaimNextAgentJob(s, agent, sel, clk, ts);
    ReconcileAllKeepsInv(s, sel, clk, now, ts);
    if reply.Assigned? {
      MoveKeepsInv(s1, Dispatch(reply.assignment.job, ts), ts, ts);
      EvolvesTrans(s, s1, t);
    } else if t != s1 {
      InvLater(s, now, ts);
      EvolvesSame(s);
    }
  }

  /** A claim is a reconciliation pass followed by at most one enabled dispatch. */
  lemma ClaimCases(s: Store, agent: Uuid, sel: seq<Uuid>, clk: Clock, ts: Time)
    requires Keyed(s.jobs)
    ensures var s1 := ReconcileAll(s, sel, clk);
            var (t, reply) := ClaimNextAgentJob(s, agent, sel, clk, ts);
            if reply.Assigned?
            then var id := reply.assignment.job;
                 && Enabled(s1, Dispatch(id, ts)) && t == Do(s1, Dispatch(id, ts))
                 && IsOldest(s1.jobs, agent, id) && !HasInFlight(s1.jobs, agent)
                 && reply.assignment == Assignment(id, s1.jobs[id].attempt + 1, s1.jobs[id].action)
            else t == s || t == s1
  {
  }

  lemma StartKeepsInv(s: Store, agent: Uuid, job: Uuid, attempt: int, ts: Time, now: Time)
    requires Inv(s, now) && now <= ts
    ensures var t := StartAgentJob(s, agent, job, attempt, ts).0; Inv(t, ts) && Evolves(s, t)
  {
    hide Inv, Evolves, Do;
    InvLater(s, now, ts);
    EvolvesSame(s);
    if StartAgentJob(s, agent, job, attempt, ts).1 == Accepted {
      MoveKeepsInv(s, Begin(job, ts), now, ts);
    }
  }

  lemma CompleteKeepsInv(s: Store, agent: Uuid, job: Uuid, attempt: int, outcome: Outcome, code: Code, ts: Time,
                         now: Time)
    requires Inv(s, now) && now <= ts
    ensures var t := CompleteAgentJob(s, agent, job, attempt, outcome, code, ts).0; Inv(t, ts) && Evolves(s, t)
  {
    hide Inv, Evolves, Do;
    InvLater(s, now, ts);
    EvolvesSame(s);
    var t := CompleteAgentJob(s, agent, job, attempt, outcome, code, ts).0;
    if t != s {
      if s.jobs[job].executionDeadlineAt.value <= ts {
        MoveKeepsInv(s, Expire(job, AtOnce(ts)), now, ts);
      } else {
        MoveKeepsInv(s, Finish(job, ts, outcome == SucceededOutcome), now, ts);
      }
    }
  }

  lemma DirectoryKeepsInv(s: Store, operators: map<Uuid, Operator>, newAgents: set<Uuid>, now: Time, later: Time)
    requires Inv(s, now) && now <= later
    ensures var t := s.(operators := operators, agents := s.agents + newAgents); Inv(t, later) && Evolves(s, t)
  {
  }

  /** Every transaction, whatever its inputs, keeps the whole invariant and only moves rows on. */
  lemma TransactionKeepsInv(s: Store, op: Op, now: Time, later: Time)
    requires Inv(s, now) && OpOK(s, op, now, later)
    ensures Keyed(s.jobs) && Inv(Apply(s, op), later) && Evolves(s, Apply(s, op))
  {
    hide Inv, Evolves, CreateJob, ClaimNextAgentJob, StartAgentJob, CompleteAgentJob, ReconcileAll, ReconcileOne,
         PassSelects, Keyed;
    InvKeyed(s, now);
    match op {
      case CreateOp(operator, agent, action, key, newId, createdAt) =>
        CreateKeepsInv(s, operator, agent, action, key, newId, createdAt, now, later);
      case ClaimOp(agent, leases, deadlines, clk, ts) =>
        ClaimKeepsInv(s, agent, leases + deadlines, clk, ts, now);
        InvLater(Apply(s, op), ts, later);
      case StartOp(agent, job, attempt, ts) =>
        StartKeepsInv(s, agent, job, attempt, ts, now);
        InvLater(Apply(s, op), ts, later);
      case CompleteOp(agent, job, attempt, outcome, code, ts) =>
        CompleteKeepsInv(s, agent, job, attempt, outcome, code, ts, now);
        InvLater(Apply(s, op), ts, later);
      case SweepOp(_, leases, deadlines, clk) =>
        ReconcileAllKeepsInv(s, leases + deadlines, clk, now, later);
      case LookOp(job, ts) =>
        ReconcileOneKeepsInv(s, job, AtOnce(ts), now, ts);
        InvLater(Apply(s, op), ts, later);
      case DirectoryOp(operators, newAgents) =>
        DirectoryKeepsInv(s, operators, newAgents, now, later);
    }
  }
}
