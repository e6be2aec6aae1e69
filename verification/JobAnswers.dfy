/** What each job transaction answers and does, told by the columns of the rows it finds: instants, states, attempts and
    literal bounds, without the guards its own definition is built from. Times are microseconds. */
module JobAnswers {
  import opened Helpers
  import opened Uuids
  import opened JobDomain
  import opened JobEngine
  import opened JobLog
  import opened JobInvariants
  import opened JobRuns
  import opened JobReconcile

  // ---------- what is due ----------

  /** Dispatched thirty seconds ago or more. */
  predicate LeasePast(j: Job, ts: Time) {
    j.state == Dispatched && j.dispatchedAt.Some? && j.dispatchedAt.value + 30_000_000 <= ts
  }

  /** Started sixty seconds ago or more. */
  predicate DeadlinePast(j: Job, ts: Time) {
    j.state == Running && j.startedAt.Some? && j.startedAt.value + 60_000_000 <= ts
  }

  predicate Due(j: Job, ts: Time) {
    LeasePast(j, ts) || DeadlinePast(j, ts)
  }

  /** What becomes of a due row, column by column. */
  function Ended(j: Job, at: Stamps): Job {
    if j.state == Running then
      j.(state := Unknown, failure := Some(ExecutionTimeout), executionDeadlineAt := None,
         finishedAt := Some(at.finish),
         updatedAt := at.update)
    else if j.attempt < 5 then
      j.(state := Queued, dispatchedAt := None, dispatchExpiresAt := None, updatedAt := at.update)
    else
      j.(state := Failed, failure := Some(DispatchExhausted), dispatchExpiresAt := None, finishedAt := Some(at.finish),
         updatedAt := at.update)
  }

  lemma DueIsExpired(j: Job, ts: Time)
    requires RowShape(j)
    ensures LeaseExpired(j, ts) <==> LeasePast(j, ts)
    ensures DeadlineExpired(j, ts) <==> DeadlinePast(j, ts)
  {
  }

  lemma ReconciledIsEnded(j: Job, id: Uuid, at: Stamps)
    requires RowShape(j)
    ensures ReconciledRow(j, id, at) == if Due(j, at.check) then Ended(j, at) else j
    ensures Due(j, at.check) ==> Ended(j, at) != j
  {
    DueIsExpired(j, at.check);
  }

  lemma ShapeAt(s: Store, now: Time, id: Uuid)
    requires Inv(s, now) && id in s.jobs
    ensures RowShape(s.jobs[id]) && s.jobs[id].id == id && s.jobs[id].agent in s.agents
  {
    hide LogsAgree, Conserved, QueueBounded, OneInFlight, KeysUnique;
    assert RowOK(s.jobs[id], now);
  }

  // ---------- looking at one job ----------

  /** The single-job reconciler changes its row exactly if the row was dispatched thirty seconds ago or started sixty
      seconds ago, and then as stated; it touches nothing else. */
  lemma LookExactly(s: Store, now: Time, id: Uuid, ts: Time)
    requires Inv(s, now)
    ensures var t := ReconcileOne(s, id, AtOnce(ts));
            && t.jobs == (if id in s.jobs && Due(s.jobs[id], ts) then s.jobs[id := Ended(s.jobs[id], AtOnce(ts))]
                          else s.jobs)
            && (t.jobs != s.jobs <==> id in s.jobs && Due(s.jobs[id], ts))
            && t.operators == s.operators && t.agents == s.agents && t.audit == s.audit
  {
    hide Inv, RowShape;
    if id in s.jobs {
      ShapeAt(s, now, id);
      DueIsExpired(s.jobs[id], ts);
      ReconciledIsEnded(s.jobs[id], id, AtOnce(ts));
    }
  }

  // ---------- passes ----------

  /** Row `id` after a pass that handled the rows `handled`. */
  function After(s: Store, handled: seq<Uuid>, clk: Clock, id: Uuid): Job
    requires id in s.jobs
  {
    if id in handled then Ended(s.jobs[id], clk(id)) else s.jobs[id]
  }

  lemma BatchExactly(s: Store, now: Time, ids: seq<Uuid>, clk: Clock)
    requires Inv(s, now) && Keyed(s.jobs)
    requires forall i :: 0 <= i < |ids| ==> ids[i] in s.jobs && Due(s.jobs[ids[i]], clk(ids[i]).check)
    ensures var t := ReconcileAll(s, ids, clk);
            t.jobs.Keys == s.jobs.Keys && forall id :: id in s.jobs ==> t.jobs[id] == After(s, ids, clk, id)
  {
    hide Inv, ReconcileAll, Log, Keyed, RowShape, Due, Ended, ReconciledRow;
    BatchIsPointwise(s, ids, clk);
    forall id | id in s.jobs && id in ids ensures ReconciledRow(s.jobs[id], id, clk(id)) == Ended(s.jobs[id], clk(id)) {
      ShapeAt(s, now, id);
      ReconciledIsEnded(s.jobs[id], id, clk(id));
    }
  }

  /** The unlocked rows whose lease, and whose deadline, is past at their own readings. */
  function PastLeases(s: Store, locked: set<Uuid>, clk: Clock): set<Uuid> {
    set id | id in s.jobs && id !in locked && LeasePast(s.jobs[id], clk(id).check)
  }

  function PastDeadlines(s: Store, locked: set<Uuid>, clk: Clock): set<Uuid> {
    set id | id in s.jobs && id !in locked && DeadlinePast(s.jobs[id], clk(id).check)
  }

  /** `xs` lists, without repetition and in this order of instants, as many of `ids` as `n` allows, and none left out
      comes before one listed. */
  ghost predicate TakesEarliest(xs: seq<Uuid>, ids: set<Uuid>, n: int, instant: Uuid -> Time) {
    && Distinct(xs) && |xs| == Min(n, |ids|) && (forall i :: 0 <= i < |xs| ==> xs[i] in ids)
    && (forall i, j :: 0 <= i < j < |xs| ==> instant(xs[i]) <= instant(xs[j]))
    && (forall i, o :: 0 <= i < |xs| && o in ids && o !in xs ==> instant(xs[i]) <= instant(o))
  }

  function DispatchInstant(s: Store): Uuid -> Time {
    (id: Uuid) => if id in s.jobs && s.jobs[id].dispatchedAt.Some? then s.jobs[id].dispatchedAt.value else 0
  }

  function StartInstant(s: Store): Uuid -> Time {
    (id: Uuid) => if id in s.jobs && s.jobs[id].startedAt.Some? then s.jobs[id].startedAt.value else 0
  }

  lemma CandidatesByInstant(s: Store, now: Time, limit: int, locked: set<Uuid>, clk: Clock)
    requires Inv(s, now)
    ensures LeaseCandidates(s.jobs, GlobalScope(limit, locked), clk) == PastLeases(s, locked, clk)
    ensures DeadlineCandidates(s.jobs, GlobalScope(limit, locked), clk) == PastDeadlines(s, locked, clk)
  {
    hide Inv, RowShape, LeaseExpired, DeadlineExpired, LeasePast, DeadlinePast;
    forall id | id in s.jobs
      ensures LeaseExpired(s.jobs[id], clk(id).check) <==> LeasePast(s.jobs[id], clk(id).check)
      ensures DeadlineExpired(s.jobs[id], clk(id).check) <==> DeadlinePast(s.jobs[id], clk(id).check)
    {
      ShapeAt(s, now, id);
      DueIsExpired(s.jobs[id], clk(id).check);
    }
  }

  lemma LeasesByInstant(s: Store, now: Time, locked: set<Uuid>, clk: Clock, n: nat, xs: seq<Uuid>)
    requires Inv(s, now) && IsSelection(s.jobs, PastLeases(s, locked, clk), Some(n), xs)
    ensures TakesEarliest(xs, PastLeases(s, locked, clk), n, DispatchInstant(s))
  {
    hide Inv;
    forall id | id in PastLeases(s, locked, clk)
      ensures ExpiryInstant(s.jobs[id]) == DispatchInstant(s)(id) + 30_000_000
    {
      ShapeAt(s, now, id);
    }
  }

  lemma DeadlinesByInstant(s: Store, now: Time, locked: set<Uuid>, clk: Clock, n: nat, xs: seq<Uuid>)
    requires Inv(s, now) && IsSelection(s.jobs, PastDeadlines(s, locked, clk), Some(n), xs)
    ensures TakesEarliest(xs, PastDeadlines(s, locked, clk), n, StartInstant(s))
  {
    hide Inv;
    forall id | id in PastDeadlines(s, locked, clk)
      ensures ExpiryInstant(s.jobs[id]) == StartInstant(s)(id) + 60_000_000
    {
      ShapeAt(s, now, id);
    }
  }

  /** A global pass handles, of the unlocked rows dispatched thirty seconds ago or more, the earliest up to its limit,
      and with what is left of the limit, of those started sixty seconds ago or more, the earliest; it ends exactly
      these. */
  lemma GlobalPassExactly(s: Store, now: Time, limit: int, locked: set<Uuid>, clk: Clock, leases: seq<Uuid>,
                          deadlines: seq<Uuid>)
    requires Inv(s, now) && Keyed(s.jobs) && PassSelects(s, GlobalScope(limit, locked), clk, leases, deadlines)
    ensures var n := if 1 <= limit <= 100 then limit else 100;
            && TakesEarliest(leases, PastLeases(s, locked, clk), n, DispatchInstant(s))
            && TakesEarliest(deadlines, PastDeadlines(s, locked, clk), n - |leases|, StartInstant(s))
    ensures var t := ReconcileAll(s, leases + deadlines, clk);
            && t.jobs.Keys == s.jobs.Keys
            && forall id :: id in s.jobs ==> t.jobs[id] == After(s, leases + deadlines, clk, id)
  {
    hide Inv, Keyed, ReconcileAll, RowShape, IsSelection, TakesEarliest, LeaseCandidates, DeadlineCandidates;
    CandidatesByInstant(s, now, limit, locked, clk);
    LeasesByInstant(s, now, locked, clk, EffectiveLimit(limit), leases);
    DeadlinesByInstant(s, now, locked, clk, EffectiveLimit(limit) - |leases|, deadlines);
    TakenAreDue(s, locked, clk, leases, deadlines, EffectiveLimit(limit));
    BatchExactly(s, now, leases + deadlines, clk);
  }

  lemma TakenAreDue(s: Store, locked: set<Uuid>, clk: Clock, leases: seq<Uuid>, deadlines: seq<Uuid>, n: int)
    requires TakesEarliest(leases, PastLeases(s, locked, clk), n, DispatchInstant(s))
    requires TakesEarliest(deadlines, PastDeadlines(s, locked, clk), n - |leases|, StartInstant(s))
    ensures forall i :: 0 <= i < |leases + deadlines| ==>
              (leases + deadlines)[i] in s.jobs
                  && Due(s.jobs[(leases + deadlines)[i]], clk((leases + deadlines)[i]).check)
  {
    hide LeasePast, DeadlinePast;
  }

  /** An agent's pass ends exactly the agent's rows that are due at their own readings, so none of them is left in
      flight. */
  lemma AgentPassExactly(s: Store, now: Time, agent: Uuid, clk: Clock, leases: seq<Uuid>, deadlines: seq<Uuid>)
    requires Inv(s, now) && Keyed(s.jobs) && PassSelects(s, AgentScope(agent), clk, leases, deadlines)
    ensures var t := ReconcileAll(s, leases + deadlines, clk);
            && t.jobs.Keys == s.jobs.Keys
            && forall id :: id in s.jobs ==>
                 t.jobs[id] == if s.jobs[id].agent == agent && Due(s.jobs[id], clk(id).check)
                               then Ended(s.jobs[id], clk(id)) else s.jobs[id]
  {
    hide Inv, Keyed, ReconcileAll, RowShape, Due, Ended, PassSelects;
    AgentSelection(s, now, agent, clk, leases, deadlines);
    BatchExactly(s, now, leases + deadlines, clk);
  }

  lemma AgentSelection(s: Store, now: Time, agent: Uuid, clk: Clock, leases: seq<Uuid>, deadlines: seq<Uuid>)
    requires Inv(s, now) && PassSelects(s, AgentScope(agent), clk, leases, deadlines)
    ensures forall id :: id in leases + deadlines <==>
                           id in s.jobs && s.jobs[id].agent == agent && Due(s.jobs[id], clk(id).check)
  {
    hide Inv, RowShape, LeaseExpired, DeadlineExpired, LeasePast, DeadlinePast;
    forall id | id in s.jobs
      ensures LeaseExpired(s.jobs[id], clk(id).check) <==> LeasePast(s.jobs[id], clk(id).check)
      ensures DeadlineExpired(s.jobs[id], clk(id).check) <==> DeadlinePast(s.jobs[id], clk(id).check)
    {
      ShapeAt(s, now, id);
      DueIsExpired(s.jobs[id], clk(id).check);
    }
    forall id ensures id in leases <==> id in LeaseCandidates(s.jobs, AgentScope(agent), clk) {
    }
    forall id ensures id in deadlines <==> id in DeadlineCandidates(s.jobs, AgentScope(agent), clk) {
    }
  }

  // ---------- claiming ----------

  predicate InFlightOf(j: Job, agent: Uuid) {
    j.agent == agent && (j.state == Dispatched || j.state == Running)
  }

  /** Queued, or to be queued again by the claim itself: dispatched, its lease past, and fewer than five times so far.
      */
  predicate Claimable(j: Job, agent: Uuid, check: Time) {
    j.agent == agent && (j.state == Queued || (LeasePast(j, check) && j.attempt < 5))
  }

  /** Every job the agent has in flight is due. */
  predicate NothingRuns(s: Store, agent: Uuid, clk: Clock) {
    forall id :: id in s.jobs && InFlightOf(s.jobs[id], agent) ==> Due(s.jobs[id], clk(id).check)
  }

  predicate SomeClaimable(s: Store, agent: Uuid, clk: Clock) {
    exists id :: id in s.jobs && Claimable(s.jobs[id], agent, clk(id).check)
  }

  /** First by creation time, then by id, among the rows the agent may claim. */
  predicate FirstClaimable(s: Store, agent: Uuid, clk: Clock, id: Uuid) {
    && id in s.jobs && Claimable(s.jobs[id], agent, clk(id).check)
    && forall o :: o in s.jobs && o != id && Claimable(s.jobs[o], agent, clk(o).check) ==>
         || s.jobs[id].createdAt < s.jobs[o].createdAt
         || (s.jobs[id].createdAt == s.jobs[o].createdAt && id < o)
  }

  /** A row newly handed out, column by column. */
  function HandedOut(j: Job, ts: Time): Job {
    j.(state := Dispatched, attempt := j.attempt + 1, dispatchedAt := Some(ts),
       dispatchExpiresAt := Some(ts + 30_000_000), updatedAt := ts)
  }

  /** Row by row, what the claim's own pass makes of the agent's work. */
  lemma PassLeaves(j: Job, agent: Uuid, at: Stamps)
    requires RowShape(j)
    ensures var k := if j.agent == agent && Due(j, at.check) then Ended(j, at) else j;
            && (InFlightOf(k, agent) <==> InFlightOf(j, agent) && !Due(j, at.check))
            && (k.agent == agent && k.state == Queued <==> Claimable(j, agent, at.check))
            && k.agent == j.agent && k.createdAt == j.createdAt && k.id == j.id
            && (Claimable(j, agent, at.check) ==>
                 && k.action == AgentPing && k.attempt == j.attempt && 0 <= k.attempt < 5
                 && forall ts :: MoveRow(k, Dispatch(j.id, ts)) == HandedOut(j, ts))
  {
  }

  lemma AfterPass(s: Store, now: Time, agent: Uuid, clk: Clock, s1: Store)
    requires Inv(s, now) && s1.jobs.Keys == s.jobs.Keys
    requires forall id :: id in s.jobs ==>
               s1.jobs[id] == if s.jobs[id].agent == agent && Due(s.jobs[id], clk(id).check)
                              then Ended(s.jobs[id], clk(id)) else s.jobs[id]
    ensures HasInFlight(s1.jobs, agent) <==> !NothingRuns(s, agent, clk)
    ensures HasQueued(s1.jobs, agent) <==> SomeClaimable(s, agent, clk)
    ensures forall id :: IsOldest(s1.jobs, agent, id) ==> FirstClaimable(s, agent, clk, id)
  {
    hide Inv, RowShape, Due, Ended, LeasePast, Claimable, MoveRow;
    forall id | id in s.jobs
      ensures InFlightOf(s1.jobs[id], agent) <==> InFlightOf(s.jobs[id], agent) && !Due(s.jobs[id], clk(id).check)
      ensures IsQueuedOf(s1.jobs[id], agent) <==> Claimable(s.jobs[id], agent, clk(id).check)
      ensures s1.jobs[id].createdAt == s.jobs[id].createdAt && s1.jobs[id].id == id
    {
      ShapeAt(s, now, id);
      PassLeaves(s.jobs[id], agent, clk(id));
    }
    if SomeClaimable(s, agent, clk) {
      var id :| id in s.jobs && Claimable(s.jobs[id], agent, clk(id).check);
      assert IsQueuedOf(s1.jobs[id], agent);
    }
    if !NothingRuns(s, agent, clk) {
      var id :| id in s.jobs && InFlightOf(s.jobs[id], agent) && !Due(s.jobs[id], clk(id).check);
      assert InFlightOf(s1.jobs[id], agent);
    }
  }

  /** A claim hands out a job exactly if the agent is known, every job it has in flight is due, and some job is queued
      or dispatched with its lease past and fewer than five attempts, also where the claim itself has to reconcile
      first. The job is the first of these by creation time and id, with its attempt one higher. Every other row of
      the agent that is due is ended, and no other row is touched. */
  lemma ClaimExactly(s: Store, now: Time, agent: Uuid, leases: seq<Uuid>, deadlines: seq<Uuid>, clk: Clock, ts: Time)
    requires Inv(s, now) && Keyed(s.jobs) && PassSelects(s, AgentScope(agent), clk, leases, deadlines)
    requires ClockOK(clk, now, ts)
    ensures var (t, reply) := ClaimNextAgentJob(s, agent, leases + deadlines, clk, ts);
            && (reply.Assigned? <==> agent in s.agents && NothingRuns(s, agent, clk) && SomeClaimable(s, agent, clk))
            && (!reply.Assigned? ==> reply == NoJob)
            && (reply.Assigned? ==>
                 var id := reply.assignment.job;
                 && FirstClaimable(s, agent, clk, id)
                 && reply.assignment == Assignment(id, s.jobs[id].attempt + 1, AgentPing)
                 && id in t.jobs && t.jobs[id] == HandedOut(s.jobs[id], ts))
            && t.jobs.Keys == s.jobs.Keys
            && (forall id :: id in s.jobs && !(reply.Assigned? && id == reply.assignment.job) ==>
                 t.jobs[id] == if s.jobs[id].agent == agent && Due(s.jobs[id], clk(id).check)
                               then Ended(s.jobs[id], clk(id)) else s.jobs[id])
  {
    hide Inv, Keyed, PassSelects, ReconcileAll, HasInFlight, HasQueued, IsOldest, Due, Ended, NothingRuns,
         SomeClaimable,
         FirstClaimable, MoveRow, MoveEvent, ClockOK, HandedOut, RowShape, ClaimNextAgentJob;
    AgentPassExactly(s, now, agent, clk, leases, deadlines);
    var s1 := ReconcileAll(s, leases + deadlines, clk);
    AfterPass(s, now, agent, clk, s1);
    UnknownAgent(s, now, agent);
    ClaimShape(s, agent, leases + deadlines, clk, ts);
    if agent in s.agents && !HasInFlight(s1.jobs, agent) && HasQueued(s1.jobs, agent) {
      ReconcileAllKeyed(s, leases + deadlines, clk);
      var id := Oldest(s1.jobs, agent);
      FirstIs(s, agent, clk, id);
      ShapeAt(s, now, id);
      PassLeaves(s.jobs[id], agent, clk(id));
    }
  }

  /** The claim, by what its pass leaves. */
  lemma ClaimShape(s: Store, agent: Uuid, sel: seq<Uuid>, clk: Clock, ts: Time)
    requires Keyed(s.jobs)
    ensures var s1 := ReconcileAll(s, sel, clk);
            var (t, reply) := ClaimNextAgentJob(s, agent, sel, clk, ts);
            if agent !in s.agents then t == s && reply == NoJob
            else if HasInFlight(s1.jobs, agent) || !HasQueued(s1.jobs, agent) then t == s1 && reply == NoJob
            else
              && Keyed(s1.jobs)
              && var id := Oldest(s1.jobs, agent); var j := s1.jobs[id];
                 j.action == AgentPing && 0 <= j.attempt < MAX_ATTEMPTS ==>
                   t == Do(s1, Dispatch(id, ts)) && reply == Assigned(Assignment(id, j.attempt + 1, AgentPing))
  {
    hide ReconcileAll, HasInFlight, HasQueued, Keyed, MoveRow, MoveEvent;
    ReconcileAllKeyed(s, sel, clk);
  }

  lemma FirstIs(s: Store, agent: Uuid, clk: Clock, id: Uuid)
    requires FirstClaimable(s, agent, clk, id)
    ensures id in s.jobs && Claimable(s.jobs[id], agent, clk(id).check)
  {
  }

  lemma UnknownAgent(s: Store, now: Time, agent: Uuid)
    requires Inv(s, now)
    ensures agent !in s.agents ==> forall id :: id in s.jobs ==> s.jobs[id].agent != agent
  {
    hide Rows, LogsAgree, Conserved, QueueBounded, OneInFlight, KeysUnique;
  }

  // ---------- creating ----------

  predicate Present(s: Store, operator: Uuid) {
    operator in s.operators && !s.operators[operator].disabled
  }

  predicate MayCreate(s: Store, operator: Uuid) {
    Present(s, operator) && (s.operators[operator].role == OperatorRole || s.operators[operator].role == Admin)
  }

  /** The row that used this operator's key, if there is one. */
  predicate UsedBy(s: Store, operator: Uuid, key: Hash, id: Uuid) {
    id in s.jobs && s.jobs[id].creator == operator && s.jobs[id].keyHash == key
  }

  predicate Used(s: Store, operator: Uuid, key: Hash) {
    exists id :: UsedBy(s, operator, key, id)
  }

  /** How many of the agent's rows are queued, dispatched or running. */
  function Load(s: Store, agent: Uuid): nat {
    |set id | id in s.jobs && s.jobs[id].agent == agent
              && (s.jobs[id].state == Queued || s.jobs[id].state == Dispatched || s.jobs[id].state == Running)|
  }

  /** The answer of a creation, by the first condition that fails. */
  ghost predicate CreateAnswer(s: Store, operator: Uuid, agent: Uuid, action: Action, key: Hash, newId: Uuid,
                               createdAt: Time, t: Store, reply: CreateReply)
  {
    if !Present(s, operator) then t == s && reply == CreateErr(OperatorAuthRequired)
    else if !MayCreate(s, operator) then t == s && reply == CreateErr(PermissionDenied)
    else if Used(s, operator, key) then
      && t == s
      && exists id :: UsedBy(s, operator, key, id)
           && reply == (if s.jobs[id].agent == agent && s.jobs[id].action == action then CreateOk(s.jobs[id], false)
                        else CreateErr(IdempotencyConflict))
    else if agent !in s.agents then t == s && reply == CreateErr(AgentNotFound)
    else if Load(s, agent) >= 64 then t == s && reply == CreateErr(QueueFull)
    else if newId in s.jobs || action != AgentPing then t == s && reply == CreateErr(CreateInternal)
    else
      var name := s.operators[operator].username;
      var row := Job(newId, agent, operator, name, key, AgentPing, Queued, 0, None, createdAt, createdAt,
                     None, None, None, None, None);
      && reply == CreateOk(row, true)
      && t == Store(s.operators, s.agents, s.jobs[newId := row],
                    s.events + [Event(newId, JobCreated, 0, OperatorActor(name), None)],
                    s.audit + [JobCreatedAudit(operator, name, newId)])
  }

  /** A creation is refused for want of an enabled operator, then of the permission, answered from the row that used its
      key if one did, refused for an unknown agent, then at 64 unfinished jobs, then for an id or action the table does
      not admit, and otherwise makes exactly the stated row, event and audit record. */
  lemma CreateExactly(s: Store, now: Time, operator: Uuid, agent: Uuid, action: Action, key: Hash, newId: Uuid,
                      createdAt: Time)
    requires Inv(s, now)
    ensures var (t, reply) := CreateJob(s, operator, agent, action, key, newId, createdAt);
            CreateAnswer(s, operator, agent, action, key, newId, createdAt, t, reply)
  {
    hide Inv, ValidateJobRow, Load;
    GuardsUnreachable(s, now);
    LoadIsActive(s, agent);
    if KeyTaken(s.jobs, operator, key) {
      assert UsedBy(s, operator, key, KeyHolder(s.jobs, operator, key));
    } else {
      forall id ensures !UsedBy(s, operator, key, id) {
        assert id in s.jobs ==> !HoldsKey(s.jobs[id], operator, key);
      }
    }
  }

  lemma LoadIsActive(s: Store, agent: Uuid)
    ensures Load(s, agent) == |ActiveJobs(s.jobs, agent)|
  {
    assert (set id | id in s.jobs && s.jobs[id].agent == agent
                     && (s.jobs[id].state == Queued || s.jobs[id].state == Dispatched || s.jobs[id].state == Running))
           == ActiveJobs(s.jobs, agent);
  }

  // ---------- starting and completing ----------

  /** A start is accepted exactly if its row is dispatched to this agent for this attempt and less than thirty seconds
      ago; then the row runs from now with sixty seconds to go. Otherwise it conflicts and changes nothing. */
  lemma StartExactly(s: Store, now: Time, agent: Uuid, job: Uuid, attempt: int, ts: Time)
    requires Inv(s, now)
    ensures var (t, reply) := StartAgentJob(s, agent, job, attempt, ts);
            var good := && job in s.jobs && s.jobs[job].state == Dispatched && s.jobs[job].agent == agent
                        && s.jobs[job].attempt == attempt && !LeasePast(s.jobs[job], ts);
            && reply == (if good then Accepted else Conflict)
            && (!good ==> t == s)
            && (good ==>
                 t.jobs == s.jobs[job := s.jobs[job].(state := Running, startedAt := Some(ts),
                                                       executionDeadlineAt := Some(ts + 60_000_000),
                                                       dispatchExpiresAt := None, updatedAt := ts)])
  {
    hide Inv;
    if job in s.jobs {
      ShapeAt(s, now, job);
    }
  }

  /** A completion must name an outcome with its code, and its row's agent and attempt. On a row that runs since less
      than sixty seconds it is recorded; on one that runs longer the row becomes unknown and it conflicts; on a row
      that records this outcome it is accepted again; on any other it conflicts. */
  lemma CompleteExactly(s: Store, now: Time, agent: Uuid, job: Uuid, attempt: int, outcome: Outcome, code: Code,
                        ts: Time)
    requires Inv(s, now)
    ensures var (t, reply) := CompleteAgentJob(s, agent, job, attempt, outcome, code, ts);
            var ok := outcome == SucceededOutcome && code == NoCode;
            var failed := outcome == FailedOutcome && code == ExecutorErrorCode;
            if !(ok || failed) || job !in s.jobs || s.jobs[job].agent != agent || s.jobs[job].attempt != attempt then
              t == s && reply == Conflict
            else if DeadlinePast(s.jobs[job], ts) then
              t.jobs == s.jobs[job := Ended(s.jobs[job], AtOnce(ts))] && reply == Conflict
            else if s.jobs[job].state == Running then
              && reply == Accepted
              && t.jobs == s.jobs[job := s.jobs[job].(state := if ok then Succeeded else Failed,
                                                       failure := if ok then None else Some(ExecutorError),
                                                       executionDeadlineAt := None, finishedAt := Some(ts),
                                                       updatedAt := ts)]
            else
              && t == s
              && reply == if (ok && s.jobs[job].state == Succeeded)
                             || (failed && s.jobs[job].state == Failed && s.jobs[job].failure == Some(ExecutorError))
                          then Accepted else Conflict
  {
    hide Inv;
    if job in s.jobs {
      ShapeAt(s, now, job);
    }
  }

  // ---------- the declared state machine, exactly ----------

  predicate Steps(j: Job, m: Move, from: State, to: State) {
    RowShape(j) && j.state == from && RowEnabled(j, m) && MoveRow(j, m).state == to
  }

  /** A sound row of each unfinished state: created, handed out, started, all at the same instant. */
  function QueuedRow(): Job {
    NewJob(0, 0, 0, "", 0, AgentPing, 0)
  }

  function DispatchedRow(attempt: int): Job {
    QueuedRow().(state := Dispatched, attempt := attempt, dispatchedAt := Some(0),
                 dispatchExpiresAt := Some(30_000_000))
  }

  function RunningRow(): Job {
    DispatchedRow(1).(state := Running, startedAt := Some(0), executionDeadlineAt := Some(60_000_000),
                      dispatchExpiresAt := None)
  }

  lemma SoundRows()
    ensures RowShape(QueuedRow()) && RowShape(DispatchedRow(1)) && RowShape(DispatchedRow(5)) && RowShape(RunningRow())
  {
  }

  lemma DeclaredIsMade(from: State, to: State) returns (j: Job, m: Move)
    requires ValidateTransition(from, to)
    ensures Steps(j, m, from, to)
  {
    hide RowShape;
    SoundRows();
    match from {
      case Queued => j, m := QueuedRow(), Dispatch(0, 0);
      case Dispatched =>
        j := if to == Failed then DispatchedRow(5) else DispatchedRow(1);
        m := if to == Running then Begin(0, 0) else ExpiryMove(j, 0, AtOnce(30_000_000));
      case Running =>
        j := RunningRow();
        m := if to == Unknown then Expire(0, AtOnce(60_000_000)) else Finish(0, 0, to == Succeeded);
    }
  }

  lemma MadeIsDeclared(j: Job, m: Move, from: State, to: State)
    requires Steps(j, m, from, to)
    ensures ValidateTransition(from, to)
  {
    hide RowShape;
  }

  /** A transition is declared exactly if some transaction can make it on some sound row. */
  lemma TransitionsAreExactly(from: State, to: State)
    ensures ValidateTransition(from, to) <==> exists j, m :: Steps(j, m, from, to)
  {
    hide Steps, ValidateTransition;
    if ValidateTransition(from, to) {
      var j, m := DeclaredIsMade(from, to);
    }
    if j, m :| Steps(j, m, from, to) {
      MadeIsDeclared(j, m, from, to);
    }
  }

  predicate Carries(j: Job, s: State, fc: Option<FailureCode>) {
    RowShape(j) && j.state == s && j.failure == fc
  }

  lemma AdmittedIsCarried(s: State, fc: Option<FailureCode>) returns (j: Job)
    requires ValidateStateFailureCode(s, fc)
    ensures Carries(j, s, fc)
  {
    match s {
      case Queued => j := QueuedRow();
      case Dispatched => j := DispatchedRow(1);
      case Running => j := RunningRow();
      case Succeeded => j := MoveRow(RunningRow(), Finish(0, 0, true));
      case Failed =>
        j := if fc == Some(ExecutorError) then MoveRow(RunningRow(), Finish(0, 0, false))
             else Ended(DispatchedRow(5), AtOnce(30_000_000));
      case Unknown => j := Ended(RunningRow(), AtOnce(60_000_000));
    }
  }

  lemma CarriedIsAdmitted(j: Job, s: State, fc: Option<FailureCode>)
    requires Carries(j, s, fc)
    ensures ValidateStateFailureCode(s, fc)
  {
  }

  /** The failure codes the row check admits in a state are exactly those a sound row carries there. */
  lemma FailureCodesAreExactly(s: State, fc: Option<FailureCode>)
    ensures ValidateStateFailureCode(s, fc) <==> exists j :: Carries(j, s, fc)
  {
    hide Carries, ValidateStateFailureCode;
    if ValidateStateFailureCode(s, fc) {
      var j := AdmittedIsCarried(s, fc);
    }
    if j :| Carries(j, s, fc) {
      CarriedIsAdmitted(j, s, fc);
    }
  }

  /** The row check admits exactly the rows of this action with 0 to 5 attempts whose state and failure code go together
      in some sound row. */
  lemma RowCheckExactly(j: Job)
    ensures ValidateJobRow(j) <==>
              j.action == AgentPing && 0 <= j.attempt <= 5 && exists k :: Carries(k, j.state, j.failure)
  {
    hide Carries, ValidateStateFailureCode;
    FailureCodesAreExactly(j.state, j.failure);
  }

  /** The heartbeat hint is true exactly if the agent has a job queued, dispatched or running. */
  lemma HintExactly(s: Store, agent: Uuid)
    ensures HasActiveJobs(s.jobs, agent) <==> Load(s, agent) > 0
  {
    LoadIsActive(s, agent);
    if id :| id in s.jobs && s.jobs[id].agent == agent && IsActive(s.jobs[id].state) {
      assert id in ActiveJobs(s.jobs, agent);
    }
    if ActiveJobs(s.jobs, agent) != {} {
      var id :| id in ActiveJobs(s.jobs, agent);
    }
  }
}
