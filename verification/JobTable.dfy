/** The database methods as code that updates tables in place. Each is proved to do exactly what its
    transaction function in JobEngine says. A SELECT is an assign-such-that over the current rows; the loops
    are the loops of the source. */
module JobTables {
  import opened Helpers
  import opened Uuids
  import opened JobDomain
  import opened JobEngine
  import opened JobLog
  import opened JobInvariants
  import opened JobReconcile
  import opened JobReads

  class JobTable {
    var operators: map<Uuid, Operator>
    var agents: set<Uuid>
    var jobs: map<Uuid, Job>
    var events: seq<Event>
    var audit: seq<Audit>

    ghost function View(): Store
      reads this
    {
      Store(operators, agents, jobs, events, audit)
    }

    constructor ()
      ensures View() == Store(map[], {}, map[], [], [])
      ensures forall now :: Inv(View(), now)
    {
      operators, agents, jobs, events, audit := map[], {}, map[], [], [];
      new;
      forall now ensures Inv(View(), now) {
        EmptyInv(now);
      }
    }

    method CreateJob(operator: Uuid, agent: Uuid, action: Action, key: Hash, newId: Uuid, createdAt: Time)
        returns (reply: CreateReply)
      requires KeysUnique(jobs)
      modifies this
      ensures (View(), reply) == JobEngine.CreateJob(old(View()), operator, agent, action, key, newId, createdAt)
    {
      if operator !in operators {
        return CreateErr(OperatorAuthRequired);
      }
      var op := operators[operator];
      if op.disabled {
        return CreateErr(OperatorAuthRequired);
      }
      if !MayExecute(op.role) {
        return CreateErr(PermissionDenied);
      }
      if KeyTaken(jobs, operator, key) {
        var id :| id in jobs && HoldsKey(jobs[id], operator, key);
        assert id == KeyHolder(jobs, operator, key);
        var existing := jobs[id];
        if !ValidateJobRow(existing) {
          return CreateErr(CreateInternal);
        }
        if existing.agent == agent && existing.action == action {
          return CreateOk(existing, false);
        }
        return CreateErr(IdempotencyConflict);
      }
      if agent !in agents {
        return CreateErr(AgentNotFound);
      }
      if |ActiveJobs(jobs, agent)| >= MAX_ACTIVE {
        return CreateErr(QueueFull);
      }
      if newId in jobs || action != AgentPing {
        return CreateErr(CreateInternal);
      }
      var j := NewJob(newId, agent, operator, op.username, key, action, createdAt);
      jobs := jobs[newId := j];
      events := events + [Event(newId, JobCreated, 0, OperatorActor(op.username), None)];
      audit := audit + [JobCreatedAudit(operator, op.username, newId)];
      reply := CreateOk(j, true);
    }

    /** One UPDATE of a row together with the INSERT of its event. */
    method Write(id: Uuid, m: Move)
      requires id in jobs && m.id == id
      modifies this`jobs, this`events
      ensures View() == Do(old(View()), m)
    {
      var j := jobs[id];
      jobs := jobs[id := MoveRow(j, m)];
      events := events + [MoveEvent(j, m)];
    }

    /** The rows of an expiry query: all candidates, or the `cap` earliest, in expiry order. */
    method SelectExpired(candidates: set<Uuid>, cap: Option<nat>) returns (sel: seq<Uuid>)
      requires candidates <= jobs.Keys
      ensures IsSelection(jobs, candidates, cap, sel)
    {
      sel := [];
      var rest := candidates;
      while rest != {} && (cap.Some? ==> |sel| < cap.value)
        invariant EarliestFirst(jobs, candidates, sel, rest)
        invariant cap.Some? ==> |sel| <= cap.value
        decreases rest
      {
        EarliestExists(jobs, rest);
        var x :| x in rest && forall y :: y in rest ==> ExpiryInstant(jobs[x]) <= ExpiryInstant(jobs[y]);
        TakeEarliest(jobs, candidates, sel, rest, x);
        sel := sel + [x];
        rest := rest - {x};
      }
    }

    /** Requeue or exhaust the selected rows, branching on the attempt that was read when they were locked. */
    method ReconcileLeases(leases: seq<Uuid>, clk: Clock)
      requires Distinct(leases)
      requires forall i :: 0 <= i < |leases| ==>
               leases[i] in jobs && LeaseExpired(jobs[leases[i]], clk(leases[i]).check)
      modifies this`jobs, this`events
      ensures View() == ReconcileAll(old(View()), leases, clk)
    {
      var selected := jobs;
      var i := 0;
      while i < |leases|
        invariant 0 <= i <= |leases|
        invariant View() == ReconcileAll(old(View()), leases[..i], clk)
        invariant forall k :: i <= k < |leases| ==> leases[k] in jobs && jobs[leases[k]] == selected[leases[k]]
      {
        var id := leases[i];
        var attempt := selected[id].attempt;
        if attempt < MAX_ATTEMPTS {
          Write(id, Requeue(id, clk(id)));
        } else {
          Write(id, Exhaust(id, clk(id)));
        }
        assert leases[..i + 1][..i] == leases[..i];
        i := i + 1;
      }
      assert leases[..i] == leases;
    }

    /** Time out the selected running rows. */
    method ReconcileDeadlines(deadlines: seq<Uuid>, clk: Clock)
      requires Distinct(deadlines)
      requires forall i :: 0 <= i < |deadlines| ==>
               deadlines[i] in jobs && DeadlineExpired(jobs[deadlines[i]], clk(deadlines[i]).check)
      modifies this`jobs, this`events
      ensures View() == ReconcileAll(old(View()), deadlines, clk)
    {
      var i := 0;
      while i < |deadlines|
        invariant 0 <= i <= |deadlines|
        invariant View() == ReconcileAll(old(View()), deadlines[..i], clk)
        invariant forall k :: i <= k < |deadlines| ==>
            deadlines[k] in jobs && jobs[deadlines[k]] == old(jobs)[deadlines[k]]
      {
        var id := deadlines[i];
        Write(id, Expire(id, clk(id)));
        assert deadlines[..i + 1][..i] == deadlines[..i];
        i := i + 1;
      }
      assert deadlines[..i] == deadlines;
    }

    /** The batch reconciler: leases first, then, if the limit of a global pass allows, deadlines. */
    method ReconcileExpired(sc: Scope, clk: Clock) returns (leases: seq<Uuid>, deadlines: seq<Uuid>)
      requires Keyed(jobs)
      modifies this`jobs, this`events
      ensures PassSelects(old(View()), sc, clk, leases, deadlines)
      ensures View() == ReconcileAll(old(View()), leases + deadlines, clk)
    {
      var limit := if sc.GlobalScope? then EffectiveLimit(sc.limit) else 0;
      leases := SelectExpired(LeaseCandidates(jobs, sc, clk), if sc.GlobalScope? then Some(limit) else None);
      ReconcileLeases(leases, clk);
      deadlines := [];
      if sc.GlobalScope? && limit - |leases| <= 0 {
        assert leases + deadlines == leases;
        EmptyRemainder(old(View()), DeadlineCandidates(old(jobs), sc, clk));
        return;
      }
      LeasesLeaveDeadlines(old(View()), leases, sc, clk);
      var cap := if sc.GlobalScope? then Some(limit - |leases|) else None;
      deadlines := SelectExpired(DeadlineCandidates(jobs, sc, clk), cap);
      SelectionTransfers(old(jobs), jobs, DeadlineCandidates(jobs, sc, clk), cap, deadlines);
      ReconcileDeadlines(deadlines, clk);
      ReconcileConcat(old(View()), leases, deadlines, clk);
    }

    /** The single-job reconciler, one post-lock clock reading for both judging and stamping. */
    method ReconcileSingle(job: Uuid, wallNow: Time) returns (found: bool)
      modifies this`jobs, this`events
      ensures View() == ReconcileOne(old(View()), job, AtOnce(wallNow))
      ensures found == (job in jobs)
    {
      if job !in jobs {
        return false;
      }
      found := true;
      var j := jobs[job];
      var leaseExpired := j.dispatchExpiresAt.Some? && wallNow >= j.dispatchExpiresAt.value;
      var deadlineExpired := j.executionDeadlineAt.Some? && wallNow >= j.executionDeadlineAt.value;
      if j.state == Dispatched && leaseExpired {
        if j.attempt < MAX_ATTEMPTS {
          Write(job, Requeue(job, AtOnce(wallNow)));
        } else {
          Write(job, Exhaust(job, AtOnce(wallNow)));
        }
      } else if j.state == Running && deadlineExpired {
        Write(job, Expire(job, AtOnce(wallNow)));
      }
    }

    /** The read that follows a committed reconciliation, in a statement of its own. */
    method ReadJob(job: Uuid) returns (r: JobRead)
      ensures r == ReadRow(View(), job)
    {
      if job !in jobs {
        return NotFound;
      }
      var j := jobs[job];
      r := if ValidateJobRow(j) then Found(j) else CorruptRow;
    }

    method ClaimNextAgentJob(agent: Uuid, clk: Clock, ts: Time)
      returns (reply: ClaimReply, leases: seq<Uuid>, deadlines: seq<Uuid>)
      requires Keyed(jobs)
      modifies this`jobs, this`events
      ensures agent in agents ==> PassSelects(old(View()), AgentScope(agent), clk, leases, deadlines)
      ensures (View(), reply) == JobEngine.ClaimNextAgentJob(old(View()), agent, leases + deadlines, clk, ts)
    {
      hide ReconcileAll, PassSelects, MoveRow, MoveEvent;
      leases, deadlines := [], [];
      if agent !in agents {
        return NoJob, leases, deadlines;
      }
      var jobsBefore, eventsBefore := jobs, events;
      leases, deadlines := ReconcileExpired(AgentScope(agent), clk);
      ReconcileAllKeyed(old(View()), leases + deadlines, clk);
      if HasInFlight(jobs, agent) {
        return NoJob, leases, deadlines;
      }
      if !HasQueued(jobs, agent) {
        return NoJob, leases, deadlines;
      }
      OldestExists(jobs, agent);
      var id :| IsOldest(jobs, agent, id);
      OldestUnique(jobs, agent, id, Oldest(jobs, agent));
      var j := jobs[id];
      if j.action != AgentPing || j.attempt < 0 || j.attempt >= MAX_ATTEMPTS {
        jobs, events := jobsBefore, eventsBefore;
        return ClaimCorrupt, leases, deadlines;
      }
      Write(id, Dispatch(id, ts));
      reply := Assigned(Assignment(id, j.attempt + 1, j.action));
    }

    /** Lock the row and test it, then update it only if the lease is still running at the reading of the update. */
    method StartAgentJob(agent: Uuid, job: Uuid, attempt: int, ts: Time) returns (reply: Reply)
      modifies this`jobs, this`events
      ensures (View(), reply) == JobEngine.StartAgentJob(old(View()), agent, job, attempt, ts)
    {
      if job !in jobs {
        return Conflict;
      }
      var j := jobs[job];
      if j.state != Dispatched || j.agent != agent || j.attempt != attempt || j.dispatchExpiresAt == None {
        return Conflict;
      }
      if !(ts < j.dispatchExpiresAt.value) {
        return Conflict;
      }
      Write(job, Begin(job, ts));
      reply := Accepted;
    }

    method CompleteAgentJob(agent: Uuid, job: Uuid, attempt: int, outcome: Outcome, code: Code, wallNow: Time)
        returns (reply: Reply)
      modifies this`jobs, this`events
      ensures (View(), reply) == JobEngine.CompleteAgentJob(old(View()), agent, job, attempt, outcome, code, wallNow)
    {
      if outcome == SucceededOutcome && code != NoCode {
        return Conflict;
      }
      if outcome == FailedOutcome && code != ExecutorErrorCode {
        return Conflict;
      }
      if outcome != SucceededOutcome && outcome != FailedOutcome {
        return Conflict;
      }
      if job !in jobs {
        return Conflict;
      }
      var j := jobs[job];
      if j.agent != agent || j.attempt != attempt {
        return Conflict;
      }
      if j.state == Running {
        if j.executionDeadlineAt == None {
          return Corrupt;
        }
        var deadlinePassed := !(wallNow < j.executionDeadlineAt.value);
        if deadlinePassed {
          Write(job, Expire(job, AtOnce(wallNow)));
          return Conflict;
        }
        if outcome == SucceededOutcome {
          Write(job, Finish(job, wallNow, true));
        } else {
          Write(job, Finish(job, wallNow, false));
        }
        return Accepted;
      }
      var matches := false;
      if outcome == SucceededOutcome && j.state == Succeeded && j.failure == None && code == NoCode {
        matches := true;
      } else if outcome == FailedOutcome && j.state == Failed && j.failure == Some(ExecutorError)
          && code == ExecutorErrorCode {
        matches := true;
      }
      reply := if matches then Accepted else Conflict;
    }
  }

  lemma {:induction false} EarliestExists(jobs: map<Uuid, Job>, ids: set<Uuid>)
    requires ids != {} && ids <= jobs.Keys
    ensures exists x :: x in ids && forall y :: y in ids ==> ExpiryInstant(jobs[x]) <= ExpiryInstant(jobs[y])
    decreases |ids|
  {
    var x :| x in ids;
    var rest := ids - {x};
    assert forall y :: y in ids ==> y == x || y in rest;
    if rest != {} {
      EarliestExists(jobs, rest);
      var z :| z in rest && forall y :: y in rest ==> ExpiryInstant(jobs[z]) <= ExpiryInstant(jobs[y]);
      var e := if ExpiryInstant(jobs[x]) <= ExpiryInstant(jobs[z]) then x else z;
      assert e in ids && forall y :: y in ids ==> ExpiryInstant(jobs[e]) <= ExpiryInstant(jobs[y]);
    }
  }

  /** `sel` holds the earliest candidates in expiry order, `rest` the others. */
  ghost predicate EarliestFirst(jobs: map<Uuid, Job>, candidates: set<Uuid>, sel: seq<Uuid>, rest: set<Uuid>) {
    && rest <= candidates <= jobs.Keys && Distinct(sel) && |sel| + |rest| == |candidates|
    && (forall i :: 0 <= i < |sel| ==> sel[i] in candidates && sel[i] !in rest)
    && (forall c :: c in candidates ==> c in rest || c in sel)
    && (forall i, j :: 0 <= i < j < |sel| ==> ExpiryInstant(jobs[sel[i]]) <= ExpiryInstant(jobs[sel[j]]))
    && (forall i, c :: 0 <= i < |sel| && c in rest ==> ExpiryInstant(jobs[sel[i]]) <= ExpiryInstant(jobs[c]))
  }

  lemma TakeEarliest(jobs: map<Uuid, Job>, candidates: set<Uuid>, sel: seq<Uuid>, rest: set<Uuid>, x: Uuid)
    requires EarliestFirst(jobs, candidates, sel, rest)
    requires x in rest && forall y :: y in rest ==> ExpiryInstant(jobs[x]) <= ExpiryInstant(jobs[y])
    ensures EarliestFirst(jobs, candidates, sel + [x], rest - {x})
  {
    hide ExpiryInstant;
    assert forall i :: 0 <= i < |sel| ==> sel[i] != x;
  }

  lemma {:induction false} ReconcileConcat(s: Store, a: seq<Uuid>, b: seq<Uuid>, clk: Clock)
    ensures ReconcileAll(ReconcileAll(s, a, clk), b, clk) == ReconcileAll(s, a + b, clk)
    decreases |b|
  {
    if b == [] {
      assert a + b == a;
    } else {
      ReconcileConcat(s, a, b[..|b| - 1], clk);
      assert (a + b)[..|a + b| - 1] == a + b[..|b| - 1];
    }
  }

  lemma EmptyRemainder(s: Store, candidates: set<Uuid>)
    ensures IsSelection(s.jobs, candidates, Some(0), [])
  {
  }

  /** The lease loop leaves the running rows, hence the second query's candidates, as they were. */
  lemma LeasesLeaveDeadlines(s: Store, leases: seq<Uuid>, sc: Scope, clk: Clock)
    requires Keyed(s.jobs) && forall i :: 0 <= i < |leases| ==> leases[i] in LeaseCandidates(s.jobs, sc, clk)
    ensures var after := ReconcileAll(s, leases, clk).jobs;
            && after.Keys == s.jobs.Keys
            && DeadlineCandidates(after, sc, clk) == DeadlineCandidates(s.jobs, sc, clk)
            && forall id :: id in DeadlineCandidates(after, sc, clk) ==> after[id] == s.jobs[id]
  {
    hide ReconcileAll, Log;
    BatchIsPointwise(s, leases, clk);
    var after := ReconcileAll(s, leases, clk).jobs;
    forall id | id in s.jobs
      ensures after[id] == s.jobs[id] || (s.jobs[id].state == Dispatched && !IsInFlight(after[id].state))
    {
      assert id in leases ==> id in LeaseCandidates(s.jobs, sc, clk);
    }
    SameDeadlines(s.jobs, after, sc, clk);
  }

  lemma SameDeadlines(before: map<Uuid, Job>, after: map<Uuid, Job>, sc: Scope, clk: Clock)
    requires before.Keys == after.Keys
    requires forall id :: id in before ==>
             after[id] == before[id] || (before[id].state == Dispatched && !IsInFlight(after[id].state))
    ensures DeadlineCandidates(after, sc, clk) == DeadlineCandidates(before, sc, clk)
    ensures forall id :: id in DeadlineCandidates(after, sc, clk) ==> after[id] == before[id]
  {
  }

  lemma SelectionTransfers(before: map<Uuid, Job>, after: map<Uuid, Job>, candidates: set<Uuid>, cap: Option<nat>,
                           sel: seq<Uuid>)
    requires before.Keys == after.Keys && IsSelection(after, candidates, cap, sel)
    requires forall id :: id in candidates && id in after ==> after[id] == before[id]
    ensures IsSelection(before, candidates, cap, sel)
  {
  }
}
