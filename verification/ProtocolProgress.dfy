/** The protocol is not only safe: from any state it can be in, work can be got done. An agent with work and nothing in
    flight gets the head of its queue executed and its result recorded by one undisturbed turn of one daemon, and
    turn by turn every job it has reaches its end. And one answer cut short is enough to stop a daemon. */
module ProtocolProgress {
  import opened Helpers
  import opened Uuids
  import opened JobDomain
  import opened JobEngine
  import opened JobInvariants
  import opened JobRuns
  import opened Wire
  import opened Agent
  import opened Protocol
  import opened ProtocolProof
  import opened ProtocolTheorems

  /** Nothing of this agent has expired. */
  predicate Calm(jobs: map<Uuid, Job>, agent: Uuid, now: Time) {
    forall id :: id in jobs && jobs[id].agent == agent ==> !Expired(jobs[id], now)
  }

  lemma CalmSelects(s: Store, agent: Uuid, now: Time)
    requires Calm(s.jobs, agent, now)
    ensures PassSelects(s, AgentScope(agent), Still(now), [], [])
  {
    assert LeaseCandidates(s.jobs, AgentScope(agent), Still(now)) == {};
    assert DeadlineCandidates(s.jobs, AgentScope(agent), Still(now)) == {};
  }

  lemma IdleIsCalm(jobs: map<Uuid, Job>, agent: Uuid, now: Time)
    requires !HasInFlight(jobs, agent)
    ensures Calm(jobs, agent, now)
  {
  }

  lemma UpdateIsCalm(jobs: map<Uuid, Job>, agent: Uuid, now: Time, id: Uuid, after: Job)
    requires Calm(jobs, agent, now) && !Expired(after, now)
    ensures Calm(jobs[id := after], agent, now)
  {
    hide Expired;
  }

  // ---------- the transactions of the turn ----------

  /** With work queued and nothing in flight, a claim dispatches the head. */
  lemma ClaimDispatches(s: Store, agent: Uuid, now: Time)
    requires Keyed(s.jobs) && agent in s.agents && HasQueued(s.jobs, agent) && !HasInFlight(s.jobs, agent)
             && Rows(s.jobs, now)
    ensures var id := Oldest(s.jobs, agent);
            && s.jobs[id].action == AgentPing && AttemptInRange(s.jobs[id].attempt + 1)
            && ClaimNextAgentJob(s, agent, [], Still(now), now) ==
               (Do(s, Dispatch(id, now)), Assigned(Assignment(id, s.jobs[id].attempt + 1, AgentPing)))
  {
    hide HasInFlight, HasQueued, IsOldest, MoveRow, MoveEvent;
    var id := Oldest(s.jobs, agent);
    OldestIsQueued(s.jobs, agent, id, now);
  }

  lemma OldestIsQueued(jobs: map<Uuid, Job>, agent: Uuid, id: Uuid, now: Time)
    requires Rows(jobs, now) && IsOldest(jobs, agent, id)
    ensures id in jobs && jobs[id].agent == agent && jobs[id].state == Queued && jobs[id].action == AgentPing
            && 0 <= jobs[id].attempt < MAX_ATTEMPTS
  {
    assert RowOK(jobs[id], now);
  }

  // ---------- the turn ----------

  /** The states of the turn, each written out from the one before. */
  function Spawned(s: Sys, agent: Uuid): Sys {
    s.(procs := s.procs[s.nextPid := Proc(agent, Idle, None, 0)], nextPid := s.nextPid + 1)
  }

  /** A daemon that has just sent `msg` and waits in `phase`. */
  function Asked(s: Sys, pid: nat, agent: Uuid, phase: Phase, msg: Message): Sys {
    s.(procs := s.procs[pid := Proc(agent, phase, None, s.nextRid)],
       sent := s.sent[s.nextRid := Request(agent, msg)], nextRid := s.nextRid + 1)
  }

  lemma BeatStep(s: Sys, pid: nat, agent: Uuid)
    requires pid in s.procs && s.procs[pid].agent == agent && s.procs[pid].phase == Idle && s.procs[pid].pending == None
             && Keyed(s.store.jobs)
    ensures SysStep(s, Proceed(pid, NoAnswer), Asked(s, pid, agent, AwaitHeartbeat, HeartbeatMsg))
  {
    hide Keyed;
  }

  lemma AssignStep(s: Sys, rid: nat, agent: Uuid, now: Time)
    requires rid in s.sent && s.sent[rid] == Request(agent, HeartbeatMsg) && s.now == now && Inv(s.store, now)
    requires agent in s.store.agents && HasQueued(s.store.jobs, agent) && !HasInFlight(s.store.jobs, agent)
    ensures Keyed(s.store.jobs)
    ensures var id := Oldest(s.store.jobs, agent); var a := Assignment(id, s.store.jobs[id].attempt + 1, AgentPing);
            SysStep(s, Serve(rid, Faithful, [], [], Still(now), now),
                    s.(store := Do(s.store, Dispatch(id, now)),
                       replies := s.replies + {(rid, HeartbeatReply(Assigned(a)))}))
  {
    hide HasInFlight, HasQueued, IsOldest, MoveRow, MoveEvent, PassSelects, ClaimNextAgentJob, Inv, Keyed,
         HeartbeatReply;
    InvKeyed(s.store, now);
    InvRows(s.store, now);
    IdleIsCalm(s.store.jobs, agent, now);
    CalmSelects(s.store, agent, now);
    ClaimDispatches(s.store, agent, now);
    var none: seq<Uuid> := [];
    assert none + none == none;
  }

  lemma InvRows(s: Store, now: Time)
    requires Inv(s, now)
    ensures Rows(s.jobs, now)
  {
  }

  /** Reading an answer that makes the daemon send the next request. */
  lemma OfferStep(s: Sys, pid: nat, a: Assignment)
    requires pid in s.procs && s.procs[pid].phase == AwaitHeartbeat && s.procs[pid].pending == None
             && Keyed(s.store.jobs)
    requires AttemptInRange(a.attempt) && a.action == AgentPing
             && (s.procs[pid].rid, HeartbeatReply(Assigned(a))) in s.replies
    ensures SysStep(s, Proceed(pid, Answer(HeartbeatReply(Assigned(a)))),
                    Asked(s, pid, s.procs[pid].agent, AwaitStart(a), StartMsg(a.job, a.attempt)))
  {
    hide Keyed, ReadHeartbeat, HeartbeatReply;
    AssignmentSurvives(a);
  }

  lemma GrantingStep(s: Sys, rid: nat, job: Uuid, now: Time)
    requires rid in s.sent && job in s.store.jobs && s.now == now && Keyed(s.store.jobs)
    requires var j := s.store.jobs[job];
             && s.sent[rid] == Request(j.agent, StartMsg(job, j.attempt)) && j.agent in s.store.agents
             && AttemptInRange(j.attempt)
             && j.state == Dispatched && j.dispatchExpiresAt.Some? && now < j.dispatchExpiresAt.value
             && Calm(s.store.jobs, j.agent, now)
    ensures SysStep(s, Serve(rid, Faithful, [], [], Still(now), now),
                    s.(store := Do(s.store, Begin(job, now)), grants := s.grants[job := rid],
                       replies := s.replies + {(rid, HttpReply(204, None))}))
  {
    hide Keyed, PassSelects, HandleStart, EncodeStart, Calm, MoveRow, MoveEvent;
    CalmSelects(s.store, s.store.jobs[job].agent, now);
    StartSurvives(s.store, s.store.jobs[job].agent, job, s.store.jobs[job].attempt, now);
  }

  lemma StartedStep(s: Sys, pid: nat, a: Assignment)
    requires pid in s.procs && s.procs[pid].phase == AwaitStart(a) && Keyed(s.store.jobs)
    requires (s.procs[pid].rid, HttpReply(204, None)) in s.replies
    ensures SysStep(s, Proceed(pid, Answer(HttpReply(204, None))),
                    s.(procs := s.procs[pid := s.procs[pid].(phase := Executing(a))]))
  {
    hide Keyed;
  }

  lemma ExecutingStep(s: Sys, pid: nat, a: Assignment, ok: bool)
    requires pid in s.procs && s.procs[pid].phase == Executing(a) && s.procs[pid].pending == None && Keyed(s.store.jobs)
    ensures var e := Exec(s.procs[pid].rid, pid, a.job, a.attempt, ok);
            SysStep(s, Proceed(pid, Executed(ok)),
                    Asked(s, pid, s.procs[pid].agent, AwaitComplete(ResultOf(e)), CompleteMsg(ResultOf(e)))
                      .(results := s.results[a.job := e], execs := s.execs + [e], fates := s.fates[a.job := Held]))
  {
    hide Keyed;
  }

  lemma RecordingStep(s: Sys, rid: nat, c: Completion, now: Time)
    requires rid in s.sent && c.job in s.store.jobs && s.now == now && Keyed(s.store.jobs)
    requires var j := s.store.jobs[c.job];
             && s.sent[rid] == Request(j.agent, CompleteMsg(c)) && j.attempt == c.attempt && AttemptInRange(c.attempt)
             && j.agent in s.store.agents && j.state == Running && j.executionDeadlineAt.Some?
             && now < j.executionDeadlineAt.value
             && Calm(s.store.jobs, j.agent, now)
    ensures SysStep(s, Serve(rid, Faithful, [], [], Still(now), now),
                    s.(store := Do(s.store, Finish(c.job, now, c.ok)),
                       replies := s.replies + {(rid, HttpReply(204, None))}))
  {
    hide Keyed, PassSelects, HandleComplete, EncodeComplete, Calm, MoveRow, MoveEvent;
    CalmSelects(s.store, s.store.jobs[c.job].agent, now);
    CompleteSurvives(s.store, s.store.jobs[c.job].agent, c.job, c.attempt, c.ok, now);
  }

  lemma DoneStep(s: Sys, pid: nat, c: Completion)
    requires pid in s.procs && s.procs[pid].phase == AwaitComplete(c) && s.procs[pid].pending == None
             && Keyed(s.store.jobs)
    requires (s.procs[pid].rid, HttpReply(204, None)) in s.replies
    ensures SysStep(s, Proceed(pid, Answer(HttpReply(204, None))),
                    s.(procs := s.procs[pid := s.procs[pid].(phase := Idle)], fates := s.fates[c.job := Acknowledged]))
  {
    hide Keyed;
  }

  // ---------- putting the steps together ----------

  ghost predicate RunBetween(trace: seq<Sys>, acts: seq<Act>, s: Sys, t: Sys) {
    SysRun(trace, acts) && trace[0] == s && trace[|acts|] == t
  }

  /** Some run leads from `s` to `t`. */
  ghost predicate Leads(s: Sys, t: Sys) {
    exists trace, acts :: RunBetween(trace, acts, s, t)
  }

  lemma LeadsHere(s: Sys)
    ensures Leads(s, s)
  {
    assert RunBetween([s], [], s, s);
  }

  lemma Extend(s: Sys, m: Sys, a: Act, t: Sys)
    requires Leads(s, m) && SysInv(m) && SysStep(m, a, t)
    ensures Leads(s, t) && SysInv(t) && Inv(t.store, t.now) && Keyed(t.store.jobs)
  {
    hide SysStep, SysInv, Inv, Keyed;
    var trace, acts :| RunBetween(trace, acts, s, m);
    var trace', acts' := trace + [t], acts + [a];
    forall i | 0 <= i < |acts'| ensures SysStep(trace'[i], acts'[i], trace'[i + 1]) {
      if i < |acts| {
        assert SysStep(trace[i], acts[i], trace[i + 1]);
      }
    }
    assert RunBetween(trace', acts', s, t);
    StepKeepsInv(m, a, t);
    SysTables(t);
  }

  lemma SysTables(s: Sys)
    requires SysInv(s)
    ensures Inv(s.store, s.now) && Keyed(s.store.jobs) && Rows(s.store.jobs, s.now)
  {
    hide Requests, Replies, Procs, Waiters, Grants, Results, Execs, Unexecuted, Outcomes, Fates,
         OneInFlight, QueueBounded, KeysUnique, AgentsKnown, LogsAgree, Conserved;
  }

  /** A daemon waits for the answer to its start request for the job just dispatched to it. */
  predicate AwaitsStart(s: Sys, pid: nat, a: Assignment) {
    && pid in s.procs && s.procs[pid].phase == AwaitStart(a) && s.procs[pid].pending == None
    && s.procs[pid].rid in s.sent && s.sent[s.procs[pid].rid] == Request(s.procs[pid].agent, StartMsg(a.job, a.attempt))
  }

  /** A daemon waits for the answer to its heartbeat, which is there and offers the job just dispatched to it. */
  predicate AwaitsOffer(s: Sys, pid: nat, agent: Uuid, a: Assignment) {
    && pid in s.procs && s.procs[pid].phase == AwaitHeartbeat && s.procs[pid].pending == None
    && s.procs[pid].agent == agent
    && (s.procs[pid].rid, HeartbeatReply(Assigned(a))) in s.replies
  }

  lemma TurnToOffer(s: Sys, agent: Uuid) returns (t: Sys, pid: nat, a: Assignment)
    requires SysInv(s) && agent in s.store.agents && HasQueued(s.store.jobs, agent) && !HasInFlight(s.store.jobs, agent)
    ensures Leads(s, t) && SysInv(t) && Keyed(t.store.jobs) && IsOldest(s.store.jobs, agent, a.job)
    ensures a == Assignment(a.job, s.store.jobs[a.job].attempt + 1, AgentPing) && AttemptInRange(a.attempt)
    ensures AwaitsOffer(t, pid, agent, a) && pid == s.nextPid && t.execs == s.execs && t.now == s.now
    ensures t.store == Do(s.store, Dispatch(a.job, s.now))
  {
    hide SysInv, SysStep, Leads, HasQueued, HasInFlight, IsOldest, Keyed, MoveRow, MoveEvent, HeartbeatReply, Inv, Rows;
    SysTables(s);
    LeadsHere(s);
    ClaimDispatches(s.store, agent, s.now);
    pid := s.nextPid;
    var id := Oldest(s.store.jobs, agent);
    OldestIsQueued(s.store.jobs, agent, id, s.now);
    a := Assignment(id, s.store.jobs[id].attempt + 1, AgentPing);
    var s1 := Spawned(s, agent);
    SpawnStep(s, agent);
    Extend(s, s, Spawn(agent), s1);
    var s2 := Asked(s1, pid, agent, AwaitHeartbeat, HeartbeatMsg);
    BeatStep(s1, pid, agent);
    Extend(s, s1, Proceed(pid, NoAnswer), s2);
    var rid := s1.nextRid;
    t := s2.(store := Do(s.store, Dispatch(id, s.now)), replies := s2.replies + {(rid, HeartbeatReply(Assigned(a)))});
    AssignStep(s2, rid, agent, s.now);
    Extend(s, s2, Serve(rid, Faithful, [], [], Still(s.now), s.now), t);
  }

  lemma TurnToStart(s: Sys, agent: Uuid) returns (t: Sys, pid: nat, a: Assignment)
    requires SysInv(s) && agent in s.store.agents && HasQueued(s.store.jobs, agent) && !HasInFlight(s.store.jobs, agent)
    ensures Leads(s, t) && SysInv(t) && IsOldest(s.store.jobs, agent, a.job)
    ensures a == Assignment(a.job, s.store.jobs[a.job].attempt + 1, AgentPing) && AttemptInRange(a.attempt)
    ensures AwaitsStart(t, pid, a) && t.procs[pid].agent == agent && t.execs == s.execs && t.now == s.now
    ensures t.store == Do(s.store, Dispatch(a.job, s.now))
  {
    hide SysInv, SysStep, Leads, HasQueued, HasInFlight, IsOldest, Keyed, MoveRow, MoveEvent, HeartbeatReply, Inv;
    var m;
    m, pid, a := TurnToOffer(s, agent);
    t := Asked(m, pid, agent, AwaitStart(a), StartMsg(a.job, a.attempt));
    OfferStep(m, pid, a);
    Extend(s, m, Proceed(pid, Answer(HeartbeatReply(Assigned(a)))), t);
  }

  lemma SpawnStep(s: Sys, agent: Uuid)
    requires agent in s.store.agents && Keyed(s.store.jobs)
    ensures SysStep(s, Spawn(agent), Spawned(s, agent))
  {
    hide Keyed;
  }

  /** From a dispatched job to its execution. */
  lemma TurnToResult(s0: Sys, s: Sys, pid: nat, a: Assignment, ok: bool) returns (t: Sys, e: Exec)
    requires Leads(s0, s) && SysInv(s) && AwaitsStart(s, pid, a) && AttemptInRange(a.attempt) && a.job in s.store.jobs
    requires var j := s.store.jobs[a.job];
             && j.agent == s.procs[pid].agent && j.agent in s.store.agents && j.attempt == a.attempt
             && j.state == Dispatched
             && j.dispatchExpiresAt.Some? && s.now < j.dispatchExpiresAt.value && Calm(s.store.jobs, j.agent, s.now)
    ensures Leads(s0, t) && SysInv(t) && e.job == a.job && e.attempt == a.attempt && e.ok == ok && e.pid == pid
    ensures pid in t.procs && t.procs[pid].phase == AwaitComplete(ResultOf(e)) && t.procs[pid].pending == None
    ensures t.procs[pid].rid in t.sent
            && t.sent[t.procs[pid].rid] == Request(s.procs[pid].agent, CompleteMsg(ResultOf(e)))
    ensures t.store == Do(s.store, Begin(a.job, s.now)) && t.execs == s.execs + [e] && t.now == s.now
  {
    hide SysInv, SysStep, Leads, Keyed, MoveRow, MoveEvent, Inv, Rows, Calm;
    SysTables(s);
    var rid := s.procs[pid].rid;
    var accepted := HttpReply(204, None);
    var s1 := s.(store := Do(s.store, Begin(a.job, s.now)), grants := s.grants[a.job := rid],
                 replies := s.replies + {(rid, accepted)});
    GrantingStep(s, rid, a.job, s.now);
    Extend(s0, s, Serve(rid, Faithful, [], [], Still(s.now), s.now), s1);
    var s2 := s1.(procs := s1.procs[pid := s1.procs[pid].(phase := Executing(a))]);
    StartedStep(s1, pid, a);
    Extend(s0, s1, Proceed(pid, Answer(accepted)), s2);
    e := Exec(rid, pid, a.job, a.attempt, ok);
    t := Asked(s2, pid, s.procs[pid].agent, AwaitComplete(ResultOf(e)), CompleteMsg(ResultOf(e)))
           .(results := s2.results[a.job := e], execs := s2.execs + [e], fates := s2.fates[a.job := Held]);
    ExecutingStep(s2, pid, a, ok);
    Extend(s0, s2, Proceed(pid, Executed(ok)), t);
  }

  /** From a result to its record. */
  lemma TurnToRecord(s0: Sys, s: Sys, pid: nat, c: Completion) returns (t: Sys)
    requires Leads(s0, s) && SysInv(s) && pid in s.procs && s.procs[pid].phase == AwaitComplete(c)
             && s.procs[pid].pending == None
    requires c.job in s.store.jobs
    requires var j := s.store.jobs[c.job];
             && s.procs[pid].rid in s.sent && s.sent[s.procs[pid].rid] == Request(j.agent, CompleteMsg(c))
             && j.attempt == c.attempt
             && AttemptInRange(c.attempt) && j.agent in s.store.agents && j.state == Running
             && j.executionDeadlineAt.Some? && s.now < j.executionDeadlineAt.value && Calm(s.store.jobs, j.agent, s.now)
    ensures Leads(s0, t) && SysInv(t) && t.store == Do(s.store, Finish(c.job, s.now, c.ok)) && t.execs == s.execs
    ensures c.job in t.fates && t.fates[c.job] == Acknowledged
    ensures pid in t.procs && t.procs[pid].phase == Idle && t.procs[pid].pending == None
  {
    hide SysInv, SysStep, Leads, Keyed, MoveRow, MoveEvent, Inv, Rows, Calm;
    SysTables(s);
    var rid := s.procs[pid].rid;
    var accepted := HttpReply(204, None);
    var s1 := s.(store := Do(s.store, Finish(c.job, s.now, c.ok)), replies := s.replies + {(rid, accepted)});
    RecordingStep(s, rid, c, s.now);
    Extend(s0, s, Serve(rid, Faithful, [], [], Still(s.now), s.now), s1);
    t := s1.(procs := s1.procs[pid := s1.procs[pid].(phase := Idle)], fates := s1.fates[c.job := Acknowledged]);
    DoneStep(s1, pid, c);
    Extend(s0, s1, Proceed(pid, Answer(accepted)), t);
  }

  lemma RowsOfTurn(store: Store, agent: Uuid, job: Uuid, now: Time, ok: bool)
    requires Rows(store.jobs, now) && IsOldest(store.jobs, agent, job) && !HasInFlight(store.jobs, agent)
    ensures var j := store.jobs[job];
            var d := Do(store, Dispatch(job, now)); var b := Do(d, Begin(job, now)); var f := Do(b,
                Finish(job, now, ok));
            && d.jobs[job].state == Dispatched && d.jobs[job].agent == agent && d.jobs[job].attempt == j.attempt + 1
            && d.jobs[job].dispatchExpiresAt == Some(now + DISPATCH_LEASE) && Calm(d.jobs, agent, now)
            && b.jobs[job].state == Running && b.jobs[job].agent == agent && b.jobs[job].attempt == j.attempt + 1
            && b.jobs[job].executionDeadlineAt == Some(now + RESULT_DEADLINE) && Calm(b.jobs, agent, now)
            && Records(f.jobs[job], OutcomeOf(ok))
  {
    hide HasInFlight, Calm;
    assert RowOK(store.jobs[job], now);
    IdleIsCalm(store.jobs, agent, now);
    var d := Do(store, Dispatch(job, now));
    UpdateIsCalm(store.jobs, agent, now, job, d.jobs[job]);
    UpdateIsCalm(d.jobs, agent, now, job, Do(d, Begin(job, now)).jobs[job]);
  }

  /** In any state the invariant allows, if an agent has queued jobs and none in flight, some run of the system executes
      the head of its queue once, with either result, and records exactly that result; the daemon ends idle and no
      other row is touched. */
  lemma HeadGetsDone(s: Sys, agent: Uuid, ok: bool) returns (t: Sys, e: Exec)
    requires SysInv(s) && agent in s.store.agents && HasQueued(s.store.jobs, agent) && !HasInFlight(s.store.jobs, agent)
    ensures Leads(s, t) && SysInv(t)
    ensures IsOldest(s.store.jobs, agent, e.job) && e.attempt == s.store.jobs[e.job].attempt + 1 && e.ok == ok
    ensures e.job in t.store.jobs && Records(t.store.jobs[e.job], OutcomeOf(ok)) && t.execs == s.execs + [e]
    ensures e.job in t.fates && t.fates[e.job] == Acknowledged
    ensures e.pid in t.procs && t.procs[e.pid].phase == Idle && t.procs[e.pid].pending == None
    ensures t.store.jobs == s.store.jobs[e.job := t.store.jobs[e.job]] && t.store.agents == s.store.agents
  {
    hide SysInv, Leads, HasQueued, HasInFlight, IsOldest, MoveRow, MoveEvent, Inv, Calm, Records, Rows;
    SysTables(s);
    var s1, pid, a := TurnToStart(s, agent);
    RowsOfTurn(s.store, agent, a.job, s.now, ok);
    var s2, e2 := TurnToResult(s, s1, pid, a, ok);
    t := TurnToRecord(s, s2, pid, ResultOf(e2));
    e := e2;
  }

  // ---------- the whole queue ----------

  lemma LeadsOn(s: Sys, m: Sys, t: Sys)
    requires Leads(s, m) && Leads(m, t)
    ensures Leads(s, t)
  {
    hide SysStep;
    var a, x :| RunBetween(a, x, s, m);
    var b, y :| RunBetween(b, y, m, t);
    var trace, acts := a + b[1..], x + y;
    forall i | 0 <= i < |acts| ensures SysStep(trace[i], acts[i], trace[i + 1]) {
      if i < |x| {
        assert SysStep(a[i], x[i], a[i + 1]);
      } else {
        assert SysStep(b[i - |x|], y[i - |x|], b[i - |x| + 1]);
      }
    }
    assert RunBetween(trace, acts, s, t);
  }

  /** The agent's jobs queued in `before` carry this outcome. */
  predicate AllRecord(before: map<Uuid, Job>, after: map<Uuid, Job>, agent: Uuid, ok: bool) {
    forall id :: id in before && IsQueuedOf(before[id], agent) ==> id in after && Records(after[id], OutcomeOf(ok))
  }

  predicate AllOver(jobs: map<Uuid, Job>, agent: Uuid) {
    forall id :: id in jobs && jobs[id].agent == agent ==> IsTerminal(jobs[id].state)
  }

  /** After the head is done: still nothing in flight, one active job fewer, the other rows as they were. */
  lemma HeadLeaves(jobs: map<Uuid, Job>, agent: Uuid, id: Uuid, after: Job)
    requires IsOldest(jobs, agent, id) && !HasInFlight(jobs, agent) && IsTerminal(after.state)
    ensures !HasInFlight(jobs[id := after], agent)
    ensures |ActiveJobs(jobs[id := after], agent)| < |ActiveJobs(jobs, agent)|
  {
    hide Before;
    var jobs' := jobs[id := after];
    assert ActiveJobs(jobs', agent) <= ActiveJobs(jobs, agent) - {id};
    SubsetCard(ActiveJobs(jobs', agent), ActiveJobs(jobs, agent) - {id});
    forall x | x in jobs' && jobs'[x].agent == agent ensures !IsInFlight(jobs'[x].state) {
      assert x != id ==> x in jobs && jobs[x] == jobs'[x];
    }
  }

  lemma RecordedIsTerminal(j: Job, ok: bool)
    requires Records(j, OutcomeOf(ok))
    ensures IsTerminal(j.state)
  {
  }

  /** The rows that were over are as they were, and no row came or went. */
  predicate OverStays(before: map<Uuid, Job>, after: map<Uuid, Job>) {
    && after.Keys == before.Keys
    && forall id :: id in before && IsTerminal(before[id].state) ==> after[id] == before[id]
  }

  lemma NothingLeft(jobs: map<Uuid, Job>, agent: Uuid, ok: bool)
    requires !HasQueued(jobs, agent) && !HasInFlight(jobs, agent)
    ensures AllOver(jobs, agent) && AllRecord(jobs, jobs, agent, ok) && OverStays(jobs, jobs)
  {
    hide Records;
    forall id | id in jobs && jobs[id].agent == agent ensures IsTerminal(jobs[id].state) {
      assert !IsQueuedOf(jobs[id], agent);
    }
  }

  lemma OneDown(jobs: map<Uuid, Job>, id: Uuid, done: Job, after: map<Uuid, Job>, agent: Uuid, ok: bool)
    requires id in jobs && jobs[id].state == Queued && Records(done, OutcomeOf(ok)) && IsTerminal(done.state)
    requires AllRecord(jobs[id := done], after, agent, ok) && OverStays(jobs[id := done], after)
    ensures AllRecord(jobs, after, agent, ok) && OverStays(jobs, after)
  {
    hide Records;
    assert after[id] == done;
    forall x | x in jobs && IsQueuedOf(jobs[x], agent) ensures x in after && Records(after[x], OutcomeOf(ok)) {
      assert x != id ==> jobs[id := done][x] == jobs[x];
    }
    forall x | x in jobs && IsTerminal(jobs[x].state) ensures after[x] == jobs[x] {
      assert jobs[id := done][x] == jobs[x];
    }
  }

  lemma {:induction false} QueueDrains(s: Sys, agent: Uuid, ok: bool) returns (t: Sys)
    requires SysInv(s) && agent in s.store.agents && !HasInFlight(s.store.jobs, agent)
    ensures Leads(s, t) && SysInv(t) && OverStays(s.store.jobs, t.store.jobs)
    ensures AllOver(t.store.jobs, agent) && AllRecord(s.store.jobs, t.store.jobs, agent, ok)
    decreases |ActiveJobs(s.store.jobs, agent)|
  {
    hide SysInv, Leads, IsOldest, Records, HasQueued, HasInFlight, AllOver, AllRecord, OverStays, ActiveJobs;
    if !HasQueued(s.store.jobs, agent) {
      t := s;
      LeadsHere(s);
      NothingLeft(s.store.jobs, agent, ok);
    } else {
      var m, e := HeadGetsDone(s, agent, ok);
      RecordedIsTerminal(m.store.jobs[e.job], ok);
      HeadLeaves(s.store.jobs, agent, e.job, m.store.jobs[e.job]);
      OldestWasQueued(s.store.jobs, agent, e.job);
      t := QueueDrains(m, agent, ok);
      OneDown(s.store.jobs, e.job, m.store.jobs[e.job], t.store.jobs, agent, ok);
      LeadsOn(s, m, t);
    }
  }

  lemma OldestWasQueued(jobs: map<Uuid, Job>, agent: Uuid, id: Uuid)
    requires IsOldest(jobs, agent, id)
    ensures id in jobs && jobs[id].state == Queued
  {
  }

  /** Waiting until the lease or deadline of the job in flight is past, and looking at it then, ends the flight. */
  lemma FlightEnds(s: Sys, agent: Uuid) returns (t: Sys)
    requires SysInv(s) && agent in s.store.agents
    ensures Leads(s, t) && SysInv(t) && t.store.jobs.Keys == s.store.jobs.Keys && t.store.agents == s.store.agents
    ensures !HasInFlight(t.store.jobs, agent)
    ensures forall id :: id in s.store.jobs && !IsInFlight(s.store.jobs[id].state) ==>
            t.store.jobs[id] == s.store.jobs[id]
  {
    hide SysInv, Leads, SysStep, Keyed, OneInFlight;
    LeadsHere(s);
    SysTables(s);
    t := s;
    if HasInFlight(s.store.jobs, agent) {
      var id :| id in s.store.jobs && s.store.jobs[id].agent == agent && IsInFlight(s.store.jobs[id].state);
      var ts := LookStep(s, id);
      t := s.(store := ReconcileOne(s.store, id, AtOnce(ts)), now := ts);
      Extend(s, s, Transact(LookOp(id, ts), ts), t);
      OneSettles(s.store, agent, id, ts);
    }
  }

  lemma LookStep(s: Sys, id: Uuid) returns (ts: Time)
    requires SysInv(s) && Inv(s.store, s.now) && Keyed(s.store.jobs) && id in s.store.jobs
             && IsInFlight(s.store.jobs[id].state)
    ensures Expired(s.store.jobs[id], ts)
    ensures SysStep(s, Transact(LookOp(id, ts), ts), s.(store := ReconcileOne(s.store, id, AtOnce(ts)), now := ts))
  {
    hide SysInv, ReconcileOne, OneInFlight, QueueBounded, KeysUnique, AgentsKnown, LogsAgree, Conserved, Keyed;
    var j := s.store.jobs[id];
    assert RowOK(j, s.now);
    var due := if j.state == Dispatched then j.dispatchExpiresAt.value else j.executionDeadlineAt.value;
    ts := if s.now <= due then due else s.now;
  }

  lemma OneSettles(s: Store, agent: Uuid, id: Uuid, ts: Time)
    requires OneInFlight(s.jobs) && id in s.jobs && s.jobs[id].agent == agent && Expired(s.jobs[id], ts)
    ensures var t := ReconcileOne(s, id, AtOnce(ts));
            && t.jobs.Keys == s.jobs.Keys && t.agents == s.agents && !HasInFlight(t.jobs, agent)
            && forall x :: x in s.jobs && !IsInFlight(s.jobs[x].state) ==> t.jobs[x] == s.jobs[x]
  {
    hide MoveEvent;
    var t := ReconcileOne(s, id, AtOnce(ts));
    forall x | x in t.jobs && t.jobs[x].agent == agent ensures !IsInFlight(t.jobs[x].state) {
      assert x != id ==> t.jobs[x] == s.jobs[x];
    }
  }

  /** From every state the invariant allows, some run brings every job an agent has to its end: what is in flight by
      waiting out its lease or deadline, what is queued by executing it, with either result, and recording that. */
  lemma QueueGetsDone(s: Sys, agent: Uuid, ok: bool) returns (t: Sys)
    requires SysInv(s) && agent in s.store.agents
    ensures Leads(s, t) && SysInv(t) && t.store.jobs.Keys == s.store.jobs.Keys
    ensures AllOver(t.store.jobs, agent) && AllRecord(s.store.jobs, t.store.jobs, agent, ok)
  {
    hide SysInv, Leads, HasInFlight, Records;
    var m := FlightEnds(s, agent);
    t := QueueDrains(m, agent, ok);
    LeadsOn(s, m, t);
  }

  // ---------- one answer cut short ----------

  lemma CutStep(s: Sys, pid: nat, a: Assignment)
    requires pid in s.procs && s.procs[pid].phase == AwaitHeartbeat && s.procs[pid].pending == None
             && Keyed(s.store.jobs)
    requires (s.procs[pid].rid, HeartbeatReply(Assigned(a))) in s.replies
    ensures SysStep(s, Proceed(pid, Answer(HttpReply(200, None))),
                    s.(procs := s.procs[pid := s.procs[pid].(phase := Stopped)],
                       fates := Forgotten(s.fates, s.results, pid)))
  {
    hide Keyed, Forgotten;
    assert HeartbeatReply(Assigned(a)).status == 200;
    assert Heard(s.replies, s.procs[pid].rid, HttpReply(200, None));
  }

  /** A daemon can stop: whenever an agent has queued jobs and none in flight, the connection may break after the
      headers of the answer that offers the head of the queue; the daemon that reads it stops, and the job stays
      dispatched to nobody until its lease runs out. */
  lemma CutAnswerStops(s: Sys, agent: Uuid) returns (t: Sys, pid: nat, job: Uuid)
    requires SysInv(s) && agent in s.store.agents && HasQueued(s.store.jobs, agent) && !HasInFlight(s.store.jobs, agent)
    ensures Leads(s, t) && SysInv(t) && pid in t.procs && t.procs[pid].phase == Stopped && pid == s.nextPid
    ensures IsOldest(s.store.jobs, agent, job) && job in t.store.jobs && t.store.jobs[job].state == Dispatched
  {
    hide SysInv, SysStep, Leads, HasQueued, HasInFlight, IsOldest, Keyed, HeartbeatReply, Inv, Forgotten;
    var m, a;
    m, pid, a := TurnToOffer(s, agent);
    t := m.(procs := m.procs[pid := m.procs[pid].(phase := Stopped)], fates := Forgotten(m.fates, m.results, pid));
    CutStep(m, pid, a);
    Extend(s, m, Proceed(pid, Answer(HttpReply(200, None))), t);
    job := a.job;
  }

  // ---------- a result that is held gets delivered ----------

  lemma {:induction false} Enumerate(ids: set<Uuid>) returns (xs: seq<Uuid>)
    ensures Distinct(xs) && forall x :: x in xs <==> x in ids
    decreases |ids|
  {
    if ids == {} {
      xs := [];
    } else {
      var x :| x in ids;
      var front := Enumerate(ids - {x});
      xs := front + [x];
      assert forall i :: 0 <= i < |front| ==> front[i] in front;
    }
  }

  /** The agent's queries always have an answer. */
  lemma SomeSelection(s: Store, agent: Uuid, clk: Clock) returns (leases: seq<Uuid>, deadlines: seq<Uuid>)
    ensures PassSelects(s, AgentScope(agent), clk, leases, deadlines)
  {
    hide IsSelection, Distinct, LeaseExpired, DeadlineExpired;
    var sc := AgentScope(agent);
    leases := Enumerate(LeaseCandidates(s.jobs, sc, clk));
    deadlines := Enumerate(DeadlineCandidates(s.jobs, sc, clk));
    SelectsAll(s.jobs, LeaseCandidates(s.jobs, sc, clk), leases);
    SelectsAll(s.jobs, DeadlineCandidates(s.jobs, sc, clk), deadlines);
  }

  lemma SelectsAll(jobs: map<Uuid, Job>, candidates: set<Uuid>, xs: seq<Uuid>)
    requires candidates <= jobs.Keys && Distinct(xs) && forall x :: x in xs <==> x in candidates
    ensures IsSelection(jobs, candidates, None, xs)
  {
    forall i | 0 <= i < |xs| ensures xs[i] in candidates && xs[i] in jobs {
      assert xs[i] in xs;
    }
  }

  /** The daemon `pid` in this phase, waiting for this request. */
  function Waiting(s: Sys, pid: nat, p: Proc, phase: Phase, pending: Option<Completion>, rid: nat): Sys {
    s.(procs := s.procs[pid := Proc(p.agent, phase, pending, rid)])
  }

  function Sending(s: Sys, agent: Uuid, msg: Message): Sys {
    s.(sent := s.sent[s.nextRid := Request(agent, msg)], nextRid := s.nextRid + 1)
  }

  lemma HeldBeats(s: Sys, pid: nat)
    requires pid in s.procs && s.procs[pid].phase == Idle && Keyed(s.store.jobs)
    ensures var p := s.procs[pid];
            SysStep(s, Proceed(pid, NoAnswer),
                    Waiting(Sending(s, p.agent, HeartbeatMsg), pid, p, AwaitHeartbeat, p.pending, s.nextRid))
  {
    hide Keyed;
  }

  lemma SkippedBeat(s: Sys, rid: nat, leases: seq<Uuid>, deadlines: seq<Uuid>)
    requires rid in s.sent && s.sent[rid].msg == HeartbeatMsg && Keyed(s.store.jobs)
    requires PassSelects(s.store, AgentScope(s.sent[rid].agent), Still(s.now), leases, deadlines)
    ensures SysStep(s, Serve(rid, NotCommitted(204), leases, deadlines, Still(s.now), s.now),
                    s.(replies := s.replies + {(rid, HttpReply(204, None))}))
  {
    hide Keyed, PassSelects, Serving;
  }

  lemma HeldReports(s: Sys, pid: nat, c: Completion)
    requires pid in s.procs && s.procs[pid].phase == AwaitHeartbeat && s.procs[pid].pending == Some(c)
             && Keyed(s.store.jobs)
    requires (s.procs[pid].rid, HttpReply(204, None)) in s.replies
    ensures var p := s.procs[pid];
            SysStep(s, Proceed(pid, Answer(HttpReply(204, None))),
                    Waiting(Sending(s, p.agent, CompleteMsg(c)), pid, p, AwaitRetry(None), Some(c), s.nextRid))
  {
    hide Keyed;
    assert Heard(s.replies, s.procs[pid].rid, HttpReply(204, None));
  }

  lemma ReportServed(s: Sys, rid: nat, leases: seq<Uuid>, deadlines: seq<Uuid>)
    requires rid in s.sent && s.sent[rid].msg.CompleteMsg? && Keyed(s.store.jobs)
    requires PassSelects(s.store, AgentScope(s.sent[rid].agent), Still(s.now), leases, deadlines)
    ensures var (t, x) := Serving(s.store, s.sent[rid], leases + deadlines, Still(s.now), s.now);
            SysStep(s, Serve(rid, Faithful, leases, deadlines, Still(s.now), s.now),
                    s.(store := t, replies := s.replies + {(rid, x)}))
  {
    hide Keyed, PassSelects, Serving;
  }

  lemma HeldSettles(s: Sys, pid: nat, c: Completion, x: HttpReply)
    requires pid in s.procs && s.procs[pid].phase == AwaitRetry(None) && s.procs[pid].pending == Some(c)
             && Keyed(s.store.jobs)
    requires (s.procs[pid].rid, x) in s.replies && (x.status == 204 || x.status == 409)
    ensures var p := s.procs[pid];
            SysStep(s, Proceed(pid, Answer(x)),
                    Waiting(s, pid, p, Idle, None, p.rid)
                      .(fates := s.fates[c.job := if x.status == 204 then Acknowledged else Refused]))
  {
    hide Keyed;
    assert Heard(s.replies, s.procs[pid].rid, x);
  }

  /** From the report to its end. */
  lemma ReportEnds(s0: Sys, s: Sys, pid: nat, c: Completion, leases: seq<Uuid>, deadlines: seq<Uuid>) returns (t: Sys)
    requires Leads(s0, s) && SysInv(s) && pid in s.procs
    requires s.procs[pid].phase == AwaitRetry(None) && s.procs[pid].pending == Some(c) && s.procs[pid].rid in s.sent
    requires s.sent[s.procs[pid].rid] == Request(s.procs[pid].agent, CompleteMsg(c))
    requires PassSelects(s.store, AgentScope(s.procs[pid].agent), Still(s.now), leases, deadlines)
    ensures Leads(s0, t) && SysInv(t) && t.execs == s.execs
    ensures pid in t.procs && t.procs[pid].phase == Idle && t.procs[pid].pending == None
    ensures c.job in t.store.jobs && IsTerminal(t.store.jobs[c.job].state) && c.job in t.fates
    ensures t.fates[c.job] == if Records(t.store.jobs[c.job], OutcomeOf(c.ok)) then Acknowledged else Refused
  {
    hide SysInv, SysStep, Leads, Keyed, Inv, Rows, PassSelects, Serving, Records, Completable;
    SysTables(s);
    var rid := s.procs[pid].rid;
    var (store, x) := Serving(s.store, s.sent[rid], leases + deadlines, Still(s.now), s.now);
    ReportConcludes(s, rid, c, leases + deadlines);
    var s1 := s.(store := store, replies := s.replies + {(rid, x)});
    ReportServed(s, rid, leases, deadlines);
    Extend(s0, s, Serve(rid, Faithful, leases, deadlines, Still(s.now), s.now), s1);
    HeldSettles(s1, pid, c, x);
    t := Waiting(s1, pid, s1.procs[pid], Idle, None, rid)
           .(fates := s1.fates[c.job := if x.status == 204 then Acknowledged else Refused]);
    Extend(s0, s1, Proceed(pid, Answer(x)), t);
  }

  lemma ReportConcludes(s: Sys, rid: nat, c: Completion, sel: seq<Uuid>)
    requires SysInv(s) && Keyed(s.store.jobs) && rid in s.sent && s.sent[rid].msg == CompleteMsg(c)
    ensures var (t, x) := Serving(s.store, s.sent[rid], sel, Still(s.now), s.now);
            && c.job in t.jobs && IsTerminal(t.jobs[c.job].state) && (x.status == 204 || x.status == 409)
            && (x.status == 204 <==> Records(t.jobs[c.job], OutcomeOf(c.ok)))
  {
    hide OneInFlight, QueueBounded, KeysUnique, AgentsKnown, LogsAgree, Conserved, Rows, Keyed, Requests, Replies,
         Procs,
         Waiters, Grants, Results, Execs, Unexecuted, Outcomes, Fates, HandleComplete, EncodeComplete, CompleteAgentJob,
         Completable;
    HonestCompletion(s.store, s.now, s.grants, s.results, s.sent, s.nextRid, s.nextPid, rid);
    CompletionSettles(s.store, s.sent[rid].agent, c, s.now);
    CompleteSurvives(s.store, s.sent[rid].agent, c.job, c.attempt, c.ok, s.now);
  }

  /** From every state the invariant allows, a daemon that idles with an unsent result can get it delivered in one turn:
      some run ends with the daemon free, nothing executed again, and the row terminal, recording the result if the
      daemon was told so and not recording it if it was refused. */
  lemma HeldGetsDelivered(s: Sys, pid: nat) returns (t: Sys)
    requires SysInv(s) && pid in s.procs && s.procs[pid].phase == Idle && s.procs[pid].pending.Some?
    ensures var c := s.procs[pid].pending.value;
            && Leads(s, t) && SysInv(t) && t.execs == s.execs
            && pid in t.procs && t.procs[pid].phase == Idle && t.procs[pid].pending == None
            && c.job in t.store.jobs && IsTerminal(t.store.jobs[c.job].state) && c.job in t.fates
            && t.fates[c.job] == if Records(t.store.jobs[c.job], OutcomeOf(c.ok)) then Acknowledged else Refused
  {
    hide SysInv, SysStep, Leads, Keyed, Inv, Rows, PassSelects, Records;
    var p, c := s.procs[pid], s.procs[pid].pending.value;
    SysTables(s);
    LeadsHere(s);
    var leases, deadlines := SomeSelection(s.store, p.agent, Still(s.now));
    var s1 := Waiting(Sending(s, p.agent, HeartbeatMsg), pid, p, AwaitHeartbeat, p.pending, s.nextRid);
    HeldBeats(s, pid);
    Extend(s, s, Proceed(pid, NoAnswer), s1);
    var s2 := s1.(replies := s1.replies + {(s.nextRid, HttpReply(204, None))});
    SkippedBeat(s1, s.nextRid, leases, deadlines);
    Extend(s, s1, Serve(s.nextRid, NotCommitted(204), leases, deadlines, Still(s.now), s.now), s2);
    var s3 := Waiting(Sending(s2, p.agent, CompleteMsg(c)), pid, s2.procs[pid], AwaitRetry(None), Some(c), s2.nextRid);
    HeldReports(s2, pid, c);
    Extend(s, s2, Proceed(pid, Answer(HttpReply(204, None))), s3);
    t := ReportEnds(s, s3, pid, c, leases, deadlines);
  }
}
