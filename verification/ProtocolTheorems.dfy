/** What the job protocol guarantees in every state of every run, however messages are lost, delayed or duplicated,
    whenever daemons crash and restart, whatever leases expire and whichever commits go unacknowledged. */
module ProtocolTheorems {
  import opened Helpers
  import opened Uuids
  import opened JobDomain
  import opened JobEngine
  import opened JobInvariants
  import opened JobRuns
  import opened Wire
  import opened Agent
  import opened Protocol
  import opened ProtocolProof

  /** Where runs begin: tables nobody has started a job in, no daemons, no messages, no history. */
  ghost predicate Fresh(s: Sys) {
    && Inv(s.store, s.now) && (forall id :: id in s.store.jobs ==> !Started(s.store.jobs[id]))
    && s == Sys(s.store, s.now, map[], {}, 0, map[], 0, map[], map[], [], map[])
  }

  lemma Reachable(trace: seq<Sys>, acts: seq<Act>, i: nat)
    requires SysRun(trace, acts) && Fresh(trace[0]) && i < |trace|
    ensures SysInv(trace[i])
  {
    hide SysInv, Inv, SysStep, Started;
    InitialInv(trace[0].store, trace[0].now);
    SysRunKeepsInv(trace, acts, i);
  }

  /** The tables keep their invariant in every state, so all that is proved of them holds there too; and no agent
      ever has two jobs in flight or more than 64 active. */
  lemma TablesStaySound(trace: seq<Sys>, acts: seq<Act>, i: nat)
    requires SysRun(trace, acts) && Fresh(trace[0]) && i < |trace|
    ensures Inv(trace[i].store, trace[i].now)
    ensures forall agent: Uuid ::
              |InFlightJobs(trace[i].store.jobs, agent)| <= 1 && |ActiveJobs(trace[i].store.jobs, agent)| <= 64
  {
    hide SysRun, Fresh, Inv, Requests, Replies, Procs, Waiters, Grants, Results, Execs, Unexecuted, Outcomes, Fates;
    Reachable(trace, acts, i);
    ConcurrencyBounds(trace[i].store, trace[i].now);
  }

  // ---------- at most once ----------

  predicate ExecutedRow(jobs: map<Uuid, Job>, e: Exec) {
    && e.job in jobs && Started(jobs[e.job]) && jobs[e.job].attempt == e.attempt && 1 <= e.attempt <= MAX_ATTEMPTS
    && StartedInLease(jobs[e.job])
  }

  lemma ExecutedRows(jobs: map<Uuid, Job>, now: Time, grants: map<Uuid, nat>, sent: map<nat, Request>,
                     results: map<Uuid, Exec>, execs: seq<Exec>, nextPid: nat)
    requires Rows(jobs, now) && Grants(jobs, grants, sent) && Results(jobs, grants, results, nextPid)
             && Execs(results, execs)
    ensures forall m :: 0 <= m < |execs| ==> ExecutedRow(jobs, execs[m])
    ensures forall m, id :: 0 <= m < |execs| && id in jobs && jobs[id].failure == Some(DispatchExhausted) ==>
            execs[m].job != id
  {
    hide StampsBy, StartedInLease;
    forall m | 0 <= m < |execs|
        ensures ExecutedRow(jobs, execs[m]) && jobs[execs[m].job].failure != Some(DispatchExhausted) {
      var id := execs[m].job;
      assert id in results && id in grants && RowOK(jobs[id], now);
    }
  }

  /** No job is executed twice; every execution belongs to a row whose start was accepted for that very attempt
      strictly inside its lease; and a job that ran out of dispatches was never executed. */
  lemma AtMostOnce(trace: seq<Sys>, acts: seq<Act>, i: nat)
    requires SysRun(trace, acts) && Fresh(trace[0]) && i < |trace|
    ensures forall m, n :: 0 <= m < n < |trace[i].execs| ==> trace[i].execs[m].job != trace[i].execs[n].job
    ensures forall m :: 0 <= m < |trace[i].execs| ==> ExecutedRow(trace[i].store.jobs, trace[i].execs[m])
    ensures forall m, id ::
              0 <= m < |trace[i].execs| && id in trace[i].store.jobs
                  && trace[i].store.jobs[id].failure == Some(DispatchExhausted)
              ==> trace[i].execs[m].job != id
  {
    hide SysRun, Fresh, Requests, Replies, Procs, Waiters, Grants, Results, Unexecuted, Outcomes, Fates, ExecutedRow,
         Rows, OneInFlight, QueueBounded, KeysUnique, AgentsKnown, LogsAgree, Conserved;
    Reachable(trace, acts, i);
    var s := trace[i];
    ExecutedRows(s.store.jobs, s.now, s.grants, s.sent, s.results, s.execs, s.nextPid);
  }

  // ---------- an accepted start comes first ----------

  /** The step that accepts a start: request `rid` asks for the row's current attempt inside its lease. */
  ghost predicate GrantStep(s: Sys, a: Act, t: Sys, rid: nat, e: Exec) {
    && a.Serve? && a.rid == rid && rid in s.sent && e.job in s.store.jobs && e.job in t.store.jobs
    && var j := s.store.jobs[e.job];
       && s.sent[rid] == Request(j.agent, StartMsg(e.job, e.attempt))
       && j.state == Dispatched && j.attempt == e.attempt
       && j.dispatchExpiresAt.Some? && a.ts < j.dispatchExpiresAt.value
       && t.store.jobs[e.job] == MoveRow(j, Begin(e.job, a.ts))
  }

  /** The step that calls the executor: by the daemon that sent the granted request, while it waits for it. */
  ghost predicate ExecStep(s: Sys, a: Act, t: Sys, e: Exec) {
    && a == Proceed(e.pid, Executed(e.ok)) && t.execs == s.execs + [e]
    && e.pid in s.procs && s.procs[e.pid].rid == e.rid
    && s.procs[e.pid].phase == Executing(Assignment(e.job, e.attempt, AgentPing))
  }

  /** Serving a request touches neither messages sent nor daemons, and grants only on an accepted start. */
  lemma ServeFrame(s: Sys, rid: nat, v: Verdict, sel: seq<Uuid>, clk: Clock, ts: Time)
    requires rid in s.sent && Keyed(s.store.jobs)
    ensures var t := ServeStep(s, rid, v, sel, clk, ts);
            var (u, x) := Serving(s.store, s.sent[rid], sel, clk, ts);
            && t.sent == s.sent && t.procs == s.procs && t.execs == s.execs && t.nextRid == s.nextRid
            && t.nextPid == s.nextPid
            && (t.grants == s.grants
                || (&& s.sent[rid].msg.StartMsg? && x.status == 204 && t.store == u
                    && t.grants == s.grants[s.sent[rid].msg.job := rid]))
  {
    hide Serving, Keyed;
  }

  lemma AcceptedStart(store: Store, q: Request, sel: seq<Uuid>, clk: Clock, ts: Time)
    requires Keyed(store.jobs) && q.msg.StartMsg? && q.agent in store.agents && AttemptInRange(q.msg.attempt)
    requires Serving(store, q, sel, clk, ts).1.status == 204
    ensures var job := q.msg.job; var t := Serving(store, q, sel, clk, ts).0;
            && job in store.jobs && store.jobs[job].state == Dispatched && store.jobs[job].agent == q.agent
            && store.jobs[job].attempt == q.msg.attempt && store.jobs[job].dispatchExpiresAt.Some?
            && ts < store.jobs[job].dispatchExpiresAt.value
            && job in t.jobs && t.jobs[job] == MoveRow(store.jobs[job], Begin(job, ts))
  {
    hide HandleStart, EncodeStart, Keyed;
    StartSurvives(store, q.agent, q.msg.job, q.msg.attempt, ts);
  }

  lemma NewGrantStep(s: Sys, a: Act, t: Sys, e: Exec)
    requires SysInv(s) && SysStep(s, a, t) && e.job in t.grants && t.grants[e.job] == e.rid
    requires !(e.job in s.grants && s.grants[e.job] == e.rid)
    requires e.rid in t.sent && t.sent[e.rid].msg == StartMsg(e.job, e.attempt)
    ensures GrantStep(s, a, t, e.rid, e)
  {
    hide Inv, Replies, Procs, Waiters, Grants, Results, Execs, Unexecuted, Outcomes, Fates, Apply, OpOK, Keyed,
         PassSelects, VerdictOK,
         InputOK, React, Requests, ServeStep, Serving, FatesAfter, MoveRow;
    assert a.Serve?;
    ServeFrame(s, a.rid, a.verdict, a.leases + a.deadlines, a.clk, a.ts);
    var q := s.sent[a.rid];
    HonestStart(s.store, s.results, s.sent, s.nextRid, a.rid);
    AcceptedStart(s.store, q, a.leases + a.deadlines, a.clk, a.ts);
  }

  lemma SentStays(s: Sys, a: Act, t: Sys)
    requires SysInv(s) && SysStep(s, a, t)
    ensures SentGrow(s.sent, t.sent)
  {
    hide Inv, Replies, Procs, Waiters, Grants, Results, Execs, Unexecuted, Outcomes, Fates, Apply, OpOK, Keyed,
         PassSelects, VerdictOK,
         ServeStep, InputOK, React, HonestRequest, FatesAfter;
    if a.Serve? {
      ServeFrame(s, a.rid, a.verdict, a.leases + a.deadlines, a.clk, a.ts);
    }
  }

  /** Going back from a granted job to the step that granted it. */
  lemma {:induction false} GrantedEarlier(trace: seq<Sys>, acts: seq<Act>, i: nat, e: Exec) returns (k: nat)
    requires SysRun(trace, acts) && Fresh(trace[0]) && i < |trace| && e.job in trace[i].grants
             && trace[i].grants[e.job] == e.rid
    requires e.rid in trace[i].sent && trace[i].sent[e.rid].msg == StartMsg(e.job, e.attempt)
    ensures k < i && GrantStep(trace[k], acts[k], trace[k + 1], e.rid, e)
  {
    hide SysInv, SysStep, GrantStep, Inv, Grants, Requests;
    assert i != 0;
    var s, a, t := trace[i - 1], acts[i - 1], trace[i];
    assert SysStep(s, a, t);
    Reachable(trace, acts, i - 1);
    if e.job in s.grants && s.grants[e.job] == e.rid {
      SentStays(s, a, t);
      GrantIsSent(s, e.job);
      k := GrantedEarlier(trace, acts, i - 1, e);
    } else {
      NewGrantStep(s, a, t, e);
      k := i - 1;
    }
  }

  lemma GrantIsSent(s: Sys, job: Uuid)
    requires SysInv(s) && job in s.grants
    ensures s.grants[job] in s.sent
  {
    hide Inv, Requests, Replies, Procs, Waiters, Results, Execs, Unexecuted, Outcomes, Fates;
  }

  lemma ExecStepFacts(s: Sys, a: Act, t: Sys)
    requires SysInv(s) && SysStep(s, a, t) && t.execs != s.execs
    ensures |t.execs| == |s.execs| + 1 && s.execs <= t.execs
    ensures var e := t.execs[|s.execs|];
            && ExecStep(s, a, t, e) && e.job in s.grants && s.grants[e.job] == e.rid
            && e.rid in s.sent && s.sent[e.rid].msg == StartMsg(e.job, e.attempt)
  {
    hide Inv, Requests, Replies, Waiters, Grants, Results, Execs, Outcomes, Fates, Apply, OpOK, Keyed, PassSelects,
         VerdictOK,
         ServeStep, React, HonestAssignment, Proven, FatesAfter;
    if a.Serve? {
      ServeFrame(s, a.rid, a.verdict, a.leases + a.deadlines, a.clk, a.ts);
    }
    assert a.Proceed?;
    var p := s.procs[a.pid];
    assert ProcOK(p, s.sent, s.store.jobs, s.results);
  }

  /** Every execution was preceded by the acceptance of its daemon's own start request, for the attempt then current
      and inside the lease. */
  lemma {:induction false} ExecutionFollowsStart(trace: seq<Sys>, acts: seq<Act>, i: nat, m: nat)
      returns (k: nat, j: nat)
    requires SysRun(trace, acts) && Fresh(trace[0]) && i < |trace| && m < |trace[i].execs|
    ensures k < j < i
    ensures GrantStep(trace[k], acts[k], trace[k + 1], trace[i].execs[m].rid, trace[i].execs[m])
    ensures ExecStep(trace[j], acts[j], trace[j + 1], trace[i].execs[m])
  {
    hide SysInv, SysStep, GrantStep, ExecStep, Inv;
    assert i != 0;
    var s, a, t := trace[i - 1], acts[i - 1], trace[i];
    assert SysStep(s, a, t);
    Reachable(trace, acts, i - 1);
    if t.execs != s.execs {
      ExecStepFacts(s, a, t);
    }
    if m < |s.execs| {
      k, j := ExecutionFollowsStart(trace, acts, i - 1, m);
    } else {
      j := i - 1;
      k := GrantedEarlier(trace, acts, i - 1, t.execs[m]);
    }
  }

  // ---------- outcomes ----------

  /** A recorded outcome is what the job's one execution returned. */
  lemma OutcomesAreReal(trace: seq<Sys>, acts: seq<Act>, i: nat, id: Uuid)
    requires SysRun(trace, acts) && Fresh(trace[0]) && i < |trace|
    requires id in trace[i].store.jobs && Reported(trace[i].store.jobs[id])
    ensures exists m :: && 0 <= m < |trace[i].execs| && trace[i].execs[m].job == id
                        && trace[i].execs[m].attempt == trace[i].store.jobs[id].attempt
                        && trace[i].execs[m].ok == (trace[i].store.jobs[id].state == Succeeded)
  {
    hide SysRun, Fresh, Inv, Requests, Replies, Procs, Waiters, Grants, Unexecuted, Fates;
    Reachable(trace, acts, i);
    var s := trace[i];
    assert id in s.results && s.results[id] in s.execs;
    var m :| 0 <= m < |s.execs| && s.execs[m] == s.results[id];
  }

  // ---------- honest traffic is never refused ----------

  /** What the controller's own checks and transactions answer to a request: an offer or nothing to a heartbeat, and a
      plain acceptance or conflict to a start or a completion. */
  predicate Plain(q: Request, x: HttpReply) {
    match q.msg
    case HeartbeatMsg => x.status == 204 || ReadHeartbeat(x).HeartbeatJob?
    case _ => x.status == 204 || x.status == 409
  }

  lemma HeartbeatPlain(store: Store, now: Time, q: Request, sel: seq<Uuid>, clk: Clock, ts: Time)
    requires Inv(store, now) && Keyed(store.jobs) && q.msg == HeartbeatMsg && q.agent in store.agents
    requires ClockOK(clk, now, ts)
    ensures Plain(q, Serving(store, q, sel, clk, ts).1)
  {
    hide Inv, Keyed, ClaimNextAgentJob, ReadHeartbeat, ClockOK;
    ClaimNeverCorrupt(store, q.agent, sel, clk, ts, now);
    var c := ClaimNextAgentJob(store, q.agent, sel, clk, ts).1;
    if c.Assigned? {
      AssignmentSurvives(c.assignment);
    }
  }

  lemma StartPlain(store: Store, q: Request, sel: seq<Uuid>, clk: Clock, ts: Time)
    requires Keyed(store.jobs) && q.msg.StartMsg? && q.agent in store.agents && AttemptInRange(q.msg.attempt)
    ensures Plain(q, Serving(store, q, sel, clk, ts).1)
  {
    hide HandleStart, EncodeStart, Keyed, MoveRow, MoveEvent;
    StartSurvives(store, q.agent, q.msg.job, q.msg.attempt, ts);
  }

  lemma CompletePlain(store: Store, q: Request, sel: seq<Uuid>, clk: Clock, ts: Time)
    requires Keyed(store.jobs) && q.msg.CompleteMsg? && q.agent in store.agents
    requires Completable(store.jobs, q.agent, q.msg.completion)
    ensures Plain(q, Serving(store, q, sel, clk, ts).1)
  {
    hide HandleComplete, EncodeComplete, CompleteAgentJob, Completable, Keyed;
    var c := q.msg.completion;
    CompletionSettles(store, q.agent, c, ts);
    CompleteSurvives(store, q.agent, c.job, c.attempt, c.ok, ts);
  }

  lemma FaithfulIsPlain(s: Sys, rid: nat, sel: seq<Uuid>, clk: Clock, ts: Time)
    requires SysInv(s) && Keyed(s.store.jobs) && rid in s.sent && ClockOK(clk, s.now, ts)
    ensures Plain(s.sent[rid], Serving(s.store, s.sent[rid], sel, clk, ts).1)
  {
    hide OneInFlight, QueueBounded, KeysUnique, AgentsKnown, LogsAgree, Conserved, Rows, Keyed, Replies, Procs, Waiters,
         Grants, Results, Execs, Unexecuted, Outcomes, Fates, Serving, Plain, HonestRequest, Completable, ClockOK;
    var q := s.sent[rid];
    match q.msg {
      case HeartbeatMsg => HeartbeatPlain(s.store, s.now, q, sel, clk, ts);
      case StartMsg(_, _) =>
        HonestStart(s.store, s.results, s.sent, s.nextRid, rid);
        StartPlain(s.store, q, sel, clk, ts);
      case CompleteMsg(_) =>
        HonestCompletion(s.store, s.now, s.grants, s.results, s.sent, s.nextRid, s.nextPid, rid);
        CompletePlain(s.store, q, sel, clk, ts);
    }
  }

  /** Whenever the controller serves a request without trouble, its checks let the request through: the answer is an
      offer or nothing to a heartbeat, and 204 or 409 to a start or a completion, so nothing that stops a daemon. */
  lemma HonestTrafficPasses(trace: seq<Sys>, acts: seq<Act>, i: nat, rid: nat, sel: seq<Uuid>, clk: Clock, ts: Time)
    requires SysRun(trace, acts) && Fresh(trace[0]) && i < |trace| && Keyed(trace[i].store.jobs)
    requires rid in trace[i].sent && ClockOK(clk, trace[i].now, ts)
    ensures var x := Serving(trace[i].store, trace[i].sent[rid], sel, clk, ts).1;
            Plain(trace[i].sent[rid], x) && !Refusal(x.status)
  {
    hide SysRun, Fresh, SysInv, Keyed, Serving, ClockOK, ReadHeartbeat;
    Reachable(trace, acts, i);
    FaithfulIsPlain(trace[i], rid, sel, clk, ts);
    PlainIsNoRefusal(trace[i].sent[rid], Serving(trace[i].store, trace[i].sent[rid], sel, clk, ts).1);
  }

  lemma PlainIsNoRefusal(q: Request, x: HttpReply)
    requires Plain(q, x)
    ensures !Refusal(x.status)
  {
    hide ValidateJobAssignment;
  }

  /** Before step `i`, request `r` was turned away with this status, and the tables were left as they were. */
  ghost predicate TurnedAway(trace: seq<Sys>, acts: seq<Act>, i: nat, r: nat, status: int) {
    exists k :: 0 <= k < i && TurnStep(trace, acts, k, r, status)
  }

  ghost predicate TurnStep(trace: seq<Sys>, acts: seq<Act>, k: nat, r: nat, status: int) {
    && Refusal(status) && k < |acts| && k + 1 < |trace|
    && acts[k].Serve? && acts[k].rid == r && acts[k].verdict == NotCommitted(status)
    && trace[k + 1].store == trace[k].store
  }

  /** An answer a step adds is the answer of its serve. */
  lemma NewReply(s: Sys, a: Act, t: Sys, r: nat, x: HttpReply)
    requires SysStep(s, a, t) && (r, x) in t.replies && (r, x) !in s.replies
    ensures a.Serve? && a.rid == r && r in s.sent && VerdictOK(s.sent[r], a.verdict) && ClockOK(a.clk, s.now, a.ts)
    ensures match a.verdict
            case Faithful => x == Serving(s.store, s.sent[r], a.leases + a.deadlines, a.clk, a.ts).1
            case CommittedButFailed(status) => x == HttpReply(status, None)
            case NotCommitted(status) => x == HttpReply(status, None) && t.store == s.store
  {
    hide Apply, OpOK, Keyed, PassSelects, VerdictOK, InputOK, React, FatesAfter, Forgotten, ServeStep, Serving, ClockOK;
    if a.Serve? {
      ServeReply(s, a.rid, a.verdict, a.leases + a.deadlines, a.clk, a.ts);
    }
  }

  lemma ServeReply(s: Sys, rid: nat, v: Verdict, sel: seq<Uuid>, clk: Clock, ts: Time)
    requires rid in s.sent && Keyed(s.store.jobs)
    ensures var t := ServeStep(s, rid, v, sel, clk, ts);
            match v
            case Faithful => t.replies == s.replies + {(rid, Serving(s.store, s.sent[rid], sel, clk, ts).1)}
            case CommittedButFailed(status) => t.replies == s.replies + {(rid, HttpReply(status, None))}
            case NotCommitted(status) => t.replies == s.replies + {(rid, HttpReply(status, None))} && t.store == s.store
  {
    hide Serving, Keyed;
  }

  /** Every refusal ever answered came from a serve that touched no table. */
  lemma {:induction false} RefusalsTouchNoTable(trace: seq<Sys>, acts: seq<Act>, i: nat, r: nat, x: HttpReply)
    requires SysRun(trace, acts) && Fresh(trace[0]) && i < |trace| && (r, x) in trace[i].replies && Refusal(x.status)
    ensures TurnedAway(trace, acts, i, r, x.status)
  {
    hide SysInv, SysStep, Inv, TurnStep, Plain, ClockOK, Serving, VerdictOK, Refusal;
    assert i != 0;
    var s, a, t := trace[i - 1], acts[i - 1], trace[i];
    assert SysStep(s, a, t);
    if (r, x) in s.replies {
      RefusalsTouchNoTable(trace, acts, i - 1, r, x);
    } else {
      Reachable(trace, acts, i - 1);
      NewReply(s, a, t, r, x);
      RefusalIsTurned(trace, acts, i - 1, r, x);
    }
  }

  lemma RefusalIsTurned(trace: seq<Sys>, acts: seq<Act>, k: nat, r: nat, x: HttpReply)
    requires SysRun(trace, acts) && k < |acts| && SysInv(trace[k]) && Refusal(x.status)
    requires (r, x) in trace[k + 1].replies && (r, x) !in trace[k].replies
    ensures TurnStep(trace, acts, k, r, x.status)
  {
    hide SysInv, ClockOK, Serving, Plain, Advance, ActOK, Keyed;
    var s, a, t := trace[k], acts[k], trace[k + 1];
    assert SysStep(s, a, t);
    NewReply(s, a, t, r, x);
    if a.verdict.Faithful? {
      FaithfulIsPlain(s, r, a.leases + a.deadlines, a.clk, a.ts);
      PlainIsNoRefusal(s.sent[r], x);
    }
  }

  /** Every answer in the network is true. To a heartbeat: an offer of a job this agent holds the row of, nothing, or
      trouble. To a start: 204 proves that the job is granted to this very request. To a completion: 204 proves that the
      row records this outcome, 409 that it is unknown. Any other answer is transient, or the request was turned away
      and touched no table. */
  lemma AnswersAreTrue(trace: seq<Sys>, acts: seq<Act>, i: nat, r: nat, x: HttpReply)
    requires SysRun(trace, acts) && Fresh(trace[0]) && i < |trace| && (r, x) in trace[i].replies
    ensures r in trace[i].sent
    ensures var s := trace[i]; var turned := TurnedAway(trace, acts, i, r, x.status);
            match s.sent[r].msg
            case HeartbeatMsg =>
              && (ReadHeartbeat(x) == HeartbeatPermanent ==> turned)
              && (ReadHeartbeat(x).HeartbeatJob? ==>
                   HonestAssignment(s.store.jobs, s.sent[r].agent, ReadHeartbeat(x).assignment))
            case StartMsg(job, _) =>
              && (x.status == 204 ==> job in s.grants && s.grants[job] == r)
              && (x.status == 204 || x.status == 409 || JobStatus(x.status) == SendTransient || turned)
            case CompleteMsg(c) =>
              && c.job in s.store.jobs
              && (x.status == 204 ==> Records(s.store.jobs[c.job], OutcomeOf(c.ok)))
              && (x.status == 409 ==> s.store.jobs[c.job].state == Unknown)
              && (x.status == 204 || x.status == 409 || JobStatus(x.status) == SendTransient || turned)
  {
    hide SysRun, Fresh, Inv, Procs, Waiters, Grants, Results, Execs, Unexecuted, Outcomes, Fates, Records, TurnedAway,
         ReadHeartbeat, HonestAssignment;
    Reachable(trace, acts, i);
    var s := trace[i];
    assert HonestReply(s.store.jobs, s.grants, r, s.sent[r], x);
    assert HonestRequest(s.store.jobs, s.results, s.sent[r]);
    if Refusal(x.status) {
      RefusalsTouchNoTable(trace, acts, i, r, x);
    }
  }

  // ---------- when a daemon stops ----------

  /** The daemon reads a fatal answer to the request it waits for. */
  predicate StopStep(s: Sys, a: Act, pid: nat) {
    && a.Proceed? && a.pid == pid && pid in s.procs
    && a.input.Answer? && Fatal(s.procs[pid].phase, a.input.reply)
  }

  lemma StepStops(s: Sys, a: Act, t: Sys, pid: nat)
    requires SysInv(s) && SysStep(s, a, t) && pid in s.procs && pid in t.procs
    ensures t.procs[pid].phase == Stopped <==> s.procs[pid].phase == Stopped || StopStep(s, a, pid)
  {
    hide Inv, Requests, Replies, Waiters, Grants, Results, Execs, Unexecuted, Outcomes, Fates, ProcOK, InputOK, React,
         ServeStep, Apply, OpOK, Keyed, PassSelects, VerdictOK, HonestRequest, FatesAfter, Forgotten, Fatal;
    var p := s.procs[pid];
    if !(a.Proceed? && a.pid == pid) {
      OthersUntouched(s, a, t, pid);
    } else {
      NotStopped(p, a.input, s.replies);
      if p.phase.Executing? {
        ExecutingGoesOn(p, a.input);
      } else {
        ReactIsHonest(p, a.input, s.store, s.grants, s.results, s.sent, s.replies, s.nextRid);
      }
    }
  }

  lemma ExecutingGoesOn(p: Proc, input: Input)
    requires p.phase.Executing?
    ensures React(p.phase, p.pending, input).phase != Stopped && (input.Answer? ==> !Fatal(p.phase, input.reply))
  {
  }

  lemma {:induction false} PidsGrow(trace: seq<Sys>, acts: seq<Act>, k: nat, i: nat)
    requires SysRun(trace, acts) && k <= i < |trace|
    ensures trace[k].nextPid <= trace[i].nextPid
    decreases i
  {
    hide SysStep;
    if k < i {
      PidsGrow(trace, acts, k, i - 1);
      assert SysStep(trace[i - 1], acts[i - 1], trace[i]);
      PidStep(trace[i - 1], acts[i - 1], trace[i]);
    }
  }

  lemma PidStep(s: Sys, a: Act, t: Sys)
    requires SysStep(s, a, t)
    ensures s.nextPid <= t.nextPid
    ensures forall pid :: pid in t.procs && pid !in s.procs ==> pid == s.nextPid && t.procs[pid].phase == Idle
  {
    hide Apply, OpOK, Keyed, PassSelects, VerdictOK, InputOK, ServeStep, React, FatesAfter, Forgotten;
    if a.Serve? {
      ServeFrame(s, a.rid, a.verdict, a.leases + a.deadlines, a.clk, a.ts);
    }
  }

  lemma PidBound(s: Sys, pid: nat)
    requires SysInv(s) && pid in s.procs
    ensures pid < s.nextPid
  {
    hide Inv, Requests, Replies, Waiters, Grants, Results, Execs, Unexecuted, Outcomes, Fates, ProcOK;
  }

  lemma {:induction false} StoppedOnce(trace: seq<Sys>, acts: seq<Act>, i: nat, pid: nat)
    requires SysRun(trace, acts) && Fresh(trace[0]) && i < |trace| && pid in trace[i].procs
    ensures trace[i].procs[pid].phase == Stopped <==> exists k :: 0 <= k < i && StopStep(trace[k], acts[k], pid)
  {
    hide SysInv, SysStep, StopStep, Inv;
    assert i != 0;
    var s, a, t := trace[i - 1], acts[i - 1], trace[i];
    assert SysStep(s, a, t);
    Reachable(trace, acts, i - 1);
    if pid in s.procs {
      StoppedOnce(trace, acts, i - 1, pid);
      StepStops(s, a, t, pid);
    } else {
      PidStep(s, a, t);
      forall k | 0 <= k < i ensures !StopStep(trace[k], acts[k], pid) {
        NotHereYet(trace, acts, k, i - 1, pid);
      }
    }
  }

  lemma NotHereYet(trace: seq<Sys>, acts: seq<Act>, k: nat, i: nat, pid: nat)
    requires SysRun(trace, acts) && Fresh(trace[0]) && k <= i < |acts| && trace[i].nextPid <= pid
    ensures !StopStep(trace[k], acts[k], pid)
  {
    hide SysInv, SysStep, Inv;
    PidsGrow(trace, acts, k, i);
    Reachable(trace, acts, k);
    if pid in trace[k].procs {
      PidBound(trace[k], pid);
    }
  }

  /** The answer carries an offer. */
  predicate Offers(x: HttpReply) {
    x.status == 200 && ReadHeartbeat(x).HeartbeatJob?
  }

  /** At step `k` the daemon reads, of an answer that offers it a job, only the headers; or it reads that its request
      was turned away, at an earlier step that touched no table. */
  ghost predicate StopsAt(trace: seq<Sys>, acts: seq<Act>, k: nat, pid: nat) {
    && k < |acts| && k < |trace| && acts[k].Proceed? && acts[k].pid == pid && pid in trace[k].procs
    && acts[k].input.Answer?
    && var p, reply := trace[k].procs[pid], acts[k].input.reply;
       || (p.phase == AwaitHeartbeat && CutShort(reply) && exists x :: (p.rid, x) in trace[k].replies && Offers(x))
       || (Fatal(p.phase, reply) && TurnedAway(trace, acts, k, p.rid, reply.status))
  }

  lemma FatalHasOrigin(trace: seq<Sys>, acts: seq<Act>, k: nat, pid: nat)
    requires SysRun(trace, acts) && Fresh(trace[0]) && k < |acts| && StopStep(trace[k], acts[k], pid)
    ensures StopsAt(trace, acts, k, pid)
  {
    hide Fresh, Inv, Requests, Waiters, Grants, Results, Execs, Unexecuted, Outcomes, Fates, TurnedAway, Advance,
         ReadHeartbeat, HonestAssignment, HonestRequest;
    Reachable(trace, acts, k);
    var s, a := trace[k], acts[k];
    assert SysStep(s, a, trace[k + 1]);
    var p, reply := s.procs[pid], a.input.reply;
    assert ProcOK(p, s.sent, s.store.jobs, s.results);
    var x :| (p.rid, x) in s.replies && (reply == x || reply == HttpReply(x.status, None));
    if Refusal(reply.status) {
      RefusalsTouchNoTable(trace, acts, k, p.rid, x);
    } else {
      assert HonestReply(s.store.jobs, s.grants, p.rid, s.sent[p.rid], x);
      SuccessOffers(x);
    }
  }

  lemma SuccessOffers(x: HttpReply)
    ensures x.status == 200 ==> ReadHeartbeat(x) == HeartbeatPermanent || ReadHeartbeat(x).HeartbeatJob?
  {
    hide ValidateJobAssignment;
  }

  lemma OriginIsFatal(trace: seq<Sys>, acts: seq<Act>, k: nat, pid: nat)
    requires k < |acts| && StopsAt(trace, acts, k, pid)
    ensures StopStep(trace[k], acts[k], pid)
  {
    hide TurnedAway, Offers;
  }

  /** A daemon has stopped exactly if it once read, without its body, an answer that offers it a job, or read that a
      request of its was turned away by a serve that touched no table: nothing else that is ever sent, lost, delayed,
      repeated or cut off stops it, and no answer the controller gives in ordinary operation does. */
  lemma StopsExactly(trace: seq<Sys>, acts: seq<Act>, i: nat, pid: nat)
    requires SysRun(trace, acts) && Fresh(trace[0]) && i < |trace| && pid in trace[i].procs
    ensures trace[i].procs[pid].phase == Stopped <==> exists k :: 0 <= k < i && StopsAt(trace, acts, k, pid)
  {
    hide Fresh, StopStep, StopsAt, SysStep;
    StoppedOnce(trace, acts, i, pid);
    if k :| 0 <= k < i && StopStep(trace[k], acts[k], pid) {
      FatalHasOrigin(trace, acts, k, pid);
    }
    if k :| 0 <= k < i && StopsAt(trace, acts, k, pid) {
      OriginIsFatal(trace, acts, k, pid);
    }
  }

  // ---------- no job is begun twice ----------

  /** The daemon reads the acceptance of its start request and turns to the executor. */
  predicate Enters(s: Sys, a: Act) {
    && a.Proceed? && a.pid in s.procs && s.procs[a.pid].phase.AwaitStart?
    && ReadJob(a.input) == SendOk
  }

  function EnteredJob(s: Sys, a: Act): Uuid
    requires Enters(s, a)
  {
    s.procs[a.pid].phase.assignment.job
  }

  /** The job is granted to a request that no daemon waits for any more. */
  ghost predicate Closed(s: Sys, job: Uuid, rid: nat) {
    && job in s.grants && s.grants[job] == rid && rid < s.nextRid
    && forall p :: p in s.procs && s.procs[p].phase.AwaitStart? ==> s.procs[p].rid != rid
  }

  lemma EntryIsGranted(s: Sys, a: Act)
    requires SysInv(s) && ActOK(s, a) && Enters(s, a)
    ensures var p := s.procs[a.pid]; var job := EnteredJob(s, a);
            && job in s.grants && s.grants[job] == p.rid && p.rid < s.nextRid && p.rid in s.sent
            && p.phase.assignment == Assignment(job, p.phase.assignment.attempt, AgentPing)
            && s.sent[p.rid].msg == StartMsg(job, p.phase.assignment.attempt)
  {
    hide Inv, Waiters, Grants, Results, Execs, Unexecuted, Outcomes, Fates, Heard, HonestRequest, Replies;
    var p := s.procs[a.pid];
    assert ProcOK(p, s.sent, s.store.jobs, s.results);
    HeardIsHonest(s.store.jobs, s.grants, s.sent, s.replies, p.rid, a.input.reply);
  }

  lemma EntryCloses(s: Sys, a: Act, t: Sys)
    requires SysInv(s) && SysStep(s, a, t) && Enters(s, a)
    ensures Closed(t, EnteredJob(s, a), s.procs[a.pid].rid)
  {
    hide Inv, Requests, Replies, Procs, Grants, Results, Execs, Unexecuted, Outcomes, Fates, InputOK, Keyed,
         ReadJob, FatesAfter, Forgotten;
    EntryIsGranted(s, a);
  }

  lemma GrantsStay(s: Sys, a: Act, t: Sys, job: Uuid)
    requires SysInv(s) && SysStep(s, a, t) && job in s.grants
    ensures job in t.grants && t.grants[job] == s.grants[job]
  {
    hide Inv, Requests, Replies, Procs, Waiters, Results, Execs, Unexecuted, Outcomes, Fates, Apply, OpOK, Keyed,
         PassSelects,
         VerdictOK, InputOK, React, ServeStep, Serving, FatesAfter, Forgotten, MoveRow;
    if a.Serve? {
      ServeFrame(s, a.rid, a.verdict, a.leases + a.deadlines, a.clk, a.ts);
      if t.grants != s.grants {
        HonestStart(s.store, s.results, s.sent, s.nextRid, a.rid);
        AcceptedStart(s.store, s.sent[a.rid], a.leases + a.deadlines, a.clk, a.ts);
      }
    }
  }

  lemma StepKeepsClosed(s: Sys, a: Act, t: Sys, job: Uuid, rid: nat)
    requires SysInv(s) && SysStep(s, a, t) && Closed(s, job, rid)
    ensures Closed(t, job, rid)
  {
    hide Inv, Requests, Replies, Procs, Waiters, Grants, Results, Execs, Unexecuted, Outcomes, Fates, Apply, OpOK,
         Keyed,
         PassSelects, VerdictOK, InputOK, React, ServeStep, FatesAfter, Forgotten;
    GrantsStay(s, a, t, job);
    if a.Serve? {
      ServeFrame(s, a.rid, a.verdict, a.leases + a.deadlines, a.clk, a.ts);
    }
    if a.Proceed? {
      AwaitsAnew(s.procs[a.pid].phase, s.procs[a.pid].pending, a.input);
    }
  }

  /** Only a request just sent is waited for anew. */
  lemma AwaitsAnew(phase: Phase, pending: Option<Completion>, input: Input)
    ensures var n := React(phase, pending, input); n.phase.AwaitStart? ==> n.send.Some?
  {
    hide ReadHeartbeat, JobStatus;
  }

  lemma {:induction false} ClosedStays(trace: seq<Sys>, acts: seq<Act>, j: nat, k: nat, job: Uuid, rid: nat)
    requires SysRun(trace, acts) && Fresh(trace[0]) && j <= k < |trace| && Closed(trace[j], job, rid)
    ensures Closed(trace[k], job, rid)
    decreases k
  {
    hide SysInv, SysStep, Closed, Inv;
    if j < k {
      ClosedStays(trace, acts, j, k - 1, job, rid);
      Reachable(trace, acts, k - 1);
      assert SysStep(trace[k - 1], acts[k - 1], trace[k]);
      StepKeepsClosed(trace[k - 1], acts[k - 1], trace[k], job, rid);
    }
  }

  /** No job's execution is begun twice, by any daemons, even where a daemon dies while it executes. */
  lemma EnteredOnce(trace: seq<Sys>, acts: seq<Act>, j: nat, k: nat)
    requires SysRun(trace, acts) && Fresh(trace[0]) && j < k < |acts| && Enters(trace[j], acts[j])
             && Enters(trace[k], acts[k])
    ensures EnteredJob(trace[j], acts[j]) != EnteredJob(trace[k], acts[k])
  {
    hide SysInv, Inv, Advance;
    Reachable(trace, acts, j);
    Reachable(trace, acts, k);
    assert SysStep(trace[j], acts[j], trace[j + 1]) && SysStep(trace[k], acts[k], trace[k + 1]);
    EntryCloses(trace[j], acts[j], trace[j + 1]);
    ClosedStays(trace, acts, j + 1, k, EnteredJob(trace[j], acts[j]), trace[j].procs[acts[j].pid].rid);
    EntryIsGranted(trace[k], acts[k]);
  }

  // ---------- no result is lost silently ----------

  /** What has become of an execution result, told by the tables and the daemon that produced it. */
  predicate Accounted(s: Sys, e: Exec) {
    || (Alive(s.procs, e.pid) && Holds(s.procs[e.pid].phase, s.procs[e.pid].pending, ResultOf(e)))
    || (e.job in s.store.jobs && Records(s.store.jobs[e.job], OutcomeOf(e.ok)))
    || (e.job in s.store.jobs && s.store.jobs[e.job].state == Unknown)
    || !Alive(s.procs, e.pid)
  }

  /** Every result is still held by the daemon that produced it, recorded in the table, or overtaken by the deadline,
      unless that daemon was killed or has stopped. */
  lemma NothingIsLost(trace: seq<Sys>, acts: seq<Act>, i: nat, m: nat)
    requires SysRun(trace, acts) && Fresh(trace[0]) && i < |trace| && m < |trace[i].execs|
    ensures Accounted(trace[i], trace[i].execs[m])
  {
    hide SysRun, Fresh, Inv, Requests, Replies, Procs, Waiters, Grants, Results, Unexecuted, Outcomes, Records, Holds;
    Reachable(trace, acts, i);
    var s, e := trace[i], trace[i].execs[m];
    assert FateOK(s.store.jobs, s.procs, s.results[e.job], s.fates[e.job]);
  }

  /** A daemon takes its result into its keeping in the very step that executes, and lets go of a result only on
      reading an answer to a report of that result: 204, and the row records it, or 409, and the row is unknown; or
      when it stops on a fatal answer. */
  lemma ResultsAreKept(trace: seq<Sys>, acts: seq<Act>, i: nat, pid: nat, c: Completion)
    requires SysRun(trace, acts) && Fresh(trace[0]) && i < |acts|
    requires Alive(trace[i].procs, pid) && pid in trace[i + 1].procs
    requires || Holds(trace[i].procs[pid].phase, trace[i].procs[pid].pending, c)
             || (acts[i] == Proceed(pid, Executed(c.ok)) && trace[i].procs[pid].phase.Executing?
                 && trace[i].procs[pid].phase.assignment == Assignment(c.job, c.attempt, AgentPing))
    ensures || (Alive(trace[i + 1].procs, pid)
                && Holds(trace[i + 1].procs[pid].phase, trace[i + 1].procs[pid].pending, c))
            || Answered(trace[i], acts[i], pid, c) || StopsAt(trace, acts, i, pid)
  {
    hide SysInv, Inv, ActOK, Advance, StopStep, StopsAt;
    Reachable(trace, acts, i);
    assert SysStep(trace[i], acts[i], trace[i + 1]);
    StepStops(trace[i], acts[i], trace[i + 1], pid);
    if StopStep(trace[i], acts[i], pid) {
      FatalHasOrigin(trace, acts, i, pid);
    }
    if acts[i].Proceed? && acts[i].pid == pid {
      KeptByProceed(trace[i], acts[i].input, trace[i + 1], pid, c);
    } else {
      OthersUntouched(trace[i], acts[i], trace[i + 1], pid);
    }
  }

  ghost predicate Answered(s: Sys, a: Act, pid: nat, c: Completion) {
    && a.Proceed? && a.pid == pid && a.input.Answer? && pid in s.procs
    && Heard(s.replies, s.procs[pid].rid, a.input.reply)
    && s.procs[pid].rid in s.sent && s.sent[s.procs[pid].rid].msg == CompleteMsg(c) && c.job in s.store.jobs
    && (   (a.input.reply.status == 204 && Records(s.store.jobs[c.job], OutcomeOf(c.ok)))
        || (a.input.reply.status == 409 && s.store.jobs[c.job].state == Unknown))
  }

  lemma OthersUntouched(s: Sys, a: Act, t: Sys, pid: nat)
    requires SysStep(s, a, t) && SysInv(s) && pid in s.procs && pid in t.procs && !(a.Proceed? && a.pid == pid)
    ensures t.procs[pid] == s.procs[pid]
  {
    hide Inv, Requests, Replies, Waiters, Grants, Results, Execs, Unexecuted, Outcomes, Fates, ProcOK, Apply, OpOK,
         Keyed, PassSelects,
         VerdictOK, InputOK, ServeStep, React, FatesAfter;
    if a.Serve? {
      ServeFrame(s, a.rid, a.verdict, a.leases + a.deadlines, a.clk, a.ts);
    }
  }

  lemma KeptByProceed(s: Sys, input: Input, t: Sys, pid: nat, c: Completion)
    requires SysInv(s) && SysStep(s, Proceed(pid, input), t) && pid in s.procs && pid in t.procs
    requires || Holds(s.procs[pid].phase, s.procs[pid].pending, c)
             || (input == Executed(c.ok) && s.procs[pid].phase.Executing?
                 && s.procs[pid].phase.assignment == Assignment(c.job, c.attempt, AgentPing))
    ensures || t.procs[pid].phase == Stopped || Holds(t.procs[pid].phase, t.procs[pid].pending, c)
            || Answered(s, Proceed(pid, input), pid, c)
  {
    hide Inv, Requests, Replies, Waiters, Grants, Results, Execs, Unexecuted, Outcomes, Fates, React, ProcOK, InputOK,
         FatesAfter, Forgotten, SentGrow, Heard;
    var p := s.procs[pid];
    var n := React(p.phase, p.pending, input);
    assert ProcOK(p, s.sent, s.store.jobs, s.results);
    if !p.phase.Executing? {
      DropIsAnswered(p, input, s.store, s.grants, s.results, s.sent, s.replies, s.nextRid, c);
    } else {
      ExecutingHolds(p, input, s.sent, s.store.jobs, s.results, c);
    }
  }

  lemma ExecutingHolds(p: Proc, input: Input, sent: map<nat, Request>, jobs: map<Uuid, Job>, results: map<Uuid, Exec>,
                       c: Completion)
    requires ProcOK(p, sent, jobs, results) && p.phase.Executing?
    requires Holds(p.phase, p.pending, c)
             || (input == Executed(c.ok) && p.phase.assignment == Assignment(c.job, c.attempt, AgentPing))
    ensures var n := React(p.phase, p.pending, input); Holds(n.phase, n.pending, c)
  {
  }

  lemma DropIsAnswered(p: Proc, input: Input, store: Store, grants: map<Uuid, nat>, results: map<Uuid, Exec>,
                       sent: map<nat, Request>, replies: set<(nat, HttpReply)>, nextRid: nat, c: Completion)
    requires ProcOK(p, sent, store.jobs, results) && !p.phase.Executing? && InputOK(p, input, replies)
    requires Replies(store.jobs, grants, sent, replies) && Requests(store, results, sent, nextRid)
    requires Holds(p.phase, p.pending, c)
    ensures var n := React(p.phase, p.pending, input);
            n.phase == Stopped || Holds(n.phase, n.pending, c)
            || (&& input.Answer? && Heard(replies, p.rid, input.reply) && p.rid in sent
                && sent[p.rid].msg == CompleteMsg(c)
                && c.job in store.jobs
                && (   (input.reply.status == 204 && Records(store.jobs[c.job], OutcomeOf(c.ok)))
                    || (input.reply.status == 409 && store.jobs[c.job].state == Unknown)))
  {
    hide ReadHeartbeat, Records, HonestAssignment, Heard;
    if input.Answer? {
      HeardIsHonest(store.jobs, grants, sent, replies, p.rid, input.reply);
      FatalStops(input.reply);
    }
    if Carried(p).Some? {
      assert HonestRequest(store.jobs, results, sent[p.rid]);
    }
  }

  /** Whenever the controller serves a report without trouble, its answer settles the result one way or the other. */
  lemma DeliveryConcludes(trace: seq<Sys>, acts: seq<Act>, i: nat, rid: nat, sel: seq<Uuid>, clk: Clock, ts: Time)
    requires SysRun(trace, acts) && Fresh(trace[0]) && i < |trace| && Keyed(trace[i].store.jobs)
    requires rid in trace[i].sent && trace[i].sent[rid].msg.CompleteMsg?
    ensures var c := trace[i].sent[rid].msg.completion;
            var (t, x) := Serving(trace[i].store, trace[i].sent[rid], sel, clk, ts);
            && c.job in t.jobs && IsTerminal(t.jobs[c.job].state)
            && (x.status == 204 || x.status == 409)
            && (x.status == 204 <==> Records(t.jobs[c.job], OutcomeOf(c.ok)))
  {
    hide SysRun, Fresh, OneInFlight, QueueBounded, KeysUnique, AgentsKnown, LogsAgree, Conserved, Rows, Keyed,
         Requests, Replies, Procs, Waiters, Grants, Results, Execs, Unexecuted, Outcomes, Fates, HandleComplete,
         EncodeComplete, CompleteAgentJob, Completable;
    Reachable(trace, acts, i);
    var s := trace[i];
    var q, c := s.sent[rid], s.sent[rid].msg.completion;
    HonestCompletion(s.store, s.now, s.grants, s.results, s.sent, s.nextRid, s.nextPid, rid);
    CompletionSettles(s.store, q.agent, c, ts);
    CompleteSurvives(s.store, q.agent, c.job, c.attempt, c.ok, ts);
  }

  lemma CompletionSettles(store: Store, agent: Uuid, c: Completion, ts: Time)
    requires Completable(store.jobs, agent, c)
    ensures var (t, reply) := CompleteAgentJob(store, agent, c.job, c.attempt, OutcomeOf(c.ok), CodeOf(c.ok), ts);
            && AttemptInRange(c.attempt) && c.job in t.jobs && IsTerminal(t.jobs[c.job].state) && reply != Corrupt
            && (reply == Accepted <==> Records(t.jobs[c.job], OutcomeOf(c.ok)))
  {
  }
}
