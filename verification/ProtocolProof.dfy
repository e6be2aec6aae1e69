/** Every step of the protocol keeps its invariant. */
module ProtocolProof {
  import opened Helpers
  import opened Uuids
  import opened JobDomain
  import opened JobEngine
  import opened JobInvariants
  import opened JobRuns
  import opened Wire
  import opened Agent
  import opened Protocol

  // ---------- what a change of the tables leaves intact ----------

  predicate GrantsGrow(g: map<Uuid, nat>, h: map<Uuid, nat>) {
    forall id :: id in g ==> id in h && h[id] == g[id]
  }

  /** No row was started and no outcome was reported. */
  predicate Quiet(s: Store, t: Store) {
    forall id :: id in t.jobs ==>
      && (Started(t.jobs[id]) ==> id in s.jobs && Started(s.jobs[id]))
      && (Reported(t.jobs[id]) ==> id in s.jobs && Reported(s.jobs[id]))
  }

  lemma EvolveKeepsRequests(s: Store, t: Store, results: map<Uuid, Exec>, sent: map<nat, Request>, nextRid: nat)
    requires Requests(s, results, sent, nextRid) && Evolves(s, t)
    ensures Requests(t, results, sent, nextRid)
  {
    hide Measure, RowShape, Started;
    forall r | r in sent ensures HonestRequest(t.jobs, results, sent[r]) {
      assert HonestRequest(s.jobs, results, sent[r]);
    }
  }

  lemma EvolveKeepsProcs(s: Store, t: Store, results: map<Uuid, Exec>, sent: map<nat, Request>, procs: map<nat, Proc>,
                         nextPid: nat)
    requires Procs(s, results, sent, procs, nextPid) && Evolves(s, t)
    ensures Procs(t, results, sent, procs, nextPid)
  {
    hide Measure, RowShape, Started;
    forall p | p in procs ensures ProcOK(procs[p], sent, t.jobs, results) {
      assert ProcOK(procs[p], sent, s.jobs, results);
    }
  }

  lemma EvolveKeepsReply(s: Store, t: Store, g: map<Uuid, nat>, h: map<Uuid, nat>, r: nat, q: Request, x: HttpReply)
    requires HonestReply(s.jobs, g, r, q, x) && Evolves(s, t) && GrantsGrow(g, h)
    ensures HonestReply(t.jobs, h, r, q, x)
  {
    hide Measure, RowShape, Started, ReadHeartbeat, JobStatus;
  }

  lemma EvolveKeepsReplies(s: Store, t: Store, g: map<Uuid, nat>, h: map<Uuid, nat>, sent: map<nat, Request>,
                           replies: set<(nat, HttpReply)>)
    requires Replies(s.jobs, g, sent, replies) && Evolves(s, t) && GrantsGrow(g, h)
    ensures Replies(t.jobs, h, sent, replies)
  {
    hide HonestReply, Evolves;
    forall r, x | (r, x) in replies ensures r in sent && HonestReply(t.jobs, h, r, sent[r], x) {
      EvolveKeepsReply(s, t, g, h, r, sent[r], x);
    }
  }

  lemma EvolveKeepsResults(s: Store, t: Store, g: map<Uuid, nat>, h: map<Uuid, nat>, results: map<Uuid, Exec>,
                           sent: map<nat, Request>, nextPid: nat)
    requires Results(s.jobs, g, results, nextPid) && Grants(s.jobs, g, sent) && Evolves(s, t) && GrantsGrow(g, h)
    ensures Results(t.jobs, h, results, nextPid)
  {
    hide Measure, RowShape, SameOrigin;
    forall id | id in results ensures id in t.jobs && t.jobs[id].attempt == s.jobs[id].attempt {
      assert id in g && Started(s.jobs[id]);
      assert RowEvolves(s.jobs[id], t.jobs[id]);
    }
  }

  lemma EvolveKeepsFates(s: Store, t: Store, procs: map<nat, Proc>, results: map<Uuid, Exec>, fates: map<Uuid, Fate>)
    requires Fates(s.jobs, procs, results, fates) && Evolves(s, t)
    ensures Fates(t.jobs, procs, results, fates)
  {
    hide Measure, RowShape, SameOrigin, Started;
    forall id | id in results ensures FateOK(t.jobs, procs, results[id], fates[id]) {
      assert FateOK(s.jobs, procs, results[id], fates[id]);
    }
  }

  lemma QuietKeepsGrants(s: Store, t: Store, grants: map<Uuid, nat>, sent: map<nat, Request>)
    requires Grants(s.jobs, grants, sent) && Evolves(s, t) && Quiet(s, t)
    ensures Grants(t.jobs, grants, sent)
  {
    hide Measure, RowShape;
    forall id ensures id in grants <==> id in t.jobs && Started(t.jobs[id]) {
      if id in s.jobs {
        assert RowEvolves(s.jobs[id], t.jobs[id]);
      }
    }
  }

  lemma QuietKeepsOutcomes(s: Store, t: Store, results: map<Uuid, Exec>)
    requires Outcomes(s.jobs, results) && Evolves(s, t) && Quiet(s, t)
    ensures Outcomes(t.jobs, results)
  {
    hide Measure, RowShape, Started;
    forall id | id in t.jobs && Reported(t.jobs[id])
        ensures id in results && Records(t.jobs[id], OutcomeOf(results[id].ok)) {
      assert RowEvolves(s.jobs[id], t.jobs[id]);
    }
  }

  lemma GrowKeepsUnexecuted(procs: map<nat, Proc>, jobs: map<Uuid, Job>, g: map<Uuid, nat>, h: map<Uuid, nat>,
                            results: map<Uuid, Exec>, nextPid: nat)
    requires Unexecuted(procs, g, results) && Results(jobs, g, results, nextPid) && GrantsGrow(g, h)
    ensures Unexecuted(procs, h, results)
  {
  }

  // ---------- which transactions are quiet ----------

  lemma MoveIsQuiet(s: Store, m: Move)
    requires Enabled(s, m) && !m.Begin? && !m.Finish?
    ensures Quiet(s, Do(s, m))
  {
  }

  lemma QuietTrans(s: Store, t: Store, u: Store)
    requires Quiet(s, t) && Quiet(t, u)
    ensures Quiet(s, u)
  {
  }

  lemma QuietSame(s: Store)
    ensures Quiet(s, s)
  {
  }

  lemma ReconcileOneIsQuiet(s: Store, id: Uuid, at: Stamps)
    ensures Quiet(s, ReconcileOne(s, id, at))
  {
    if id in s.jobs && Expired(s.jobs[id], at.check) {
      MoveIsQuiet(s, ExpiryMove(s.jobs[id], id, at));
    }
  }

  lemma {:induction false} ReconcileAllIsQuiet(s: Store, ids: seq<Uuid>, clk: Clock)
    ensures Quiet(s, ReconcileAll(s, ids, clk))
    decreases |ids|
  {
    hide Quiet, ReconcileOne;
    if ids == [] {
      QuietSame(s);
    } else {
      var front := ids[..|ids| - 1];
      ReconcileAllIsQuiet(s, front, clk);
      ReconcileOneIsQuiet(ReconcileAll(s, front, clk), ids[|ids| - 1], clk(ids[|ids| - 1]));
      QuietTrans(s, ReconcileAll(s, front, clk), ReconcileAll(s, ids, clk));
    }
  }

  lemma ClaimIsQuiet(s: Store, agent: Uuid, sel: seq<Uuid>, clk: Clock, ts: Time)
    requires Keyed(s.jobs)
    ensures Quiet(s, ClaimNextAgentJob(s, agent, sel, clk, ts).0)
  {
    hide ReconcileAll, ClaimNextAgentJob, Keyed, IsOldest, HasInFlight, RowEnabled, Quiet;
    ReconcileAllIsQuiet(s, sel, clk);
    ClaimCases(s, agent, sel, clk, ts);
    QuietSame(s);
    var s1 := ReconcileAll(s, sel, clk);
    var (t, reply) := ClaimNextAgentJob(s, agent, sel, clk, ts);
    if reply.Assigned? {
      MoveIsQuiet(s1, Dispatch(reply.assignment.job, ts));
      QuietTrans(s, s1, t);
    }
  }

  lemma TransactionIsQuiet(s: Store, op: Op)
    requires Keyed(s.jobs) && !op.ClaimOp? && !op.StartOp? && !op.CompleteOp?
    ensures Quiet(s, Apply(s, op))
  {
    hide ReconcileAll, ReconcileOne, Keyed, ValidateJobRow, KeyTaken;
    match op {
      case SweepOp(_, leases, deadlines, clk) => ReconcileAllIsQuiet(s, leases + deadlines, clk);
      case LookOp(job, ts) => ReconcileOneIsQuiet(s, job, AtOnce(ts));
      case _ =>
    }
  }

  lemma TransactKeepsInv(s: Sys, op: Op, later: Time)
    requires SysInv(s) && ActOK(s, Transact(op, later)) && Keyed(s.store.jobs)
    ensures SysInv(Advance(s, Transact(op, later)))
  {
    hide Apply, OpOK, Keyed, Inv, Evolves, Quiet, Requests, Replies, Procs, Waiters, Grants, Results, Execs, Unexecuted,
         Outcomes, Fates;
    TransactionKeepsInv(s.store, op, s.now, later);
    TransactionIsQuiet(s.store, op);
    StoreStepKeepsInv(s, Apply(s.store, op), later);
  }

  lemma StoreStepKeepsInv(s: Sys, t: Store, later: Time)
    requires SysInv(s) && Inv(t, later) && Evolves(s.store, t) && Quiet(s.store, t)
    ensures SysInv(s.(store := t, now := later))
  {
    hide Inv, Evolves, Quiet, Requests, Replies, Procs, Waiters, Grants, Results, Execs, Unexecuted, Outcomes, Fates,
         GrantsGrow;
    GrantsSame(s.grants);
    EvolveKeepsRequests(s.store, t, s.results, s.sent, s.nextRid);
    EvolveKeepsReplies(s.store, t, s.grants, s.grants, s.sent, s.replies);
    EvolveKeepsProcs(s.store, t, s.results, s.sent, s.procs, s.nextPid);
    QuietKeepsGrants(s.store, t, s.grants, s.sent);
    EvolveKeepsResults(s.store, t, s.grants, s.grants, s.results, s.sent, s.nextPid);
    QuietKeepsOutcomes(s.store, t, s.results);
    EvolveKeepsFates(s.store, t, s.procs, s.results, s.fates);
  }

  lemma GrantsSame(g: map<Uuid, nat>)
    ensures GrantsGrow(g, g)
  {
  }

  // ---------- serving a request ----------

  lemma AddedReply(jobs: map<Uuid, Job>, grants: map<Uuid, nat>, sent: map<nat, Request>,
                   replies: set<(nat, HttpReply)>, r: nat, x: HttpReply)
    requires Replies(jobs, grants, sent, replies) && r in sent && HonestReply(jobs, grants, r, sent[r], x)
    ensures Replies(jobs, grants, sent, replies + {(r, x)})
  {
    hide HonestReply;
  }

  lemma AnswerKeepsInv(s: Sys, t: Store, ts: Time, granted: map<Uuid, nat>, rid: nat, x: HttpReply)
    requires SysInv(s) && Inv(t, ts) && Evolves(s.store, t) && GrantsGrow(s.grants, granted)
    requires Grants(t.jobs, granted, s.sent) && Outcomes(t.jobs, s.results)
    requires rid in s.sent && HonestReply(t.jobs, granted, rid, s.sent[rid], x)
    ensures SysInv(s.(store := t, now := ts, grants := granted, replies := s.replies + {(rid, x)}))
  {
    hide Inv, Evolves, Requests, Replies, Procs, Waiters, Grants, Results, Execs, Unexecuted, Outcomes, Fates,
         GrantsGrow, HonestReply;
    EvolveKeepsRequests(s.store, t, s.results, s.sent, s.nextRid);
    EvolveKeepsReplies(s.store, t, s.grants, granted, s.sent, s.replies);
    AddedReply(t.jobs, granted, s.sent, s.replies, rid, x);
    EvolveKeepsProcs(s.store, t, s.results, s.sent, s.procs, s.nextPid);
    EvolveKeepsResults(s.store, t, s.grants, granted, s.results, s.sent, s.nextPid);
    GrowKeepsUnexecuted(s.procs, s.store.jobs, s.grants, granted, s.results, s.nextPid);
    EvolveKeepsFates(s.store, t, s.procs, s.results, s.fates);
  }

  /** A status that reports trouble, or an empty heartbeat answer, claims nothing. */
  lemma TroubleIsHonest(jobs: map<Uuid, Job>, grants: map<Uuid, nat>, r: nat, q: Request, status: int)
    requires ServerTrouble(status) || Refusal(status) || (q.msg.HeartbeatMsg? && status == 204)
    ensures HonestReply(jobs, grants, r, q, HttpReply(status, None))
  {
    hide ValidateJobAssignment;
  }

  lemma ClaimReplyIsHonest(s: Store, agent: Uuid, sel: seq<Uuid>, clk: Clock, ts: Time, now: Time,
                           grants: map<Uuid, nat>, r: nat, q: Request)
    requires Inv(s, now) && ClockOK(clk, now, ts) && q == Request(agent, HeartbeatMsg)
    ensures var (t, c) := ClaimNextAgentJob(s, agent, sel, clk, ts);
            HonestReply(t.jobs, grants, r, q, HeartbeatReply(c))
  {
    ClaimNeverCorrupt(s, agent, sel, clk, ts, now);
    var (t, c) := ClaimNextAgentJob(s, agent, sel, clk, ts);
    if c.Assigned? {
      ClaimIsFifo(s, agent, sel, clk, ts, now);
      AssignmentSurvives(c.assignment);
    } else {
      TroubleIsHonest(t.jobs, grants, r, q, 204);
    }
  }

  /** What a committed transaction behind an honest request must establish. */
  ghost predicate Served(s: Sys, t: Store, ts: Time, granted: map<Uuid, nat>, rid: nat, x: HttpReply) {
    && Inv(t, ts) && Evolves(s.store, t) && GrantsGrow(s.grants, granted)
    && Grants(t.jobs, granted, s.sent) && Outcomes(t.jobs, s.results)
    && rid in s.sent && HonestReply(t.jobs, granted, rid, s.sent[rid], x)
  }

  lemma HeartbeatServed(s: Sys, rid: nat, sel: seq<Uuid>, clk: Clock, ts: Time)
    requires SysInv(s) && Keyed(s.store.jobs) && rid in s.sent && s.sent[rid].msg == HeartbeatMsg
             && ClockOK(clk, s.now, ts)
    ensures var (t, x) := Serving(s.store, s.sent[rid], sel, clk, ts); Served(s, t, ts, s.grants, rid, x)
  {
    hide Inv, Evolves, Replies, Procs, Waiters, Results, Execs, Unexecuted, Fates, GrantsGrow, HonestReply, Grants,
         Outcomes,
         ClaimNextAgentJob, HeartbeatReply, HonestRequest, Keyed, Quiet;
    var q := s.sent[rid];
    ClaimKeepsInv(s.store, q.agent, sel, clk, ts, s.now);
    ClaimIsQuiet(s.store, q.agent, sel, clk, ts);
    ClaimReplyIsHonest(s.store, q.agent, sel, clk, ts, s.now, s.grants, rid, q);
    var t := ClaimNextAgentJob(s.store, q.agent, sel, clk, ts).0;
    QuietKeepsGrants(s.store, t, s.grants, s.sent);
    QuietKeepsOutcomes(s.store, t, s.results);
    GrantsSame(s.grants);
  }

  lemma NewGrant(jobs: map<Uuid, Job>, grants: map<Uuid, nat>, sent: map<nat, Request>, results: map<Uuid, Exec>,
                 rid: nat, job: Uuid, after: Job)
    requires Grants(jobs, grants, sent) && Outcomes(jobs, results)
    requires job in jobs && !Started(jobs[job]) && Started(after) && !Reported(after)
    requires rid in sent && sent[rid] == Request(after.agent, StartMsg(job, after.attempt))
    ensures Grants(jobs[job := after], grants[job := rid], sent) && GrantsGrow(grants, grants[job := rid])
    ensures Outcomes(jobs[job := after], results)
  {
    hide Started, Reported, Records;
  }

  lemma HonestStart(store: Store, results: map<Uuid, Exec>, sent: map<nat, Request>, nextRid: nat, rid: nat)
    requires Requests(store, results, sent, nextRid) && rid in sent && sent[rid].msg.StartMsg?
    ensures sent[rid].agent in store.agents && AttemptInRange(sent[rid].msg.attempt)
  {
    assert HonestRequest(store.jobs, results, sent[rid]);
  }

  /** An accepted start grants the job to the request that asked; a refused one leaves everything as it is. */
  lemma StartOutcome(store: Store, grants: map<Uuid, nat>, sent: map<nat, Request>, results: map<Uuid, Exec>, rid: nat,
                     ts: Time)
    requires Grants(store.jobs, grants, sent) && Outcomes(store.jobs, results) && rid in sent && sent[rid].msg.StartMsg?
    ensures var q := sent[rid];
            var (t, reply) := StartAgentJob(store, q.agent, q.msg.job, q.msg.attempt, ts);
            var granted := if reply == Accepted then grants[q.msg.job := rid] else grants;
            && reply != Corrupt && Grants(t.jobs, granted, sent) && GrantsGrow(grants, granted)
            && Outcomes(t.jobs, results)
            && HonestReply(t.jobs, granted, rid, q, HttpReply(ReplyStatus(reply), None))
  {
    hide Grants, Outcomes, GrantsGrow;
    var q := sent[rid];
    GrantsSame(grants);
    if StartAgentJob(store, q.agent, q.msg.job, q.msg.attempt, ts).1 == Accepted {
      var t := StartAgentJob(store, q.agent, q.msg.job, q.msg.attempt, ts).0;
      NewGrant(store.jobs, grants, sent, results, rid, q.msg.job, t.jobs[q.msg.job]);
    }
  }

  lemma StartServed(s: Sys, rid: nat, sel: seq<Uuid>, clk: Clock, ts: Time)
    requires SysInv(s) && Keyed(s.store.jobs) && rid in s.sent && s.sent[rid].msg.StartMsg? && s.now <= ts
    ensures var (t, x) := Serving(s.store, s.sent[rid], sel, clk, ts);
            Served(s, t, ts, if x.status == 204 then s.grants[s.sent[rid].msg.job := rid] else s.grants, rid, x)
  {
    hide Inv, Evolves, Requests, Replies, Procs, Waiters, Results, Execs, Unexecuted, Fates, GrantsGrow, Grants,
         Outcomes, Keyed,
         HandleStart, EncodeStart, ValidateJobStartRequest, StartAgentJob, HonestReply;
    var q := s.sent[rid];
    HonestStart(s.store, s.results, s.sent, s.nextRid, rid);
    StartKeepsInv(s.store, q.agent, q.msg.job, q.msg.attempt, ts, s.now);
    StartSurvives(s.store, q.agent, q.msg.job, q.msg.attempt, ts);
    StartOutcome(s.store, s.grants, s.sent, s.results, rid, ts);
  }

  /** The row an honest completion is about: started, for this attempt and agent, and if it already carries an
      outcome, then this one. */
  predicate Completable(jobs: map<Uuid, Job>, agent: Uuid, c: Completion) {
    && c.job in jobs && RowShape(jobs[c.job]) && jobs[c.job].agent == agent && jobs[c.job].attempt == c.attempt
    && Started(jobs[c.job]) && (Reported(jobs[c.job]) ==> Records(jobs[c.job], OutcomeOf(c.ok)))
  }

  lemma HonestCompletion(store: Store, now: Time, grants: map<Uuid, nat>, results: map<Uuid, Exec>, sent: map<nat,
                         Request>, nextRid: nat, nextPid: nat, rid: nat)
    requires Rows(store.jobs, now) && Requests(store, results, sent, nextRid) && Grants(store.jobs, grants, sent)
    requires Results(store.jobs, grants, results, nextPid) && Outcomes(store.jobs, results)
    requires rid in sent && sent[rid].msg.CompleteMsg?
    ensures var c := sent[rid].msg.completion;
            Completable(store.jobs, sent[rid].agent, c) && sent[rid].agent in store.agents && c.job in results
                && results[c.job].ok == c.ok
  {
    hide RowShape;
    assert HonestRequest(store.jobs, results, sent[rid]);
  }

  /** On such a row a completion is accepted exactly by recording it, and refused only when the row is, or thereby
      becomes, unknown. */
  lemma CompletionCases(store: Store, agent: Uuid, c: Completion, ts: Time)
    requires Completable(store.jobs, agent, c)
    ensures var (t, reply) := CompleteAgentJob(store, agent, c.job, c.attempt, OutcomeOf(c.ok), CodeOf(c.ok), ts);
            && AttemptInRange(c.attempt) && c.job in t.jobs && reply != Corrupt
            && (reply == Accepted ==> Records(t.jobs[c.job], OutcomeOf(c.ok)))
            && (reply == Conflict ==> t.jobs[c.job].state == Unknown)
            && (t != store ==> store.jobs[c.job].state == Running
                               && (t == Do(store, Expire(c.job, AtOnce(ts)))
                                   || t == Do(store, Finish(c.job, ts, c.ok))))
  {
  }

  lemma EndGrants(jobs: map<Uuid, Job>, grants: map<Uuid, nat>, sent: map<nat, Request>, results: map<Uuid, Exec>,
                  job: Uuid, after: Job)
    requires Grants(jobs, grants, sent) && Outcomes(jobs, results) && job in jobs && Started(jobs[job])
             && Started(after)
    requires after.agent == jobs[job].agent && after.attempt == jobs[job].attempt
    requires Reported(after) ==> job in results && Records(after, OutcomeOf(results[job].ok))
    ensures Grants(jobs[job := after], grants, sent) && Outcomes(jobs[job := after], results)
  {
    hide Started, Reported, Records;
  }

  lemma CompleteOutcome(store: Store, grants: map<Uuid, nat>, sent: map<nat, Request>, results: map<Uuid, Exec>,
                        rid: nat, ts: Time)
    requires Grants(store.jobs, grants, sent) && Outcomes(store.jobs, results) && rid in sent
             && sent[rid].msg.CompleteMsg?
    requires var c := sent[rid].msg.completion;
             Completable(store.jobs, sent[rid].agent, c) && c.job in results && results[c.job].ok == c.ok
    ensures var q := sent[rid]; var c := q.msg.completion;
            var (t, reply) := CompleteAgentJob(store, q.agent, c.job, c.attempt, OutcomeOf(c.ok), CodeOf(c.ok), ts);
            && Grants(t.jobs, grants, sent) && Outcomes(t.jobs, results)
            && HonestReply(t.jobs, grants, rid, q, HttpReply(ReplyStatus(reply), None))
  {
    hide CompleteAgentJob, Grants, Outcomes, RowShape;
    var q, c := sent[rid], sent[rid].msg.completion;
    CompletionCases(store, q.agent, c, ts);
    var t := CompleteAgentJob(store, q.agent, c.job, c.attempt, OutcomeOf(c.ok), CodeOf(c.ok), ts).0;
    if t != store {
      EndGrants(store.jobs, grants, sent, results, c.job, t.jobs[c.job]);
    }
  }

  lemma CompleteServed(s: Sys, rid: nat, sel: seq<Uuid>, clk: Clock, ts: Time)
    requires SysInv(s) && Keyed(s.store.jobs) && rid in s.sent && s.sent[rid].msg.CompleteMsg? && s.now <= ts
    ensures var (t, x) := Serving(s.store, s.sent[rid], sel, clk, ts); Served(s, t, ts, s.grants, rid, x)
  {
    hide OneInFlight, QueueBounded, KeysUnique, AgentsKnown, LogsAgree, Conserved, Rows,
         Evolves, Requests, Replies, Procs, Waiters, Results, Execs, Unexecuted, Fates, GrantsGrow, Grants, Outcomes,
             Keyed,
         HandleComplete, EncodeComplete, ValidateJobCompleteRequest, CompleteAgentJob, HonestReply, Completable,
             RowShape, Records;
    var q := s.sent[rid];
    var c := q.msg.completion;
    HonestCompletion(s.store, s.now, s.grants, s.results, s.sent, s.nextRid, s.nextPid, rid);
    CompletionCases(s.store, q.agent, c, ts);
    CompleteKeepsInv(s.store, q.agent, c.job, c.attempt, OutcomeOf(c.ok), CodeOf(c.ok), ts, s.now);
    CompleteSurvives(s.store, q.agent, c.job, c.attempt, c.ok, ts);
    CompleteOutcome(s.store, s.grants, s.sent, s.results, rid, ts);
    GrantsSame(s.grants);
  }

  lemma ServeKeepsInv(s: Sys, rid: nat, v: Verdict, sel: seq<Uuid>, clk: Clock, ts: Time)
    requires SysInv(s) && Keyed(s.store.jobs) && rid in s.sent && VerdictOK(s.sent[rid], v) && ClockOK(clk, s.now, ts)
    ensures SysInv(ServeStep(s, rid, v, sel, clk, ts))
  {
    hide Inv, Evolves, Requests, Replies, Procs, Waiters, Grants, Results, Execs, Unexecuted, Outcomes, Fates,
         GrantsGrow, HonestReply,
         Serving, Keyed;
    var q := s.sent[rid];
    match q.msg {
      case HeartbeatMsg => HeartbeatServed(s, rid, sel, clk, ts);
      case StartMsg(_, _) => StartServed(s, rid, sel, clk, ts);
      case CompleteMsg(_) => CompleteServed(s, rid, sel, clk, ts);
    }
    var (t, x) := Serving(s.store, q, sel, clk, ts);
    var granted := if q.msg.StartMsg? && x.status == 204 then s.grants[q.msg.job := rid] else s.grants;
    assert Served(s, t, ts, granted, rid, x);
    match v {
      case Faithful => AnswerKeepsInv(s, t, ts, granted, rid, x);
      case CommittedButFailed(status) =>
        TroubleIsHonest(t.jobs, granted, rid, q, status);
        AnswerKeepsInv(s, t, ts, granted, rid, HttpReply(status, None));
      case NotCommitted(status) =>
        TroubleIsHonest(s.store.jobs, s.grants, rid, q, status);
        InvLater(s.store, s.now, ts);
        EvolvesSame(s.store);
        GrantsSame(s.grants);
        AnswerKeepsInv(s, s.store, ts, s.grants, rid, HttpReply(status, None));
    }
  }

  // ---------- a daemon proceeds ----------

  predicate SentGrow(a: map<nat, Request>, b: map<nat, Request>) {
    forall r :: r in a ==> r in b && b[r] == a[r]
  }

  function ProcAfter(p: Proc, n: Next, nextRid: nat): Proc {
    Proc(p.agent, n.phase, n.pending, if n.send.Some? then nextRid else p.rid)
  }

  function SentAfter(sent: map<nat, Request>, p: Proc, n: Next, nextRid: nat): map<nat, Request> {
    if n.send.Some? then sent[nextRid := Request(p.agent, n.send.value)] else sent
  }

  /** A success whose body did not arrive. */
  predicate CutShort(reply: HttpReply) {
    reply.status == 200 && reply.body == None
  }

  /** What arrives of an honest answer is honest, unless it is a heartbeat's success without its body. */
  lemma HeardIsHonest(jobs: map<Uuid, Job>, grants: map<Uuid, nat>, sent: map<nat, Request>,
                      replies: set<(nat, HttpReply)>, rid: nat, reply: HttpReply)
    requires Replies(jobs, grants, sent, replies) && Heard(replies, rid, reply)
    ensures rid in sent
    ensures HonestReply(jobs, grants, rid, sent[rid], reply) || (sent[rid].msg.HeartbeatMsg? && CutShort(reply))
  {
    hide ValidateJobAssignment;
    var x :| (rid, x) in replies && (reply == x || reply == HttpReply(x.status, None));
    assert HonestReply(jobs, grants, rid, sent[rid], x);
  }

  /** The answers that stop a daemon: a refusal of any request, and a heartbeat's success without its body. */
  predicate Fatal(phase: Phase, reply: HttpReply) {
    || (Refusal(reply.status)
        && (phase.AwaitHeartbeat? || phase.AwaitRetry? || phase.AwaitStart? || phase.AwaitComplete?))
    || (phase == AwaitHeartbeat && CutShort(reply))
  }

  lemma FatalStops(reply: HttpReply)
    ensures CutShort(reply) ==> ReadHeartbeat(reply) == HeartbeatPermanent
    ensures Refusal(reply.status) ==> ReadHeartbeat(reply) == HeartbeatPermanent
    ensures Refusal(reply.status) ==> JobStatus(reply.status) == SendPermanent
  {
  }

  /** What the daemon learns from its input agrees with the tables, so its next state and message are honest, and
      it stops exactly on a fatal answer. */
  lemma ReactIsHonest(p: Proc, input: Input, store: Store, grants: map<Uuid, nat>, results: map<Uuid, Exec>,
                      sent: map<nat, Request>, replies: set<(nat, HttpReply)>, nextRid: nat)
    requires ProcOK(p, sent, store.jobs, results) && !p.phase.Executing? && InputOK(p, input, replies)
    requires Replies(store.jobs, grants, sent, replies) && Requests(store, results, sent, nextRid)
    ensures var n := React(p.phase, p.pending, input);
            && ProcOK(ProcAfter(p, n, nextRid), SentAfter(sent, p, n, nextRid), store.jobs, results)
            && (n.send.Some? ==> HonestRequest(store.jobs, results, Request(p.agent, n.send.value)))
            && (n.phase == Stopped <==> input.Answer? && Fatal(p.phase, input.reply))
  {
    hide ReadHeartbeat, JobStatus, Records, Heard;
    if input.Answer? {
      HeardIsHonest(store.jobs, grants, sent, replies, p.rid, input.reply);
      FatalStops(input.reply);
    }
    if p.phase.AwaitStart? {
      assert HonestRequest(store.jobs, results, sent[p.rid]);
    }
  }

  lemma SendKeepsOthers(s: Sys, p: Proc, n: Next)
    requires Requests(s.store, s.results, s.sent, s.nextRid) && p.agent in s.store.agents
    requires n.send.Some? ==> HonestRequest(s.store.jobs, s.results, Request(p.agent, n.send.value))
    requires Replies(s.store.jobs, s.grants, s.sent, s.replies) && Grants(s.store.jobs, s.grants, s.sent)
    ensures var sent' := SentAfter(s.sent, p, n, s.nextRid);
            && SentGrow(s.sent, sent')
            && Requests(s.store, s.results, sent', if n.send.Some? then s.nextRid + 1 else s.nextRid)
            && Replies(s.store.jobs, s.grants, sent', s.replies) && Grants(s.store.jobs, s.grants, sent')
  {
    hide HonestRequest, HonestReply, Started;
  }

  lemma OtherProcs(store: Store, results: map<Uuid, Exec>, sent: map<nat, Request>, sent': map<nat, Request>,
                   procs: map<nat, Proc>, nextPid: nat, pid: nat, p': Proc)
    requires Procs(store, results, sent, procs, nextPid) && SentGrow(sent, sent') && pid in procs
    requires p'.agent in store.agents && ProcOK(p', sent', store.jobs, results)
    ensures Procs(store, results, sent', procs[pid := p'], nextPid)
  {
    hide HonestAssignment, Proven;
    forall q | q in procs ensures ProcOK(procs[q], sent', store.jobs, results) {
      assert ProcOK(procs[q], sent, store.jobs, results);
    }
  }

  lemma FreshWaiter(store: Store, results: map<Uuid, Exec>, sent: map<nat, Request>, procs: map<nat, Proc>,
                    nextPid: nat, nextRid: nat, pid: nat, p': Proc)
    requires Waiters(procs) && Procs(store, results, sent, procs, nextPid) && Requests(store, results, sent, nextRid)
             && pid in procs
    requires p'.rid == nextRid || !Waits(p'.phase) || (Waits(procs[pid].phase) && p'.rid == procs[pid].rid)
    ensures Waiters(procs[pid := p'])
  {
    hide HonestAssignment, Proven, HonestRequest;
    forall q | q in procs && Waits(procs[q].phase) ensures procs[q].rid < nextRid {
      assert ProcOK(procs[q], sent, store.jobs, results);
    }
  }

  lemma ProceedUnexecuted(s: Sys, pid: nat, input: Input)
    requires pid in s.procs && ProcOK(s.procs[pid], s.sent, s.store.jobs, s.results) && !s.procs[pid].phase.Executing?
    requires InputOK(s.procs[pid], input, s.replies)
    requires Unexecuted(s.procs, s.grants, s.results) && Grants(s.store.jobs, s.grants, s.sent)
    requires Replies(s.store.jobs, s.grants, s.sent, s.replies) && Requests(s.store, s.results, s.sent, s.nextRid)
    ensures var p := s.procs[pid]; var n := React(p.phase, p.pending, input);
            Unexecuted(s.procs[pid := ProcAfter(p, n, s.nextRid)], s.grants, s.results)
  {
    hide ReadHeartbeat, JobStatus, Records, Started, HonestRequest, HonestAssignment, Proven, Heard;
    var p := s.procs[pid];
    if input.Answer? {
      HeardIsHonest(s.store.jobs, s.grants, s.sent, s.replies, p.rid, input.reply);
      FatalStops(input.reply);
    }
  }

  /** A daemon lets go only of the result it was delivering, and only on an answer that settles it. */
  lemma DropIsJustified(p: Proc, input: Input, store: Store, grants: map<Uuid, nat>, results: map<Uuid, Exec>,
                        sent: map<nat, Request>, replies: set<(nat, HttpReply)>, nextRid: nat)
    requires ProcOK(p, sent, store.jobs, results) && !p.phase.Executing? && InputOK(p, input, replies)
    requires Replies(store.jobs, grants, sent, replies) && Requests(store, results, sent, nextRid)
    requires React(p.phase, p.pending, input).phase != Stopped
    ensures var n := React(p.phase, p.pending, input);
            && (forall c :: Holds(p.phase, p.pending, c) && !Holds(n.phase, n.pending, c) ==> Carried(p) == Some(c))
            && (Carried(p).Some? ==> Proven(results, Carried(p).value))
            && (Carried(p).Some? && !Holds(n.phase, n.pending, Carried(p).value) ==>
                 Settled(store.jobs, Carried(p).value, ReadJob(input) == SendOk))
  {
    hide ReadHeartbeat, JobStatus, Records, HonestAssignment, Heard;
    if input.Answer? {
      HeardIsHonest(store.jobs, grants, sent, replies, p.rid, input.reply);
      FatalStops(input.reply);
    }
    if Carried(p).Some? {
      assert HonestRequest(store.jobs, results, sent[p.rid]);
    }
  }

  predicate Settled(jobs: map<Uuid, Job>, c: Completion, acknowledged: bool) {
    c.job in jobs && if acknowledged then Records(jobs[c.job], OutcomeOf(c.ok)) else jobs[c.job].state == Unknown
  }

  lemma ProceedFates(jobs: map<Uuid, Job>, procs: map<nat, Proc>, results: map<Uuid, Exec>, fates: map<Uuid, Fate>,
                     pid: nat, p': Proc, n: Next, input: Input)
    requires pid in procs && !procs[pid].phase.Executing? && procs[pid].phase != Stopped
    requires n.phase == p'.phase != Stopped && n.pending == p'.pending
    requires forall id :: id in results ==> results[id].job == id
    requires Fates(jobs, procs, results, fates)
    requires forall c :: Holds(procs[pid].phase, procs[pid].pending, c) && !Holds(n.phase, n.pending, c) ==>
             Carried(procs[pid]) == Some(c)
    requires Carried(procs[pid]).Some? ==> Proven(results, Carried(procs[pid]).value)
    requires Carried(procs[pid]).Some? && !Holds(n.phase, n.pending, Carried(procs[pid]).value) ==>
               Settled(jobs, Carried(procs[pid]).value, ReadJob(input) == SendOk)
    ensures Fates(jobs, procs[pid := p'], results, FatesAfter(fates, procs[pid], n, input))
  {
    hide ReadJob, Carried, Holds, Records;
    var fates' := FatesAfter(fates, procs[pid], n, input);
    forall id | id in results ensures id in fates' && FateOK(jobs, procs[pid := p'], results[id], fates'[id]) {
      assert FateOK(jobs, procs, results[id], fates[id]);
    }
  }

  /** A daemon that is killed or stops takes what it held with it, and nothing else. */
  lemma GoneFates(jobs: map<Uuid, Job>, procs: map<nat, Proc>, after: map<nat, Proc>, results: map<Uuid, Exec>,
                  fates: map<Uuid, Fate>, pid: nat)
    requires Fates(jobs, procs, results, fates) && !Alive(after, pid)
    requires forall q :: q != pid && q in procs ==> q in after && after[q] == procs[q]
    requires forall q :: q != pid && q in after ==> q in procs
    ensures Fates(jobs, after, results, Forgotten(fates, results, pid))
  {
    hide Records, Holds;
    var fates' := Forgotten(fates, results, pid);
    forall id | id in results ensures id in fates' && FateOK(jobs, after, results[id], fates'[id]) {
      assert FateOK(jobs, procs, results[id], fates[id]);
    }
  }

  lemma ProceedKeepsInv(s: Sys, pid: nat, input: Input)
    requires SysInv(s) && ActOK(s, Proceed(pid, input)) && !s.procs[pid].phase.Executing?
    ensures SysInv(ProceedStep(s, pid, input))
  {
    hide Inv, Requests, Replies, Waiters, Grants, Results, Execs, Unexecuted, Outcomes, Fates, ProcOK, InputOK, React,
         FatesAfter, Forgotten, SentGrow, HonestRequest, Settled, Holds, Carried, Proven;
    var p := s.procs[pid];
    var n := React(p.phase, p.pending, input);
    var p' := ProcAfter(p, n, s.nextRid);
    ReactIsHonest(p, input, s.store, s.grants, s.results, s.sent, s.replies, s.nextRid);
    SendKeepsOthers(s, p, n);
    OtherProcs(s.store, s.results, s.sent, SentAfter(s.sent, p, n, s.nextRid), s.procs, s.nextPid, pid, p');
    NotStopped(p, input, s.replies);
    ReactWaits(p, input, s.nextRid);
    FreshWaiter(s.store, s.results, s.sent, s.procs, s.nextPid, s.nextRid, pid, p');
    ProceedUnexecuted(s, pid, input);
    ResultsNamed(s.store.jobs, s.grants, s.results, s.nextPid);
    if n.phase == Stopped {
      GoneFates(s.store.jobs, s.procs, s.procs[pid := p'], s.results, s.fates, pid);
    } else {
      DropIsJustified(p, input, s.store, s.grants, s.results, s.sent, s.replies, s.nextRid);
      ProceedFates(s.store.jobs, s.procs, s.results, s.fates, pid, p', n, input);
    }
  }

  lemma ReactWaits(p: Proc, input: Input, nextRid: nat)
    requires !p.phase.Executing? && p.phase != Stopped
    ensures var p' := ProcAfter(p, React(p.phase, p.pending, input), nextRid);
            p'.rid == nextRid || !Waits(p'.phase) || (Waits(p.phase) && p'.rid == p.rid)
  {
    hide ReadHeartbeat, JobStatus;
  }

  lemma NotStopped(p: Proc, input: Input, replies: set<(nat, HttpReply)>)
    requires InputOK(p, input, replies)
    ensures p.phase != Stopped
  {
  }

  lemma ResultsNamed(jobs: map<Uuid, Job>, grants: map<Uuid, nat>, results: map<Uuid, Exec>, nextPid: nat)
    requires Results(jobs, grants, results, nextPid)
    ensures forall id :: id in results ==> results[id].job == id
  {
  }

  // ---------- a daemon executes ----------

  predicate ResultsGrow(a: map<Uuid, Exec>, b: map<Uuid, Exec>) {
    forall id :: id in a ==> id in b && b[id] == a[id]
  }

  lemma GrowKeepsRequests(store: Store, results: map<Uuid, Exec>, results': map<Uuid, Exec>, sent: map<nat, Request>,
                          nextRid: nat)
    requires Requests(store, results, sent, nextRid) && ResultsGrow(results, results')
    ensures Requests(store, results', sent, nextRid)
  {
    hide HonestAssignment;
    forall r | r in sent ensures HonestRequest(store.jobs, results', sent[r]) {
      assert HonestRequest(store.jobs, results, sent[r]);
    }
  }

  lemma GrowKeepsProcs(store: Store, results: map<Uuid, Exec>, results': map<Uuid, Exec>, sent: map<nat, Request>,
                       procs: map<nat, Proc>, nextPid: nat)
    requires Procs(store, results, sent, procs, nextPid) && ResultsGrow(results, results')
    ensures Procs(store, results', sent, procs, nextPid)
  {
    hide HonestAssignment;
    forall p | p in procs ensures ProcOK(procs[p], sent, store.jobs, results') {
      assert ProcOK(procs[p], sent, store.jobs, results);
    }
  }

  lemma GrowKeepsOutcomes(jobs: map<Uuid, Job>, results: map<Uuid, Exec>, results': map<Uuid, Exec>)
    requires Outcomes(jobs, results) && ResultsGrow(results, results')
    ensures Outcomes(jobs, results')
  {
    hide Reported, Records;
  }

  function ExecOf(p: Proc, pid: nat, ok: bool): Exec
    requires p.phase.Executing?
  {
    Exec(p.rid, pid, p.phase.assignment.job, p.phase.assignment.attempt, ok)
  }

  /** The grant names the row's attempt and the daemon's own request, so the execution is the one the row waits for. */
  lemma ExecutionIsGranted(jobs: map<Uuid, Job>, grants: map<Uuid, nat>, sent: map<nat, Request>, results: map<Uuid,
                           Exec>,
                           procs: map<nat, Proc>, pid: nat)
    requires pid in procs && procs[pid].phase.Executing? && ProcOK(procs[pid], sent, jobs, results)
    requires Grants(jobs, grants, sent) && Unexecuted(procs, grants, results)
    ensures var a := procs[pid].phase.assignment;
            && a.job !in results && a.job in grants && grants[a.job] == procs[pid].rid && procs[pid].pending == None
            && a.job in jobs && Started(jobs[a.job]) && jobs[a.job].agent == procs[pid].agent
            && jobs[a.job].attempt == a.attempt
  {
    hide HonestAssignment, Proven, Started;
  }

  lemma ExecutionRecorded(jobs: map<Uuid, Job>, grants: map<Uuid, nat>, results: map<Uuid, Exec>, execs: seq<Exec>,
                          nextPid: nat, e: Exec)
    requires Results(jobs, grants, results, nextPid) && Execs(results, execs) && e.job !in results && e.pid < nextPid
    requires e.job in grants && grants[e.job] == e.rid && e.job in jobs && jobs[e.job].attempt == e.attempt
    ensures ResultsGrow(results, results[e.job := e]) && Results(jobs, grants, results[e.job := e], nextPid)
    ensures Execs(results[e.job := e], execs + [e])
  {
    var results', execs' := results[e.job := e], execs + [e];
    forall id | id in results' ensures results'[id] in execs' {
      if id == e.job {
        assert execs'[|execs|] == e;
      }
    }
  }

  lemma ExecutionUnexecuted(procs: map<nat, Proc>, grants: map<Uuid, nat>, results: map<Uuid, Exec>, pid: nat, p': Proc,
                            e: Exec)
    requires Unexecuted(procs, grants, results) && Waiters(procs) && pid in procs && procs[pid].phase.Executing?
    requires e.job in grants && grants[e.job] == procs[pid].rid && p'.phase.AwaitComplete?
    ensures Unexecuted(procs[pid := p'], grants, results[e.job := e])
  {
  }

  lemma ExecutionFates(jobs: map<Uuid, Job>, procs: map<nat, Proc>, results: map<Uuid, Exec>, fates: map<Uuid, Fate>,
                       pid: nat, p': Proc, e: Exec)
    requires Fates(jobs, procs, results, fates) && pid in procs && procs[pid].phase.Executing?
             && procs[pid].pending == None
    requires e.job !in results && e.pid == pid && p'.phase == AwaitComplete(ResultOf(e))
    ensures Fates(jobs, procs[pid := p'], results[e.job := e], fates[e.job := Held])
  {
    hide Records;
    forall id | id in results ensures FateOK(jobs, procs[pid := p'], results[id], fates[id]) {
      assert FateOK(jobs, procs, results[id], fates[id]);
    }
  }

  lemma CarriesOn(p: Proc, sent: map<nat, Request>, jobs: map<Uuid, Job>, results: map<Uuid, Exec>, e: Exec,
                  nextRid: nat)
    requires p.phase.Executing? && p.pending == None && e.job in jobs && jobs[e.job].agent == p.agent
    requires e.job in results && results[e.job] == e
    requires e.job == p.phase.assignment.job && e.attempt == p.phase.assignment.attempt
    ensures var n := React(p.phase, p.pending, Executed(e.ok));
            && n == Next(AwaitComplete(ResultOf(e)), None, Some(CompleteMsg(ResultOf(e))))
            && ProcOK(ProcAfter(p, n, nextRid), SentAfter(sent, p, n, nextRid), jobs, results)
            && HonestRequest(jobs, results, Request(p.agent, n.send.value))
  {
  }

  lemma ExecuteKeepsInv(s: Sys, pid: nat, ok: bool)
    requires SysInv(s) && pid in s.procs && s.procs[pid].phase.Executing?
    ensures SysInv(ProceedStep(s, pid, Executed(ok)))
  {
    hide Inv, Requests, Replies, Waiters, Grants, Results, Execs, Unexecuted, Outcomes, Fates, ProcOK, React, SentGrow,
         HonestRequest, ResultsGrow;
    var p := s.procs[pid];
    var e := ExecOf(p, pid, ok);
    var results' := s.results[e.job := e];
    ExecutionIsGranted(s.store.jobs, s.grants, s.sent, s.results, s.procs, pid);
    ExecutionRecorded(s.store.jobs, s.grants, s.results, s.execs, s.nextPid, e);
    CarriesOn(p, s.sent, s.store.jobs, results', e, s.nextRid);
    var n := React(p.phase, p.pending, Executed(ok));
    var p' := ProcAfter(p, n, s.nextRid);
    GrowKeepsRequests(s.store, s.results, results', s.sent, s.nextRid);
    GrowKeepsProcs(s.store, s.results, results', s.sent, s.procs, s.nextPid);
    GrowKeepsOutcomes(s.store.jobs, s.results, results');
    SendKeepsOthers(s.(results := results'), p, n);
    OtherProcs(s.store, results', s.sent, SentAfter(s.sent, p, n, s.nextRid), s.procs, s.nextPid, pid, p');
    FreshWaiter(s.store, s.results, s.sent, s.procs, s.nextPid, s.nextRid, pid, p');
    ExecutionUnexecuted(s.procs, s.grants, s.results, pid, p', e);
    ExecutionFates(s.store.jobs, s.procs, s.results, s.fates, pid, p', e);
  }

  // ---------- daemons come and go ----------

  lemma SpawnFates(jobs: map<Uuid, Job>, procs: map<nat, Proc>, results: map<Uuid, Exec>, fates: map<Uuid, Fate>,
                   pid: nat, p: Proc)
    requires Fates(jobs, procs, results, fates) && pid !in procs && forall id :: id in results ==>
             results[id].pid != pid
    ensures Fates(jobs, procs[pid := p], results, fates)
  {
    hide Records, Holds;
    forall id | id in results ensures FateOK(jobs, procs[pid := p], results[id], fates[id]) {
      assert FateOK(jobs, procs, results[id], fates[id]);
    }
  }

  lemma SpawnKeepsInv(s: Sys, agent: Uuid)
    requires SysInv(s) && agent in s.store.agents
    ensures SysInv(s.(procs := s.procs[s.nextPid := Proc(agent, Idle, None, 0)], nextPid := s.nextPid + 1))
  {
    hide Inv, Requests, Replies, Grants, Execs, Outcomes, Fates, HonestAssignment, Proven;
    SpawnFates(s.store.jobs, s.procs, s.results, s.fates, s.nextPid, Proc(agent, Idle, None, 0));
  }

  lemma KillKeepsInv(s: Sys, pid: nat)
    requires SysInv(s)
    ensures SysInv(KillStep(s, pid))
  {
    hide Inv, Requests, Replies, Grants, Results, Execs, Outcomes, Fates, ProcOK, Forgotten;
    GoneFates(s.store.jobs, s.procs, s.procs - {pid}, s.results, s.fates, pid);
  }

  // ---------- whole runs ----------

  lemma AdvanceKeepsInv(s: Sys, a: Act)
    requires SysInv(s) && ActOK(s, a)
    ensures Keyed(s.store.jobs) && SysInv(Advance(s, a))
  {
    hide SysInv, ServeStep, ProceedStep, KillStep, Apply, OpOK, Keyed, PassSelects, VerdictOK;
    SysKeyed(s);
    match a {
      case Transact(op, later) => TransactKeepsInv(s, op, later);
      case Serve(rid, v, leases, deadlines, clk, ts) => ServeKeepsInv(s, rid, v, leases + deadlines, clk, ts);
      case Spawn(agent) => SpawnKeepsInv(s, agent);
      case Kill(pid) => KillKeepsInv(s, pid);
      case Proceed(pid, input) =>
        if s.procs[pid].phase.Executing? {
          ExecuteKeepsInv(s, pid, input.ok);
        } else {
          ProceedKeepsInv(s, pid, input);
        }
    }
  }

  lemma SysKeyed(s: Sys)
    requires SysInv(s)
    ensures Keyed(s.store.jobs)
  {
    hide Requests, Replies, Procs, Waiters, Grants, Results, Execs, Unexecuted, Outcomes, Fates;
  }

  /** `trace` lists every state of a run that makes the given steps. */
  ghost predicate SysRun(trace: seq<Sys>, acts: seq<Act>) {
    && |trace| == |acts| + 1
    && forall i :: 0 <= i < |acts| ==> SysStep(trace[i], acts[i], trace[i + 1])
  }

  ghost predicate SysStep(s: Sys, a: Act, t: Sys) {
    ActOK(s, a) && Keyed(s.store.jobs) && t == Advance(s, a)
  }

  lemma {:induction false} SysRunKeepsInv(trace: seq<Sys>, acts: seq<Act>, i: nat)
    requires SysRun(trace, acts) && SysInv(trace[0]) && i < |trace|
    ensures SysInv(trace[i])
  {
    hide SysInv, SysStep;
    if i > 0 {
      SysRunKeepsInv(trace, acts, i - 1);
      assert SysStep(trace[i - 1], acts[i - 1], trace[i]);
      StepKeepsInv(trace[i - 1], acts[i - 1], trace[i]);
    }
  }

  lemma StepKeepsInv(s: Sys, a: Act, t: Sys)
    requires SysInv(s) && SysStep(s, a, t)
    ensures SysInv(t)
  {
    hide SysInv, Advance, ActOK, Keyed;
    AdvanceKeepsInv(s, a);
  }
}
