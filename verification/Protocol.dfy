/** The controller, any number of agent daemons, and the network between them. The network keeps every request and
    every answer for ever: a message that is never picked up is lost, one picked up late is delayed, one picked up
    twice is duplicated, and an answer read over a broken connection may have lost its body. Daemons crash and restart
    at any point, several may run under one identity, and any transaction may commit and still answer with a server
    error. */
module Protocol {
  import opened Helpers
  import opened Uuids
  import opened JobDomain
  import opened JobEngine
  import opened JobInvariants
  import opened JobRuns
  import opened Wire
  import opened Agent

  /** A running daemon; `rid` is the request it last sent. */
  datatype Proc = Proc(agent: Uuid, phase: Phase, pending: Option<Completion>, rid: nat)

  /** A request as sent; the agent identity is what its certificate authenticates. */
  datatype Request = Request(agent: Uuid, msg: Message)

  /** One call of the executor: the start request that authorized it, the daemon that made it, and the result. */
  datatype Exec = Exec(rid: nat, pid: nat, job: Uuid, attempt: int, ok: bool)

  /** What became of an execution result. */
  datatype Fate = Held | Acknowledged | Refused | Lost

  /** `grants`, `results`, `execs` and `fates` record history only: no step reads them. */
  datatype Sys = Sys(
    store: Store,
    now: Time,
    sent: map<nat, Request>,
    replies: set<(nat, HttpReply)>,
    nextRid: nat,
    procs: map<nat, Proc>,
    nextPid: nat,
    grants: map<Uuid, nat>,
    results: map<Uuid, Exec>,
    execs: seq<Exec>,
    fates: map<Uuid, Fate>)

  // ---------- steps ----------

  /** How a served request ends: answered as it went, committed but answered with trouble, or rolled back. */
  datatype Verdict = Faithful | CommittedButFailed(status: int) | NotCommitted(status: int)

  datatype Act =
    | Transact(op: Op, later: Time)
    | Serve(rid: nat, verdict: Verdict, leases: seq<Uuid>, deadlines: seq<Uuid>, clk: Clock, ts: Time)
    | Spawn(agent: Uuid)
    | Kill(pid: nat)
    | Proceed(pid: nat, input: Input)

  predicate ServerTrouble(status: int) {
    status == 429 || 500 <= status <= 599
  }

  /** A request may be turned away before it reaches a table: its body did not arrive, or the dates of its certificate
      fail on the controller's clock. */
  predicate Refusal(status: int) {
    status == 400 || status == 401
  }

  /** A failed or skipped claim still answers 204. */
  predicate VerdictOK(q: Request, v: Verdict) {
    match v
    case Faithful => true
    case CommittedButFailed(status) => ServerTrouble(status) || (q.msg.HeartbeatMsg? && status == 204)
    case NotCommitted(status) =>
      ServerTrouble(status) || Refusal(status) || (q.msg.HeartbeatMsg? && status == 204)
  }

  /** An answer as the daemon gets it: whole, or cut off after its headers so that only the status arrived. */
  ghost predicate Heard(replies: set<(nat, HttpReply)>, rid: nat, reply: HttpReply) {
    exists x :: (rid, x) in replies && (reply == x || reply == HttpReply(x.status, None))
  }

  ghost predicate InputOK(p: Proc, input: Input, replies: set<(nat, HttpReply)>) {
    match p.phase
    case Idle => input == NoAnswer
    case Stopped => false
    case Executing(_) => input.Executed?
    case _ => input == NoAnswer || (input.Answer? && Heard(replies, p.rid, input.reply))
  }

  ghost predicate ActOK(s: Sys, a: Act) {
    match a
    case Transact(op, later) =>
      !op.ClaimOp? && !op.StartOp? && !op.CompleteOp? && OpOK(s.store, op, s.now, later)
    case Serve(rid, v, leases, deadlines, clk, ts) =>
      && rid in s.sent && VerdictOK(s.sent[rid], v) && ClockOK(clk, s.now, ts)
      && PassSelects(s.store, AgentScope(s.sent[rid].agent), clk, leases, deadlines)
    case Spawn(agent) => agent in s.store.agents
    case Kill(pid) => pid in s.procs
    case Proceed(pid, input) => pid in s.procs && InputOK(s.procs[pid], input, s.replies)
  }

  /** The transaction behind a request, and the answer when nothing goes wrong. */
  ghost function Serving(store: Store, q: Request, sel: seq<Uuid>, clk: Clock, ts: Time): (Store, HttpReply)
    requires Keyed(store.jobs)
  {
    match q.msg
    case HeartbeatMsg =>
      if q.agent !in store.agents then (store, HttpReply(401, None))
      else
        var (t, c) := ClaimNextAgentJob(store, q.agent, sel, clk, ts);
        (t, HeartbeatReply(c))
    case StartMsg(job, attempt) =>
      var (t, status) := HandleStart(store, q.agent, EncodeStart(job, attempt), ts);
      (t, HttpReply(status, None))
    case CompleteMsg(c) =>
      var (t, status) := HandleComplete(store, q.agent, EncodeComplete(c.job, c.attempt, c.ok), ts);
      (t, HttpReply(status, None))
  }

  ghost function ServeStep(s: Sys, rid: nat, v: Verdict, sel: seq<Uuid>, clk: Clock, ts: Time): Sys
    requires rid in s.sent && Keyed(s.store.jobs)
  {
    var q := s.sent[rid];
    var (t, reply) := Serving(s.store, q, sel, clk, ts);
    var granted := if q.msg.StartMsg? && reply.status == 204 then s.grants[q.msg.job := rid] else s.grants;
    match v
    case Faithful => s.(store := t, now := ts, grants := granted, replies := s.replies + {(rid, reply)})
    case CommittedButFailed(status) =>
      s.(store := t, now := ts, grants := granted, replies := s.replies + {(rid, HttpReply(status, None))})
    case NotCommitted(status) => s.(now := ts, replies := s.replies + {(rid, HttpReply(status, None))})
  }

  /** The result a daemon is trying to deliver while it waits. */
  function Carried(p: Proc): Option<Completion> {
    match p.phase
    case AwaitRetry(_) => p.pending
    case AwaitComplete(c) => Some(c)
    case _ => None
  }

  predicate Holds(phase: Phase, pending: Option<Completion>, c: Completion) {
    phase == AwaitComplete(c) || pending == Some(c)
  }

  function FatesAfter(fates: map<Uuid, Fate>, p: Proc, n: Next, input: Input): map<Uuid, Fate> {
    if p.phase.Executing? then fates[p.phase.assignment.job := Held]
    else if Carried(p).Some? && !Holds(n.phase, n.pending, Carried(p).value) then
      fates[Carried(p).value.job := if ReadJob(input) == SendOk then Acknowledged else Refused]
    else fates
  }

  /** A daemon that is gone takes the result it held with it. */
  function Forgotten(fates: map<Uuid, Fate>, results: map<Uuid, Exec>, pid: nat): map<Uuid, Fate> {
    map job | job in fates ::
      if fates[job] == Held && job in results && results[job].pid == pid then Lost else fates[job]
  }

  function ProceedStep(s: Sys, pid: nat, input: Input): Sys
    requires pid in s.procs
  {
    var p := s.procs[pid];
    var n := React(p.phase, p.pending, input);
    var fates := if n.phase == Stopped then Forgotten(s.fates, s.results, pid) else FatesAfter(s.fates, p, n, input);
    var s1 :=
      if p.phase.Executing? then
        var a := p.phase.assignment;
        var e := Exec(p.rid, pid, a.job, a.attempt, input == Executed(true));
        s.(results := s.results[a.job := e], execs := s.execs + [e], fates := fates)
      else s.(fates := fates);
    if n.send.Some? then
      s1.(procs := s.procs[pid := Proc(p.agent, n.phase, n.pending, s.nextRid)],
          sent := s.sent[s.nextRid := Request(p.agent, n.send.value)], nextRid := s.nextRid + 1)
    else s1.(procs := s.procs[pid := Proc(p.agent, n.phase, n.pending, p.rid)])
  }

  function KillStep(s: Sys, pid: nat): Sys {
    s.(procs := s.procs - {pid}, fates := Forgotten(s.fates, s.results, pid))
  }

  ghost function Advance(s: Sys, a: Act): Sys
    requires ActOK(s, a) && Keyed(s.store.jobs)
  {
    match a
    case Transact(op, later) => s.(store := Apply(s.store, op), now := later)
    case Serve(rid, v, leases, deadlines, clk, ts) => ServeStep(s, rid, v, leases + deadlines, clk, ts)
    case Spawn(agent) => s.(procs := s.procs[s.nextPid := Proc(agent, Idle, None, 0)], nextPid := s.nextPid + 1)
    case Kill(pid) => KillStep(s, pid)
    case Proceed(pid, input) => ProceedStep(s, pid, input)
  }

  // ---------- the invariant ----------

  predicate HonestAssignment(jobs: map<Uuid, Job>, agent: Uuid, a: Assignment) {
    a.job in jobs && jobs[a.job].agent == agent && AttemptInRange(a.attempt) && a.action == AgentPing
  }

  predicate Proven(results: map<Uuid, Exec>, c: Completion) {
    c.job in results && results[c.job].attempt == c.attempt && results[c.job].ok == c.ok
  }

  predicate HonestRequest(jobs: map<Uuid, Job>, results: map<Uuid, Exec>, q: Request) {
    match q.msg
    case HeartbeatMsg => true
    case StartMsg(job, attempt) => HonestAssignment(jobs, q.agent, Assignment(job, attempt, AgentPing))
    case CompleteMsg(c) => c.job in jobs && jobs[c.job].agent == q.agent && Proven(results, c)
  }

  predicate Requests(store: Store, results: map<Uuid, Exec>, sent: map<nat, Request>, nextRid: nat) {
    forall r :: r in sent ==>
        r < nextRid && sent[r].agent in store.agents && HonestRequest(store.jobs, results, sent[r])
  }

  /** What an answer proves about the tables. */
  predicate HonestReply(jobs: map<Uuid, Job>, grants: map<Uuid, nat>, r: nat, q: Request, x: HttpReply) {
    match q.msg
    case HeartbeatMsg =>
      && (ReadHeartbeat(x) == HeartbeatPermanent ==> Refusal(x.status))
      && (ReadHeartbeat(x).HeartbeatJob? ==> HonestAssignment(jobs, q.agent, ReadHeartbeat(x).assignment))
    case StartMsg(job, _) =>
      && (JobStatus(x.status) == SendPermanent ==> Refusal(x.status))
      && (JobStatus(x.status) == SendOk ==> job in grants && grants[job] == r)
    case CompleteMsg(c) =>
      && (JobStatus(x.status) == SendPermanent ==> Refusal(x.status))
      && (JobStatus(x.status) == SendOk ==> c.job in jobs && Records(jobs[c.job], OutcomeOf(c.ok)))
      && (JobStatus(x.status) == SendConflict ==> c.job in jobs && jobs[c.job].state == Unknown)
  }

  ghost predicate Replies(jobs: map<Uuid, Job>, grants: map<Uuid, nat>, sent: map<nat, Request>,
                          replies: set<(nat, HttpReply)>) {
    forall r, x :: (r, x) in replies ==> r in sent && HonestReply(jobs, grants, r, sent[r], x)
  }

  predicate Waits(p: Phase) {
    p.AwaitHeartbeat? || p.AwaitRetry? || p.AwaitStart? || p.Executing? || p.AwaitComplete?
  }

  /** A daemon's local state is consistent with the request it last sent. */
  predicate ProcOK(p: Proc, sent: map<nat, Request>, jobs: map<Uuid, Job>, results: map<Uuid, Exec>) {
    && (p.pending.Some? ==>
         Proven(results, p.pending.value) && p.pending.value.job in jobs && jobs[p.pending.value.job].agent == p.agent)
    && (Waits(p.phase) ==> p.rid in sent && sent[p.rid].agent == p.agent)
    && match p.phase
       case AwaitHeartbeat => sent[p.rid].msg == HeartbeatMsg
       case AwaitRetry(offered) =>
         && p.pending.Some? && sent[p.rid].msg == CompleteMsg(p.pending.value)
         && (offered.Some? ==> HonestAssignment(jobs, p.agent, offered.value))
       case AwaitStart(a) => p.pending == None && a.action == AgentPing && sent[p.rid].msg == StartMsg(a.job, a.attempt)
       case Executing(a) => p.pending == None && a.action == AgentPing && sent[p.rid].msg == StartMsg(a.job, a.attempt)
       case AwaitComplete(c) => p.pending == None && sent[p.rid].msg == CompleteMsg(c)
       case _ => true
  }

  predicate Procs(store: Store, results: map<Uuid, Exec>, sent: map<nat, Request>, procs: map<nat, Proc>,
                  nextPid: nat) {
    forall p :: p in procs ==>
        p < nextPid && procs[p].agent in store.agents && ProcOK(procs[p], sent, store.jobs, results)
  }

  /** No two daemons wait for the same request. */
  predicate Waiters(procs: map<nat, Proc>) {
    forall p, q :: p in procs && q in procs && p != q && Waits(procs[p].phase) && Waits(procs[q].phase) ==>
        procs[p].rid != procs[q].rid
  }

  /** A job has been granted to a request exactly when its row says it was started; the request names the row's
      attempt. */
  ghost predicate Grants(jobs: map<Uuid, Job>, grants: map<Uuid, nat>, sent: map<nat, Request>) {
    && (forall id :: id in grants <==> id in jobs && Started(jobs[id]))
    && (forall id :: id in grants ==>
          grants[id] in sent && sent[grants[id]] == Request(jobs[id].agent, StartMsg(id, jobs[id].attempt)))
  }

  predicate Results(jobs: map<Uuid, Job>, grants: map<Uuid, nat>, results: map<Uuid, Exec>, nextPid: nat) {
    forall id :: id in results ==>
      && results[id].job == id && id in grants && results[id].rid == grants[id]
      && id in jobs && results[id].attempt == jobs[id].attempt && results[id].pid < nextPid
  }

  predicate Execs(results: map<Uuid, Exec>, execs: seq<Exec>) {
    && (forall i :: 0 <= i < |execs| ==> execs[i].job in results && results[execs[i].job] == execs[i])
    && (forall i, j :: 0 <= i < j < |execs| ==> execs[i].job != execs[j].job)
    && (forall id :: id in results ==> results[id] in execs)
  }

  /** A daemon that may yet execute is the only one its job was granted to, and nothing has been executed yet. */
  predicate Unexecuted(procs: map<nat, Proc>, grants: map<Uuid, nat>, results: map<Uuid, Exec>) {
    forall p :: p in procs ==>
      match procs[p].phase
      case AwaitStart(a) => a.job in grants && grants[a.job] == procs[p].rid ==> a.job !in results
      case Executing(a) => a.job in grants && grants[a.job] == procs[p].rid && a.job !in results
      case _ => true
  }

  /** Every outcome in the table is the result of an execution. */
  predicate Outcomes(jobs: map<Uuid, Job>, results: map<Uuid, Exec>) {
    forall id :: id in jobs && Reported(jobs[id]) ==> id in results && Records(jobs[id], OutcomeOf(results[id].ok))
  }

  function ResultOf(e: Exec): Completion {
    Completion(e.job, e.attempt, e.ok)
  }

  /** The daemon runs: it was neither killed nor has it stopped. */
  predicate Alive(procs: map<nat, Proc>, pid: nat) {
    pid in procs && procs[pid].phase != Stopped
  }

  predicate FateOK(jobs: map<Uuid, Job>, procs: map<nat, Proc>, e: Exec, f: Fate) {
    match f
    case Held => Alive(procs, e.pid) && Holds(procs[e.pid].phase, procs[e.pid].pending, ResultOf(e))
    case Acknowledged => e.job in jobs && Records(jobs[e.job], OutcomeOf(e.ok))
    case Refused => e.job in jobs && jobs[e.job].state == Unknown
    case Lost => !Alive(procs, e.pid)
  }

  predicate Fates(jobs: map<Uuid, Job>, procs: map<nat, Proc>, results: map<Uuid, Exec>, fates: map<Uuid, Fate>) {
    && fates.Keys == results.Keys
    && forall id :: id in results ==> FateOK(jobs, procs, results[id], fates[id])
  }

  ghost predicate SysInv(s: Sys) {
    && Inv(s.store, s.now)
    && Requests(s.store, s.results, s.sent, s.nextRid)
    && Replies(s.store.jobs, s.grants, s.sent, s.replies)
    && Procs(s.store, s.results, s.sent, s.procs, s.nextPid)
    && Waiters(s.procs)
    && Grants(s.store.jobs, s.grants, s.sent)
    && Results(s.store.jobs, s.grants, s.results, s.nextPid)
    && Execs(s.results, s.execs)
    && Unexecuted(s.procs, s.grants, s.results)
    && Outcomes(s.store.jobs, s.results)
    && Fates(s.store.jobs, s.procs, s.results, s.fates)
  }

  /** Any tables nobody has started a job in, no daemons, no messages. */
  lemma InitialInv(store: Store, now: Time)
    requires Inv(store, now) && forall id :: id in store.jobs ==> !Started(store.jobs[id])
    ensures SysInv(Sys(store, now, map[], {}, 0, map[], 0, map[], map[], [], map[]))
  {
    hide Inv;
  }
}
