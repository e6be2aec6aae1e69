/** The agent protocol on the wire: validators (internal/protocol/protocol.go), the handlers' validation order and
    result-to-status mapping (internal/controller/controller.go), and the agent's reading of a status
    (internal/agent/presence.go). */
module Wire {
  import opened Helpers
  import opened Uuids
  import opened JobDomain
  import opened JobEngine

  const CURRENT_VERSION: int := 2

  datatype WireAssignment = WireAssignment(jobId: string, attempt: int, action: string)
  datatype HeartbeatBody = HeartbeatBody(version: int, job: Option<WireAssignment>)
  datatype StartRequest = StartRequest(version: int, jobId: string, attempt: int)
  datatype CompleteRequest = CompleteRequest(version: int, jobId: string, attempt: int, outcome: string,
                                             failureCode: string)
  /** The body is None when there is none, and when none arrived whole. */
  datatype HttpReply = HttpReply(status: int, body: Option<HeartbeatBody>)

  function ParseAction(text: string): Action {
    if text == "agent.ping" then AgentPing else OtherAction(text)
  }

  function ActionText(a: Action): string {
    match a
    case AgentPing => "agent.ping"
    case OtherAction(name) => name
  }

  function ParseOutcome(text: string): Outcome {
    if text == "succeeded" then SucceededOutcome else if text == "failed" then FailedOutcome else OtherOutcome(text)
  }

  function ParseCode(text: string): Code {
    if text == "" then NoCode else if text == "executor_error" then ExecutorErrorCode else OtherCode(text)
  }

  predicate AttemptInRange(attempt: int) {
    1 <= attempt <= MAX_ATTEMPTS
  }

  predicate ValidateJobAssignment(w: WireAssignment) {
    ValidateCanonical(w.jobId).Some? && AttemptInRange(w.attempt) && ParseAction(w.action) == AgentPing
  }

  predicate ValidateJobStartRequest(r: StartRequest) {
    r.version > 0 && r.version == CURRENT_VERSION && ValidateCanonical(r.jobId).Some? && AttemptInRange(r.attempt)
  }

  predicate ValidateJobCompleteRequest(r: CompleteRequest) {
    && r.version > 0 && r.version == CURRENT_VERSION && ValidateCanonical(r.jobId).Some? && AttemptInRange(r.attempt)
    && ((r.outcome == "succeeded" && r.failureCode == "")
        || (r.outcome == "failed" && r.failureCode == "executor_error"))
  }

  // ---------- what the honest parties write ----------

  function EncodeAssignment(a: Assignment): WireAssignment {
    WireAssignment(Format(a.job), a.attempt, ActionText(a.action))
  }

  function EncodeStart(job: Uuid, attempt: int): StartRequest {
    StartRequest(CURRENT_VERSION, Format(job), attempt)
  }

  function EncodeComplete(job: Uuid, attempt: int, ok: bool): CompleteRequest {
    CompleteRequest(CURRENT_VERSION, Format(job), attempt, if ok then "succeeded" else "failed", if ok then ""
                    else "executor_error")
  }

  // ---------- the controller's handlers, after transport and decoding ----------

  function ReplyStatus(r: Reply): int {
    match r
    case Accepted => 204
    case Conflict => 409
    case Corrupt => 500
  }

  function HandleStart(s: Store, agent: Uuid, r: StartRequest, ts: Time): (Store, int) {
    if r.version <= 0 then (s, 400)
    else if r.version != CURRENT_VERSION then (s, 409)
    else if !ValidateJobStartRequest(r) then (s, 400)
    else if agent !in s.agents then (s, 401)
    else
      var (t, reply) := StartAgentJob(s, agent, ValidateCanonical(r.jobId).value, r.attempt, ts);
      (t, ReplyStatus(reply))
  }

  function HandleComplete(s: Store, agent: Uuid, r: CompleteRequest, ts: Time): (Store, int) {
    if r.version <= 0 then (s, 400)
    else if r.version != CURRENT_VERSION then (s, 409)
    else if !ValidateJobCompleteRequest(r) then (s, 400)
    else if agent !in s.agents then (s, 401)
    else
      var (t, reply) := CompleteAgentJob(s, agent, ValidateCanonical(r.jobId).value, r.attempt,
                                         ParseOutcome(r.outcome), ParseCode(r.failureCode), ts);
      (t, ReplyStatus(reply))
  }

  /** A failed claim is logged and answered like an idle heartbeat. */
  function HeartbeatReply(c: ClaimReply): HttpReply {
    match c
    case Assigned(a) => HttpReply(200, Some(HeartbeatBody(CURRENT_VERSION, Some(EncodeAssignment(a)))))
    case _ => HttpReply(204, None)
  }

  // ---------- the agent's reading of an answer ----------

  datatype SendResult = SendOk | SendConflict | SendTransient | SendPermanent

  /** Start and complete read statuses alike. */
  function JobStatus(status: int): SendResult {
    if status == 204 then SendOk
    else if status == 401 then SendPermanent
    else if status == 409 then SendConflict
    else if status == 429 then SendTransient
    else if 500 <= status <= 599 then SendTransient
    else if 400 <= status <= 499 then SendPermanent
    else SendTransient
  }

  datatype HeartbeatResult =
    | HeartbeatIdle | HeartbeatJob(assignment: Assignment) | HeartbeatTransient | HeartbeatPermanent

  function ReadHeartbeat(r: HttpReply): HeartbeatResult {
    if r.status == 204 then HeartbeatIdle
    else if r.status == 200 then
      match r.body
      case None => HeartbeatPermanent
      case Some(b) =>
        if b.version != CURRENT_VERSION || b.job == None || !ValidateJobAssignment(b.job.value) then HeartbeatPermanent
        else HeartbeatJob(Assignment(ValidateCanonical(b.job.value.jobId).value, b.job.value.attempt, AgentPing))
    else if r.status == 429 then HeartbeatTransient
    else if 400 <= r.status <= 499 then HeartbeatPermanent
    else HeartbeatTransient
  }

  // ---------- what the checks admit, and how statuses are read, exactly ----------

  /** A start request is valid exactly if it is what an honest agent writes for some job and some attempt from 1 to 5.
      */
  lemma StartValidExactly(r: StartRequest)
    ensures ValidateJobStartRequest(r) <==>
              exists job: Uuid, attempt :: 1 <= attempt <= 5 && r == StartRequest(2, Format(job), attempt)
  {
    hide ValidateCanonical, Format;
    if ValidateCanonical(r.jobId).Some? {
      CanonicalIff(r.jobId, ValidateCanonical(r.jobId).value);
      assert r.jobId == Format(ValidateCanonical(r.jobId).value);
    }
    if job: Uuid, attempt :| 1 <= attempt <= 5 && r == StartRequest(2, Format(job), attempt) {
      CanonicalIff(r.jobId, job);
    }
  }

  /** So is a completion, for some job, attempt and result. */
  lemma CompleteValidExactly(r: CompleteRequest)
    ensures ValidateJobCompleteRequest(r) <==> exists job: Uuid, attempt, ok :: IsReport(r, job, attempt, ok)
  {
    hide ValidateCanonical, Format;
    if ValidateJobCompleteRequest(r) {
      var job := ValidateCanonical(r.jobId).value;
      CanonicalIff(r.jobId, job);
      assert IsReport(r, job, r.attempt, r.outcome == "succeeded");
    }
    if job: Uuid, attempt, ok :| IsReport(r, job, attempt, ok) {
      CanonicalIff(r.jobId, job);
    }
  }

  predicate IsReport(r: CompleteRequest, job: Uuid, attempt: int, ok: bool) {
    && 1 <= attempt <= 5
    && r == CompleteRequest(2, Format(job), attempt, if ok then "succeeded" else "failed", if ok then ""
                            else "executor_error")
  }

  /** And an assignment, for some job and attempt. */
  lemma AssignmentValidExactly(w: WireAssignment)
    ensures ValidateJobAssignment(w) <==>
              exists job: Uuid, attempt :: 1 <= attempt <= 5 && w == WireAssignment(Format(job), attempt, "agent.ping")
  {
    hide ValidateCanonical, Format;
    if ValidateCanonical(w.jobId).Some? {
      CanonicalIff(w.jobId, ValidateCanonical(w.jobId).value);
      assert w.jobId == Format(ValidateCanonical(w.jobId).value);
    }
    if job: Uuid, attempt :| 1 <= attempt <= 5 && w == WireAssignment(Format(job), attempt, "agent.ping") {
      CanonicalIff(w.jobId, job);
    }
  }

  /** What the agent makes of a status: only 204 is success, only 409 a conflict, the other 4xx except 429 stop it, and
      everything else is transient. To a heartbeat 204 means nothing to do, 200 with a valid assignment a job, any other
      200 and any 4xx except 429 stop it, and everything else is transient. */
  lemma StatusesExactly(status: int, body: Option<HeartbeatBody>)
    ensures JobStatus(status) == SendOk <==> status == 204
    ensures JobStatus(status) == SendConflict <==> status == 409
    ensures JobStatus(status) == SendPermanent <==> 400 <= status <= 499 && status != 409 && status != 429
    ensures var h := ReadHeartbeat(HttpReply(status, body));
            var good := body.Some? && body.value.version == 2 && body.value.job.Some?
                && ValidateJobAssignment(body.value.job.value);
            && (h == HeartbeatIdle <==> status == 204)
            && (h.HeartbeatJob? <==> status == 200 && good)
            && (h.HeartbeatJob? ==> EncodeAssignment(h.assignment) == body.value.job.value)
            && (h == HeartbeatPermanent <==> (status == 200 && !good) || (400 <= status <= 499 && status != 429))
  {
    hide ValidateCanonical, Format;
    if status == 200 && body.Some? && body.value.job.Some? && ValidateJobAssignment(body.value.job.value) {
      var w := body.value.job.value;
      CanonicalIff(w.jobId, ValidateCanonical(w.jobId).value);
    }
  }

  // ---------- honest traffic passes, and means what was meant ----------

  /** A handed-out assignment passes the agent's checks and is read back as the assignment that was made. */
  lemma AssignmentSurvives(a: Assignment)
    requires AttemptInRange(a.attempt) && a.action == AgentPing
    ensures ValidateJobAssignment(EncodeAssignment(a))
    ensures ReadHeartbeat(HeartbeatReply(Assigned(a))) == HeartbeatJob(a)
  {
    hide ValidateCanonical, Format;
    CanonicalIff(Format(a.job), a.job);
  }

  /** A start request built from such an assignment passes every check and reaches the transaction unaltered. */
  lemma StartSurvives(s: Store, agent: Uuid, job: Uuid, attempt: int, ts: Time)
    requires AttemptInRange(attempt) && agent in s.agents
    ensures ValidateJobStartRequest(EncodeStart(job, attempt))
    ensures var (t, reply) := StartAgentJob(s, agent, job, attempt, ts);
            HandleStart(s, agent, EncodeStart(job, attempt), ts) == (t, ReplyStatus(reply))
  {
    hide ValidateCanonical, Format, StartAgentJob;
    CanonicalIff(Format(job), job);
  }

  /** So does a completion, with the outcome and code the executor's result stands for. */
  lemma CompleteSurvives(s: Store, agent: Uuid, job: Uuid, attempt: int, ok: bool, ts: Time)
    requires AttemptInRange(attempt) && agent in s.agents
    ensures ValidateJobCompleteRequest(EncodeComplete(job, attempt, ok))
    ensures var (t, reply) := CompleteAgentJob(s, agent, job, attempt,
                                               if ok then SucceededOutcome else FailedOutcome,
                                               if ok then NoCode else ExecutorErrorCode, ts);
            HandleComplete(s, agent, EncodeComplete(job, attempt, ok), ts) == (t, ReplyStatus(reply))
  {
    hide ValidateCanonical, Format, CompleteAgentJob;
    CanonicalIff(Format(job), job);
    OutcomeTexts();
  }

  /** Whatever is sent: a request that fails a check or comes from no known agent reaches no table, 204 means that the
      transaction accepted it, and a start that was not accepted changed nothing. */
  lemma RequestsAreFiltered(s: Store, agent: Uuid, r: StartRequest, q: CompleteRequest, ts: Time)
    ensures var (t, status) := HandleStart(s, agent, r, ts);
            && (t != s <==> status == 204)
            && (status == 204 ==> ValidateJobStartRequest(r) && agent in s.agents
                                  && ValidateCanonical(r.jobId).value in s.jobs
                                  && s.jobs[ValidateCanonical(r.jobId).value].agent == agent
                                  && s.jobs[ValidateCanonical(r.jobId).value].attempt == r.attempt)
    ensures var (t, status) := HandleComplete(s, agent, q, ts);
            && (t != s || status == 204 ==> ValidateJobCompleteRequest(q) && agent in s.agents)
            && (!ValidateJobCompleteRequest(q) ==> status == 400 || (status == 409 && q.version != CURRENT_VERSION))
  {
    hide ValidateCanonical;
    if HandleStart(s, agent, r, ts).1 == 204 {
      assert |HandleStart(s, agent, r, ts).0.events| == |s.events| + 1;
    }
  }

  lemma OutcomeTexts()
    ensures ParseOutcome("succeeded") == SucceededOutcome && ParseOutcome("failed") == FailedOutcome
    ensures ParseCode("") == NoCode && ParseCode("executor_error") == ExecutorErrorCode
  {
    assert |"succeeded"| == 9 && |"failed"| == 6;
  }

  /** The two layers agree on which outcomes exist: an otherwise well-formed request passes the wire check exactly
      when its outcome and code pass the persistence check. */
  lemma OutcomeChecksAgree(r: CompleteRequest)
    requires r.version == CURRENT_VERSION && ValidateCanonical(r.jobId).Some? && AttemptInRange(r.attempt)
    ensures ValidateJobCompleteRequest(r) <==> ConsistentOutcome(ParseOutcome(r.outcome), ParseCode(r.failureCode))
  {
    hide ValidateCanonical;
    OutcomeTexts();
  }
}
