# StackPilot: verified model of the job protocol, enrollment, sessions and telemetry

StackPilot's controller keeps a table of jobs and an append-only table of job events; an agent on each machine
receives assignments in heartbeat answers, must win a start before it may execute, executes, and reports, keeping one
unsent result in memory. This project models that protocol and three smaller parts of the system in Dafny and proves
what they promise, over every input, every interleaving and every run.

`dafny verify dfyconfig.toml` checks everything.

## How the model is built

| file | what it holds |
|---|---|
| `Helpers.dfy`, `Uuid.dfy`, `JobDomain.dfy` | shared notions; UUID text; job states, rows, events, the pure checks, the shape of a row in each state |
| `JobEngine.dfy` | the transactions as functions of the tables and of their inputs |
| `JobAnswers.dfy`, `SessionAnswers.dfy` | what each transaction answers and does, by the columns of the rows it finds and literal bounds |
| `JobTable.dfy` | the database methods as code that updates the tables in place, proved to be those functions |
| `JobLog.dfy`, `JobInvariants.dfy` | the event history a row implies; the invariant of the tables, kept by every transaction |
| `JobRuns.dfy`, `JobReconcile.dfy`, `JobStamps.dfy`, `JobReads.dfy` | what holds over runs of transactions; the reconcilers; the stamps they leave; reads |
| `Wire.dfy`, `Agent.dfy` | wire validators, handlers and status codes; the agent loop as an automaton and as the loop body |
| `Protocol.dfy`, `ProtocolProof.dfy`, `ProtocolTheorems.dfy`, `ProtocolProgress.dfy` | controller, daemons and network together; the invariant; the guarantees; that work gets done |
| `Examples.dfy` | concrete tables and runs that show what does not hold |
| `Registration.dfy`, `Enrollment.dfy`, `EnrollmentTheorems.dfy`, `EnrollmentUrls.dfy`, `EnrollmentProgress.dfy` | one-time tokens; the client's crashable effects; the guarantees; what the URLs named on one directory decide; that a retry succeeds |
| `Sessions.dfy` | the operator session table |
| `ProcText.dfy`, `Telemetry.dfy`, `ProcLines.dfy`, `Sampler.dfy` | /proc readers, what they read from lines as the kernel writes them, 64-bit sums, the moving baseline, reports |

A database method is one atomic step, because the row locks it takes serialize it. Clock readings, generated ids, token
hashes and the rows an unordered query happens to return are inputs of the step. A reconciliation pass reads the clock
for every row anew: once to judge it, once for `finished_at` and once for `updated_at`, the last two in either order.
Clock readings never run backward from one step to the next where a property is about time, and `created_at` is tied
to nothing but being in the past. A transaction that fails
before it commits is no step. One that commits while its caller sees an error is a step with an error answer.

In the protocol the network keeps every request and every answer for ever. A request nobody serves is lost; one served
late is delayed; one served twice is duplicated; an answer that is never read is lost; one read over a connection that broke after the headers has lost its body. Daemons crash and restart at
any point, and several may run under one identity. Sweeps, reads, creations and directory changes happen at any time
between other steps. `execs`, `results`, `grants` and `fates` are a record of what happened; no step reads them.

Where a name below says "in every state", it is proved for every state of every run from tables in which no job has
been started yet, with no daemon and no message.

## Findings

Three things one might expect do not hold of the code. Each has an input that shows it and the exact condition under
which it does hold.

- **The two stamps of a row the controller ends need not agree.** A pass evaluates the clock once for `finished_at` and
  once for `updated_at` (internal/database/jobs.go:308-309, 380-381). `Examples.StampsDiffer` gives a table and a claim
  that leave them a tick apart; `JobStamps.StampsGuaranteedIff` proves that a call that ends a row guarantees that they
  agree, whatever the clock reads, exactly if it is neither a claim nor a sweep.
- **A broken connection can stop a daemon for good.** When the body of a 200 heartbeat answer does not arrive whole, the
  loop treats it as a permanent failure and returns (internal/agent/presence.go:555-570, 308-313). So it does when the
  controller turns a request away before it reaches a table, with 401 because the certificate's dates fail on its clock
  (internal/controller/controller.go:1227-1231) or with 400 because the request's body did not arrive.
  `Examples.DaemonStops` gives a run; `ProtocolTheorems.StopsExactly` proves that a daemon has stopped exactly if it
  once read such an answer, and `ProtocolTheorems.HonestTrafficPasses` that the controller's checks and transactions
  themselves never give one.
- **Two URLs on one state directory.** Calls of Enroll that name different URLs can overwrite each other's identity.json,
  and calls that reach different controllers create an agent at each (internal/agent/enroll.go:182-192, 291-299).
  `EnrollmentUrls.WriteBoth` gives the run for any two URLs; `EnrollmentUrls.IdentityFixedIff` and
  `EnrollmentUrls.AgentFixedIff` prove that the file is fixed in every run exactly when the calls name one URL, and the
  agent exactly when they reach one controller.

## Model

| member | source | states |
|---|---|---|
| `Uuids.CanonicalIff` | internal/job/job.go:78-87 | a text is accepted as canonical exactly when it is the rendering of a UUID, and it names that UUID |
| `Uuids.FormatParses` | internal/job/job.go:78-87 | parsing the rendering of a UUID gives the UUID back |
| `Uuids.ParseFormats` | internal/job/job.go:78-87 | rendering what was parsed gives a well-grouped lower-case text back |
| `Uuids.FormatIsPositional` | internal/job/job.go:78-87 | the canonical text shows the number's hex digits, most significant first, around the hyphens |
| `JobDomain.Measure` | internal/database/jobs.go:278-325 | the number of state changes a row can still make is at most 11 and is 0 exactly for terminal rows |
| `JobTables.JobTable.constructor` | internal/job/job.go:35-64 | empty tables satisfy the invariant at any time |
| `JobTables.JobTable.CreateJob` | internal/database/jobs.go:21-222 | the in-place creation is the creation transaction: authorization, replay or conflict of the key, agent, queue bound, then row, event and audit record |
| `JobTables.JobTable.ReconcileLeases` | internal/database/jobs.go:226-326 | the loop over expired leases requeues or exhausts exactly the selected rows, in the selected order, each at its own clock readings |
| `JobTables.JobTable.ReconcileDeadlines` | internal/database/jobs.go:328-400 | the loop over expired deadlines moves exactly the selected rows to unknown, each at its own clock readings |
| `JobTables.JobTable.ReconcileExpired` | internal/database/jobs.go:226-400 | a pass selects what the two queries select from the tables as they were, each row judged at its own reading, spending one limit on both, and reconciles it |
| `JobTables.JobTable.ReconcileSingle` | internal/database/jobs.go:403-486 | the single-job reconciler is the one-row case of the batch |
| `JobTables.JobTable.ReadJob` | internal/database/jobs.go:514-553 | the read that follows the committed reconciliation returns the row if it passes the row check |
| `JobReads.ReadFollowsLook` | internal/database/jobs.go:489-553 | with any transactions between the committed reconciliation and the read, the read finds a row that passes the row check, has evolved from the one looked at, and shows no lease or deadline that was past at the look |
| `JobTables.JobTable.ClaimNextAgentJob` | internal/database/jobs.go:722-851 | the in-place claim is the claim transaction, rolled back whole on a corrupt head |
| `JobTables.JobTable.StartAgentJob` | internal/database/jobs.go:856-945 | the in-place start is the start transaction |
| `JobTables.JobTable.CompleteAgentJob` | internal/database/jobs.go:951-1121 | the in-place completion is the completion transaction, expiry and replay included |
| `JobAnswers.LookExactly` | internal/database/jobs.go:403-486 | the single-job reconciler changes its row exactly if it was dispatched 30 s ago or more or started 60 s ago or more, and then column by column as stated; nothing else changes |
| `JobAnswers.AgentPassExactly` | internal/database/jobs.go:226-400 | an agent's pass ends exactly the agent's rows dispatched 30 s ago or started 60 s ago at their own readings |
| `JobAnswers.GlobalPassExactly` | internal/database/jobs.go:226-400 | a global pass handles the earliest such unlocked rows: dispatched ones up to its limit (100 unless 1 to 100 is given), then running ones with what is left, and ends exactly these |
| `JobAnswers.ClaimExactly` | internal/database/jobs.go:722-851 | a claim hands out a job exactly if the agent is known, every job it has in flight is due, and some job is queued or dispatched with its lease past and fewer than 5 attempts; it is the first of these by (created_at, id), its attempt one higher, its row as stated; every other row is stated too |
| `JobAnswers.CreateExactly` | internal/database/jobs.go:21-222 | the exact condition of each answer, in order: operator, permission, key, agent, 64 unfinished jobs, id and action; and every column of the new row, its event and its audit record |
| `JobAnswers.StartExactly` | internal/database/jobs.go:856-945 | a start is accepted exactly if the row is dispatched to this agent for this attempt less than 30 s ago, and then runs with 60 s to go |
| `JobAnswers.CompleteExactly` | internal/database/jobs.go:951-1121 | what a completion answers and does on a row that runs since less than 60 s, runs longer, records this outcome, or is anything else |
| `JobAnswers.RowCheckExactly` | internal/database/jobs.go:1127-1146 | the row check admits exactly this action, 0 to 5 attempts, and a state and failure code that some sound row carries together |
| `JobInvariants.MoveKeepsInv` | internal/database/jobs.go:277-397 | each single row change with its event keeps the whole invariant: row shapes and timing, one in flight, queue bound, unique keys, log agreement, conservation |
| `JobInvariants.CreateKeepsInv` | internal/database/jobs.go:64-222 | creation keeps the invariant and leaves existing rows alone |
| `JobInvariants.ClaimKeepsInv` | internal/database/jobs.go:722-851 | so does a claim, with any number of reconciled rows in it |
| `JobInvariants.StartKeepsInv` | internal/database/jobs.go:856-945 | so does a start |
| `JobInvariants.CompleteKeepsInv` | internal/database/jobs.go:951-1121 | so does a completion |
| `JobInvariants.TransactionKeepsInv` | internal/database/jobs.go:21-1121 | every transaction keeps the invariant, and every row evolves: origin columns fixed, attempts never drop, a terminal row never changes, a started row keeps its attempt |
| `JobRuns.RunKeepsInv` | internal/database/jobs.go:21-1121 | hence every run of transactions does, in any interleaving |
| `JobRuns.LogIsHistory` | internal/database/jobs.go:179-190 | in every state a job's events in commit order are created, (dispatched k, requeued k)*, and the tail its state implies; they fold to exactly its state, attempt and failure code, walk declared transitions, start at most once and number at most 12 |
| `JobRuns.RunWalksTransitions` | internal/job/state.go:69-85 | over any run, what is added to a job's history is a walk along the declared transitions from its old state to its new one |
| `JobAnswers.TransitionsAreExactly` | internal/job/state.go:69-85 | a transition is declared exactly if some transaction can make it on some sound row |
| `JobAnswers.FailureCodesAreExactly` | internal/job/state.go:92-112 | the failure codes admitted in a state are exactly those a sound row carries there |
| `JobRuns.ConcurrencyBounds` | internal/database/jobs.go:115-143 | an agent never has two jobs in flight nor more than 64 active |
| `JobRuns.ClaimIsFifo` | internal/database/jobs.go:751-821 | when a claim hands out a job, every other job of the agent that is ahead of it is terminal, also when the claim itself requeued that job |
| `JobRuns.GuardsUnreachable` | internal/database/jobs.go:1127-1146 | every row passes the row check on every read, and completion never meets a corrupt row |
| `JobRuns.ClaimNeverCorrupt` | internal/database/jobs.go:797-805 | the corrupt-head guard of a claim never fires, and an assignment's attempt is 1 to 5 |
| `JobRuns.HintIsExact` | internal/database/database.go:283-307 | when the heartbeat hint is false, a claim in that state would return nothing and change nothing |
| `JobAnswers.HintExactly` | internal/database/database.go:301-304 | the hint is true exactly if the agent has a job queued, dispatched or running |
| `JobRuns.CreateIsIdempotent` | internal/database/jobs.go:64-112 | after any run, a create with a key already used by that operator changes nothing, even at a full queue: same target and action return the same job, anything else conflicts; no second job ever holds the key |
| `JobRuns.CreateTakesKey` | internal/database/jobs.go:145-222 | a successful create leaves a job holding the key, new exactly if the tables changed |
| `JobRuns.CompletionIsStable` | internal/database/jobs.go:1104-1121 | an accepted completion is accepted again without change after any run, and the opposite outcome is refused without change |
| `JobRuns.StaleIsFenced` | internal/database/jobs.go:889-894 | a start or completion for a superseded attempt, or from another agent, is refused and changes nothing, at any later time |
| `JobRuns.EventBudget` | internal/database/jobs.go:663-669 | all events together number at most 12 per job |
| `JobRuns.RunsSettle` | internal/database/jobs.go:278-325 | between creations only finitely many transactions change a row: at most 12 per job, less the events already written |
| `JobRuns.JobsAreConserved` | internal/database/jobs.go:179-222 | jobs, created events and creation audit records are equal in number and in the same order, and each record names its job's creator |
| `JobRuns.TimingWindows` | internal/database/jobs.go:896-913 | starts lie under 30 s after dispatch, reported outcomes under 60 s after start, unknown at 60 s or later, exhaustion at 30 s or later after the last dispatch; lease, deadline and finish stamps are set exactly in their states, and dispatched, running and reported rows were last updated at the stamp of their state, rows the controller ended at or past their expiry |
| `JobStamps.StampsGuaranteedIff` | internal/database/jobs.go:302-314 | for a call that ends a row on the controller's account, that finished_at and updated_at agree is guaranteed under all readings exactly if the call is neither a claim nor a sweep |
| `JobStamps.EndStampsCanDiffer` | internal/database/jobs.go:374-386 | from every table with a running row, a claim past the deadline can leave updated_at a tick after finished_at |
| `Examples.StampsDiffer` | internal/database/jobs.go:374-386 | a concrete table and claim that do |
| `JobReconcile.BatchIsPointwise` | internal/database/jobs.go:226-400 | the batch equals the single-job reconciler applied to each selected row, in the rows and in each job's log |
| `JobReconcile.OrderIsImmaterial` | internal/database/jobs.go:226-400 | the order of the selected rows changes neither the rows nor any job's log |
| `JobReconcile.BatchIsIdempotent` | internal/database/jobs.go:403-486 | a second pass over the same rows changes nothing: at any time if the first judged them expired, and over whatever rows if it judges them no later |
| `JobReconcile.PassHandlesExactly` | internal/database/jobs.go:226-275 | with nothing locked, a global pass handles exactly min(limit, number expired) rows, each once, and exactly those stop being expired |
| `JobReconcile.PassesDrain` | internal/database/jobs.go:226-400 | k passes one after another, on clocks that move forward by any amount: no row is handled twice, at least min(k * limit, expired at the start) and at most k * limit are handled, the rows expired at the end are exactly those that would have been less the handled ones, and at most max(0, expired at the end - k * limit) of those expired at the start remain |
| `JobReconcile.PassesDrainExactly` | internal/database/jobs.go:226-400 | when all passes judge each row at one instant, exactly max(0, expired - k * limit) expired rows remain |
| `Wire.AssignmentSurvives` | internal/protocol/protocol.go:267-281 | a handed-out assignment passes the agent's checks and is read back as the assignment made |
| `Wire.StartSurvives` | internal/controller/controller.go:1033-1095 | a start built from it passes every check and reaches the transaction unaltered |
| `Wire.CompleteSurvives` | internal/protocol/protocol.go:235-264 | so does a completion, with the outcome and code of the executor's result |
| `Wire.OutcomeChecksAgree` | internal/protocol/protocol.go:235-264 | the wire check and the persistence check accept the same outcomes and codes |
| `Wire.StartValidExactly` | internal/protocol/protocol.go:215-232 | a start request is valid exactly if it is what an honest agent writes for some job and some attempt from 1 to 5 |
| `Wire.CompleteValidExactly` | internal/protocol/protocol.go:235-264 | so is a completion, for some job, attempt and result |
| `Wire.AssignmentValidExactly` | internal/protocol/protocol.go:267-281 | so is an assignment |
| `Wire.StatusesExactly` | internal/agent/presence.go:525-699 | which statuses the agent reads as success, conflict, permanent and transient, and which heartbeat answers as a job, nothing, or permanent; a job read is the one written |
| `Wire.RequestsAreFiltered` | internal/controller/controller.go:1033-1095 | a request that fails a check or comes from no known agent reaches no table; a start changes the tables exactly when it is answered 204 |
| `Agent.Daemon.RunTurn` | internal/agent/presence.go:287-398 | the loop body, statement by statement, is the automaton the protocol uses, run from one heartbeat to the next wait |
| `Agent.TurnIsCareful` | internal/agent/presence.go:340-396 | a turn executes only on a 204 to its own start request and never while an older result is unsent; an unacknowledged result is kept |
| `Agent.TurnExactly` | internal/agent/presence.go:287-398 | the messages a turn sends, in order, what it executes, what it keeps and when it stops, by the answers it gets |
| `ProtocolProof.ServeKeepsInv` | internal/controller/controller.go:1388-1417 | serving any request in flight, answered, unanswered or answered with an error after the commit, keeps the protocol invariant |
| `ProtocolProof.ProceedKeepsInv` | internal/agent/presence.go:287-398 | so does any reaction of a daemon to an answer or to silence |
| `ProtocolProof.ExecuteKeepsInv` | internal/agent/presence.go:355-398 | so does an execution: the grant names the row's attempt and this daemon's request, and nothing was executed for the job before |
| `ProtocolProof.AdvanceKeepsInv` | internal/agent/presence.go:287-398 | every step of the system does |
| `ProtocolTheorems.TablesStaySound` | internal/database/jobs.go:115-143 | in every state the tables satisfy their invariant and the concurrency bounds |
| `ProtocolTheorems.AtMostOnce` | internal/agent/presence.go:355-398 | in every state no job has been executed twice, every execution belongs to a row whose start was accepted for that attempt strictly inside its lease, and a job that ran out of dispatches was never executed |
| `ProtocolTheorems.ExecutionFollowsStart` | internal/database/jobs.go:856-945 | before every execution there was a step that accepted the same daemon's start request, for the attempt then current, inside the lease then running |
| `ProtocolTheorems.OutcomesAreReal` | internal/database/jobs.go:997-1102 | succeeded, or failed with an executor error, is what the job's one execution returned, for the row's attempt |
| `ProtocolTheorems.HonestTrafficPasses` | internal/controller/controller.go:1033-1095 | in every state, a request served without trouble passes the controller's checks: a heartbeat is answered with an offer or nothing, a start or completion with 204 or 409, so never with an answer that stops a daemon |
| `ProtocolTheorems.RefusalsTouchNoTable` | internal/controller/controller.go:1220-1252 | every 400 or 401 ever answered came from an earlier serve that turned the request away and left the tables as they were |
| `ProtocolTheorems.AnswersAreTrue` | internal/controller/controller.go:1202-1217 | 204 to a start proves the job is granted to that request; 204 to a completion proves the row records that outcome, 409 proves the row is unknown; an offer is of a job of that agent; every other answer is transient, or its request was turned away by a serve that touched no table |
| `ProtocolTheorems.StopsExactly` | internal/agent/presence.go:42-49 | in every state a daemon has stopped exactly if it once read, without its body, an answer that offered it a job, or read that its request had been turned away by an earlier serve that touched no table; nothing else that is sent, lost, delayed, repeated or cut off stops it |
| `ProtocolProgress.CutAnswerStops` | internal/agent/presence.go:554-570 | whenever an agent has queued jobs and none in flight, a run exists in which such an answer stops the daemon and leaves the head of the queue dispatched |
| `Examples.DaemonStops` | internal/agent/presence.go:308-313 | a concrete state from which one does |
| `ProtocolTheorems.EnteredOnce` | internal/agent/presence.go:355-372 | no job's execution is begun twice by any daemons, also where a daemon dies while it executes |
| `ProtocolTheorems.NothingIsLost` | internal/agent/presence.go:340-396 | every execution result is held by its running daemon, recorded in the table, or overtaken by the deadline, unless that daemon was killed or has stopped |
| `ProtocolTheorems.ResultsAreKept` | internal/agent/presence.go:340-396 | a daemon holds a result from the step that produced it, and lets go only on reading 204 (row records it) or 409 (row is unknown) to a report of that result, or by stopping as above |
| `ProtocolTheorems.DeliveryConcludes` | internal/database/jobs.go:997-1121 | whenever a report is served without trouble the row ends terminal and the answer is 204 or 409, 204 exactly if the row records the outcome |
| `ProtocolProgress.HeadGetsDone` | internal/agent/presence.go:287-398 | from every state the invariant allows, if an agent has queued jobs and none in flight, some run executes the head of its queue once, with either result, records exactly that result, acknowledges it and leaves the daemon idle and every other row alone |
| `ProtocolProgress.QueueGetsDone` | internal/database/jobs.go:722-851 | from every state the invariant allows, some run brings every job of an agent to its end: what is in flight by waiting out its lease or deadline, what is queued by executing it, with either result, and recording that |
| `ProtocolProgress.HeldGetsDelivered` | internal/agent/presence.go:340-353 | from every state the invariant allows, a daemon idling with an unsent result can get it delivered in one turn: some run leaves it free, executes nothing again, and ends with a terminal row that records the result exactly if it was acknowledged |
| `Registration.Registry.CreateEnrollmentToken` | internal/database/database.go:92-114 | a token hash is inserted once |
| `Registration.Registry.RegisterAgent` | internal/database/database.go:118-234 | the in-place registration is the transaction, and keeps the bijection of tokens and agents |
| `Registration.RegisterKeepsInv` | internal/database/database.go:131-233 | an agent is created exactly for a known, unused, unexpired token with an unused key; rejected, conflicting and repeated registrations change nothing; the missing-agent error never arises |
| `Registration.RegisterExactly` | internal/database/database.go:131-233 | a pair that was registered gets its agent again; else an unknown, used or expired token is rejected; else a key or id in use conflicts; else the agent is new |
| `Registration.RegistrationIsFinal` | internal/database/database.go:153-187 | after any later registrations the same token and key return the same id, even after expiry; another key is rejected with that token; that key conflicts or is rejected with any other token |
| `Registration.TokensMatchAgents` | internal/database/database.go:203-233 | as many tokens are consumed as there are agents |
| `Enrollment.NextKeepsInv` | internal/agent/enroll.go:164-312 | every effect of every client, every served request, every crash and every foreign registration keeps the enrollment invariant |
| `EnrollmentTheorems.StateDirectory.Enroll` | internal/agent/enroll.go:164-312 | an undisturbed call, statement by statement, is the sequence of effects |
| `EnrollmentTheorems.OneAgentPerController` | internal/agent/enroll.go:206-211 | however often, with whatever tokens and URLs and however concurrently Enroll runs on a directory, its requests carry one key and create at most one agent at each controller, which holds that key |
| `EnrollmentTheorems.IdentityIsCommitted` | internal/agent/identity.go:217-278 | an identity.json in a directory loads and names a committed agent, of the controller its URL reaches, that holds the directory's key |
| `EnrollmentTheorems.DirectoryIsStable` | internal/agent/identity.go:173-323 | over any run a complete key file never changes and an identity keeps its key; it keeps its agent if the calls on the directory reach one controller, and stays as it is if they name one URL |
| `EnrollmentUrls.IdentityFixedIff` | internal/agent/enroll.go:291-299 | identity.json stays as first written in every run exactly when the calls on the directory name one URL |
| `EnrollmentUrls.AgentFixedIff` | internal/agent/enroll.go:182-301 | it names one agent in every run, and the directory's requests create one agent at most over all controllers, exactly when the URLs reach one controller |
| `EnrollmentUrls.WriteBoth` | internal/agent/enroll.go:182-192 | for any two URLs, two concurrent calls that each saw no identity write one over the other's, and with two controllers leave an agent at each |
| `EnrollmentTheorems.LateCallsAreInert` | internal/agent/enroll.go:182-192 | a call that starts on an enrolled directory sends nothing and changes nothing, at every later time of every run |
| `EnrollmentTheorems.IdentityStopsCall` | internal/agent/identity.go:217-278 | an identity.json stops the call before it sends or changes anything: as already enrolled if version, agent id and key fit the directory, as invalid if one does not |
| `EnrollmentTheorems.VersionExactly` | internal/agent/identity.go:39-65 | a UUID's text passes the agent's check exactly if its version digit is 7 and its variant digit 8 to 11 |
| `EnrollmentTheorems.AnswersExactly` | internal/controller/controller.go:149-172 | 201 for a new agent and 200 for one found again are written, 401 is a rejection, 409 a conflict |
| `EnrollmentTheorems.TornKeyIsInert` | internal/agent/identity.go:144-213 | a key file torn by a crash is neither overwritten nor sent |
| `EnrollmentTheorems.RetryConcludes` | internal/database/database.go:153-187 | a retry after a lost reply finds its registration, changes no table and writes the identity |
| `EnrollmentProgress.RetryGetsDone` | internal/agent/enroll.go:182-301 | from every state the invariant allows, if a request of a directory created an agent and the directory has no identity yet, some run with one more call with that token and URL ends with an identity.json naming that agent, no table changed and no other directory touched |
| `Sessions.SessionTable.SelectNewest` | internal/database/database.go:636-648 | picking the newest row repeatedly yields the rows that fewer than n others are newer than |
| `Sessions.SessionTable.CreateOperatorSession` | internal/database/database.go:606-689 | the in-place login, two deletions and an insertion with its audit record, is the login transaction, rolled back whole on a duplicate |
| `Sessions.SessionTable.FindOperatorSessionByTokenHash` | internal/database/database.go:692-735 | a principal is returned exactly when some row has the hash, is unexpired and belongs to an enabled operator, and it is that row's |
| `Sessions.SessionTable.RevokeOperatorSession` | internal/database/database.go:739-784 | deletes the session and audits the logout exactly if it exists and is this operator's |
| `SessionAnswers.LoginExactly` | internal/database/database.go:606-689 | a login is refused exactly if the operator is absent or disabled, fails exactly if its id or hash is held by another operator's row or one of this operator's up to seven newest live rows, and else succeeds for 12 hours and leaves exactly the rows that stay |
| `SessionAnswers.LogoutExactly` | internal/database/database.go:739-784 | a logout succeeds exactly if the session is there and this operator's; then that row is gone, no other, and the logout is on record |
| `SessionAnswers.FindExactly` | internal/database/database.go:692-735 | a token is let in exactly if a row has its hash, is unexpired and belongs to an operator that exists and is not disabled, and then as that operator |
| `SessionAnswers.DisabledIsOut` | internal/database/database.go:706-708 | while its operator is disabled, no token of it is let in |
| `Sessions.NewestIsTop` | internal/database/database.go:636-648 | rank below n means min(n, count) rows, each newer than every row left out |
| `Sessions.LoginSurvivors` | internal/database/database.go:617-665 | after a login its operator has exactly the new session and the up to seven newest unexpired ones; everyone else has what they had; the login is audited; a failed login changes nothing |
| `Sessions.RunKeepsInv` | internal/database/database.go:630-648 | in every run no operator ever has more than eight rows, and hashes stay unique |
| `Sessions.WaysToDie` | internal/database/database.go:750-761 | logout, eviction and expiry each leave no live row for the token |
| `Sessions.DeadStaysDead` | internal/database/database.go:697-734 | with fresh hashes, a token without a live row never authenticates again |
| `Sessions.SurvivesIff` | internal/database/database.go:630-648 | given fresh ids, a session is still there after a run, with its row unchanged, exactly if no step was its logout, a login of its operator after its expiry, or a login of its operator with seven newer live sessions |
| `Sessions.TrailCovers` | internal/database/database.go:667-682 | in every run an operator's rows and audited logouts together never outnumber its audited logins |
| `Sessions.LoginAuthenticates` | internal/database/database.go:692-735 | a login's token authenticates at once as its operator |
| `Telemetry.ReadProcStatCPU` | internal/agent/telemetry_linux.go:208-299 | fails exactly when the line is malformed or the exact sum of the counters exceeds 2^64-1, else returns the exact sums |
| `Telemetry.SumCounters` | internal/agent/telemetry_linux.go:266-298 | the wrapping sums with their comparisons detect exactly the totals that do not fit |
| `Telemetry.ReadProcMeminfo` | internal/agent/telemetry_linux.go:301-365 | returns the last total and available in bytes, used being their difference, or fails exactly when a line is malformed, one is missing, or available exceeds total |
| `Telemetry.ReadRootFS` | internal/agent/telemetry_linux.go:453-484 | the byte counts are the exact products; fails exactly on zero sizes, a total beyond int64, or inconsistent blocks; the last guard never fires |
| `Telemetry.ReadProcNetDev` | internal/agent/telemetry_linux.go:486-534 | returns the exact sums over all interfaces but the loopback, or fails exactly when a line is malformed or a sum exceeds int64 |
| `ProcLines.NumbersReadBack` | internal/agent/telemetry_linux.go:223-264 | every 64-bit counter is read back from its decimal text |
| `ProcLines.CountersExactly` | internal/agent/telemetry_linux.go:223-264 | a text is a counter exactly if it is one or more digits whose value fits 64 bits |
| `ProcLines.StatLineRead` | internal/agent/telemetry_linux.go:208-299 | from a cpu line with four or more counters, however spaced, idle plus iowait is idle, the first eight are the total, and it fails exactly beyond 2^64-1 |
| `ProcLines.NetLineRead` | internal/agent/telemetry_linux.go:494-528 | from an interface's line the first counter is received, the ninth transmitted bytes, and nothing is taken from the loopback |
| `ProcLines.NetFileRead` | internal/agent/telemetry_linux.go:486-534 | a file of header and interface lines is read as the sums over all interfaces but the loopback, unless one exceeds 2^63-1 |
| `ProcLines.MemLineRead` | internal/agent/telemetry_linux.go:313-347 | a key, a number and kB, however spaced, are read as that number exactly if it is in range |
| `ProcLines.MemFileRead` | internal/agent/telemetry_linux.go:301-365 | a file with one total and one available line among any others is read as these kilobytes times 1024 |
| `ProcLines.StatLineExactly` | internal/agent/telemetry_linux.go:214-264 | a cpu line of any words is refused exactly for fewer than four, one of the first eight that is no counter, or too large a sum |
| `ProcLines.NetLineExactly` | internal/agent/telemetry_linux.go:494-520 | an interface's line of any words is refused exactly for fewer than nine, or a first or ninth that is no counter; the loopback's never |
| `ProcLines.MemLineExactly` | internal/agent/telemetry_linux.go:313-347 | a memory line of any words is good exactly if it is the key, a number in range, and kB |
| `ProcLines.BadFilesAreRefused` | internal/agent/telemetry_linux.go:301-361 | an unreadable file, a failed scan and a bad line anywhere each refuse the file |
| `Sampler.WindowExact` | internal/agent/telemetry_linux.go:87-92 | saturating subtraction and truncation leave the 1..300000 ms window test exact |
| `Sampler.ShareExact` | internal/agent/telemetry_linux.go:108-124 | both basis-point branches are floor(10000 * busy / total), within 0..10000, so the clamps never act |
| `Sampler.LinuxSampler.Sample` | internal/agent/telemetry_linux.go:73-179 | after any successful CPU read the baseline is that reading; a report is built exactly when two readings make a measurement and all reads succeed; its fields are exact and it passes the wire check, so the local validation error never occurs |
| `Sampler.BaselineIsLastReading` | internal/agent/telemetry_linux.go:126-129 | through any failures the baseline is the latest successful reading |
| `Sampler.WindowsNeverOverlap` | internal/agent/telemetry_linux.go:126-129 | with a clock that does not run backward, all reported windows together fit between the start and the latest reading |

## Left out

- SQL text, the driver, pooling, migrations and lock waiting: a transaction is one atomic step; a lock timeout or a failed statement is a transaction that did not commit.
- EnrollmentTheorems.StateDirectory.Enroll: leaves out the CA file that a call may copy into the directory before the key is made; it enters neither the request nor identity.json.
- `ListJobs` and `ListJobEvents`: plain queries; log properties are about commit order, and the listed order by (occurred_at, id) is not claimed to equal it.
- HTTP, TLS, JSON decoding, content types, body limits, unconfigured backends (503), X.509 and PEM: library behaviour; only the status codes the parties branch on are kept.
- The heartbeat handler's two transactions: the hint and the claim are separate steps in the source; in the protocol a heartbeat claims at once, and skipping the claim on a stale hint is the step that commits nothing and answers 204.
- Agents that do not run this loop: in the protocol only daemons of this program send starts and completions; for arbitrary senders the properties of the transactions themselves hold.
- Operator create handler, role matrix, key and username checks, list limits: easy facts; the execute permission is a guard of creation.
- Password hashing, token entropy, SHA-256, base64, Ed25519: hashes and keys are opaque values.
- UUID spellings other than the 36-character one: the comparison with the canonical text refuses them, so the parser's extra forms are not modelled.
- Power loss: a crash is the end of a process; a file that was written is there afterwards. The directory entry of a new file is not synced by the source, so nothing is claimed about losing it.
- State directory permissions, symlinks, and the checks on the controller URL and the CA file: they only add ways for Enroll to fail early, which a crash already covers; a URL that passed is a controller and a spelling, and which controller it reaches does not change.
- Reads of load averages and uptime: floating-point parsing; they are given as nonnegative integers or failures.
- The rest of the presence loop: a permanent answer to an inventory or telemetry report, a certificate that cannot be renewed and a shutdown signal end the daemon too; here they are a kill. Which requests are refused for their certificate's dates is left open: any may be.
- Inventory, certificate rotation, backoff, jitter, logging, the privilege helper, server start and shutdown, the web interface: plumbing around the core.
