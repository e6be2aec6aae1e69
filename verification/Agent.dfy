/** The job part of the agent's presence loop (internal/agent/presence.go): first as an automaton over the answers it
    waits for, then as the loop body itself, proved to be that automaton run from one heartbeat to the next wait. */
module Agent {
  import opened Helpers
  import opened Uuids
  import opened JobEngine
  import opened Wire

  /** An execution result that the controller has not acknowledged. */
  datatype Completion = Completion(job: Uuid, attempt: int, ok: bool)

  datatype Phase =
    | Idle
    | AwaitHeartbeat
    | AwaitRetry(offered: Option<Assignment>)
    | AwaitStart(assignment: Assignment)
    | Executing(assignment: Assignment)
    | AwaitComplete(completion: Completion)
    | Stopped

  datatype Message =
    | HeartbeatMsg
    | StartMsg(job: Uuid, attempt: int)
    | CompleteMsg(completion: Completion)

  /** An HTTP answer as far as it arrived, no answer at all, or the executor's verdict. */
  datatype Input = Answer(reply: HttpReply) | NoAnswer | Executed(ok: bool)

  datatype Next = Next(phase: Phase, pending: Option<Completion>, send: Option<Message>)

  function ReadJob(input: Input): SendResult {
    if input.Answer? then JobStatus(input.reply.status) else SendTransient
  }

  function ReadBeat(input: Input): HeartbeatResult {
    if input.Answer? then ReadHeartbeat(input.reply) else HeartbeatTransient
  }

  /** Go on to the offered assignment, if any. */
  function Offer(offered: Option<Assignment>, pending: Option<Completion>): Next {
    match offered
    case None => Next(Idle, pending, None)
    case Some(a) => Next(AwaitStart(a), pending, Some(StartMsg(a.job, a.attempt)))
  }

  /** What the loop does with the input it was waiting for. */
  function React(phase: Phase, pending: Option<Completion>, input: Input): Next {
    match phase
    case Idle => Next(AwaitHeartbeat, pending, Some(HeartbeatMsg))
    case AwaitHeartbeat => (
      match ReadBeat(input)
      case HeartbeatTransient => Next(Idle, pending, None)
      case HeartbeatPermanent => Next(Stopped, pending, None)
      case HeartbeatIdle =>
        if pending.Some? then Next(AwaitRetry(None), pending, Some(CompleteMsg(pending.value)))
        else Next(Idle, pending, None)
      case HeartbeatJob(a) =>
        if pending.Some? then Next(AwaitRetry(Some(a)), pending, Some(CompleteMsg(pending.value)))
        else Offer(Some(a), pending))
    case AwaitRetry(offered) => (
      match ReadJob(input)
      case SendOk => Offer(offered, None)
      case SendConflict => Offer(offered, None)
      case SendTransient => Next(Idle, pending, None)
      case SendPermanent => Next(Stopped, pending, None))
    case AwaitStart(a) => (
      match ReadJob(input)
      case SendOk => Next(Executing(a), pending, None)
      case SendPermanent => Next(Stopped, pending, None)
      case _ => Next(Idle, pending, None))
    case Executing(a) =>
      var c := Completion(a.job, a.attempt, input == Executed(true));
      Next(AwaitComplete(c), pending, Some(CompleteMsg(c)))
    case AwaitComplete(c) => (
      match ReadJob(input)
      case SendOk => Next(Idle, pending, None)
      case SendConflict => Next(Idle, pending, None)
      case SendTransient => Next(Idle, Some(c), None)
      case SendPermanent => Next(Stopped, pending, None))
    case Stopped => Next(Stopped, pending, None)
  }

  // ---------- one turn of the loop ----------

  /** What the world answers during one turn, should the loop ask. */
  datatype World = World(heartbeat: Input, retry: Input, start: Input, success: bool, complete: Input)

  /** What one turn leaves behind and what it did on the way. */
  datatype Turn = Turn(stopped: bool, pending: Option<Completion>, sent: seq<Message>, executed: Option<Assignment>)

  function Rank(p: Phase): nat {
    match p
    case AwaitHeartbeat => 5
    case AwaitRetry(_) => 4
    case AwaitStart(_) => 3
    case Executing(_) => 2
    case AwaitComplete(_) => 1
    case _ => 0
  }

  function InputFor(p: Phase, w: World): Input {
    match p
    case AwaitHeartbeat => w.heartbeat
    case AwaitRetry(_) => w.retry
    case AwaitStart(_) => w.start
    case Executing(_) => Executed(w.success)
    case _ => w.complete
  }

  /** The automaton run until it is idle again or has stopped. */
  function Drive(phase: Phase, pending: Option<Completion>, w: World): Turn
    decreases Rank(phase)
  {
    if Rank(phase) == 0 then Turn(phase == Stopped, pending, [], None)
    else
      var n := React(phase, pending, InputFor(phase, w));
      var rest := Drive(n.phase, n.pending, w);
      rest.(sent := (if n.send.Some? then [n.send.value] else []) + rest.sent,
            executed := if phase.Executing? then Some(phase.assignment) else rest.executed)
  }

  function FullTurn(pending: Option<Completion>, w: World): Turn {
    var rest := Drive(AwaitHeartbeat, pending, w);
    rest.(sent := [HeartbeatMsg] + rest.sent)
  }

  /** The automaton from a sent start request on, spelled out. */
  function StartTail(a: Assignment, pending: Option<Completion>, w: World): Turn {
    match ReadJob(w.start)
    case SendOk =>
      var c := Completion(a.job, a.attempt, w.success);
      Turn(ReadJob(w.complete) == SendPermanent, if ReadJob(w.complete) == SendTransient then Some(c) else pending,
           [CompleteMsg(c)], Some(a))
    case r => Turn(r == SendPermanent, pending, [], None)
  }

  lemma DriveStart(a: Assignment, pending: Option<Completion>, w: World)
    ensures Drive(AwaitStart(a), pending, w) == StartTail(a, pending, w)
  {
    var c := Completion(a.job, a.attempt, w.success);
    assert Drive(AwaitComplete(c), pending, w) ==
           Turn(ReadJob(w.complete) == SendPermanent, if ReadJob(w.complete) == SendTransient then Some(c)
                else pending, [], None);
    assert Drive(Executing(a), pending, w).sent == [CompleteMsg(c)];
  }

  function OfferTail(offered: Option<Assignment>, pending: Option<Completion>, w: World): Turn {
    match offered
    case None => Turn(false, pending, [], None)
    case Some(a) => var rest := StartTail(a, pending, w); rest.(sent := [StartMsg(a.job, a.attempt)] + rest.sent)
  }

  /** The whole turn, spelled out. */
  lemma DriveBeat(pending: Option<Completion>, w: World)
    ensures Drive(AwaitHeartbeat, pending, w) ==
            match ReadBeat(w.heartbeat)
            case HeartbeatTransient => Turn(false, pending, [], None)
            case HeartbeatPermanent => Turn(true, pending, [], None)
            case beat =>
              var offered := if beat.HeartbeatJob? then Some(beat.assignment) else None;
              if pending == None then OfferTail(offered, None, w)
              else
                var r := ReadJob(w.retry);
                var rest := if r == SendOk || r == SendConflict then OfferTail(offered, None, w)
                            else Turn(r == SendPermanent, pending, [], None);
                rest.(sent := [CompleteMsg(pending.value)] + rest.sent)
  {
    var beat := ReadBeat(w.heartbeat);
    var offered := if beat.HeartbeatJob? then Some(beat.assignment) else None;
    if offered.Some? {
      DriveStart(offered.value, None, w);
    }
    if pending.Some? {
      DriveRetry(offered, pending, w);
    }
  }

  lemma DriveRetry(offered: Option<Assignment>, pending: Option<Completion>, w: World)
    ensures Drive(AwaitRetry(offered), pending, w) ==
            var r := ReadJob(w.retry);
            if r == SendOk || r == SendConflict then OfferTail(offered, None, w)
            else Turn(r == SendPermanent, pending, [], None)
  {
    if offered.Some? {
      DriveStart(offered.value, None, w);
    }
  }

  class Daemon {
    var pendingCompletion: Option<Completion>

    constructor ()
      ensures pendingCompletion == None
    {
      pendingCompletion := None;
    }

    /** One turn of the loop, statement by statement. */
    method RunTurn(w: World) returns (t: Turn)
      modifies this
      ensures t == FullTurn(old(pendingCompletion), w)
      ensures pendingCompletion == t.pending
    {
      hide Drive;
      DriveBeat(pendingCompletion, w);
      var sent: seq<Message> := [HeartbeatMsg];
      var beat := ReadBeat(w.heartbeat);
      if beat == HeartbeatPermanent {
        return Turn(true, pendingCompletion, sent, None);
      }
      if beat == HeartbeatTransient {
        return Turn(false, pendingCompletion, sent, None);
      }
      var assignment := if beat.HeartbeatJob? then Some(beat.assignment) else None;
      if pendingCompletion != None {
        sent := sent + [CompleteMsg(pendingCompletion.value)];
        var compErr := ReadJob(w.retry);
        if compErr != SendOk {
          if compErr == SendPermanent {
            return Turn(true, pendingCompletion, sent, None);
          }
          if compErr == SendConflict {
            pendingCompletion := None;
          }
        } else {
          pendingCompletion := None;
        }
      }
      var executed: Option<Assignment> := None;
      if pendingCompletion == None && assignment != None {
        var a := assignment.value;
        sent := sent + [StartMsg(a.job, a.attempt)];
        var startErr := ReadJob(w.start);
        if startErr != SendOk {
          if startErr == SendPermanent {
            return Turn(true, pendingCompletion, sent, None);
          }
        } else {
          executed := Some(a);
          var completion := Completion(a.job, a.attempt, w.success);
          sent := sent + [CompleteMsg(completion)];
          var compErr := ReadJob(w.complete);
          if compErr != SendOk {
            if compErr == SendPermanent {
              return Turn(true, pendingCompletion, sent, executed);
            }
            if compErr != SendConflict {
              pendingCompletion := Some(completion);
            }
          }
        }
      }
      t := Turn(false, pendingCompletion, sent, executed);
    }
  }

  /** A turn executes only on a 204 answer to its start request, never while an older result is still unsent, and
      what it executed is acknowledged, refused, or kept. */
  lemma TurnIsCareful(pending: Option<Completion>, w: World)
    ensures var t := FullTurn(pending, w);
            && (t.executed.Some? ==>
                 && ReadJob(w.start) == SendOk && w.start.Answer? && w.start.reply.status == 204
                 && StartMsg(t.executed.value.job, t.executed.value.attempt) in t.sent
                 && (pending.Some? ==> ReadJob(w.retry) == SendOk || ReadJob(w.retry) == SendConflict))
            && (t.executed.Some? && !t.stopped && ReadJob(w.complete) == SendTransient ==>
                 t.pending == Some(Completion(t.executed.value.job, t.executed.value.attempt, w.success)))
            && (pending.Some? && !t.stopped && t.pending != pending ==>
                 CompleteMsg(pending.value) in t.sent
                     && (ReadJob(w.retry) == SendOk || ReadJob(w.retry) == SendConflict))
  {
    hide Drive;
    DriveBeat(pending, w);
  }

  /** What a turn does, exactly. Once the heartbeat is answered, an unsent result is reported first; an offered job is
      started unless such a result is still unsettled, executed exactly on the acceptance of its start, and its result
      reported at once. The turn ends with the result that was not settled, if any, and stops on a permanent failure. */
  lemma TurnExactly(pending: Option<Completion>, w: World)
    ensures var t := FullTurn(pending, w);
            var beat := ReadBeat(w.heartbeat);
            var reports := (beat == HeartbeatIdle || beat.HeartbeatJob?) && pending.Some?;
            var settled := pending == None || ReadJob(w.retry) == SendOk || ReadJob(w.retry) == SendConflict;
            var starts := beat.HeartbeatJob? && settled;
            var executes := starts && ReadJob(w.start) == SendOk;
            && t.executed == (if executes then Some(beat.assignment) else None)
            && t.sent == [HeartbeatMsg]
                         + (if reports then [CompleteMsg(pending.value)] else [])
                         + (if starts then [StartMsg(beat.assignment.job, beat.assignment.attempt)] else [])
                         + (if executes then [CompleteMsg(ResultOfTurn(beat.assignment, w))] else [])
            && t.pending == (if executes && ReadJob(w.complete) == SendTransient
                             then Some(ResultOfTurn(beat.assignment, w))
                             else if reports && settled then None else pending)
            && (t.stopped <==> || beat == HeartbeatPermanent || (reports && ReadJob(w.retry) == SendPermanent)
                               || (starts && ReadJob(w.start) == SendPermanent)
                               || (executes && ReadJob(w.complete) == SendPermanent))
  {
    hide Drive;
    DriveBeat(pending, w);
  }

  function ResultOfTurn(a: Assignment, w: World): Completion {
    Completion(a.job, a.attempt, w.success)
  }
}
