/** The event log of a job. A row determines its own history: `CanonicalLog` spells it out, and the
    invariant of JobInvariants says that the stored events of a job are exactly that. */
module JobLog {
  import opened Helpers
  import opened Uuids
  import opened JobDomain
  import opened JobEngine

  /** The events of one job, in commit order. */
  function Log(events: seq<Event>, id: Uuid): (es: seq<Event>)
    ensures |es| <= |events|
    ensures forall i :: 0 <= i < |es| ==> es[i].job == id
  {
    if events == [] then []
    else
      var last := events[|events| - 1];
      Log(events[..|events| - 1], id) + (if last.job == id then [last] else [])
  }

  lemma LogAppend(events: seq<Event>, e: Event, id: Uuid)
    ensures Log(events + [e], id) == Log(events, id) + (if e.job == id then [e] else [])
  {
    assert (events + [e])[..|events|] == events;
  }

  lemma {:induction false} LogAbsent(events: seq<Event>, id: Uuid)
    requires forall i :: 0 <= i < |events| ==> events[i].job != id
    ensures Log(events, id) == []
  {
    if events != [] {
      LogAbsent(events[..|events| - 1], id);
    }
  }

  // ---------- the history a row implies ----------

  function Created(j: Job): Event {
    Event(j.id, JobCreated, 0, OperatorActor(j.username), None)
  }

  function DispatchedEvent(id: Uuid, k: int): Event {
    Event(id, JobDispatched, k, ControllerActor, None)
  }

  function RequeuedEvent(id: Uuid, k: int): Event {
    Event(id, JobRequeued, k, ControllerActor, None)
  }

  /** Attempts 1 to n, each dispatched and then requeued. */
  function Rounds(id: Uuid, n: int): (es: seq<Event>)
    ensures |es| == if n <= 0 then 0 else 2 * n
  {
    if n <= 0 then [] else Rounds(id, n - 1) + [DispatchedEvent(id, n), RequeuedEvent(id, n)]
  }

  /** The events since the last requeue. */
  function Tail(j: Job): seq<Event> {
    var d := DispatchedEvent(j.id, j.attempt);
    var st := Event(j.id, JobStarted, j.attempt, AgentActor(j.agent), None);
    match j.state
    case Queued => []
    case Dispatched => [d]
    case Running => [d, st]
    case Succeeded => [d, st, Event(j.id, JobSucceeded, j.attempt, AgentActor(j.agent), None)]
    case Failed =>
      if j.failure == Some(ExecutorError)
      then [d, st, Event(j.id, JobFailed, j.attempt, AgentActor(j.agent), Some(ExecutorError))]
      else [d, Event(j.id, JobFailed, j.attempt, ControllerActor, Some(DispatchExhausted))]
    case Unknown => [d, st, Event(j.id, JobUnknown, j.attempt, ControllerActor, Some(ExecutionTimeout))]
  }

  function CompletedRounds(j: Job): int {
    if j.state == Queued then j.attempt else j.attempt - 1
  }

  function CanonicalLog(j: Job): seq<Event> {
    [Created(j)] + Rounds(j.id, CompletedRounds(j)) + Tail(j)
  }

  /** Every row change adds exactly its own event to the history the row implies. */
  lemma MoveExtendsLog(j: Job, m: Move)
    requires RowShape(j) && RowEnabled(j, m)
    ensures CanonicalLog(MoveRow(j, m)) == CanonicalLog(j) + [MoveEvent(j, m)]
  {
    hide Rounds;
    if m.Requeue? {
      RoundsStep(j.id, j.attempt);
    }
    assert Created(MoveRow(j, m)) == Created(j);
  }

  lemma RoundsStep(id: Uuid, n: int)
    requires n >= 1
    ensures Rounds(id, n) == Rounds(id, n - 1) + [DispatchedEvent(id, n), RequeuedEvent(id, n)]
  {
  }

  // ---------- reading a log back ----------

  datatype Summary = Summary(state: State, attempt: int, failure: Option<FailureCode>)

  function StateAfter(e: Event): State {
    match e.kind
    case JobCreated => Queued
    case JobDispatched => Dispatched
    case JobRequeued => Queued
    case JobStarted => Running
    case JobSucceeded => Succeeded
    case JobFailed => Failed
    case JobUnknown => Unknown
  }

  /** One event applied to what is known of a job; None when the event is not allowed there. */
  function FoldEvent(known: Option<Summary>, e: Event): Option<Summary> {
    var next := Some(Summary(StateAfter(e), e.attempt, e.failure));
    match known
    case None => None
    case Some(k) =>
      if !ValidateTransition(k.state, StateAfter(e)) then None
      else if e.kind == JobDispatched && e.attempt != k.attempt + 1 then None
      else if e.kind != JobDispatched && e.attempt != k.attempt then None
      else next
  }

  /** A log replayed from its creation event; None when it is not a legal history. */
  function Fold(log: seq<Event>): Option<Summary> {
    if log == [] then None
    else if |log| == 1 then
      if log[0].kind == JobCreated && log[0].attempt == 0 && log[0].failure == None then Some(Summary(Queued, 0, None))
          else None
    else FoldEvent(Fold(log[..|log| - 1]), log[|log| - 1])
  }

  lemma FoldAppend(log: seq<Event>, e: Event)
    requires log != []
    ensures Fold(log + [e]) == FoldEvent(Fold(log), e)
  {
    assert (log + [e])[..|log|] == log;
  }

  lemma FoldFresh(j: Job)
    ensures Fold([Created(j)]) == Some(Summary(Queued, 0, None))
  {
  }

  lemma {:induction false} FoldRounds(j: Job, n: nat)
    ensures Fold([Created(j)] + Rounds(j.id, n)) == Some(Summary(Queued, n, None))
  {
    hide Fold;
    var head := [Created(j)] + Rounds(j.id, n);
    if n == 0 {
      FoldFresh(j);
      assert head == [Created(j)];
    } else {
      var before := [Created(j)] + Rounds(j.id, n - 1);
      FoldRounds(j, n - 1);
      FoldAppend(before, DispatchedEvent(j.id, n));
      FoldAppend(before + [DispatchedEvent(j.id, n)], RequeuedEvent(j.id, n));
      assert head == before + [DispatchedEvent(j.id, n)] + [RequeuedEvent(j.id, n)];
    }
  }

  function FoldFrom(known: Option<Summary>, tail: seq<Event>): Option<Summary>
    decreases |tail|
  {
    if tail == [] then known else FoldFrom(FoldEvent(known, tail[0]), tail[1..])
  }

  lemma {:induction false} FoldConcat(log: seq<Event>, tail: seq<Event>)
    requires log != []
    ensures Fold(log + tail) == FoldFrom(Fold(log), tail)
    decreases |tail|
  {
    if tail == [] {
      assert log + tail == log;
    } else {
      FoldAppend(log, tail[0]);
      FoldConcat(log + [tail[0]], tail[1..]);
      assert log + tail == log + [tail[0]] + tail[1..];
    }
  }

  lemma FoldThree(known: Option<Summary>, a: Event, b: Event, c: Event)
    ensures FoldFrom(known, []) == known
    ensures FoldFrom(known, [a]) == FoldEvent(known, a)
    ensures FoldFrom(known, [a, b]) == FoldEvent(FoldEvent(known, a), b)
    ensures FoldFrom(known, [a, b, c]) == FoldEvent(FoldEvent(FoldEvent(known, a), b), c)
  {
    assert [a, b, c][1..] == [b, c] && [b, c][1..] == [c] && [a, b][1..] == [b] && [a][1..] == [];
    assert FoldFrom(FoldEvent(known, a), [b]) == FoldEvent(FoldEvent(known, a), b);
    var twice := FoldEvent(FoldEvent(known, a), b);
    assert FoldFrom(twice, [c]) == FoldEvent(twice, c);
  }

  /** Folding the history a row implies gives back the row's state, attempt and failure code. */
  lemma FoldCanonical(j: Job)
    requires RowShape(j)
    ensures Fold(CanonicalLog(j)) == Some(Summary(j.state, j.attempt, j.failure))
  {
    hide Fold, FoldFrom, Rounds;
    var before := [Created(j)] + Rounds(j.id, CompletedRounds(j));
    FoldRounds(j, CompletedRounds(j));
    FoldConcat(before, Tail(j));
    var tail := Tail(j);
    var first := if |tail| > 0 then tail[0] else Created(j);
    var second := if |tail| > 1 then tail[1] else Created(j);
    var third := if |tail| > 2 then tail[2] else Created(j);
    FoldThree(Fold(before), first, second, third);
  }

  /** A history has at most 12 events, and together with the changes still possible never exceeds that. */
  lemma CanonicalLength(j: Job)
    requires RowShape(j)
    ensures 1 <= |CanonicalLog(j)| <= 12
    ensures |CanonicalLog(j)| + Measure(j) <= 12
  {
  }

  predicate IsPath(states: seq<State>) {
    forall i :: 0 <= i < |states| - 1 ==> ValidateTransition(states[i], states[i + 1])
  }

  function States(log: seq<Event>): (ss: seq<State>)
    ensures |ss| == |log|
  {
    seq(|log|, i requires 0 <= i < |log| => StateAfter(log[i]))
  }

  /** A log that folds is a walk along the declared transitions, from queued to the folded state. */
  lemma {:induction false} FoldIsPath(log: seq<Event>)
    requires Fold(log).Some?
    ensures log != [] && IsPath(States(log)) && States(log)[0] == Queued
    ensures States(log)[|log| - 1] == Fold(log).value.state
  {
    if |log| > 1 {
      var front := log[..|log| - 1];
      FoldIsPath(front);
      assert States(log) == States(front) + [StateAfter(log[|log| - 1])];
    }
  }

  /** At most one start, wherever it is looked for. */
  ghost predicate AtMostOneStart(log: seq<Event>) {
    forall i, j :: 0 <= i < |log| && 0 <= j < |log| && log[i].kind == JobStarted && log[j].kind == JobStarted ==> i == j
  }

  lemma {:induction false} RoundsHaveNoStart(id: Uuid, n: int)
    ensures forall i :: 0 <= i < |Rounds(id, n)| ==> Rounds(id, n)[i].kind in {JobDispatched, JobRequeued}
  {
    if n > 0 {
      RoundsHaveNoStart(id, n - 1);
    }
  }

  lemma CanonicalStartsOnce(j: Job)
    ensures AtMostOneStart(CanonicalLog(j))
  {
    RoundsHaveNoStart(j.id, CompletedRounds(j));
    var front := [Created(j)] + Rounds(j.id, CompletedRounds(j));
    assert CanonicalLog(j) == front + Tail(j);
    assert forall i :: 0 <= i < |front| ==> front[i].kind != JobStarted;
  }
}
