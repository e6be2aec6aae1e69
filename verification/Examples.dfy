/** Concrete tables, reached by transactions from the empty ones, and what goes wrong from them. */
module Examples {
  import opened Uuids
  import opened JobDomain
  import opened JobEngine
  import opened JobInvariants
  import opened JobStamps
  import opened Protocol
  import opened ProtocolTheorems
  import opened ProtocolProgress
  import opened Agent

  lemma {:induction false} Pow16Exceeds(k: nat)
    ensures k < Pow16(k)
  {
    if k > 0 {
      Pow16Exceeds(k - 1);
    }
  }

  function Id(n: nat): Uuid
    requires n < 32
  {
    Pow16Exceeds(32);
    n
  }

  /** One operator, one agent, nothing else. */
  function Directory(): Store {
    Store(map[Id(1) := Operator("op", Admin, false)], {Id(2)}, map[], [], [])
  }

  function TheJob(): Job {
    NewJob(Id(3), Id(2), Id(1), "op", 0, AgentPing, 0)
  }

  function OneQueued(): Store {
    Insert(Directory(), TheJob())
  }

  /** Dispatched at 0 and started a second later. */
  function OneRunning(): Store {
    Do(Do(OneQueued(), Dispatch(Id(3), 0)), Begin(Id(3), SECOND))
  }

  lemma OneQueuedIsSound()
    ensures Inv(OneQueued(), 0) && HasQueued(OneQueued().jobs, Id(2)) && !HasInFlight(OneQueued().jobs, Id(2))
  {
    hide Inv, Evolves;
    EmptyInv(0);
    var empty := Store(map[], {}, map[], [], []);
    DirectoryKeepsInv(empty, Directory().operators, Directory().agents, 0, 0);
    assert {} + Directory().agents == Directory().agents;
    assert ActiveJobs(Directory().jobs, Id(2)) == {};
    InsertKeepsInv(Directory(), TheJob(), 0);
    assert IsQueuedOf(OneQueued().jobs[Id(3)], Id(2));
  }

  lemma OneRunningIsSound()
    ensures Inv(OneRunning(), SECOND) && Id(3) in OneRunning().jobs && OneRunning().jobs[Id(3)].state == Running
  {
    hide Inv, Evolves, HasInFlight;
    OneQueuedIsSound();
    var dispatched := Do(OneQueued(), Dispatch(Id(3), 0));
    MoveKeepsInv(OneQueued(), Dispatch(Id(3), 0), 0, 0);
    MoveKeepsInv(dispatched, Begin(Id(3), SECOND), 0, SECOND);
  }

  /** The finish and update stamps of a row that a pass ends need not agree: here they are a tick apart. */
  lemma StampsDiffer() returns (op: Op, later: Time)
    ensures Keyed(OneRunning().jobs) && OpOK(OneRunning(), op, SECOND, later)
    ensures var t := Apply(OneRunning(), op);
            && Id(3) in t.jobs && t.jobs[Id(3)].state == Unknown && t.jobs[Id(3)].finishedAt.Some?
            && t.jobs[Id(3)].updatedAt == t.jobs[Id(3)].finishedAt.value + 1
  {
    hide Inv, OneRunning, OpOK, Keyed;
    OneRunningIsSound();
    op, later := EndStampsCanDiffer(OneRunning(), SECOND, Id(3));
  }

  /** Those tables, with no daemon and no message. */
  function Quiescent(): Sys {
    Sys(OneQueued(), 0, map[], {}, 0, map[], 0, map[], map[], [], map[])
  }

  /** From there a run in which a daemon stops on an answer cut short. */
  lemma DaemonStops() returns (t: Sys, pid: nat, job: Uuid)
    ensures Fresh(Quiescent()) && Leads(Quiescent(), t) && pid in t.procs && t.procs[pid].phase == Stopped
    ensures job in t.store.jobs && t.store.jobs[job].state == Dispatched
  {
    hide Inv, Leads, SysInv, HasQueued, HasInFlight;
    OneQueuedIsSound();
    InitialInv(OneQueued(), 0);
    t, pid, job := CutAnswerStops(Quiescent(), Id(2));
  }
}
