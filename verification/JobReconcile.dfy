/** Reconciliation passes: what a batch does, that its order is immaterial, and that repeated passes drain. */
module JobReconcile {
  import opened Helpers
  import opened Uuids
  import opened JobDomain
  import opened JobEngine
  import opened JobLog

  // ---------- a batch, declaratively ----------

  function ReconciledRow(j: Job, id: Uuid, at: Stamps): Job {
    if Expired(j, at.check) then MoveRow(j, ExpiryMove(j, id, at)) else j
  }

  /** The table after every row of `ids` was reconciled at once. */
  function Reconciled(jobs: map<Uuid, Job>, ids: seq<Uuid>, clk: Clock): map<Uuid, Job> {
    map id | id in jobs :: if id in ids then ReconciledRow(jobs[id], id, clk(id)) else jobs[id]
  }

  function ExpiryEvents(j: Job, id: Uuid, at: Stamps): seq<Event> {
    if Expired(j, at.check) then [MoveEvent(j, ExpiryMove(j, id, at))] else []
  }

  lemma ReconciledRowSettles(j: Job, id: Uuid, at: Stamps)
    ensures !Expired(ReconciledRow(j, id, at), at.check)
  {
  }

  function AddedLog(jobs: map<Uuid, Job>, ids: seq<Uuid>, clk: Clock, id: Uuid): seq<Event>
    requires id in jobs
  {
    if id in ids then ExpiryEvents(jobs[id], id, clk(id)) else []
  }

  /** Reconciling rows one by one, in the given order, is the declarative batch; each row is handled once
      however often it is listed. */
  lemma {:induction false} BatchIsPointwise(s: Store, ids: seq<Uuid>, clk: Clock)
    requires Keyed(s.jobs)
    ensures var t := ReconcileAll(s, ids, clk);
            && t.jobs == Reconciled(s.jobs, ids, clk)
            && forall id :: id in s.jobs ==> Log(t.events, id) == Log(s.events, id) + AddedLog(s.jobs, ids, clk, id)
    decreases |ids|
  {
    hide Log, ReconcileOne, Expired, MoveRow, MoveEvent;
    var t := ReconcileAll(s, ids, clk);
    if ids != [] {
      var front, last := ids[..|ids| - 1], ids[|ids| - 1];
      var mid := ReconcileAll(s, front, clk);
      BatchIsPointwise(s, front, clk);
      ReconcileAllKeyed(s, front, clk);
      assert ids == front + [last];
      if last in s.jobs {
        ReconciledRowSettles(s.jobs[last], last, clk(last));
      }
      forall id | id in s.jobs ensures Log(t.events, id) == Log(s.events, id) + AddedLog(s.jobs, ids, clk, id) {
        OneStepLog(mid, last, clk(last), id);
      }
      OneStepTable(s, mid, front, last, clk);
    }
  }

  lemma OneStepTable(s: Store, mid: Store, front: seq<Uuid>, last: Uuid, clk: Clock)
    requires mid.jobs == Reconciled(s.jobs, front, clk)
    ensures ReconcileOne(mid, last, clk(last)).jobs == Reconciled(s.jobs, front + [last], clk)
  {
    if last in s.jobs {
      ReconciledRowSettles(s.jobs[last], last, clk(last));
    }
  }

  lemma OneStepLog(s: Store, last: Uuid, at: Stamps, id: Uuid)
    requires last in s.jobs ==> s.jobs[last].id == last
    ensures Log(ReconcileOne(s, last, at).events, id) ==
            Log(s.events, id) + (if id == last && last in s.jobs then ExpiryEvents(s.jobs[last], last, at) else [])
  {
    if last in s.jobs && Expired(s.jobs[last], at.check) {
      LogAppend(s.events, MoveEvent(s.jobs[last], ExpiryMove(s.jobs[last], last, at)), id);
    }
  }

  /** The order of a batch is immaterial: the same rows in any order give the same table and the same history
      of every job. */
  lemma OrderIsImmaterial(s: Store, ids: seq<Uuid>, ids': seq<Uuid>, clk: Clock)
    requires Keyed(s.jobs) && forall id :: id in ids <==> id in ids'
    ensures var t, t' := ReconcileAll(s, ids, clk), ReconcileAll(s, ids', clk);
            t.jobs == t'.jobs && forall id :: id in s.jobs ==> Log(t.events, id) == Log(t'.events, id)
  {
    hide ReconcileAll, Log, ReconciledRow, ExpiryEvents, Keyed;
    BatchIsPointwise(s, ids, clk);
    BatchIsPointwise(s, ids', clk);
    assert Reconciled(s.jobs, ids, clk) == Reconciled(s.jobs, ids', clk);
  }

  lemma {:induction false} SettledIsUnchanged(s: Store, ids: seq<Uuid>, clk: Clock)
    requires forall i :: 0 <= i < |ids| && ids[i] in s.jobs ==> !Expired(s.jobs[ids[i]], clk(ids[i]).check)
    ensures ReconcileAll(s, ids, clk) == s
    decreases |ids|
  {
    if ids != [] {
      SettledIsUnchanged(s, ids[..|ids| - 1], clk);
    }
  }

  /** Every row is judged no earlier by `b` than by `a`. */
  ghost predicate Later(a: Clock, b: Clock) {
    forall id: Uuid :: a(id).check <= b(id).check
  }

  /** A second pass over the same rows changes nothing at all: at any time if it is over rows the first one judged
      expired, and over whatever rows if it judges them no later. */
  lemma BatchIsIdempotent(s: Store, ids: seq<Uuid>, clk: Clock, clk': Clock)
    requires Keyed(s.jobs)
    requires Later(clk', clk) || forall i :: 0 <= i < |ids| ==>
             ids[i] in s.jobs && Expired(s.jobs[ids[i]], clk(ids[i]).check)
    ensures var t := ReconcileAll(s, ids, clk); ReconcileAll(t, ids, clk') == t
  {
    hide ReconcileAll, Log;
    BatchIsPointwise(s, ids, clk);
    var t := ReconcileAll(s, ids, clk);
    forall i | 0 <= i < |ids| && ids[i] in t.jobs ensures !Expired(t.jobs[ids[i]], clk'(ids[i]).check) {
      var j := s.jobs[ids[i]];
      if Expired(j, clk(ids[i]).check) {
        ReconciledNeverExpires(j, ids[i], clk(ids[i]), clk'(ids[i]).check);
      }
    }
    SettledIsUnchanged(t, ids, clk');
  }

  /** A reconciled row is in flight no longer, so it is not expired at any time. */
  lemma ReconciledNeverExpires(j: Job, id: Uuid, at: Stamps, check: Time)
    requires Expired(j, at.check)
    ensures !Expired(ReconciledRow(j, id, at), check)
  {
  }

  // ---------- a global pass handles exactly as many as it may, and passes drain ----------

  function ExpiredIds(jobs: map<Uuid, Job>, clk: Clock): set<Uuid> {
    set id | id in jobs && Expired(jobs[id], clk(id).check)
  }

  lemma CandidatesAreExpired(jobs: map<Uuid, Job>, limit: int, clk: Clock)
    ensures var sc := GlobalScope(limit, {});
            var ls, ds := LeaseCandidates(jobs, sc, clk), DeadlineCandidates(jobs, sc, clk);
            ls !! ds && ls + ds == ExpiredIds(jobs, clk) && |ls| + |ds| == |ExpiredIds(jobs, clk)|
  {
  }

  lemma {:induction false} RemoveDistinct(from: set<Uuid>, xs: seq<Uuid>)
    requires Distinct(xs) && forall i :: 0 <= i < |xs| ==> xs[i] in from
    ensures |xs| <= |from| && |from - (set x | x in xs)| == |from| - |xs|
    decreases |xs|
  {
    if xs == [] {
      assert from - (set x | x in xs) == from;
    } else {
      var front, last := xs[..|xs| - 1], xs[|xs| - 1];
      assert xs == front + [last];
      assert forall i :: 0 <= i < |front| ==> front[i] == xs[i];
      RemoveDistinct(from, front);
      var rest := from - (set x | x in front);
      assert last in rest;
      assert from - (set x | x in xs) == rest - {last};
    }
  }

  /** With no row locked, a pass handles exactly min(limit, number expired) rows, each once, and exactly those
      rows stop being expired. */
  lemma PassHandlesExactly(s: Store, limit: int, clk: Clock, leases: seq<Uuid>, deadlines: seq<Uuid>)
    requires Keyed(s.jobs) && PassSelects(s, GlobalScope(limit, {}), clk, leases, deadlines)
    ensures var handled := leases + deadlines;
            var t := ReconcileAll(s, handled, clk);
            && Distinct(handled) && (forall i :: 0 <= i < |handled| ==> handled[i] in ExpiredIds(s.jobs, clk))
            && |handled| == Min(EffectiveLimit(limit), |ExpiredIds(s.jobs, clk)|)
            && ExpiredIds(t.jobs, clk) == ExpiredIds(s.jobs, clk) - (set id | id in handled)
            && |ExpiredIds(t.jobs, clk)| == |ExpiredIds(s.jobs, clk)| - |handled|
  {
    var sc := GlobalScope(limit, {});
    var ls, ds := LeaseCandidates(s.jobs, sc, clk), DeadlineCandidates(s.jobs, sc, clk);
    CandidatesAreExpired(s.jobs, limit, clk);
    var handled := leases + deadlines;
    HandledDistinct(s.jobs, ls, ds, leases, deadlines, EffectiveLimit(limit));
    RemoveDistinct(ExpiredIds(s.jobs, clk), handled);
    HandledSettle(s, handled, clk);
  }

  lemma HandledDistinct(jobs: map<Uuid, Job>, ls: set<Uuid>, ds: set<Uuid>, leases: seq<Uuid>, deadlines: seq<Uuid>,
                        limit: nat)
    requires ls !! ds && |leases| <= limit
    requires IsSelection(jobs, ls, Some(limit), leases) && IsSelection(jobs, ds, Some(limit - |leases|), deadlines)
    ensures Distinct(leases + deadlines) && |leases + deadlines| == Min(limit, |ls| + |ds|)
    ensures forall i :: 0 <= i < |leases + deadlines| ==> (leases + deadlines)[i] in ls + ds
  {
    var handled := leases + deadlines;
    forall i, j | 0 <= i < j < |handled| ensures handled[i] != handled[j] {
      assert i < |leases| ==> handled[i] in ls;
      assert j >= |leases| ==> handled[j] in ds;
    }
  }

  lemma HandledSettle(s: Store, handled: seq<Uuid>, clk: Clock)
    requires Keyed(s.jobs)
    ensures ExpiredIds(ReconcileAll(s, handled, clk).jobs, clk) == ExpiredIds(s.jobs, clk) - (set id | id in handled)
  {
    hide ReconcileAll, Log, Expired, Keyed;
    BatchIsPointwise(s, handled, clk);
    forall id | id in s.jobs ensures !Expired(ReconciledRow(s.jobs[id], id, clk(id)), clk(id).check) {
      ReconciledRowSettles(s.jobs[id], id, clk(id));
    }
  }

  lemma LaterExpires(jobs: map<Uuid, Job>, a: Clock, b: Clock)
    requires Later(a, b)
    ensures ExpiredIds(jobs, a) <= ExpiredIds(jobs, b)
  {
  }

  datatype Pass = Pass(leases: seq<Uuid>, deadlines: seq<Uuid>, clk: Clock)

  /** Global passes one after another, each on its own clock, and the clocks only move forward: from `first`, at or
      before the first pass, to `last`, at or after the last. */
  ghost predicate Passes(s: Store, limit: int, first: Clock, ps: seq<Pass>, last: Clock, t: Store)
    decreases |ps|
  {
    if ps == [] then s == t && Later(first, last)
    else
      && Keyed(s.jobs) && Later(first, ps[0].clk)
      && PassSelects(s, GlobalScope(limit, {}), ps[0].clk, ps[0].leases, ps[0].deadlines)
      && Passes(ReconcileAll(s, ps[0].leases + ps[0].deadlines, ps[0].clk), limit, ps[0].clk, ps[1..], last, t)
  }

  function Handled(ps: seq<Pass>): seq<Uuid>
    decreases |ps|
  {
    if ps == [] then [] else ps[0].leases + ps[0].deadlines + Handled(ps[1..])
  }

  lemma {:induction false} PassesMoveOn(s: Store, limit: int, first: Clock, ps: seq<Pass>, last: Clock, t: Store)
    requires Passes(s, limit, first, ps, last, t)
    ensures Later(first, last)
    decreases |ps|
  {
    hide ReconcileAll, PassSelects;
    if ps != [] {
      var next := ReconcileAll(s, ps[0].leases + ps[0].deadlines, ps[0].clk);
      PassesMoveOn(next, limit, ps[0].clk, ps[1..], last, t);
      LaterTrans(first, ps[0].clk, last);
    }
  }

  lemma LaterTrans(a: Clock, b: Clock, c: Clock)
    requires Later(a, b) && Later(b, c)
    ensures Later(a, c)
  {
  }

  /** Whenever one looks, exactly the handled rows are no longer among the expired. */
  lemma HandledAreGone(s: Store, handled: seq<Uuid>, clk: Clock, any: Clock)
    requires Keyed(s.jobs) && forall i :: 0 <= i < |handled| ==> handled[i] in ExpiredIds(s.jobs, clk)
    ensures ExpiredIds(ReconcileAll(s, handled, clk).jobs, any) == ExpiredIds(s.jobs, any) - (set id | id in handled)
  {
    hide ReconcileAll, Log, Expired, Keyed, ReconciledRow;
    BatchIsPointwise(s, handled, clk);
    forall id | id in handled ensures !Expired(ReconciledRow(s.jobs[id], id, clk(id)), any(id).check) {
      ReconciledNeverExpires(s.jobs[id], id, clk(id), any(id).check);
    }
  }

  lemma {:induction false} PassesSettle(s: Store, limit: int, first: Clock, ps: seq<Pass>, last: Clock, t: Store,
                                        any: Clock)
    requires Keyed(s.jobs) && Passes(s, limit, first, ps, last, t)
    ensures Distinct(Handled(ps)) && forall i :: 0 <= i < |Handled(ps)| ==> Handled(ps)[i] in ExpiredIds(s.jobs, last)
    ensures ExpiredIds(t.jobs, any) == ExpiredIds(s.jobs, any) - (set id | id in Handled(ps))
    decreases |ps|
  {
    hide ReconcileAll, PassSelects, ExpiredIds, Keyed, Distinct, Min, EffectiveLimit, Later;
    if ps == [] {
      DistinctNone();
    } else {
      var f, clk, rest := ps[0].leases + ps[0].deadlines, ps[0].clk, Handled(ps[1..]);
      var next := ReconcileAll(s, f, clk);
      PassHandlesExactly(s, limit, clk, ps[0].leases, ps[0].deadlines);
      ReconcileAllKeyed(s, f, clk);
      PassesSettle(next, limit, clk, ps[1..], last, t, any);
      PassesMoveOn(next, limit, clk, ps[1..], last, t);
      LaterExpires(s.jobs, clk, last);
      HandledAreGone(s, f, clk, last);
      HandledAreGone(s, f, clk, any);
      JoinHandled(f, rest, ExpiredIds(s.jobs, last), ExpiredIds(next.jobs, last));
      JoinGone(ExpiredIds(s.jobs, any), ExpiredIds(next.jobs, any), ExpiredIds(t.jobs, any), f, rest);
    }
  }

  lemma JoinGone(before: set<Uuid>, between: set<Uuid>, after: set<Uuid>, f: seq<Uuid>, rest: seq<Uuid>)
    requires between == before - (set id | id in f) && after == between - (set id | id in rest)
    ensures after == before - (set id | id in f + rest)
  {
  }

  lemma DistinctNone()
    ensures Distinct<Uuid>([])
  {
  }

  /** Either every pass used up its limit, or one of them left nothing behind that was expired at the start. */
  lemma {:induction false} PassesFill(s: Store, limit: int, first: Clock, ps: seq<Pass>, last: Clock, t: Store)
    requires Keyed(s.jobs) && Passes(s, limit, first, ps, last, t)
    ensures |Handled(ps)| <= |ps| * EffectiveLimit(limit)
    ensures |Handled(ps)| == |ps| * EffectiveLimit(limit) || ExpiredIds(t.jobs, first) == {}
    decreases |ps|
  {
    hide ReconcileAll, PassSelects, ExpiredIds, Keyed, Distinct, EffectiveLimit, Later;
    if ps != [] {
      var f, clk := ps[0].leases + ps[0].deadlines, ps[0].clk;
      var next := ReconcileAll(s, f, clk);
      PassHandlesExactly(s, limit, clk, ps[0].leases, ps[0].deadlines);
      ReconcileAllKeyed(s, f, clk);
      PassesFill(next, limit, clk, ps[1..], last, t);
      PassesSettle(next, limit, clk, ps[1..], last, t, clk);
      LaterExpires(t.jobs, first, clk);
      OneMorePass(|ps|, EffectiveLimit(limit));
      assert Handled(ps) == f + Handled(ps[1..]);
    }
  }

  lemma OneMorePass(k: nat, limit: nat)
    requires k > 0
    ensures k * limit == limit + (k - 1) * limit
  {
  }

  function Max0(a: int): int {
    if a <= 0 then 0 else a
  }

  /** Repeated passes drain, however far the clock moves between and during them. No row is handled twice, none that was
      not expired by the end; what is expired at the end is exactly what would have been without the passes, less the
      rows handled; and after k passes at most max(0, expired by the end - k * limit) rows remain that were expired at
      the start. */
  lemma PassesDrain(s: Store, limit: int, first: Clock, ps: seq<Pass>, last: Clock, t: Store)
    requires Keyed(s.jobs) && Passes(s, limit, first, ps, last, t)
    ensures Distinct(Handled(ps))
    ensures forall i :: 0 <= i < |Handled(ps)| ==> Handled(ps)[i] in ExpiredIds(s.jobs, last)
    ensures ExpiredIds(t.jobs, last) == ExpiredIds(s.jobs, last) - (set id | id in Handled(ps))
    ensures Min(|ps| * EffectiveLimit(limit), |ExpiredIds(s.jobs, first)|) <= |Handled(ps)|
                                                                        <= |ps| * EffectiveLimit(limit)
    ensures |ExpiredIds(t.jobs, last)| == |ExpiredIds(s.jobs, last)| - |Handled(ps)|
    ensures |ExpiredIds(t.jobs, first)| <= Max0(|ExpiredIds(s.jobs, last)| - |ps| * EffectiveLimit(limit))
  {
    hide Passes, Keyed, ExpiredIds, EffectiveLimit, Distinct, Later, Handled, Min, Max0;
    PassesSettle(s, limit, first, ps, last, t, last);
    PassesSettle(s, limit, first, ps, last, t, first);
    PassesFill(s, limit, first, ps, last, t);
    PassesMoveOn(s, limit, first, ps, last, t);
    LaterExpires(t.jobs, first, last);
    DrainCounts(ExpiredIds(s.jobs, first), ExpiredIds(s.jobs, last), ExpiredIds(t.jobs, first),
                ExpiredIds(t.jobs, last),
                Handled(ps), |ps| * EffectiveLimit(limit));
  }

  lemma DrainCounts(first: set<Uuid>, last: set<Uuid>, first': set<Uuid>, last': set<Uuid>, handled: seq<Uuid>,
                    budget: int)
    requires Distinct(handled) && forall i :: 0 <= i < |handled| ==> handled[i] in last
    requires last' == last - (set id | id in handled) && first' == first - (set id | id in handled) && first' <= last'
    requires |handled| <= budget && (|handled| == budget || first' == {})
    ensures Min(budget, |first|) <= |handled| && |last'| == |last| - |handled| && |first'| <= Max0(|last| - budget)
  {
    hide Distinct;
    var gone := set id | id in handled;
    RemoveDistinct(last, handled);
    SubsetCard(first', last');
    assert last == last' + gone;
    if first' == {} {
      SubsetCard(first, gone);
    }
  }

  /** Where all passes judge each row at one instant, the count is exact. */
  lemma PassesDrainExactly(s: Store, limit: int, clk: Clock, ps: seq<Pass>, t: Store)
    requires Keyed(s.jobs) && Passes(s, limit, clk, ps, clk, t)
    ensures |ExpiredIds(t.jobs, clk)| == Max0(|ExpiredIds(s.jobs, clk)| - |ps| * EffectiveLimit(limit))
  {
    hide Passes, Keyed, ExpiredIds, EffectiveLimit, Distinct, Handled;
    PassesDrain(s, limit, clk, ps, clk, t);
  }

  /** Later passes see only what the first left over. */
  lemma JoinHandled(first: seq<Uuid>, rest: seq<Uuid>, before: set<Uuid>, after: set<Uuid>)
    requires Distinct(first) && Distinct(rest) && after == before - (set id | id in first)
    requires forall i :: 0 <= i < |first| ==> first[i] in before
    requires forall i :: 0 <= i < |rest| ==> rest[i] in after
    ensures Distinct(first + rest) && forall i :: 0 <= i < |first + rest| ==> (first + rest)[i] in before
  {
    var all := first + rest;
    forall i, j | 0 <= i < j < |all| ensures all[i] != all[j] {
      assert i < |first| ==> all[i] !in after;
      assert j >= |first| ==> all[j] in after;
    }
  }
}
