/** What each session transaction answers and does, told by the columns of the rows it finds. Times are microseconds. */
module SessionAnswers {
  import opened Helpers
  import opened Uuids
  import opened JobDomain
  import opened Sessions

  /** The operator's unexpired sessions created after this one, ties broken by the id. */
  function LaterLive(rows: map<Uuid, Session>, operator: Uuid, now: Time, id: Uuid): set<Uuid>
    requires id in rows
  {
    set o | o in rows && rows[o].operator == operator && now < rows[o].expiresAt
            && (rows[id].createdAt < rows[o].createdAt || (rows[id].createdAt == rows[o].createdAt && id < o))
  }

  /** The row outlives a login of `operator`: it is someone else's, or unexpired with fewer than seven later ones. */
  predicate Stays(rows: map<Uuid, Session>, operator: Uuid, now: Time, id: Uuid) {
    && id in rows
    && (|| rows[id].operator != operator
        || (now < rows[id].expiresAt && |LaterLive(rows, operator, now, id)| < 7))
  }

  /** A row that stays holds the new id or the new hash. */
  predicate Clashes(rows: map<Uuid, Session>, operator: Uuid, now: Time, newId: Uuid, hash: Hash) {
    exists id :: Stays(rows, operator, now, id) && (id == newId || rows[id].hash == hash)
  }

  lemma PrunedExactly(rows: map<Uuid, Session>, operator: Uuid, now: Time, id: Uuid)
    ensures id in Pruned(rows, operator, now) <==> Stays(rows, operator, now, id)
    ensures id in Pruned(rows, operator, now) ==> id in rows && Pruned(rows, operator, now)[id] == rows[id]
  {
    if id in rows {
      assert NewerThan(rows, LiveOf(rows, operator, now), id) == LaterLive(rows, operator, now, id);
    }
  }

  /** A login is refused exactly if the operator is absent or disabled. It fails inside exactly if the new id or hash is
      held by another operator's row or by one of this operator's up to seven newest unexpired ones. Otherwise it
      succeeds for twelve hours, and the table then holds the new row and exactly the rows that stay. */
  lemma LoginExactly(t: Tables, operator: Uuid, hash: Hash, newId: Uuid, now: Time)
    ensures var (u, r) := Login(t, operator, hash, newId, now);
            var until := now + 43_200_000_000;
            if operator !in t.operators || t.operators[operator].disabled then u == t && r == LoginRefused
            else if Clashes(t.sessions, operator, now, newId, hash) then u == t && r == LoginInternal
            else
              && r == LoggedIn(newId, until) && u.operators == t.operators
              && u.audit == t.audit + [LoginAudit(operator, t.operators[operator].username)]
              && (forall id :: id in u.sessions <==> id == newId || Stays(t.sessions, operator, now, id))
              && (forall id :: id in u.sessions ==>
                   u.sessions[id] == if id == newId then Session(operator, hash, now, until) else t.sessions[id])
  {
    hide Pruned, Stays;
    var rows := Pruned(t.sessions, operator, now);
    forall id
      ensures id in rows <==> Stays(t.sessions, operator, now, id)
      ensures id in rows ==> id in t.sessions && rows[id] == t.sessions[id]
    {
      PrunedExactly(t.sessions, operator, now, id);
    }
    ClashExactly(t.sessions, rows, operator, now, newId, hash);
  }

  lemma ClashExactly(rows: map<Uuid, Session>, kept: map<Uuid, Session>, operator: Uuid, now: Time, newId: Uuid,
                     hash: Hash)
    requires forall id :: id in kept <==> Stays(rows, operator, now, id)
    requires forall id :: id in kept ==> id in rows && kept[id] == rows[id]
    ensures newId in kept || HashHeld(kept, hash) <==> Clashes(rows, operator, now, newId, hash)
  {
    hide Stays;
    if Clashes(rows, operator, now, newId, hash) {
      var id :| Stays(rows, operator, now, id) && (id == newId || (id in rows && rows[id].hash == hash));
      assert id in kept;
    }
  }

  /** A logout succeeds exactly if the session is there and is this operator's; then that row is gone, no other, and the
      logout is on record. */
  lemma LogoutExactly(t: Tables, session: Uuid, operator: Uuid, username: string)
    ensures var (u, found) := Logout(t, session, operator, username);
            && (found <==> session in t.sessions && t.sessions[session].operator == operator)
            && u == if found then Tables(t.operators, map id | id in t.sessions && id != session :: t.sessions[id],
                                         t.audit + [LogoutAudit(operator, username)])
                    else t
  {
    var (u, found) := Logout(t, session, operator, username);
    if found {
      assert u.sessions == map id | id in t.sessions && id != session :: t.sessions[id];
    }
  }

  /** The row lets its bearer in: this hash, not yet expired, of an operator that exists and is not disabled. */
  predicate LetsIn(t: Tables, id: Uuid, hash: Hash, now: Time) {
    && id in t.sessions && t.sessions[id].hash == hash && now < t.sessions[id].expiresAt
    && t.sessions[id].operator in t.operators && !t.operators[t.sessions[id].operator].disabled
  }

  /** A token is let in exactly if a row lets it in, and then as that row's operator, with the operator's name and
      role. */
  lemma FindExactly(t: Tables, hash: Hash, now: Time, p: Option<Principal>)
    requires TableInv(t) && Finds(t, hash, now, p)
    ensures p.Some? <==> exists id :: LetsIn(t, id, hash, now)
    ensures forall id :: LetsIn(t, id, hash, now) ==>
              var s := t.sessions[id];
              p == Some(Principal(s.operator, t.operators[s.operator].username, t.operators[s.operator].role, id,
                                  s.expiresAt))
  {
    hide Bounded, OwnersKnown;
    forall id ensures LetsIn(t, id, hash, now) <==> Authenticates(t, id, hash, now) {
    }
  }

  /** While its operator is disabled, no token of it is let in. */
  lemma DisabledIsOut(t: Tables, id: Uuid, now: Time, p: Option<Principal>)
    requires TableInv(t) && id in t.sessions && Finds(t, t.sessions[id].hash, now, p)
    requires t.sessions[id].operator in t.operators && t.operators[t.sessions[id].operator].disabled
    ensures p == None
  {
    hide Bounded, OwnersKnown, Finds;
    FindExactly(t, t.sessions[id].hash, now, p);
    forall x ensures !LetsIn(t, x, t.sessions[id].hash, now) {
    }
  }
}
