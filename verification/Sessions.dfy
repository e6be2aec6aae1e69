/** The operator session table, which evicts on login (internal/database/database.go). Token hashes are opaque; session
    ids, hashes and clock readings are inputs. No order of clock readings is assumed between transactions: a
    transaction's reading is its start, and transactions may commit in another order. */
module Sessions {
  import opened Helpers
  import opened Uuids
  import opened JobDomain
  import opened JobEngine

  const LIFETIME: int := 12 * 3600 * SECOND
  const MAX_SESSIONS: nat := 8

  datatype Session = Session(operator: Uuid, hash: Hash, createdAt: Time, expiresAt: Time)
  datatype SessionAudit = LoginAudit(operator: Uuid, username: string) | LogoutAudit(operator: Uuid, username: string)
  datatype Tables = Tables(operators: map<Uuid, Operator>, sessions: map<Uuid, Session>, audit: seq<SessionAudit>)

  // ---------- the newest sessions ----------

  /** Later in (created_at, id) order. */
  predicate Newer(rows: map<Uuid, Session>, a: Uuid, b: Uuid)
    requires a in rows && b in rows
  {
    rows[a].createdAt > rows[b].createdAt || (rows[a].createdAt == rows[b].createdAt && a > b)
  }

  function NewerThan(rows: map<Uuid, Session>, ids: set<Uuid>, id: Uuid): set<Uuid>
    requires ids <= rows.Keys && id in rows
  {
    set o | o in ids && Newer(rows, o, id)
  }

  /** The ids that fewer than `n` others are newer than. */
  function Newest(rows: map<Uuid, Session>, ids: set<Uuid>, n: nat): (keep: set<Uuid>)
    requires ids <= rows.Keys
    ensures keep <= ids
  {
    set id | id in ids && |NewerThan(rows, ids, id)| < n
  }

  lemma {:induction false} NewestExists(rows: map<Uuid, Session>, ids: set<Uuid>) returns (top: Uuid)
    requires ids <= rows.Keys && ids != {}
    ensures top in ids && forall o :: o in ids && o != top ==> Newer(rows, top, o)
    decreases |ids|
  {
    var x :| x in ids;
    var rest := ids - {x};
    assert forall o :: o in ids ==> o == x || o in rest;
    if rest == {} {
      top := x;
    } else {
      var best := NewestExists(rows, rest);
      top := if Newer(rows, x, best) then x else best;
    }
  }

  /** Taking the newest out leaves the rest of the choice. */
  lemma NewestStep(rows: map<Uuid, Session>, ids: set<Uuid>, n: nat, top: Uuid)
    requires ids <= rows.Keys && n > 0 && top in ids && forall o :: o in ids && o != top ==> Newer(rows, top, o)
    ensures Newest(rows, ids, n) == {top} + Newest(rows, ids - {top}, n - 1)
  {
    assert NewerThan(rows, ids, top) == {};
    forall id | id in ids && id != top
      ensures |NewerThan(rows, ids, id)| == |NewerThan(rows, ids - {top}, id)| + 1
    {
      assert NewerThan(rows, ids, id) == NewerThan(rows, ids - {top}, id) + {top};
    }
  }

  /** What the rank says is what ORDER BY and LIMIT say: as many as allowed, each newer than all that are left. */
  lemma {:induction false} NewestIsTop(rows: map<Uuid, Session>, ids: set<Uuid>, n: nat)
    requires ids <= rows.Keys
    ensures |Newest(rows, ids, n)| == Min(n, |ids|)
    ensures forall k, o :: k in Newest(rows, ids, n) && o in ids && o !in Newest(rows, ids, n) ==> Newer(rows, k, o)
    decreases n
  {
    hide Newest;
    if n == 0 || ids == {} {
      NewestNone(rows, ids, n);
    } else {
      var top := NewestExists(rows, ids);
      var rest := ids - {top};
      NewestStep(rows, ids, n, top);
      NewestIsTop(rows, rest, n - 1);
      assert ids == rest + {top};
    }
  }

  lemma NewestNone(rows: map<Uuid, Session>, ids: set<Uuid>, n: nat)
    requires ids <= rows.Keys && (n == 0 || ids == {})
    ensures Newest(rows, ids, n) == {}
  {
  }

  // ---------- the transactions ----------

  function SessionsOf(rows: map<Uuid, Session>, operator: Uuid): (ids: set<Uuid>)
    ensures ids <= rows.Keys
  {
    set id | id in rows && rows[id].operator == operator
  }

  function LiveOf(rows: map<Uuid, Session>, operator: Uuid, now: Time): (live: set<Uuid>)
    ensures live <= rows.Keys
  {
    set id | id in rows && rows[id].operator == operator && rows[id].expiresAt > now
  }

  predicate HashHeld(rows: map<Uuid, Session>, hash: Hash) {
    exists id :: id in rows && rows[id].hash == hash
  }

  predicate IsEnabled(operators: map<Uuid, Operator>, operator: Uuid) {
    operator in operators && !operators[operator].disabled
  }

  /** The rows left when a login has pruned: other operators' rows, and of this one's the newest unexpired. */
  function Pruned(rows: map<Uuid, Session>, operator: Uuid, now: Time): (kept: map<Uuid, Session>) {
    var keep := Newest(rows, LiveOf(rows, operator, now), MAX_SESSIONS - 1);
    map id | id in rows && (rows[id].operator != operator || id in keep) :: rows[id]
  }

  datatype LoginReply = LoggedIn(session: Uuid, expiresAt: Time) | LoginRefused | LoginInternal

  function Login(t: Tables, operator: Uuid, hash: Hash, newId: Uuid, now: Time): (Tables, LoginReply) {
    if !IsEnabled(t.operators, operator) then (t, LoginRefused)
    else
      var rows := Pruned(t.sessions, operator, now);
      if newId in rows || HashHeld(rows, hash) then (t, LoginInternal)
      else
        (Tables(t.operators, rows[newId := Session(operator, hash, now, now + LIFETIME)],
                t.audit + [LoginAudit(operator, t.operators[operator].username)]),
         LoggedIn(newId, now + LIFETIME))
  }

  datatype Principal = Principal(operator: Uuid, username: string, role: Role, session: Uuid, expiresAt: Time)

  predicate Authenticates(t: Tables, id: Uuid, hash: Hash, now: Time) {
    id in t.sessions && t.sessions[id].hash == hash && t.sessions[id].expiresAt > now
        && IsEnabled(t.operators, t.sessions[id].operator)
  }

  function PrincipalOf(t: Tables, id: Uuid): Principal
    requires id in t.sessions && t.sessions[id].operator in t.operators
  {
    var s := t.sessions[id];
    Principal(s.operator, t.operators[s.operator].username, t.operators[s.operator].role, id, s.expiresAt)
  }

  /** None is the answer "authentication failed". */
  ghost predicate Finds(t: Tables, hash: Hash, now: Time, p: Option<Principal>) {
    match p
    case Some(who) => Authenticates(t, who.session, hash, now) && who == PrincipalOf(t, who.session)
    case None => forall id :: !Authenticates(t, id, hash, now)
  }

  function Logout(t: Tables, session: Uuid, operator: Uuid, username: string): (Tables, bool) {
    if session in t.sessions && t.sessions[session].operator == operator then
      (t.(sessions := t.sessions - {session}, audit := t.audit + [LogoutAudit(operator, username)]), true)
    else (t, false)
  }

  // ---------- the invariant ----------

  predicate HashesUnique(rows: map<Uuid, Session>) {
    forall a, b :: a in rows && b in rows && a != b ==> rows[a].hash != rows[b].hash
  }

  ghost predicate Bounded(rows: map<Uuid, Session>) {
    forall op: Uuid :: |SessionsOf(rows, op)| <= MAX_SESSIONS
  }

  predicate OwnersKnown(rows: map<Uuid, Session>, operators: map<Uuid, Operator>) {
    forall id :: id in rows ==> rows[id].operator in operators && rows[id].expiresAt == rows[id].createdAt + LIFETIME
  }

  ghost predicate TableInv(t: Tables) {
    HashesUnique(t.sessions) && Bounded(t.sessions) && OwnersKnown(t.sessions, t.operators)
  }

  lemma PrunedRows(rows: map<Uuid, Session>, operator: Uuid, now: Time)
    ensures var kept := Pruned(rows, operator, now);
            && (forall id :: id in kept ==> id in rows && kept[id] == rows[id])
            && SessionsOf(kept, operator) == Newest(rows, LiveOf(rows, operator, now), MAX_SESSIONS - 1)
            && (forall id :: id in rows && rows[id].operator != operator ==> id in kept)
  {
    hide Newest;
  }

  lemma InsertedRow(kept: map<Uuid, Session>, newId: Uuid, s: Session)
    requires newId !in kept
    ensures SessionsOf(kept[newId := s], s.operator) - {newId} == SessionsOf(kept, s.operator)
  {
  }

  /** `operator` has the new row and, of its unexpired ones, the seven newest or all; everyone else has what they
      had. */
  predicate Survivors(rows: map<Uuid, Session>, after: map<Uuid, Session>, operator: Uuid, newId: Uuid, now: Time) {
    var live, keep := LiveOf(rows, operator, now), SessionsOf(after, operator) - {newId};
    && keep <= live && |keep| == Min(MAX_SESSIONS - 1, |live|)
    && (forall k, o :: k in keep && o in live && o !in keep ==> Newer(rows, k, o))
    && (forall id :: id in rows && rows[id].operator != operator ==> id != newId && id in after)
    && (forall id :: id in after && id != newId ==> id in rows && after[id] == rows[id])
  }

  lemma InsertSurvivors(rows: map<Uuid, Session>, operator: Uuid, newId: Uuid, now: Time, s: Session)
    requires newId !in Pruned(rows, operator, now) && s.operator == operator
    ensures Survivors(rows, Pruned(rows, operator, now)[newId := s], operator, newId, now)
  {
    hide Newest, Pruned, LiveOf, Newer, Min, SessionsOf;
    PrunedRows(rows, operator, now);
    NewestIsTop(rows, LiveOf(rows, operator, now), MAX_SESSIONS - 1);
    InsertedRow(Pruned(rows, operator, now), newId, s);
  }

  /** A successful login leaves its operator exactly the new session and the up to seven newest unexpired ones, and
      everyone else what they had; one that fails leaves everything. */
  lemma LoginSurvivors(t: Tables, operator: Uuid, hash: Hash, newId: Uuid, now: Time)
    ensures var (u, r) := Login(t, operator, hash, newId, now);
            && (r.LoggedIn? <==> u != t) && u.operators == t.operators
            && (r.LoggedIn? ==>
                 && r == LoggedIn(newId, now + LIFETIME) && IsEnabled(t.operators, operator)
                 && u.audit == t.audit + [LoginAudit(operator, t.operators[operator].username)]
                 && newId in u.sessions && u.sessions[newId] == Session(operator, hash, now, now + LIFETIME)
                 && Survivors(t.sessions, u.sessions, operator, newId, now))
  {
    hide Pruned, Survivors, IsEnabled, HashHeld;
    var (u, r) := Login(t, operator, hash, newId, now);
    if r.LoggedIn? {
      assert |u.audit| == |t.audit| + 1;
      InsertSurvivors(t.sessions, operator, newId, now, u.sessions[newId]);
    }
  }

  lemma LoginKeepsInv(t: Tables, operator: Uuid, hash: Hash, newId: Uuid, now: Time)
    requires TableInv(t)
    ensures TableInv(Login(t, operator, hash, newId, now).0)
  {
    hide Newer, Bounded;
    LoginSurvivors(t, operator, hash, newId, now);
    LoginKeepsBound(t, operator, hash, newId, now);
  }

  lemma LoginKeepsBound(t: Tables, operator: Uuid, hash: Hash, newId: Uuid, now: Time)
    requires Bounded(t.sessions)
    ensures Bounded(Login(t, operator, hash, newId, now).0.sessions)
  {
    hide Login, Newer, Bounded;
    LoginSurvivors(t, operator, hash, newId, now);
    var (u, r) := Login(t, operator, hash, newId, now);
    if r.LoggedIn? {
      BoundAfter(t.sessions, u.sessions, operator, newId);
    }
  }

  lemma BoundAfter(rows: map<Uuid, Session>, after: map<Uuid, Session>, operator: Uuid, newId: Uuid)
    requires Bounded(rows) && newId in after && after[newId].operator == operator
    requires |SessionsOf(after, operator) - {newId}| <= MAX_SESSIONS - 1
    requires forall id :: id in after && id != newId ==> id in rows && after[id] == rows[id]
    ensures Bounded(after)
  {
    forall op: Uuid ensures |SessionsOf(after, op)| <= MAX_SESSIONS {
      if op == operator {
        assert SessionsOf(after, op) == (SessionsOf(after, op) - {newId}) + {newId};
      } else {
        SubsetCard(SessionsOf(after, op), SessionsOf(rows, op));
      }
    }
  }

  lemma LogoutKeepsInv(t: Tables, session: Uuid, operator: Uuid, username: string)
    requires TableInv(t)
    ensures TableInv(Logout(t, session, operator, username).0)
  {
    var u := Logout(t, session, operator, username).0;
    forall op: Uuid ensures |SessionsOf(u.sessions, op)| <= MAX_SESSIONS {
      SubsetCard(SessionsOf(u.sessions, op), SessionsOf(t.sessions, op));
    }
  }

  // ---------- runs ----------

  datatype SessionOp =
    | LoginOp(operator: Uuid, hash: Hash, newId: Uuid, now: Time)
    | LogoutOp(session: Uuid, operator: Uuid, username: string)
    | OperatorsOp(operators: map<Uuid, Operator>)

  /** Operators are added, changed, disabled and enabled, never removed. */
  predicate SessionOpOK(t: Tables, op: SessionOp) {
    op.OperatorsOp? ==> t.operators.Keys <= op.operators.Keys
  }

  function ApplyOp(t: Tables, op: SessionOp): Tables {
    match op
    case LoginOp(operator, hash, newId, now) => Login(t, operator, hash, newId, now).0
    case LogoutOp(session, operator, username) => Logout(t, session, operator, username).0
    case OperatorsOp(operators) => t.(operators := operators)
  }

  predicate Run(t: Tables, ops: seq<SessionOp>, u: Tables)
    decreases |ops|
  {
    if ops == [] then t == u else SessionOpOK(t, ops[0]) && Run(ApplyOp(t, ops[0]), ops[1..], u)
  }

  lemma OpKeepsInv(t: Tables, op: SessionOp)
    requires TableInv(t) && SessionOpOK(t, op)
    ensures TableInv(ApplyOp(t, op))
  {
    hide Bounded, HashesUnique, Login, Logout;
    match op {
      case LoginOp(operator, hash, newId, now) => LoginKeepsInv(t, operator, hash, newId, now);
      case LogoutOp(session, operator, username) => LogoutKeepsInv(t, session, operator, username);
      case OperatorsOp(_) =>
    }
  }

  /** In every run, no operator ever has more than eight session rows. */
  lemma {:induction false} RunKeepsInv(t: Tables, ops: seq<SessionOp>, u: Tables)
    requires TableInv(t) && Run(t, ops, u)
    ensures TableInv(u) && forall op: Uuid :: |SessionsOf(u.sessions, op)| <= 8
    decreases |ops|
  {
    hide HashesUnique, OwnersKnown, ApplyOp;
    if ops != [] {
      OpKeepsInv(t, ops[0]);
      RunKeepsInv(ApplyOp(t, ops[0]), ops[1..], u);
    }
  }

  // ---------- a dead token stays dead ----------

  /** Some row lets this token in at this time, if its operator is enabled. */
  predicate Usable(rows: map<Uuid, Session>, hash: Hash, now: Time) {
    exists id :: id in rows && rows[id].hash == hash && rows[id].expiresAt > now
  }

  predicate Issues(ops: seq<SessionOp>, hash: Hash) {
    exists i :: 0 <= i < |ops| && ops[i].LoginOp? && ops[i].hash == hash
  }

  lemma StepStaysDead(t: Tables, op: SessionOp, hash: Hash, now: Time)
    requires !Usable(t.sessions, hash, now) && !(op.LoginOp? && op.hash == hash)
    ensures !Usable(ApplyOp(t, op).sessions, hash, now)
  {
    hide Login, Newer;
    if op.LoginOp? {
      LoginSurvivors(t, op.operator, op.hash, op.newId, op.now);
    }
  }

  /** With fresh hashes, a token that no longer gets in for want of a live row never gets in again. */
  lemma {:induction false} DeadStaysDead(t: Tables, ops: seq<SessionOp>, u: Tables, hash: Hash, now: Time, later: Time,
                                         p: Option<Principal>)
    requires Run(t, ops, u) && !Usable(t.sessions, hash, now) && !Issues(ops, hash) && now <= later
    requires Finds(u, hash, later, p)
    ensures p == None
    decreases |ops|
  {
    if ops != [] {
      hide Finds, ApplyOp;
      assert !(ops[0].LoginOp? && ops[0].hash == hash);
      StepStaysDead(t, ops[0], hash, now);
      assert !Issues(ops[1..], hash);
      DeadStaysDead(ApplyOp(t, ops[0]), ops[1..], u, hash, now, later, p);
    }
  }

  /** Every way a token dies leaves no live row for it: logging out, eviction by a login, and expiry. */
  lemma WaysToDie(t: Tables, id: Uuid, now: Time)
    requires TableInv(t) && id in t.sessions
    ensures forall username: string ::
              !Usable(Logout(t, id, t.sessions[id].operator, username).0.sessions, t.sessions[id].hash, now)
    ensures forall operator, hash, newId, ts ::
              id !in Login(t, operator, hash, newId, ts).0.sessions && hash != t.sessions[id].hash ==>
              !Usable(Login(t, operator, hash, newId, ts).0.sessions, t.sessions[id].hash, now)
    ensures t.sessions[id].expiresAt <= now ==> !Usable(t.sessions, t.sessions[id].hash, now)
  {
    hide Login, Newer, Bounded;
    forall operator, hash, newId, ts | id !in Login(t, operator, hash, newId, ts).0.sessions
        && hash != t.sessions[id].hash
      ensures !Usable(Login(t, operator, hash, newId, ts).0.sessions, t.sessions[id].hash, now)
    {
      LoginSurvivors(t, operator, hash, newId, ts);
    }
  }

  /** The step ends the session: its logout, or a login of its operator that finds it expired or finds seven of the
      operator's live sessions newer. */
  predicate Removes(t: Tables, op: SessionOp, id: Uuid) {
    && id in t.sessions
    && match op
       case LogoutOp(session, operator, _) => session == id && operator == t.sessions[id].operator
       case LoginOp(operator, hash, newId, now) =>
         && operator == t.sessions[id].operator && Login(t, operator, hash, newId, now).1.LoggedIn?
         && (t.sessions[id].expiresAt <= now
             || |NewerThan(t.sessions, LiveOf(t.sessions, operator, now), id)| >= MAX_SESSIONS - 1)
       case OperatorsOp(_) => false
  }

  /** Some step of the run does. */
  predicate Removed(t: Tables, ops: seq<SessionOp>, id: Uuid)
    decreases |ops|
  {
    ops != [] && (Removes(t, ops[0], id) || Removed(ApplyOp(t, ops[0]), ops[1..], id))
  }

  /** No login of the run is given this id. */
  predicate Unused(ops: seq<SessionOp>, id: Uuid) {
    forall i :: 0 <= i < |ops| && ops[i].LoginOp? ==> ops[i].newId != id
  }

  lemma StepRemoves(t: Tables, op: SessionOp, id: Uuid)
    requires id in t.sessions && (op.LoginOp? ==> op.newId != id)
    ensures id in ApplyOp(t, op).sessions <==> !Removes(t, op, id)
    ensures id in ApplyOp(t, op).sessions ==> ApplyOp(t, op).sessions[id] == t.sessions[id]
  {
    hide NewerThan, HashHeld, IsEnabled;
  }

  lemma {:induction false} GoneIsGone(t: Tables, ops: seq<SessionOp>, u: Tables, id: Uuid)
    requires Run(t, ops, u) && Unused(ops, id) && id !in t.sessions
    ensures id !in u.sessions && !Removed(t, ops, id)
    decreases |ops|
  {
    hide Login, Newer;
    if ops != [] {
      if ops[0].LoginOp? {
        LoginSurvivors(t, ops[0].operator, ops[0].hash, ops[0].newId, ops[0].now);
      }
      GoneIsGone(ApplyOp(t, ops[0]), ops[1..], u, id);
    }
  }

  /** Given fresh session ids, a session is still there after a run, with its row as it was, exactly if no step of the
      run was its logout, a login of its operator after its expiry, or a login of its operator with seven newer live
      sessions. */
  lemma {:induction false} SurvivesIff(t: Tables, ops: seq<SessionOp>, u: Tables, id: Uuid)
    requires Run(t, ops, u) && Unused(ops, id) && id in t.sessions
    ensures id in u.sessions <==> !Removed(t, ops, id)
    ensures id in u.sessions ==> u.sessions[id] == t.sessions[id]
    decreases |ops|
  {
    hide Removes, ApplyOp;
    if ops != [] {
      StepRemoves(t, ops[0], id);
      assert Unused(ops[1..], id);
      if Removes(t, ops[0], id) {
        GoneIsGone(ApplyOp(t, ops[0]), ops[1..], u, id);
      } else {
        SurvivesIff(ApplyOp(t, ops[0]), ops[1..], u, id);
      }
    }
  }

  /** A login's token gets in at once, as its operator. */
  lemma LoginAuthenticates(t: Tables, operator: Uuid, hash: Hash, newId: Uuid, now: Time, p: Option<Principal>)
    requires TableInv(t) && Login(t, operator, hash, newId, now).1.LoggedIn?
             && Finds(Login(t, operator, hash, newId, now).0, hash, now, p)
    ensures p == Some(Principal(operator, t.operators[operator].username, t.operators[operator].role, newId,
                                now + LIFETIME))
  {
    hide Login, Newer, Bounded;
    LoginSurvivors(t, operator, hash, newId, now);
    LoginKeepsInv(t, operator, hash, newId, now);
    var u := Login(t, operator, hash, newId, now).0;
    assert Authenticates(u, newId, hash, now);
  }

  // ---------- the audit trail ----------

  function Logins(audit: seq<SessionAudit>, operator: Uuid): nat {
    if audit == [] then 0
    else Logins(audit[..|audit| - 1], operator) + (if audit[|audit| - 1].LoginAudit?
                                                   && audit[|audit| - 1].operator == operator then 1 else 0)
  }

  function Logouts(audit: seq<SessionAudit>, operator: Uuid): nat {
    if audit == [] then 0
    else Logouts(audit[..|audit| - 1], operator) + (if audit[|audit| - 1].LogoutAudit?
                                                    && audit[|audit| - 1].operator == operator then 1 else 0)
  }

  /** Every row comes from an audited login, and every audited logout used up one more of them. */
  ghost predicate Covered(t: Tables) {
    forall op: Uuid :: |SessionsOf(t.sessions, op)| + Logouts(t.audit, op) <= Logins(t.audit, op)
  }

  lemma TrailAppend(audit: seq<SessionAudit>, a: SessionAudit, op: Uuid)
    ensures Logins(audit + [a], op) == Logins(audit, op) + (if a.LoginAudit? && a.operator == op then 1 else 0)
    ensures Logouts(audit + [a], op) == Logouts(audit, op) + (if a.LogoutAudit? && a.operator == op then 1 else 0)
  {
    assert (audit + [a])[..|audit|] == audit;
  }

  lemma LoginCovered(t: Tables, operator: Uuid, hash: Hash, newId: Uuid, now: Time)
    requires Covered(t)
    ensures Covered(Login(t, operator, hash, newId, now).0)
  {
    hide Login, Survivors, Logins, Logouts, SessionsOf;
    LoginSurvivors(t, operator, hash, newId, now);
    var (u, r) := Login(t, operator, hash, newId, now);
    if r.LoggedIn? {
      SurvivorsKept(t.sessions, u.sessions, operator, newId, now);
      forall op: Uuid ensures |SessionsOf(u.sessions, op)| + Logouts(u.audit, op) <= Logins(u.audit, op) {
        TrailAppend(t.audit, LoginAudit(operator, t.operators[operator].username), op);
        OneMoreRow(t.sessions, u.sessions, operator, newId, op);
      }
    }
  }

  lemma SurvivorsKept(rows: map<Uuid, Session>, after: map<Uuid, Session>, operator: Uuid, newId: Uuid, now: Time)
    requires Survivors(rows, after, operator, newId, now)
    ensures forall id :: id in after && id != newId ==> id in rows && after[id] == rows[id]
  {
  }

  lemma OneMoreRow(rows: map<Uuid, Session>, after: map<Uuid, Session>, operator: Uuid, newId: Uuid, op: Uuid)
    requires newId in after && after[newId].operator == operator
    requires forall id :: id in after && id != newId ==> id in rows && after[id] == rows[id]
    ensures |SessionsOf(after, op)| <= |SessionsOf(rows, op)| + (if op == operator then 1 else 0)
  {
    var kept := SessionsOf(after, op) - {newId};
    SubsetCard(kept, SessionsOf(rows, op));
    assert SessionsOf(after, op) == if op == operator then kept + {newId} else kept;
  }

  lemma LogoutCovered(t: Tables, session: Uuid, operator: Uuid, username: string)
    requires Covered(t)
    ensures Covered(Logout(t, session, operator, username).0)
  {
    hide Logins, Logouts;
    var (u, found) := Logout(t, session, operator, username);
    if found {
      forall op: Uuid ensures |SessionsOf(u.sessions, op)| + Logouts(u.audit, op) <= Logins(u.audit, op) {
        TrailAppend(t.audit, LogoutAudit(operator, username), op);
        assert SessionsOf(u.sessions, op) == SessionsOf(t.sessions, op) - {session};
      }
    }
  }

  /** In every run an operator's rows and audited logouts never outnumber the audited logins. */
  lemma {:induction false} TrailCovers(t: Tables, ops: seq<SessionOp>, u: Tables)
    requires Covered(t) && Run(t, ops, u)
    ensures Covered(u)
    decreases |ops|
  {
    hide Login, Logout;
    if ops != [] {
      match ops[0] {
        case LoginOp(operator, hash, newId, now) => LoginCovered(t, operator, hash, newId, now);
        case LogoutOp(session, operator, username) => LogoutCovered(t, session, operator, username);
        case OperatorsOp(_) =>
      }
      TrailCovers(ApplyOp(t, ops[0]), ops[1..], u);
    }
  }

  // ---------- the table updated in place ----------

  class SessionTable {
    var operators: map<Uuid, Operator>
    var sessions: map<Uuid, Session>
    var audit: seq<SessionAudit>

    ghost function View(): Tables
      reads this
    {
      Tables(operators, sessions, audit)
    }

    constructor (operators: map<Uuid, Operator>)
      ensures View() == Tables(operators, map[], []) && TableInv(View()) && Covered(View())
    {
      this.operators, sessions, audit := operators, map[], [];
      new;
      assert forall op: Uuid :: SessionsOf(sessions, op) == {};
    }

    /** The rows ORDER BY created_at DESC, id DESC LIMIT n selects, found one after another. */
    method SelectNewest(ids: set<Uuid>, n: nat) returns (keep: set<Uuid>)
      requires ids <= sessions.Keys
      ensures keep == Newest(sessions, ids, n)
    {
      keep := {};
      var left := ids;
      while |keep| < n && left != {}
        invariant left <= ids && keep !! left
        invariant |keep| <= n && Newest(sessions, ids, n) == keep + Newest(sessions, left, n - |keep|)
        decreases |left|
      {
        ghost var best := NewestExists(sessions, left);
        assert best in left && forall o :: o in left && o != best ==> Newer(sessions, best, o);
        var top :| top in left && forall o :: o in left && o != top ==> Newer(sessions, top, o);
        NewestStep(sessions, left, n - |keep|, top);
        keep, left := keep + {top}, left - {top};
      }
      NewestNone(sessions, left, n - |keep|);
    }

    method CreateOperatorSession(operator: Uuid, hash: Hash, newId: Uuid, now: Time) returns (reply: LoginReply)
      modifies this
      ensures (View(), reply) == Login(old(View()), operator, hash, newId, now)
    {
      hide Newest, DropExpired, DropExcess, Pruned;
      if operator !in operators || operators[operator].disabled {
        return LoginRefused;
      }
      var saved := sessions;
      TwoDeletes(saved, operator, now);
      sessions := DropExpired(sessions, operator, now);
      var keep := SelectNewest(SessionsOf(sessions, operator), MAX_SESSIONS - 1);
      sessions := DropExcess(sessions, operator, keep);
      if newId in sessions || exists id :: id in sessions && sessions[id].hash == hash {
        sessions := saved;
        return LoginInternal;
      }
      sessions := sessions[newId := Session(operator, hash, now, now + LIFETIME)];
      audit := audit + [LoginAudit(operator, operators[operator].username)];
      reply := LoggedIn(newId, now + LIFETIME);
    }

    method FindOperatorSessionByTokenHash(hash: Hash, now: Time) returns (p: Option<Principal>)
      ensures Finds(View(), hash, now, p)
    {
      if id :| id in sessions && sessions[id].hash == hash && sessions[id].expiresAt > now
               && sessions[id].operator in operators && !operators[sessions[id].operator].disabled {
        var s := sessions[id];
        return Some(Principal(s.operator, operators[s.operator].username, operators[s.operator].role, id, s.expiresAt));
      }
      p := None;
    }

    method RevokeOperatorSession(session: Uuid, operator: Uuid, username: string) returns (found: bool)
      modifies this
      ensures (View(), found) == Logout(old(View()), session, operator, username)
    {
      found := session in sessions && sessions[session].operator == operator;
      if found {
        sessions := sessions - {session};
        audit := audit + [LogoutAudit(operator, username)];
      }
    }
  }

  /** The two DELETE statements of a login. */
  function DropExpired(rows: map<Uuid, Session>, operator: Uuid, now: Time): map<Uuid, Session> {
    map id | id in rows && !(rows[id].operator == operator && rows[id].expiresAt <= now) :: rows[id]
  }

  function DropExcess(rows: map<Uuid, Session>, operator: Uuid, keep: set<Uuid>): map<Uuid, Session> {
    map id | id in rows && !(rows[id].operator == operator && id !in keep) :: rows[id]
  }

  lemma TwoDeletes(rows: map<Uuid, Session>, operator: Uuid, now: Time)
    ensures var mid := DropExpired(rows, operator, now);
            DropExcess(mid, operator, Newest(mid, SessionsOf(mid, operator), MAX_SESSIONS - 1)) ==
                Pruned(rows, operator, now)
  {
    hide Newest;
    var mid := DropExpired(rows, operator, now);
    assert SessionsOf(mid, operator) == LiveOf(rows, operator, now);
    SameNewest(rows, mid, SessionsOf(mid, operator), MAX_SESSIONS - 1);
  }

  lemma SameNewest(a: map<Uuid, Session>, b: map<Uuid, Session>, ids: set<Uuid>, n: nat)
    requires ids <= a.Keys && ids <= b.Keys && forall id :: id in ids ==> a[id] == b[id]
    ensures Newest(a, ids, n) == Newest(b, ids, n)
  {
    forall id | id in ids ensures NewerThan(a, ids, id) == NewerThan(b, ids, id) {
    }
  }
}
