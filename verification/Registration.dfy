/** One-time enrollment tokens and agent identities (internal/database/database.go). A token row is filed under its
    hash and an agent row under its id; both are unique in the tables. Hashes and public keys are opaque. */
module Registration {
  import opened Uuids
  import opened JobDomain

  type Key = nat

  datatype Token = Token(expiresAt: Time, consumed: bool)
  datatype AgentRow = AgentRow(key: Key, token: Hash)
  datatype Tables = Tables(tokens: map<Hash, Token>, agents: map<Uuid, AgentRow>)
  datatype RegisterReply = Registered(agent: Uuid, created: bool) | Rejected | IdentityConflict | RegisterInternal

  predicate TokenUsed(agents: map<Uuid, AgentRow>, token: Hash) {
    exists id :: id in agents && agents[id].token == token
  }

  predicate KeyUsed(agents: map<Uuid, AgentRow>, key: Key) {
    exists id :: id in agents && agents[id].key == key
  }

  ghost function AgentOf(agents: map<Uuid, AgentRow>, token: Hash): (id: Uuid)
    requires TokenUsed(agents, token)
    ensures id in agents && agents[id].token == token
  {
    var id :| id in agents && agents[id].token == token;
    id
  }

  /** The transaction; `newId` is the column default and `now` the transaction's clock reading. */
  ghost function Register(t: Tables, token: Hash, key: Key, newId: Uuid, now: Time): (Tables, RegisterReply) {
    if token !in t.tokens then (t, Rejected)
    else if t.tokens[token].consumed then
      if !TokenUsed(t.agents, token) then (t, RegisterInternal)
      else if t.agents[AgentOf(t.agents, token)].key != key then (t, Rejected)
      else (t, Registered(AgentOf(t.agents, token), false))
    else if now >= t.tokens[token].expiresAt then (t, Rejected)
    else if KeyUsed(t.agents, key) || TokenUsed(t.agents, token) || newId in t.agents then (t, IdentityConflict)
    else
      (Tables(t.tokens[token := t.tokens[token].(consumed := true)], t.agents[newId := AgentRow(key, token)]),
       Registered(newId, true))
  }

  function Issue(t: Tables, token: Hash, expiresAt: Time): Tables {
    if token in t.tokens then t else t.(tokens := t.tokens[token := Token(expiresAt, false)])
  }

  // ---------- the invariant ----------

  /** Consumed tokens and agents are in bijection, and no two agents share a key. */
  predicate TablesInv(t: Tables) {
    && (forall a, b :: a in t.agents && b in t.agents && a != b ==> t.agents[a].key != t.agents[b].key)
    && (forall a, b :: a in t.agents && b in t.agents && a != b ==> t.agents[a].token != t.agents[b].token)
    && (forall a :: a in t.agents ==> t.agents[a].token in t.tokens && t.tokens[t.agents[a].token].consumed)
    && (forall k :: k in t.tokens && t.tokens[k].consumed ==> TokenUsed(t.agents, k))
  }

  /** Agents are for ever, and a consumed token stays consumed. */
  predicate TablesGrow(t: Tables, u: Tables) {
    && (forall a :: a in t.agents ==> a in u.agents && u.agents[a] == t.agents[a])
    && (forall k :: k in t.tokens ==> k in u.tokens && u.tokens[k].expiresAt == t.tokens[k].expiresAt
                                      && (t.tokens[k].consumed ==> u.tokens[k].consumed))
  }

  /** Inserting an agent under an unused key and token and using the token up. */
  lemma InsertKeepsInv(t: Tables, token: Hash, key: Key, newId: Uuid)
    requires TablesInv(t) && token in t.tokens && !KeyUsed(t.agents, key) && !TokenUsed(t.agents, token)
             && newId !in t.agents
    ensures var u := Tables(t.tokens[token := t.tokens[token].(consumed := true)],
                            t.agents[newId := AgentRow(key, token)]);
            TablesInv(u) && TablesGrow(t, u) && u != t && u.agents.Keys == t.agents.Keys + {newId}
  {
    var u := Tables(t.tokens[token := t.tokens[token].(consumed := true)], t.agents[newId := AgentRow(key, token)]);
    assert newId in u.agents;
    forall k | k in u.tokens && u.tokens[k].consumed ensures TokenUsed(u.agents, k) {
      if k == token {
        assert u.agents[newId].token == k;
      } else {
        var id :| id in t.agents && t.agents[id].token == k;
        assert u.agents[id].token == k;
      }
    }
  }

  lemma ConsumedIsUsed(t: Tables, token: Hash)
    requires TablesInv(t) && token in t.tokens && t.tokens[token].consumed
    ensures TokenUsed(t.agents, token)
  {
  }

  lemma UsedIsConsumed(t: Tables, token: Hash)
    requires TablesInv(t)
    ensures TokenUsed(t.agents, token) ==> token in t.tokens && t.tokens[token].consumed
  {
  }

  lemma GrowSame(t: Tables)
    ensures TablesGrow(t, t)
  {
  }

  /** A registration keeps the bijection, and it creates an agent exactly for a known, unused, unexpired token with an
      unused key; every other registration, rejected, conflicting or repeated, changes nothing. */
  lemma RegisterKeepsInv(t: Tables, token: Hash, key: Key, newId: Uuid, now: Time)
    requires TablesInv(t)
    ensures var (u, r) := Register(t, token, key, newId, now);
            && TablesInv(u) && TablesGrow(t, u) && r != RegisterInternal
            && (r.Registered? ==> r.agent in u.agents && u.agents[r.agent] == AgentRow(key, token))
            && (r == Registered(newId, true) && newId !in t.agents <==> u != t)
            && (u != t ==> u.agents.Keys == t.agents.Keys + {newId})
            && (u != t <==> token in t.tokens && !t.tokens[token].consumed && now < t.tokens[token].expiresAt
                            && !KeyUsed(t.agents, key) && newId !in t.agents)
  {
    hide TablesInv, TablesGrow, TokenUsed, KeyUsed;
    UsedIsConsumed(t, token);
    GrowSame(t);
    if token in t.tokens && t.tokens[token].consumed {
      ConsumedIsUsed(t, token);
    } else if Register(t, token, key, newId, now).1.Registered? {
      InsertKeepsInv(t, token, key, newId);
    }
  }

  lemma IssueKeepsInv(t: Tables, token: Hash, expiresAt: Time)
    requires TablesInv(t)
    ensures TablesInv(Issue(t, token, expiresAt)) && TablesGrow(t, Issue(t, token, expiresAt))
  {
  }

  // ---------- runs ----------

  datatype RegistryOp = IssueOp(token: Hash, expiresAt: Time) | RegisterOp(token: Hash, key: Key, newId: Uuid,
      now: Time)

  ghost function ApplyRegistry(t: Tables, op: RegistryOp): Tables {
    match op
    case IssueOp(token, expiresAt) => Issue(t, token, expiresAt)
    case RegisterOp(token, key, newId, now) => Register(t, token, key, newId, now).0
  }

  ghost function ApplyAll(t: Tables, ops: seq<RegistryOp>): Tables {
    if ops == [] then t else ApplyRegistry(ApplyAll(t, ops[..|ops| - 1]), ops[|ops| - 1])
  }

  lemma {:induction false} ApplyAllKeepsInv(t: Tables, ops: seq<RegistryOp>)
    requires TablesInv(t)
    ensures TablesInv(ApplyAll(t, ops)) && TablesGrow(t, ApplyAll(t, ops))
    decreases |ops|
  {
    if ops != [] {
      ApplyAllKeepsInv(t, ops[..|ops| - 1]);
      var mid := ApplyAll(t, ops[..|ops| - 1]);
      match ops[|ops| - 1] {
        case IssueOp(token, expiresAt) => IssueKeepsInv(mid, token, expiresAt);
        case RegisterOp(token, key, newId, now) => RegisterKeepsInv(mid, token, key, newId, now);
      }
    }
  }

  /** Whatever happens after a token and key were registered together: the same pair always gets the same id back, at
      any time and so after expiry too; any other key is rejected with that token; that key conflicts with, or is
      rejected for, every other token; and none of these change the tables. */
  lemma RegistrationIsFinal(t: Tables, token: Hash, key: Key, newId: Uuid, now: Time, ops: seq<RegistryOp>,
                            token': Hash, key': Key, newId': Uuid, now': Time)
    requires TablesInv(t) && Register(t, token, key, newId, now).1.Registered?
    ensures var id := Register(t, token, key, newId, now).1.agent;
            var u := ApplyAll(Register(t, token, key, newId, now).0, ops);
            && Register(u, token, key, newId', now') == (u, Registered(id, false))
            && (key' != key ==> Register(u, token, key', newId', now') == (u, Rejected))
            && (token' != token ==>
                 Register(u, token', key, newId', now') ==
                   (u, if token' in u.tokens && !u.tokens[token'].consumed && now' < u.tokens[token'].expiresAt
                       then IdentityConflict else Rejected))
  {
    hide TablesGrow;
    RegisterKeepsInv(t, token, key, newId, now);
    var (t1, r) := Register(t, token, key, newId, now);
    ApplyAllKeepsInv(t1, ops);
    GrownAgent(t1, ApplyAll(t1, ops), r.agent);
    var u := ApplyAll(t1, ops);
    assert u.agents[r.agent] == AgentRow(key, token);
    assert TokenUsed(u.agents, token) && AgentOf(u.agents, token) == r.agent;
    assert KeyUsed(u.agents, key);
  }

  lemma GrownAgent(t: Tables, u: Tables, id: Uuid)
    requires TablesGrow(t, u) && id in t.agents
    ensures id in u.agents && u.agents[id] == t.agents[id]
  {
  }

  function Consumed(t: Tables): set<Hash> {
    set k | k in t.tokens && t.tokens[k].consumed
  }

  lemma {:induction false} ImageCard(ids: set<Uuid>, agents: map<Uuid, AgentRow>)
    requires ids <= agents.Keys
    requires forall a, b :: a in ids && b in ids && a != b ==> agents[a].token != agents[b].token
    ensures |set a | a in ids :: agents[a].token| == |ids|
    decreases |ids|
  {
    if ids != {} {
      var x :| x in ids;
      ImageCard(ids - {x}, agents);
      assert (set a | a in ids :: agents[a].token) == (set a | a in ids - {x} :: agents[a].token) + {agents[x].token};
    }
  }

  /** As many tokens were ever used up as there are agents. */
  lemma TokensMatchAgents(t: Tables)
    requires TablesInv(t)
    ensures |Consumed(t)| == |t.agents|
  {
    ImageCard(t.agents.Keys, t.agents);
    assert Consumed(t) == set a | a in t.agents.Keys :: t.agents[a].token;
  }

  /** Some agent was registered with this token and key; some agent holds the key. */
  predicate PairUsed(t: Tables, token: Hash, key: Key, id: Uuid) {
    id in t.agents && t.agents[id].token == token && t.agents[id].key == key
  }

  /** The answer of a registration, by what the tables show: a pair that was registered gets its agent again; else an
      unknown, used or expired token is rejected; else a key or id in use conflicts; else the agent is new. */
  lemma RegisterExactly(t: Tables, token: Hash, key: Key, newId: Uuid, now: Time)
    requires TablesInv(t)
    ensures var r := Register(t, token, key, newId, now).1;
            && (forall id :: PairUsed(t, token, key, id) ==> r == Registered(id, false))
            && ((forall id :: !PairUsed(t, token, key, id)) ==>
                 r == if token !in t.tokens || t.tokens[token].consumed || t.tokens[token].expiresAt <= now
                     then Rejected
                      else if (exists id :: id in t.agents && t.agents[id].key == key) || newId in t.agents
                          then IdentityConflict
                      else Registered(newId, true))
  {
    UsedIsConsumed(t, token);
    if token in t.tokens && t.tokens[token].consumed {
      ConsumedIsUsed(t, token);
      var a := AgentOf(t.agents, token);
      assert t.agents[a].key == key ==> PairUsed(t, token, key, a);
    }
  }

  // ---------- the tables updated in place ----------

  class Registry {
    var tokens: map<Hash, Token>
    var agents: map<Uuid, AgentRow>

    ghost function View(): Tables
      reads this
    {
      Tables(tokens, agents)
    }

    constructor ()
      ensures View() == Tables(map[], map[]) && TablesInv(View())
    {
      tokens, agents := map[], map[];
    }

    method CreateEnrollmentToken(token: Hash, expiresAt: Time) returns (ok: bool)
      modifies this
      ensures View() == Issue(old(View()), token, expiresAt)
      ensures ok == (token !in old(tokens))
    {
      ok := token !in tokens;
      if ok {
        tokens := tokens[token := Token(expiresAt, false)];
      }
    }

    method RegisterAgent(token: Hash, key: Key, newId: Uuid, now: Time) returns (reply: RegisterReply)
      requires TablesInv(View())
      modifies this
      ensures (View(), reply) == Register(old(View()), token, key, newId, now)
      ensures TablesInv(View()) && TablesGrow(old(View()), View())
    {
      RegisterKeepsInv(View(), token, key, newId, now);
      if token !in tokens {
        return Rejected;
      }
      var row := tokens[token];
      if row.consumed {
        var existing :| existing in agents && agents[existing].token == token;
        if agents[existing].key != key {
          return Rejected;
        }
        return Registered(existing, false);
      }
      if now >= row.expiresAt {
        return Rejected;
      }
      if newId in agents || exists id :: id in agents && (agents[id].key == key || agents[id].token == token) {
        return IdentityConflict;
      }
      agents := agents[newId := AgentRow(key, token)];
      tokens := tokens[token := row.(consumed := true)];
      reply := Registered(newId, true);
    }
  }
}
