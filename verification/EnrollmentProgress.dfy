/** Enrollment can always be brought to its end: a directory whose registration went through but whose answer was lost
    gets its identity by one more undisturbed call, from every state the system can be in. */
module EnrollmentProgress {
  import opened Helpers
  import opened Uuids
  import opened JobDomain
  import opened Registration
  import opened Enrollment
  import opened EnrollmentTheorems
  import opened EnrollmentUrls

  ghost predicate NetBetween(trace: seq<Net>, events: seq<NetEvent>, n: Net, m: Net) {
    NetRun(trace, events) && trace[0] == n && trace[|events|] == m
  }

  /** Some run leads from `n` to `m`. */
  ghost predicate NetLeads(n: Net, m: Net) {
    exists trace, events :: NetBetween(trace, events, n, m)
  }

  lemma NetLeadsHere(n: Net)
    ensures NetLeads(n, n)
  {
    assert NetBetween([n], [], n, n);
  }

  lemma NetExtend(n: Net, k: Net, e: NetEvent, m: Net)
    requires NetLeads(n, k) && NetStep(k, e, m)
    ensures NetLeads(n, m)
  {
    hide NetStep;
    var trace, events :| NetBetween(trace, events, n, k);
    var trace', events' := trace + [m], events + [e];
    forall i | 0 <= i < |events'| ensures NetStep(trace'[i], events'[i], trace'[i + 1]) {
      if i < |events| {
        assert NetStep(trace[i], events[i], trace[i + 1]);
      }
    }
    assert NetBetween(trace', events', n, m);
  }

  // ---------- the steps of the call ----------

  /** The state with this client in this phase and its directory like this. */
  function With(n: Net, pid: nat, c: Client, dir: Dir): Net {
    n.(clients := n.clients[pid := c], dirs := n.dirs[c.dir := dir])
  }

  lemma ClientMoves(n: Net, pid: nat, c: Client, dir: Dir, input: EnrollInput)
    requires !c.phase.Ready? && (input.Answer? ==> c.phase.Waiting? && (c.rid, input.reply) in n.replies)
    ensures var (phase, dir') := Progress(c.phase, c.url, dir, input);
            NetStep(With(n, pid, c, dir), Proceed(pid, input), With(n, pid, c.(phase := phase), dir'))
  {
    hide Progress, NetStep;
    var (phase, dir') := Progress(c.phase, c.url, dir, input);
    assert n.clients[pid := c][pid := c.(phase := phase)] == n.clients[pid := c.(phase := phase)];
    assert n.dirs[c.dir := dir][c.dir := dir'] == n.dirs[c.dir := dir'];
    ProceedIsStep(With(n, pid, c, dir), pid, input);
  }

  /** The request is sent. */
  function Asking(n: Net, q: EnrollRequest): Net {
    n.(sent := n.sent[n.nextRid := q], nextRid := n.nextRid + 1)
  }

  lemma ClientAsks(n: Net, pid: nat, c: Client, dir: Dir)
    requires c.phase.Ready?
    ensures NetStep(With(n, pid, c, dir), Proceed(pid, Nothing),
                    With(Asking(n, EnrollRequest(c.dir, c.url, c.token, c.phase.key)), pid,
                         c.(phase := Waiting(c.phase.key), rid := n.nextRid), dir))
  {
    hide NetStep, LoadIdentityMetadata, ReadReply;
    var c' := c.(phase := Waiting(c.phase.key), rid := n.nextRid);
    assert n.clients[pid := c][pid := c'] == n.clients[pid := c'];
    ProceedIsStep(With(n, pid, c, dir), pid, Nothing);
  }

  /** The registration that is there is found again. */
  lemma RegistrationFound(t: Tables, id: Uuid, newId: Uuid, now: Time)
    requires TablesInv(t) && id in t.agents
    ensures Register(t, t.agents[id].token, t.agents[id].key, newId, now) == (t, Registered(id, false))
  {
    var token := t.agents[id].token;
    assert TokenUsed(t.agents, token) && AgentOf(t.agents, token) == id;
  }

  lemma AnswerStep(n: Net, rid: nat, id: Uuid)
    requires rid in n.sent && Sound(n.tables)
    requires var c := n.sent[rid].url.controller;
             && id in TablesAt(n.tables, c).agents
             && TablesAt(n.tables, c).agents[id] == AgentRow(n.sent[rid].key, n.sent[rid].token)
    ensures ValidateUUIDv7(Format(id))
    ensures NetStep(n, Serve(rid, Faithful, id, 0),
                    n.(replies := n.replies + {(rid, EnrollReply(200, Some(Format(id))))}))
  {
    hide Register, ValidateUUIDv7, Format, TablesInv, Sound;
    var c := n.sent[rid].url.controller;
    SoundAt(n.tables, c);
    RegistrationFound(TablesAt(n.tables, c), id, id, 0);
    assert n.tables[c := TablesAt(n.tables, c)] == n.tables;
  }

  lemma SpawnStep(n: Net, d: nat, url: Url, token: Hash)
    ensures NetStep(n, Spawn(d, url, token),
                    n.(clients := n.clients[n.nextPid := Client(d, url, token, Begin, 0)], nextPid := n.nextPid + 1))
  {
    hide ServeStep, ProceedStep, ApplyRegistry, TablesAt, ValidateUUIDv7, Format;
  }

  lemma FirstLook(n: Net, pid: nat, c: Client)
    requires pid in n.clients && n.clients[pid] == c && c.phase == Begin && DirAt(n.dirs, c.dir).identity == None
    ensures NetStep(n, Proceed(pid, Nothing), With(n, pid, c.(phase := Unenrolled), DirAt(n.dirs, c.dir)))
  {
    hide NetStep, LoadIdentityMetadata, ReadReply;
    ProceedIsStep(n, pid, Nothing);
  }

  // ---------- the call ----------

  /** From `Begin` to a request in flight. */
  lemma CallAsks(n: Net, d: nat, url: Url, token: Hash, k: Key) returns (m: Net)
    requires DirAt(n.dirs, d) == Dir(FullKey(k), None)
    ensures NetLeads(n, m)
    ensures m == With(Asking(n.(nextPid := n.nextPid + 1), EnrollRequest(d, url, token, k)), n.nextPid,
                      Client(d, url, token, Waiting(k), n.nextRid), Dir(FullKey(k), None))
  {
    hide NetStep, NetLeads, LoadIdentityMetadata, ReadReply;
    var pid, dir := n.nextPid, Dir(FullKey(k), None);
    var c := Client(d, url, token, Begin, 0);
    var n1 := n.(clients := n.clients[pid := c], nextPid := pid + 1);
    NetLeadsHere(n);
    SpawnStep(n, d, url, token);
    NetExtend(n, n, Spawn(d, url, token), n1);
    var base := n.(nextPid := pid + 1);
    FirstLook(n1, pid, c);
    assert n1.clients[pid := c.(phase := Unenrolled)] == base.clients[pid := c.(phase := Unenrolled)];
    NetExtend(n, n1, Proceed(pid, Nothing), With(base, pid, c.(phase := Unenrolled), dir));
    ClientMoves(base, pid, c.(phase := Unenrolled), dir, Nothing);
    NetExtend(n, With(base, pid, c.(phase := Unenrolled), dir), Proceed(pid, Nothing),
              With(base, pid, c.(phase := Ready(k)), dir));
    ClientAsks(base, pid, c.(phase := Ready(k)), dir);
    m := With(Asking(base, EnrollRequest(d, url, token, k)), pid, Client(d, url, token, Waiting(k), n.nextRid), dir);
    NetExtend(n, With(base, pid, c.(phase := Ready(k)), dir), Proceed(pid, Nothing), m);
  }

  /** From the answer to the identity. */
  lemma CallEnds(n0: Net, n: Net, pid: nat, c: Client, dir: Dir, id: Uuid) returns (m: Net)
    requires NetLeads(n0, With(n, pid, c, dir)) && c.phase.Waiting? && ValidateUUIDv7(Format(id))
    requires (c.rid, EnrollReply(200, Some(Format(id)))) in n.replies
    ensures NetLeads(n0, m) && m.tables == n.tables && m.origin == n.origin
    ensures DirAt(m.dirs, c.dir) == dir.(identity := Some(Identity(1, Format(id), c.url, c.phase.key)))
    ensures forall d :: d != c.dir ==> DirAt(m.dirs, d) == DirAt(n.dirs, d)
  {
    hide NetStep, NetLeads, LoadIdentityMetadata, ValidateUUIDv7, Format;
    var text := Format(id);
    var answer := Answer(EnrollReply(200, Some(text)));
    ClientMoves(n, pid, c, dir, answer);
    var writing := c.(phase := Writing(c.phase.key, text));
    NetExtend(n0, With(n, pid, c, dir), Proceed(pid, answer), With(n, pid, writing, dir));
    ClientMoves(n, pid, writing, dir, Nothing);
    m := With(n, pid, writing.(phase := Done(text)), dir.(identity := Some(Identity(1, text, c.url, c.phase.key))));
    NetExtend(n0, With(n, pid, writing, dir), Proceed(pid, Nothing), m);
  }

  /** What a registration that went through left behind. */
  lemma CreatedFacts(n: Net, d: nat, c: nat, a: Uuid)
    requires NetInv(n) && CreatedFrom(n, d, c, a)
    ensures var q := n.sent[n.origin[(c, a)]];
            && Sound(n.tables) && DirAt(n.dirs, d).key == FullKey(q.key) && q.url.controller == c
            && a in TablesAt(n.tables, c).agents && TablesAt(n.tables, c).agents[a] == AgentRow(q.key, q.token)
  {
    hide Replies, Clients, OneCreator, Dirs, Sound;
    assert Originates(n.tables, n.sent, c, a, n.origin[(c, a)]);
  }

  /** From every state the invariant allows, if a request of directory `d` created an agent and the directory has no
      identity yet, some run that makes one more call with that token and URL ends with an identity.json naming that
      agent, with no table changed, no agent created, and no other directory touched. */
  lemma RetryGetsDone(n: Net, d: nat, c: nat, a: Uuid) returns (m: Net)
    requires NetInv(n) && CreatedFrom(n, d, c, a) && DirAt(n.dirs, d).identity == None
    ensures NetLeads(n, m) && m.tables == n.tables && m.origin == n.origin
    ensures var q := n.sent[n.origin[(c, a)]];
            DirAt(m.dirs, d) == Dir(FullKey(q.key), Some(Identity(1, Format(a), q.url, q.key)))
    ensures forall d' :: d' != d ==> DirAt(m.dirs, d') == DirAt(n.dirs, d')
  {
    hide NetInv, NetStep, NetLeads, Sound, ValidateUUIDv7, Format, TablesAt;
    CreatedFacts(n, d, c, a);
    var q := n.sent[n.origin[(c, a)]];
    var asked := CallAsks(n, d, q.url, q.token, q.key);
    AnswerStep(asked, n.nextRid, a);
    var told := asked.(replies := asked.replies + {(n.nextRid, EnrollReply(200, Some(Format(a))))});
    NetExtend(n, asked, Serve(n.nextRid, Faithful, a, 0), told);
    var base := Asking(n.(nextPid := n.nextPid + 1), EnrollRequest(d, q.url, q.token, q.key)).(replies := told.replies);
    var client := Client(d, q.url, q.token, Waiting(q.key), n.nextRid);
    assert told == With(base, n.nextPid, client, Dir(FullKey(q.key), None));
    m := CallEnds(n, base, n.nextPid, client, Dir(FullKey(q.key), None), a);
  }
}
