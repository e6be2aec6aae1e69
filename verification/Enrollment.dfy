/** The enrollment client (internal/agent/enroll.go, internal/agent/identity.go) as a sequence of effects on its state
    directory and on the network, any of which may be its last, and the system it forms with the controllers. */
module Enrollment {
  import opened Helpers
  import opened Uuids
  import opened JobDomain
  import opened Registration

  // ---------- the state directory ----------

  /** A URL that passed validation: the controller it reaches, and one of the ways to spell that. */
  datatype Url = Url(controller: nat, spelling: string)

  /** identity.key: created exclusively, then written; a crash in between leaves a torn file. */
  datatype KeyFile = NoKey | TornKey | FullKey(key: Key)

  /** identity.json, which appears by a rename and so is never torn. */
  datatype Identity = Identity(version: int, agentId: string, url: Url, publicKey: Key)
  datatype Dir = Dir(key: KeyFile, identity: Option<Identity>)

  predicate ValidateUUIDv7(s: string) {
    && |s| == 36
    && forall i :: 0 <= i < 36 ==>
         if IsHyphenIndex(i) then s[i] == '-'
         else if i == 14 then s[i] == '7'
         else if i == 19 then '8' <= s[i] <= '9' || 'a' <= s[i] <= 'b' || 'A' <= s[i] <= 'B'
         else HexValue(s[i]).Some?
  }

  /** A directory's identity, or None when it is missing or fails a check. */
  function LoadIdentityMetadata(d: Dir): Option<Identity> {
    if d.identity.Some? && d.identity.value.version == 1 && ValidateUUIDv7(d.identity.value.agentId)
       && d.key == FullKey(d.identity.value.publicKey)
    then d.identity else None
  }

  // ---------- one Enroll call, effect by effect ----------

  datatype EnrollError =
    | AlreadyEnrolled | InvalidMetadata | UnusableKey | KeyAppeared | RequestFailed | BadResponse
    | EnrollmentRejected | AgentConflict | BadRequest | ControllerFailed

  datatype EnrollPhase =
    | Begin
    | Unenrolled
    | Generated(key: Key)
    | Creating(key: Key)
    | Ready(key: Key)
    | Waiting(key: Key)
    | Writing(key: Key, agentId: string)
    | Done(agentId: string)
    | GaveUp(error: EnrollError)

  datatype EnrollReply = EnrollReply(status: int, agentId: Option<string>)
  datatype EnrollInput = Nothing | Entropy(key: Key) | Answer(reply: EnrollReply)

  function ReadReply(key: Key, r: EnrollReply): EnrollPhase {
    if r.status == 201 || r.status == 200 then
      if r.agentId.Some? && ValidateUUIDv7(r.agentId.value) then Writing(key, r.agentId.value) else GaveUp(BadResponse)
    else if r.status == 401 then GaveUp(EnrollmentRejected)
    else if r.status == 409 then GaveUp(AgentConflict)
    else if r.status == 400 then GaveUp(BadRequest)
    else GaveUp(ControllerFailed)
  }

  /** The next effect of a call that names `url`: where it leads and what it does to the directory. Leaving `Ready`
      sends the request. */
  function Progress(phase: EnrollPhase, url: Url, d: Dir, input: EnrollInput): (EnrollPhase, Dir) {
    match phase
    case Begin =>
      if d.identity.Some? then (GaveUp(if LoadIdentityMetadata(d).Some? then AlreadyEnrolled else InvalidMetadata), d)
      else (Unenrolled, d)
    case Unenrolled => (
      match d.key
      case FullKey(k) => (Ready(k), d)
      case TornKey => (GaveUp(UnusableKey), d)
      case NoKey => if input.Entropy? then (Generated(input.key), d) else (GaveUp(UnusableKey), d))
    case Generated(k) => if d.key == NoKey then (Creating(k), d.(key := TornKey)) else (GaveUp(KeyAppeared), d)
    case Creating(k) => (Ready(k), d.(key := FullKey(k)))
    case Ready(k) => (Waiting(k), d)
    case Waiting(k) => if input.Answer? then (ReadReply(k, input.reply), d) else (GaveUp(RequestFailed), d)
    case Writing(k, id) => (Done(id), d.(identity := Some(Identity(1, id, url, k))))
    case Done(_) => (phase, d)
    case GaveUp(_) => (phase, d)
  }

  // ---------- the system ----------

  datatype Client = Client(dir: nat, url: Url, token: Hash, phase: EnrollPhase, rid: nat)
  datatype EnrollRequest = EnrollRequest(dir: nat, url: Url, token: Hash, key: Key)

  /** Any number of controllers, each with its own tables. Messages stay for ever, as lost, delayed and duplicated ones
      may; any number of clients may share a directory, each naming its own URL. `origin` records, for each agent of
      each controller that an Enroll request created, which request that was; no step reads it. */
  datatype Net = Net(
    tables: map<nat, Tables>,
    dirs: map<nat, Dir>,
    sent: map<nat, EnrollRequest>,
    replies: set<(nat, EnrollReply)>,
    nextRid: nat,
    clients: map<nat, Client>,
    nextPid: nat,
    origin: map<(nat, Uuid), nat>)

  function DirAt(dirs: map<nat, Dir>, d: nat): Dir {
    if d in dirs then dirs[d] else Dir(NoKey, None)
  }

  function TablesAt(tables: map<nat, Tables>, c: nat): Tables {
    if c in tables then tables[c] else Tables(map[], map[])
  }

  datatype Ending = Faithful | CommittedButFailed(status: int) | NotCommitted(status: int)

  /** `Others` is any registry transaction by anyone else, with any token and any key, at any controller. */
  datatype NetEvent =
    | Others(controller: nat, op: RegistryOp)
    | Serve(rid: nat, ending: Ending, newId: Uuid, now: Time)
    | Spawn(dir: nat, url: Url, token: Hash)
    | Kill(pid: nat)
    | Proceed(pid: nat, input: EnrollInput)

  predicate InputOK(n: Net, c: Client, input: EnrollInput) {
    match input
    case Answer(reply) => c.phase.Waiting? && (c.rid, reply) in n.replies
    case _ => true
  }

  predicate Trouble(status: int) {
    status != 200 && status != 201
  }

  /** New ids are version-7 UUIDs, the column default. */
  predicate EventOK(n: Net, e: NetEvent) {
    match e
    case Others(_, op) => op.RegisterOp? ==> ValidateUUIDv7(Format(op.newId))
    case Serve(rid, ending, newId, _) =>
      rid in n.sent && ValidateUUIDv7(Format(newId)) && (ending.Faithful? || Trouble(ending.status))
    case Spawn(_, _, _) => true
    case Kill(pid) => pid in n.clients
    case Proceed(pid, input) => pid in n.clients && InputOK(n, n.clients[pid], input)
  }

  function ReplyTo(r: RegisterReply): EnrollReply {
    match r
    case Registered(id, created) => EnrollReply(if created then 201 else 200, Some(Format(id)))
    case Rejected => EnrollReply(401, None)
    case IdentityConflict => EnrollReply(409, None)
    case RegisterInternal => EnrollReply(500, None)
  }

  ghost function ServeStep(n: Net, rid: nat, ending: Ending, newId: Uuid, now: Time): Net
    requires rid in n.sent
  {
    var q := n.sent[rid];
    var c := q.url.controller;
    var before := TablesAt(n.tables, c);
    var (t, r) := Register(before, q.token, q.key, newId, now);
    var tables := n.tables[c := t];
    var origin := if t != before then n.origin[(c, newId) := rid] else n.origin;
    match ending
    case Faithful => n.(tables := tables, origin := origin, replies := n.replies + {(rid, ReplyTo(r))})
    case CommittedButFailed(status) =>
      n.(tables := tables, origin := origin, replies := n.replies + {(rid, EnrollReply(status, None))})
    case NotCommitted(status) => n.(replies := n.replies + {(rid, EnrollReply(status, None))})
  }

  function ProceedStep(n: Net, pid: nat, input: EnrollInput): Net
    requires pid in n.clients
  {
    var c := n.clients[pid];
    var (phase, d) := Progress(c.phase, c.url, DirAt(n.dirs, c.dir), input);
    if c.phase.Ready? then
      n.(clients := n.clients[pid := c.(phase := phase, rid := n.nextRid)],
         sent := n.sent[n.nextRid := EnrollRequest(c.dir, c.url, c.token, c.phase.key)], nextRid := n.nextRid + 1)
    else n.(clients := n.clients[pid := c.(phase := phase)], dirs := n.dirs[c.dir := d])
  }

  ghost function Next(n: Net, e: NetEvent): Net
    requires EventOK(n, e)
  {
    match e
    case Others(c, op) => n.(tables := n.tables[c := ApplyRegistry(TablesAt(n.tables, c), op)])
    case Serve(rid, ending, newId, now) => ServeStep(n, rid, ending, newId, now)
    case Spawn(dir, url, token) =>
      n.(clients := n.clients[n.nextPid := Client(dir, url, token, Begin, 0)], nextPid := n.nextPid + 1)
    case Kill(pid) => n.(clients := n.clients - {pid})
    case Proceed(pid, input) => ProceedStep(n, pid, input)
  }

  // ---------- the invariant ----------

  /** `text` is the id of an agent that holds `key`. */
  predicate Names(t: Tables, text: string, key: Key) {
    var id := Parse(text);
    && id.Some? && id.value in t.agents && text == Format(id.value) && t.agents[id.value].key == key
    && ValidateUUIDv7(text)
  }

  predicate Requests(dirs: map<nat, Dir>, sent: map<nat, EnrollRequest>, nextRid: nat) {
    forall r :: r in sent ==> r < nextRid && DirAt(dirs, sent[r].dir).key == FullKey(sent[r].key)
  }

  predicate HonestReply(t: Tables, key: Key, x: EnrollReply) {
    (x.status == 200 || x.status == 201) && x.agentId.Some? ==> Names(t, x.agentId.value, key)
  }

  ghost predicate Replies(tables: map<nat, Tables>, sent: map<nat, EnrollRequest>, replies: set<(nat, EnrollReply)>) {
    forall r, x :: (r, x) in replies ==>
      r in sent && HonestReply(TablesAt(tables, sent[r].url.controller), sent[r].key, x)
  }

  predicate ClientOK(c: Client, tables: map<nat, Tables>, d: Dir, sent: map<nat, EnrollRequest>) {
    match c.phase
    case Creating(_) => d.key == TornKey
    case Ready(k) => d.key == FullKey(k)
    case Waiting(k) => d.key == FullKey(k) && c.rid in sent && sent[c.rid] == EnrollRequest(c.dir, c.url, c.token, k)
    case Writing(k, id) => d.key == FullKey(k) && Names(TablesAt(tables, c.url.controller), id, k)
    case _ => true
  }

  predicate Clients(n: Net) {
    forall p :: p in n.clients ==>
      p < n.nextPid && ClientOK(n.clients[p], n.tables, DirAt(n.dirs, n.clients[p].dir), n.sent)
  }

  predicate OneCreator(clients: map<nat, Client>) {
    forall p, q :: p in clients && q in clients && p != q && clients[p].phase.Creating? && clients[q].phase.Creating?
      ==> clients[p].dir != clients[q].dir
  }

  predicate IdentityOK(tables: map<nat, Tables>, key: KeyFile, i: Identity) {
    i.version == 1 && key == FullKey(i.publicKey) && Names(TablesAt(tables, i.url.controller), i.agentId, i.publicKey)
  }

  predicate DirOK(tables: map<nat, Tables>, d: Dir) {
    d.identity.Some? ==> IdentityOK(tables, d.key, d.identity.value)
  }

  predicate Dirs(tables: map<nat, Tables>, dirs: map<nat, Dir>) {
    forall d :: d in dirs ==> DirOK(tables, dirs[d])
  }

  /** Agent `id` of controller `c` is what request `r` asked for. */
  predicate Originates(tables: map<nat, Tables>, sent: map<nat, EnrollRequest>, c: nat, id: Uuid, r: nat) {
    && id in TablesAt(tables, c).agents && r in sent && sent[r].url.controller == c
    && TablesAt(tables, c).agents[id] == AgentRow(sent[r].key, sent[r].token)
  }

  ghost predicate Origins(tables: map<nat, Tables>, sent: map<nat, EnrollRequest>, origin: map<(nat, Uuid), nat>) {
    forall c, id :: (c, id) in origin ==> Originates(tables, sent, c, id, origin[(c, id)])
  }

  predicate Versions(t: Tables) {
    forall id :: id in t.agents ==> ValidateUUIDv7(Format(id))
  }

  predicate Sound(tables: map<nat, Tables>) {
    forall c :: c in tables ==> TablesInv(tables[c]) && Versions(tables[c])
  }

  ghost predicate NetInv(n: Net) {
    && Sound(n.tables)
    && Requests(n.dirs, n.sent, n.nextRid) && Replies(n.tables, n.sent, n.replies)
    && Clients(n) && OneCreator(n.clients) && Dirs(n.tables, n.dirs) && Origins(n.tables, n.sent, n.origin)
  }

  // ---------- registrations keep it ----------

  /** Some controller's tables grew, the others are as they were. */
  ghost predicate AllGrow(before: map<nat, Tables>, after: map<nat, Tables>, c: nat) {
    && TablesGrow(TablesAt(before, c), TablesAt(after, c))
    && forall d: nat :: d != c ==> TablesAt(after, d) == TablesAt(before, d)
  }

  lemma SoundAt(tables: map<nat, Tables>, c: nat)
    requires Sound(tables)
    ensures TablesInv(TablesAt(tables, c)) && Versions(TablesAt(tables, c))
  {
    hide ValidateUUIDv7, Format;
  }

  lemma ChangedTables(tables: map<nat, Tables>, c: nat, u: Tables)
    requires Sound(tables) && TablesInv(u) && Versions(u) && TablesGrow(TablesAt(tables, c), u)
    ensures Sound(tables[c := u]) && AllGrow(tables, tables[c := u], c)
  {
    hide TablesInv, Versions, TablesGrow;
  }

  lemma GrownNames(before: map<nat, Tables>, after: map<nat, Tables>, c: nat, d: nat, text: string, key: Key)
    requires AllGrow(before, after, c) && Names(TablesAt(before, d), text, key)
    ensures Names(TablesAt(after, d), text, key)
  {
    hide Parse, Format, ValidateUUIDv7;
  }

  lemma GrowKeepsClients(n: Net, after: map<nat, Tables>, c: nat)
    requires Clients(n) && AllGrow(n.tables, after, c)
    ensures Clients(n.(tables := after))
  {
    hide Names, AllGrow, TablesAt;
    forall p | p in n.clients ensures ClientOK(n.clients[p], after, DirAt(n.dirs, n.clients[p].dir), n.sent) {
      var client := n.clients[p];
      if client.phase.Writing? {
        GrownNames(n.tables, after, c, client.url.controller, client.phase.agentId, client.phase.key);
      }
    }
  }

  lemma GrowKeepsDirs(before: map<nat, Tables>, after: map<nat, Tables>, c: nat, dirs: map<nat, Dir>)
    requires Dirs(before, dirs) && AllGrow(before, after, c)
    ensures Dirs(after, dirs)
  {
    hide Names, AllGrow, TablesAt;
    forall d | d in dirs ensures DirOK(after, dirs[d]) {
      if dirs[d].identity.Some? {
        var i := dirs[d].identity.value;
        GrownNames(before, after, c, i.url.controller, i.agentId, i.publicKey);
      }
    }
  }

  lemma GrowKeepsReplies(before: map<nat, Tables>, after: map<nat, Tables>, c: nat, sent: map<nat, EnrollRequest>,
                         replies: set<(nat, EnrollReply)>)
    requires Replies(before, sent, replies) && AllGrow(before, after, c)
    ensures Replies(after, sent, replies)
  {
    hide Names, AllGrow, TablesAt;
    forall r, x | (r, x) in replies
      ensures r in sent && HonestReply(TablesAt(after, sent[r].url.controller), sent[r].key, x)
    {
      assert HonestReply(TablesAt(before, sent[r].url.controller), sent[r].key, x);
      if (x.status == 200 || x.status == 201) && x.agentId.Some? {
        GrownNames(before, after, c, sent[r].url.controller, x.agentId.value, sent[r].key);
      }
    }
  }

  lemma GrowKeepsOrigins(before: map<nat, Tables>, after: map<nat, Tables>, c: nat, sent: map<nat, EnrollRequest>,
                         origin: map<(nat, Uuid), nat>)
    requires Origins(before, sent, origin) && AllGrow(before, after, c)
    ensures Origins(after, sent, origin)
  {
    hide TablesAt;
    forall d, id | (d, id) in origin ensures Originates(after, sent, d, id, origin[(d, id)]) {
      assert Originates(before, sent, d, id, origin[(d, id)]);
    }
  }

  lemma GrowKeepsInv(n: Net, after: map<nat, Tables>, c: nat)
    requires NetInv(n) && Sound(after) && AllGrow(n.tables, after, c)
    ensures NetInv(n.(tables := after))
  {
    hide Sound, AllGrow, Requests, Replies, Clients, OneCreator, Dirs, Origins;
    GrowKeepsClients(n, after, c);
    GrowKeepsDirs(n.tables, after, c, n.dirs);
    GrowKeepsReplies(n.tables, after, c, n.sent, n.replies);
    GrowKeepsOrigins(n.tables, after, c, n.sent, n.origin);
  }

  lemma RegisterKeepsVersions(t: Tables, token: Hash, key: Key, newId: Uuid, now: Time)
    requires TablesInv(t) && Versions(t) && ValidateUUIDv7(Format(newId))
    ensures Versions(Register(t, token, key, newId, now).0)
  {
    hide ValidateUUIDv7, Format;
  }

  lemma OthersKeepInv(n: Net, c: nat, op: RegistryOp)
    requires NetInv(n) && (op.RegisterOp? ==> ValidateUUIDv7(Format(op.newId)))
    ensures NetInv(n.(tables := n.tables[c := ApplyRegistry(TablesAt(n.tables, c), op)]))
  {
    hide Sound, AllGrow, TablesInv, TablesGrow, Requests, Replies, Clients, OneCreator, Dirs, Origins, Register,
         ValidateUUIDv7, Format, TablesAt;
    var t := TablesAt(n.tables, c);
    SoundAt(n.tables, c);
    match op {
      case IssueOp(token, expiresAt) => IssueKeepsInv(t, token, expiresAt);
      case RegisterOp(token, key, newId, now) =>
        RegisterKeepsInv(t, token, key, newId, now);
        RegisterKeepsVersions(t, token, key, newId, now);
    }
    ChangedTables(n.tables, c, ApplyRegistry(t, op));
    GrowKeepsInv(n, n.tables[c := ApplyRegistry(t, op)], c);
  }

  lemma ReplyIsHonest(t: Tables, token: Hash, key: Key, newId: Uuid, now: Time)
    requires TablesInv(t) && Versions(t) && ValidateUUIDv7(Format(newId))
    ensures var (u, r) := Register(t, token, key, newId, now); HonestReply(u, key, ReplyTo(r))
  {
    hide Parse, Format, ValidateUUIDv7, TablesInv, Register;
    RegisterKeepsInv(t, token, key, newId, now);
    RegisterKeepsVersions(t, token, key, newId, now);
    var (u, r) := Register(t, token, key, newId, now);
    if r.Registered? {
      FormatParses(r.agent);
    }
  }

  lemma AddedReply(tables: map<nat, Tables>, sent: map<nat, EnrollRequest>, replies: set<(nat, EnrollReply)>, r: nat,
                   x: EnrollReply)
    requires Replies(tables, sent, replies) && r in sent
    requires HonestReply(TablesAt(tables, sent[r].url.controller), sent[r].key, x)
    ensures Replies(tables, sent, replies + {(r, x)})
  {
    hide HonestReply, TablesAt;
  }

  /** A registration that created an agent is the registration its request asked for. */
  lemma NewOrigin(tables: map<nat, Tables>, sent: map<nat, EnrollRequest>, origin: map<(nat, Uuid), nat>, rid: nat,
                  newId: Uuid, now: Time)
    requires Sound(tables) && Origins(tables, sent, origin) && rid in sent
    ensures var c := sent[rid].url.controller;
            var u := Register(TablesAt(tables, c), sent[rid].token, sent[rid].key, newId, now).0;
            Origins(tables[c := u], sent, if u != TablesAt(tables, c) then origin[(c, newId) := rid] else origin)
  {
    hide TablesInv, Sound, Register, Versions;
    var c, q := sent[rid].url.controller, sent[rid];
    SoundAt(tables, c);
    RegisterKeepsInv(TablesAt(tables, c), q.token, q.key, newId, now);
    var u := Register(TablesAt(tables, c), q.token, q.key, newId, now).0;
    var origin' := if u != TablesAt(tables, c) then origin[(c, newId) := rid] else origin;
    forall d, id | (d, id) in origin' ensures Originates(tables[c := u], sent, d, id, origin'[(d, id)]) {
      if (d, id) != (c, newId) || u == TablesAt(tables, c) {
        assert Originates(tables, sent, d, id, origin[(d, id)]);
      }
    }
  }

  lemma ServeKeepsInv(n: Net, rid: nat, ending: Ending, newId: Uuid, now: Time)
    requires NetInv(n) && rid in n.sent && ValidateUUIDv7(Format(newId)) && (ending.Faithful? || Trouble(ending.status))
    ensures NetInv(ServeStep(n, rid, ending, newId, now))
  {
    hide Sound, AllGrow, TablesInv, TablesGrow, Versions, Requests, Replies, Clients, OneCreator, Dirs, Origins,
         Register,
         ReplyTo, ValidateUUIDv7, Format, Names;
    var q := n.sent[rid];
    var c := q.url.controller;
    var before := TablesAt(n.tables, c);
    var (t, r) := Register(before, q.token, q.key, newId, now);
    var tables := n.tables[c := t];
    SoundAt(n.tables, c);
    RegisterKeepsInv(before, q.token, q.key, newId, now);
    RegisterKeepsVersions(before, q.token, q.key, newId, now);
    ReplyIsHonest(before, q.token, q.key, newId, now);
    NewOrigin(n.tables, n.sent, n.origin, rid, newId, now);
    ChangedTables(n.tables, c, t);
    GrowKeepsInv(n, tables, c);
    SameClients(n, ServeStep(n, rid, ending, newId, now));
    match ending {
      case Faithful => AddedReply(tables, n.sent, n.replies, rid, ReplyTo(r));
      case CommittedButFailed(status) => AddedReply(tables, n.sent, n.replies, rid, EnrollReply(status, None));
      case NotCommitted(status) => AddedReply(n.tables, n.sent, n.replies, rid, EnrollReply(status, None));
    }
  }

  lemma SameClients(n: Net, m: Net)
    requires m.clients == n.clients && m.nextPid == n.nextPid && m.dirs == n.dirs && m.sent == n.sent
    requires Clients(n.(tables := m.tables))
    ensures Clients(m)
  {
    hide ClientOK;
  }

  // ---------- client steps keep it ----------

  /** What one effect does to the directory the clients share: a full key stays, a torn key changes only by the hand
      that is writing it, and an identity only by a client that writes its own. */
  predicate DirStep(phase: EnrollPhase, url: Url, d: Dir, d': Dir) {
    && (d.key.FullKey? ==> d'.key == d.key)
    && (d.key == TornKey && !phase.Creating? ==> d'.key == d.key)
    && (d'.identity == d.identity
        || (phase.Writing? && d'.identity == Some(Identity(1, phase.agentId, url, phase.key))))
  }

  lemma ProgressOK(c: Client, tables: map<nat, Tables>, d: Dir, sent: map<nat, EnrollRequest>,
                   replies: set<(nat, EnrollReply)>, input: EnrollInput)
    requires ClientOK(c, tables, d, sent) && DirOK(tables, d) && Replies(tables, sent, replies) && !c.phase.Ready?
    requires input.Answer? ==> c.phase.Waiting? && (c.rid, input.reply) in replies
    ensures var (phase, d') := Progress(c.phase, c.url, d, input);
            && ClientOK(c.(phase := phase), tables, d', sent) && DirOK(tables, d') && DirStep(c.phase, c.url, d, d')
            && (phase.Creating? ==> d.key == NoKey)
  {
    hide Names, ValidateUUIDv7, TablesAt;
    if input.Answer? {
      assert HonestReply(TablesAt(tables, sent[c.rid].url.controller), sent[c.rid].key, input.reply);
    }
  }

  lemma ProceedKeepsClients(n: Net, pid: nat, c': Client, d': Dir)
    requires Clients(n) && OneCreator(n.clients) && pid in n.clients
    requires var c := n.clients[pid];
             && c'.dir == c.dir && DirStep(c.phase, c.url, DirAt(n.dirs, c.dir), d')
             && ClientOK(c', n.tables, d', n.sent)
             && (c'.phase.Creating? ==> DirAt(n.dirs, c.dir).key == NoKey)
    ensures Clients(n.(clients := n.clients[pid := c'], dirs := n.dirs[c'.dir := d']))
    ensures OneCreator(n.clients[pid := c'])
  {
    hide Names, TablesAt;
    var dirs' := n.dirs[c'.dir := d'];
    forall q | q in n.clients && q != pid
      ensures ClientOK(n.clients[q], n.tables, DirAt(dirs', n.clients[q].dir), n.sent)
    {
      assert ClientOK(n.clients[q], n.tables, DirAt(n.dirs, n.clients[q].dir), n.sent);
      assert ClientOK(n.clients[pid], n.tables, DirAt(n.dirs, n.clients[pid].dir), n.sent);
    }
    forall q | q in n.clients && n.clients[q].phase.Creating? ensures DirAt(n.dirs, n.clients[q].dir).key == TornKey {
      assert ClientOK(n.clients[q], n.tables, DirAt(n.dirs, n.clients[q].dir), n.sent);
    }
  }

  lemma ProceedKeepsRequests(dirs: map<nat, Dir>, sent: map<nat, EnrollRequest>, nextRid: nat, dir: nat, d': Dir)
    requires Requests(dirs, sent, nextRid) && (DirAt(dirs, dir).key.FullKey? ==> d'.key == DirAt(dirs, dir).key)
    ensures Requests(dirs[dir := d'], sent, nextRid)
  {
  }

  lemma SendKeepsReplies(n: Net, q: EnrollRequest)
    requires Requests(n.dirs, n.sent, n.nextRid) && Replies(n.tables, n.sent, n.replies)
    requires Origins(n.tables, n.sent, n.origin) && DirAt(n.dirs, q.dir).key == FullKey(q.key)
    ensures var sent := n.sent[n.nextRid := q];
            && Requests(n.dirs, sent, n.nextRid + 1) && Replies(n.tables, sent, n.replies)
            && Origins(n.tables, sent, n.origin)
  {
    hide HonestReply, TablesAt;
    var sent := n.sent[n.nextRid := q];
    forall c, id | (c, id) in n.origin ensures Originates(n.tables, sent, c, id, n.origin[(c, id)]) {
      assert Originates(n.tables, n.sent, c, id, n.origin[(c, id)]);
    }
  }

  lemma SendKeepsClients(n: Net, pid: nat, input: EnrollInput)
    requires Clients(n) && Requests(n.dirs, n.sent, n.nextRid) && pid in n.clients && n.clients[pid].phase.Ready?
    ensures Clients(ProceedStep(n, pid, input))
  {
    hide Names, TablesAt;
    var m := ProceedStep(n, pid, input);
    forall q | q in n.clients ensures ClientOK(m.clients[q], m.tables, DirAt(m.dirs, m.clients[q].dir), m.sent) {
      assert ClientOK(n.clients[q], n.tables, DirAt(n.dirs, n.clients[q].dir), n.sent);
    }
  }

  lemma SendKeepsInv(n: Net, pid: nat, input: EnrollInput)
    requires NetInv(n) && pid in n.clients && n.clients[pid].phase.Ready?
    ensures NetInv(ProceedStep(n, pid, input))
  {
    hide Sound, Requests, Replies, Origins, Dirs, DirAt;
    var c := n.clients[pid];
    assert ClientOK(c, n.tables, DirAt(n.dirs, c.dir), n.sent);
    SendKeepsReplies(n, EnrollRequest(c.dir, c.url, c.token, c.phase.key));
    SendKeepsClients(n, pid, input);
  }

  lemma ProceedKeepsInv(n: Net, pid: nat, input: EnrollInput)
    requires NetInv(n) && pid in n.clients && !n.clients[pid].phase.Ready? && InputOK(n, n.clients[pid], input)
    ensures NetInv(ProceedStep(n, pid, input))
  {
    hide Sound, Requests, Replies, OneCreator, Origins, ClientOK, DirOK, DirStep, Progress, Names;
    var c := n.clients[pid];
    var d := DirAt(n.dirs, c.dir);
    AbsentDirOK(n.tables, n.dirs, c.dir);
    ProgressOK(c, n.tables, d, n.sent, n.replies, input);
    var (phase, d') := Progress(c.phase, c.url, d, input);
    ProceedKeepsClients(n, pid, c.(phase := phase), d');
    StepKeepsFullKey(c.phase, c.url, d, d');
    ProceedKeepsRequests(n.dirs, n.sent, n.nextRid, c.dir, d');
  }

  lemma AbsentDirOK(tables: map<nat, Tables>, dirs: map<nat, Dir>, d: nat)
    requires Dirs(tables, dirs)
    ensures DirOK(tables, DirAt(dirs, d))
  {
  }

  lemma StepKeepsFullKey(phase: EnrollPhase, url: Url, d: Dir, d': Dir)
    requires DirStep(phase, url, d, d')
    ensures d.key.FullKey? ==> d'.key == d.key
  {
  }

  lemma SpawnKeepsInv(n: Net, dir: nat, url: Url, token: Hash)
    requires NetInv(n)
    ensures NetInv(n.(clients := n.clients[n.nextPid := Client(dir, url, token, Begin, 0)], nextPid := n.nextPid + 1))
  {
    hide Sound, Requests, Replies, Dirs, Origins, Names;
  }

  lemma KillKeepsInv(n: Net, pid: nat)
    requires NetInv(n)
    ensures NetInv(n.(clients := n.clients - {pid}))
  {
    hide Sound, Requests, Replies, Dirs, Origins, ClientOK;
  }

  lemma NextKeepsInv(n: Net, e: NetEvent)
    requires NetInv(n) && EventOK(n, e)
    ensures NetInv(Next(n, e))
  {
    hide NetInv, ServeStep, ProceedStep, InputOK, ApplyRegistry, ValidateUUIDv7, Format, TablesAt;
    match e {
      case Others(c, op) => OthersKeepInv(n, c, op);
      case Serve(rid, ending, newId, now) => ServeKeepsInv(n, rid, ending, newId, now);
      case Spawn(dir, url, token) => SpawnKeepsInv(n, dir, url, token);
      case Kill(pid) => KillKeepsInv(n, pid);
      case Proceed(pid, input) =>
        if n.clients[pid].phase.Ready? {
          SendKeepsInv(n, pid, input);
        } else {
          ProceedKeepsInv(n, pid, input);
        }
    }
  }
}
