/** What enrollment guarantees in every state of every run, and one undisturbed Enroll call as the source writes it. */
module EnrollmentTheorems {
  import opened Helpers
  import opened Uuids
  import opened JobDomain
  import opened Registration
  import opened Enrollment

  ghost predicate NetStep(n: Net, e: NetEvent, m: Net) {
    EventOK(n, e) && m == Next(n, e)
  }

  /** `trace` lists every state of a run that makes the given steps. */
  ghost predicate NetRun(trace: seq<Net>, events: seq<NetEvent>) {
    && |trace| == |events| + 1
    && forall i :: 0 <= i < |events| ==> NetStep(trace[i], events[i], trace[i + 1])
  }

  /** Where runs begin: any sound tables, no directories in use, no clients, no messages. */
  ghost predicate Fresh(n: Net) {
    Sound(n.tables) && n == Net(n.tables, map[], map[], {}, 0, map[], 0, map[])
  }

  lemma {:induction false} Reachable(trace: seq<Net>, events: seq<NetEvent>, i: nat)
    requires NetRun(trace, events) && Fresh(trace[0]) && i < |trace|
    ensures NetInv(trace[i])
  {
    hide NetStep, Sound, EventOK, Next;
    if i > 0 {
      Reachable(trace, events, i - 1);
      assert NetStep(trace[i - 1], events[i - 1], trace[i]);
      StepKeepsInv(trace[i - 1], events[i - 1], trace[i]);
    }
  }

  lemma StepKeepsInv(n: Net, e: NetEvent, m: Net)
    requires NetInv(n) && NetStep(n, e, m)
    ensures NetInv(m)
  {
    hide NetInv, EventOK, Next;
    NextKeepsInv(n, e);
  }

  // ---------- one key, and one agent at each controller ----------

  lemma OneKey(dirs: map<nat, Dir>, sent: map<nat, EnrollRequest>, nextRid: nat, r: nat, q: nat)
    requires Requests(dirs, sent, nextRid) && r in sent && q in sent && sent[r].dir == sent[q].dir
    ensures sent[r].key == sent[q].key
  {
  }

  lemma OneHolder(t: Tables, a: Uuid, b: Uuid)
    requires TablesInv(t) && a in t.agents && b in t.agents && t.agents[a].key == t.agents[b].key
    ensures a == b
  {
  }

  /** However often Enroll is called on a directory, with whatever tokens and URLs, concurrently, crashing anywhere and
      losing any reply, the requests it sends carry one key, and at each controller they create at most one agent,
      which holds that key. */
  lemma OneAgentPerController(trace: seq<Net>, events: seq<NetEvent>, i: nat, c: nat, a: Uuid, b: Uuid)
    requires NetRun(trace, events) && Fresh(trace[0]) && i < |trace|
    requires (c, a) in trace[i].origin && (c, b) in trace[i].origin
    ensures var n := trace[i]; var r, q := n.origin[(c, a)], n.origin[(c, b)];
            && r in n.sent && q in n.sent && a in TablesAt(n.tables, c).agents
            && DirAt(n.dirs, n.sent[r].dir).key == FullKey(TablesAt(n.tables, c).agents[a].key)
            && (n.sent[r].dir == n.sent[q].dir ==> a == b)
  {
    hide NetRun, Fresh, Replies, Clients, OneCreator, Dirs, Sound, TablesInv, TablesAt, Versions;
    Reachable(trace, events, i);
    var n := trace[i];
    assert Originates(n.tables, n.sent, c, a, n.origin[(c, a)]) && Originates(n.tables, n.sent, c, b, n.origin[(c, b)]);
    SoundAt(n.tables, c);
    if n.sent[n.origin[(c, a)]].dir == n.sent[n.origin[(c, b)]].dir {
      OneKey(n.dirs, n.sent, n.nextRid, n.origin[(c, a)], n.origin[(c, b)]);
      OneHolder(TablesAt(n.tables, c), a, b);
    }
  }

  /** An identity.json in a directory always loads, and names a committed agent of the controller its URL reaches, one
      that holds the directory's key. So the invalid-metadata error does not arise from anything Enroll does. */
  lemma IdentityIsCommitted(trace: seq<Net>, events: seq<NetEvent>, i: nat, d: nat)
    requires NetRun(trace, events) && Fresh(trace[0]) && i < |trace| && DirAt(trace[i].dirs, d).identity.Some?
    ensures LoadIdentityMetadata(DirAt(trace[i].dirs, d)) == DirAt(trace[i].dirs, d).identity
    ensures var dir := DirAt(trace[i].dirs, d); var t := TablesAt(trace[i].tables, dir.identity.value.url.controller);
            exists id :: id in t.agents && dir.identity.value.agentId == Format(id)
                && dir.key == FullKey(t.agents[id].key)
  {
    hide NetRun, Fresh, Requests, Replies, Clients, OneCreator, Origins, Sound, Parse, Format, ValidateUUIDv7, TablesAt;
    Reachable(trace, events, i);
    AbsentDirOK(trace[i].tables, trace[i].dirs, d);
  }

  // ---------- what a directory has, it keeps ----------

  /** All URLs are one; all reach one controller. */
  ghost predicate OneUrl(urls: set<Url>) {
    forall u, v :: u in urls && v in urls ==> u == v
  }

  ghost predicate OneController(urls: set<Url>) {
    forall u, v :: u in urls && v in urls ==> u.controller == v.controller
  }

  /** The calls made on directory `d` name only these URLs. */
  predicate UsesOnly(events: seq<NetEvent>, d: nat, urls: set<Url>) {
    forall i :: 0 <= i < |events| && events[i].Spawn? && events[i].dir == d ==> events[i].url in urls
  }

  /** So do the clients at work on it, their requests, and its identity. */
  predicate Named(n: Net, d: nat, urls: set<Url>) {
    && (forall p :: p in n.clients && n.clients[p].dir == d ==> n.clients[p].url in urls)
    && (forall r :: r in n.sent && n.sent[r].dir == d ==> n.sent[r].url in urls)
    && (DirAt(n.dirs, d).identity.Some? ==> DirAt(n.dirs, d).identity.value.url in urls)
  }

  /** A full key stays; an identity stays an identity with that key; it stays with its agent while the URLs reach one
      controller, and stays as it is while there is one URL. */
  ghost predicate Settled(d: Dir, d': Dir, urls: set<Url>) {
    && (d.key.FullKey? ==> d'.key == d.key)
    && (d.identity.Some? ==>
         && d'.identity.Some? && d'.identity.value.publicKey == d.identity.value.publicKey
         && d'.identity.value.version == d.identity.value.version
         && (OneController(urls) ==> d'.identity.value.agentId == d.identity.value.agentId)
         && (OneUrl(urls) ==> d'.identity == d.identity))
  }

  lemma NamesOne(t: Tables, a: string, b: string, key: Key)
    requires TablesInv(t) && Names(t, a, key) && Names(t, b, key)
    ensures a == b
  {
    hide Parse, Format, ValidateUUIDv7;
  }

  /** The one agent holding the key at a controller is the one already named, so a second identity.json for the same
      controller names the same agent. */
  lemma RewriteSettles(c: Client, tables: map<nat, Tables>, d: Dir, sent: map<nat, EnrollRequest>, input: EnrollInput,
                       urls: set<Url>)
    requires Sound(tables) && ClientOK(c, tables, d, sent) && DirOK(tables, d) && c.url in urls
    requires d.identity.Some? ==> d.identity.value.url in urls
    ensures Settled(d, Progress(c.phase, c.url, d, input).1, urls)
    ensures var i := Progress(c.phase, c.url, d, input).1.identity; i.Some? ==> i.value.url in urls
  {
    hide Names, Sound, TablesInv, Versions, ValidateUUIDv7, TablesAt;
    if c.phase.Writing? && d.identity.Some? && d.identity.value.url.controller == c.url.controller {
      SoundAt(tables, c.url.controller);
      NamesOne(TablesAt(tables, c.url.controller), c.phase.agentId, d.identity.value.agentId, c.phase.key);
    }
  }

  /** Serving touches neither the directories nor the clients. */
  lemma ServeFrame(n: Net, rid: nat, ending: Ending, newId: Uuid, now: Time)
    requires rid in n.sent
    ensures var m := ServeStep(n, rid, ending, newId, now);
            m.dirs == n.dirs && m.clients == n.clients && m.nextPid == n.nextPid && m.sent == n.sent
  {
    hide Register, ReplyTo, TablesAt;
  }

  /** An effect touches its own directory, its own client, and nothing else a directory's name depends on. */
  lemma ProceedFrame(n: Net, pid: nat, input: EnrollInput, d: nat)
    requires pid in n.clients
    ensures var m := ProceedStep(n, pid, input); var c := n.clients[pid];
            && (c.dir == d ==> DirAt(m.dirs, d) == Progress(c.phase, c.url, DirAt(n.dirs, d), input).1)
            && (c.dir != d ==> DirAt(m.dirs, d) == DirAt(n.dirs, d))
            && (forall p :: p in m.clients ==>
                 p in n.clients && m.clients[p].dir == n.clients[p].dir && m.clients[p].url == n.clients[p].url)
            && (forall r :: r in m.sent ==>
                 || (r in n.sent && m.sent[r] == n.sent[r])
                 || (m.sent[r].dir == c.dir && m.sent[r].url == c.url))
  {
    hide ReadReply, LoadIdentityMetadata;
  }

  lemma ProceedSettles(n: Net, pid: nat, input: EnrollInput, d: nat, urls: set<Url>)
    requires NetInv(n) && pid in n.clients && Named(n, d, urls)
    ensures var m := ProceedStep(n, pid, input); Settled(DirAt(n.dirs, d), DirAt(m.dirs, d), urls) && Named(m, d, urls)
  {
    hide Sound, Requests, Replies, OneCreator, Origins, ClientOK, DirOK, Progress, ProceedStep, DirAt, OneUrl,
         OneController;
    var c := n.clients[pid];
    ProceedFrame(n, pid, input, d);
    if c.dir == d {
      AbsentDirOK(n.tables, n.dirs, d);
      RewriteSettles(c, n.tables, DirAt(n.dirs, d), n.sent, input, urls);
    }
  }

  lemma StepSettles(n: Net, e: NetEvent, m: Net, d: nat, urls: set<Url>)
    requires NetInv(n) && NetStep(n, e, m) && Named(n, d, urls) && (e.Spawn? && e.dir == d ==> e.url in urls)
    ensures Settled(DirAt(n.dirs, d), DirAt(m.dirs, d), urls) && Named(m, d, urls)
  {
    hide NetInv, ServeStep, ProceedStep, ApplyRegistry, ValidateUUIDv7, Format, InputOK, TablesAt;
    match e {
      case Proceed(pid, input) => ProceedSettles(n, pid, input, d, urls);
      case Serve(rid, ending, newId, now) => ServeFrame(n, rid, ending, newId, now);
      case _ =>
    }
  }

  lemma {:induction false} RunNames(trace: seq<Net>, events: seq<NetEvent>, i: nat, d: nat, urls: set<Url>)
    requires NetRun(trace, events) && Fresh(trace[0]) && UsesOnly(events, d, urls) && i < |trace|
    ensures Named(trace[i], d, urls)
  {
    hide NetStep, NetInv, Sound, Named;
    if i == 0 {
      NobodyNamed(trace[0], d, urls);
    } else {
      RunNames(trace, events, i - 1, d, urls);
      Reachable(trace, events, i - 1);
      assert NetStep(trace[i - 1], events[i - 1], trace[i]);
      StepSettles(trace[i - 1], events[i - 1], trace[i], d, urls);
    }
  }

  lemma NobodyNamed(n: Net, d: nat, urls: set<Url>)
    requires n.clients == map[] && n.dirs == map[] && n.sent == map[]
    ensures Named(n, d, urls)
  {
  }

  /** What stays of a directory over a run, by the URLs its calls name. */
  lemma {:induction false} DirectoryIsStable(trace: seq<Net>, events: seq<NetEvent>, i: nat, j: nat, d: nat,
                                             urls: set<Url>)
    requires NetRun(trace, events) && Fresh(trace[0]) && UsesOnly(events, d, urls) && i <= j < |trace|
    ensures Settled(DirAt(trace[i].dirs, d), DirAt(trace[j].dirs, d), urls)
    decreases j
  {
    hide NetStep, NetInv, Fresh, Named, OneUrl, OneController;
    if i < j {
      DirectoryIsStable(trace, events, i, j - 1, d, urls);
      RunNames(trace, events, j - 1, d, urls);
      Reachable(trace, events, j - 1);
      assert NetStep(trace[j - 1], events[j - 1], trace[j]);
      StepSettles(trace[j - 1], events[j - 1], trace[j], d, urls);
    }
  }

  // ---------- a call on an enrolled directory ----------

  predicate Inert(n: Net, pid: nat, d: nat) {
    pid in n.clients ==>
      n.clients[pid].dir == d && (n.clients[pid].phase == Begin || n.clients[pid].phase == GaveUp(AlreadyEnrolled))
  }

  lemma StepKeepsInert(n: Net, e: NetEvent, m: Net, pid: nat, d: nat)
    requires NetStep(n, e, m) && Inert(n, pid, d) && pid < n.nextPid && LoadIdentityMetadata(DirAt(n.dirs, d)).Some?
    ensures Inert(m, pid, d) && pid < m.nextPid
  {
    hide ServeStep, ApplyRegistry, ValidateUUIDv7, Format, InputOK, LoadIdentityMetadata, Progress, TablesAt;
    match e {
      case Proceed(p, input) =>
        if p == pid {
          EnrolledStops(n.clients[pid].phase, n.clients[pid].url, DirAt(n.dirs, d), input);
        }
      case Serve(rid, ending, newId, now) => ServeFrame(n, rid, ending, newId, now);
      case _ =>
    }
  }

  lemma EnrolledStops(phase: EnrollPhase, url: Url, d: Dir, input: EnrollInput)
    requires LoadIdentityMetadata(d).Some? && (phase == Begin || phase == GaveUp(AlreadyEnrolled))
    ensures Progress(phase, url, d, input) == (GaveUp(AlreadyEnrolled), d)
  {
    hide ValidateUUIDv7;
  }

  /** A call that starts once the directory is enrolled sends nothing and changes nothing, whatever other calls are
      still doing there: at every later time it has not begun, has ended as already enrolled, or was killed. */
  lemma {:induction false} LateCallsAreInert(trace: seq<Net>, events: seq<NetEvent>, k: nat, j: nat)
    requires NetRun(trace, events) && Fresh(trace[0]) && k < j < |trace| && events[k].Spawn?
    requires DirAt(trace[k].dirs, events[k].dir).identity.Some?
    ensures Inert(trace[j], trace[k].nextPid, events[k].dir) && trace[k].nextPid < trace[j].nextPid
    decreases j
  {
    hide NetStep, Fresh, LoadIdentityMetadata, Inert;
    if j == k + 1 {
      assert NetStep(trace[k], events[k], trace[j]);
      SpawnedIsInert(trace[k], events[k], trace[j]);
    } else {
      LateCallsAreInert(trace, events, k, j - 1);
      assert NetStep(trace[j - 1], events[j - 1], trace[j]);
      StaysEnrolled(trace, events, k, j - 1, events[k].dir);
      StepKeepsInert(trace[j - 1], events[j - 1], trace[j], trace[k].nextPid, events[k].dir);
    }
  }

  lemma SpawnedIsInert(n: Net, e: NetEvent, m: Net)
    requires NetStep(n, e, m) && e.Spawn?
    ensures Inert(m, n.nextPid, e.dir) && n.nextPid < m.nextPid
  {
    hide ServeStep, ProceedStep, ApplyRegistry, TablesAt, ValidateUUIDv7, Format;
  }

  lemma StaysEnrolled(trace: seq<Net>, events: seq<NetEvent>, i: nat, j: nat, d: nat)
    requires NetRun(trace, events) && Fresh(trace[0]) && i <= j < |trace| && DirAt(trace[i].dirs, d).identity.Some?
    ensures LoadIdentityMetadata(DirAt(trace[j].dirs, d)).Some?
  {
    hide NetRun, Fresh, Settled, LoadIdentityMetadata;
    var urls := set i | 0 <= i < |events| && events[i].Spawn? :: events[i].url;
    DirectoryIsStable(trace, events, i, j, d, urls);
    SettledSome(DirAt(trace[i].dirs, d), DirAt(trace[j].dirs, d), urls);
    IdentityIsCommitted(trace, events, j, d);
  }

  lemma SettledSome(d: Dir, d': Dir, urls: set<Url>)
    requires Settled(d, d', urls) && d.identity.Some?
    ensures d'.identity.Some?
  {
  }

  // ---------- a torn key is never used ----------

  predicate Torn(n: Net, d: nat) {
    && DirAt(n.dirs, d).key == TornKey
    && forall p :: p in n.clients && n.clients[p].phase.Creating? ==> n.clients[p].dir != d
  }

  lemma StepKeepsTorn(n: Net, e: NetEvent, m: Net, d: nat)
    requires NetInv(n) && NetStep(n, e, m) && Torn(n, d)
    ensures Torn(m, d)
  {
    hide NetInv, ServeStep, ApplyRegistry, ValidateUUIDv7, Format, InputOK, Progress, TablesAt;
    match e {
      case Proceed(pid, input) =>
        if n.clients[pid].dir == d {
          TornProgress(n.clients[pid].phase, n.clients[pid].url, DirAt(n.dirs, d), input);
        }
      case Serve(rid, ending, newId, now) => ServeFrame(n, rid, ending, newId, now);
      case _ =>
    }
  }

  lemma TornProgress(phase: EnrollPhase, url: Url, d: Dir, input: EnrollInput)
    requires !phase.Creating?
    ensures var (phase', d') := Progress(phase, url, d, input);
            d.key == TornKey ==> d'.key == TornKey && !phase'.Creating?
  {
    hide ValidateUUIDv7;
  }

  /** A key file torn by a crash is neither overwritten nor sent: such a directory never registers anything and never
      gets an identity. */
  lemma {:induction false} TornKeyIsInert(trace: seq<Net>, events: seq<NetEvent>, i: nat, j: nat, d: nat)
    requires NetRun(trace, events) && Fresh(trace[0]) && i <= j < |trace| && Torn(trace[i], d)
    ensures Torn(trace[j], d) && DirAt(trace[j].dirs, d).identity == None
    ensures forall r :: r in trace[j].sent ==> trace[j].sent[r].dir != d
    decreases j
  {
    hide NetStep, NetInv, Fresh, Torn;
    if i < j {
      TornKeyIsInert(trace, events, i, j - 1, d);
      Reachable(trace, events, j - 1);
      assert NetStep(trace[j - 1], events[j - 1], trace[j]);
      StepKeepsTorn(trace[j - 1], events[j - 1], trace[j], d);
    }
    Reachable(trace, events, j);
    TornSendsNothing(trace[j], d);
  }

  lemma TornSendsNothing(n: Net, d: nat)
    requires NetInv(n) && Torn(n, d)
    ensures DirAt(n.dirs, d).identity == None && forall r :: r in n.sent ==> n.sent[r].dir != d
  {
    hide Sound, Replies, Clients, OneCreator, Origins, Names;
    AbsentDirOK(n.tables, n.dirs, d);
  }

  // ---------- one undisturbed call ----------

  /** What the world supplies, should the call ask for it. */
  datatype World = World(entropy: EnrollInput, answer: EnrollInput)

  function Rank(p: EnrollPhase): nat {
    match p
    case Begin => 7
    case Unenrolled => 6
    case Generated(_) => 5
    case Creating(_) => 4
    case Ready(_) => 3
    case Waiting(_) => 2
    case Writing(_, _) => 1
    case _ => 0
  }

  function InputFor(p: EnrollPhase, w: World): EnrollInput {
    match p
    case Unenrolled => w.entropy
    case Waiting(_) => w.answer
    case _ => Nothing
  }

  /** Where the effects lead from `phase`, the directory then, and the key sent, if one is. */
  function Alone(phase: EnrollPhase, url: Url, d: Dir, w: World): (EnrollPhase, Dir, Option<Key>)
    decreases Rank(phase)
  {
    if Rank(phase) == 0 then (phase, d, None)
    else
      var (next, d') := Progress(phase, url, d, InputFor(phase, w));
      var (end, d'', key) := Alone(next, url, d', w);
      (end, d'', if phase.Ready? then Some(phase.key) else key)
  }

  /** The part after the key is in place. */
  function Sequel(k: Key, url: Url, d: Dir, w: World): (EnrollPhase, Dir, Option<Key>) {
    var read := if w.answer.Answer? then ReadReply(k, w.answer.reply) else GaveUp(RequestFailed);
    if read.Writing? then (Done(read.agentId), d.(identity := Some(Identity(1, read.agentId, url, k))), Some(k))
        else (read, d, Some(k))
  }

  lemma AloneSequel(k: Key, url: Url, d: Dir, w: World)
    ensures Alone(Ready(k), url, d, w) == Sequel(k, url, d, w)
  {
    hide ReadReply;
    ReadReplyEnds(k, w.answer);
    var read := if w.answer.Answer? then ReadReply(k, w.answer.reply) else GaveUp(RequestFailed);
    assert read.GaveUp? ==> Alone(read, url, d, w) == (read, d, None);
    assert read.Writing? ==>
             Alone(read, url, d, w) ==
             (Done(read.agentId), d.(identity := Some(Identity(1, read.agentId, url, k))), None);
    assert Alone(Waiting(k), url, d, w) == (Sequel(k, url, d, w).0, Sequel(k, url, d, w).1, None);
  }

  lemma ReadReplyEnds(k: Key, input: EnrollInput)
    ensures input.Answer? ==>
              var p := ReadReply(k, input.reply); (p.Writing? && p.key == k) || p.GaveUp?
  {
    hide ValidateUUIDv7;
  }

  class StateDirectory {
    var key: KeyFile
    var identity: Option<Identity>

    ghost function View(): Dir
      reads this
    {
      Dir(key, identity)
    }

    constructor ()
      ensures View() == Dir(NoKey, None)
    {
      key, identity := NoKey, None;
    }

    /** Enroll, statement by statement. */
    method Enroll(url: Url, w: World) returns (result: EnrollPhase, sent: Option<Key>)
      modifies this
      ensures (result, View(), sent) == Alone(Begin, url, old(View()), w)
    {
      hide ValidateUUIDv7, ReadReply;
      sent := None;
      if identity != None {
        if LoadIdentityMetadata(Dir(key, identity)) != None {
          return GaveUp(AlreadyEnrolled), None;
        }
        return GaveUp(InvalidMetadata), None;
      }
      var pub: Key;
      if key.FullKey? {
        pub := key.key;
        AloneSequel(pub, url, View(), w);
      } else if key == TornKey || !w.entropy.Entropy? {
        return GaveUp(UnusableKey), None;
      } else {
        pub := w.entropy.key;
        AloneSequel(pub, url, Dir(FullKey(pub), None), w);
        key := TornKey;
        assert Alone(Creating(pub), url, View(), w) == Alone(Ready(pub), url, Dir(FullKey(pub), None), w);
        assert Alone(Generated(pub), url, Dir(NoKey, None), w) == Alone(Creating(pub), url, View(), w);
        key := FullKey(pub);
      }
      sent := Some(pub);
      if !w.answer.Answer? {
        return GaveUp(RequestFailed), sent;
      }
      var read := ReadReply(pub, w.answer.reply);
      if !read.Writing? {
        return read, sent;
      }
      identity := Some(Identity(1, read.agentId, url, pub));
      result := Done(read.agentId);
    }
  }

  /** A retry after a lost reply: if the directory's key was registered with this token, an undisturbed call finds that
      registration, however long ago it was made, changes no table and writes its identity. */
  lemma RetryConcludes(t: Tables, id: Uuid, token: Hash, newId: Uuid, now: Time, entropy: EnrollInput, url: Url)
    requires TablesInv(t) && Versions(t) && id in t.agents && t.agents[id].token == token
    ensures var k := t.agents[id].key;
            var (u, r) := Register(t, token, k, newId, now);
            && u == t
            && Alone(Begin, url, Dir(FullKey(k), None), World(entropy, Answer(ReplyTo(r)))) ==
               (Done(Format(id)), Dir(FullKey(k), Some(Identity(1, Format(id), url, k))), Some(k))
  {
    hide ValidateUUIDv7, Format;
    var k := t.agents[id].key;
    assert TokenUsed(t.agents, token) && AgentOf(t.agents, token) == id;
    var w := World(entropy, Answer(ReplyTo(Registered(id, false))));
    AloneSequel(k, url, Dir(FullKey(k), None), w);
    assert Alone(Unenrolled, url, Dir(FullKey(k), None), w) == Alone(Ready(k), url, Dir(FullKey(k), None), w);
  }

  /** An identity.json that does not fit the directory, by its version, its agent id or its key, stops the call before
      it sends or changes anything; so does one that fits, as already enrolled. */
  lemma IdentityStopsCall(d: Dir, url: Url, w: World)
    requires d.identity.Some?
    ensures var i := d.identity.value;
            Alone(Begin, url, d, w) ==
            (GaveUp(if i.version == 1 && ValidateUUIDv7(i.agentId) && d.key == FullKey(i.publicKey) then AlreadyEnrolled
                    else InvalidMetadata), d, None)
  {
    hide ValidateUUIDv7;
    var e := Progress(Begin, url, d, Nothing).0;
    assert Alone(e, url, d, w) == (e, d, None);
  }

  lemma V7Digits(d: nat)
    requires d < 16
    ensures HexChar(d) == '7' <==> d == 7
    ensures ('8' <= HexChar(d) <= '9' || 'a' <= HexChar(d) <= 'b' || 'A' <= HexChar(d) <= 'B') <==> 8 <= d <= 11
  {
    assert LOWER_HEX == ['0', '1', '2', '3', '4', '5', '6', '7', '8', '9', 'a', 'b', 'c', 'd', 'e', 'f'];
  }

  /** A UUID's text passes the agent's check exactly if its version digit is 7 and its variant digit 8 to 11. */
  lemma VersionExactly(id: Uuid)
    ensures ValidateUUIDv7(Format(id)) <==> id / Pow16(19) % 16 == 7 && 8 <= id / Pow16(15) % 16 <= 11
  {
    hide Format, HexValue, HexChar, Pow16;
    FormatIsPositional(id, 12);
    FormatIsPositional(id, 16);
    V7Digits(id / Pow16(19) % 16);
    V7Digits(id / Pow16(15) % 16);
    forall i | 0 <= i < 36 ensures if IsHyphenIndex(i) then Format(id)[i] == '-' else HexValue(Format(id)[i]).Some? {
      FormatIsHex(id, i);
    }
    assert TextIndex(12) == 14 && TextIndex(16) == 19;
  }

  lemma FormatIsHex(id: Uuid, i: nat)
    requires i < 36
    ensures if IsHyphenIndex(i) then Format(id)[i] == '-' else HexValue(Format(id)[i]).Some?
  {
    if !IsHyphenIndex(i) {
      HexCharRoundTrip(Digits(id, 32)[DigitIndex(i)]);
    }
  }

  /** What the call makes of each answer of the controller: 201 for a new agent and 200 for one found again are written,
      401 is a rejection, 409 a conflict. */
  lemma AnswersExactly(k: Key, r: RegisterReply)
    ensures r.Registered? ==> ReplyTo(r) == EnrollReply(if r.created then 201 else 200, Some(Format(r.agent)))
    ensures r.Registered? && ValidateUUIDv7(Format(r.agent)) ==> ReadReply(k, ReplyTo(r)) == Writing(k, Format(r.agent))
    ensures r == Rejected ==> ReplyTo(r).status == 401 && ReadReply(k, ReplyTo(r)) == GaveUp(EnrollmentRejected)
    ensures r == IdentityConflict ==> ReplyTo(r).status == 409 && ReadReply(k, ReplyTo(r)) == GaveUp(AgentConflict)
  {
    hide ValidateUUIDv7, Format;
  }
}
