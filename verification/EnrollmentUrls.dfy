/** What the URLs named on one state directory decide: its identity.json and its agent are fixed in every run exactly
    when the calls name one URL, and reach one controller. */
module EnrollmentUrls {
  import opened Helpers
  import opened Uuids
  import opened Registration
  import opened Enrollment
  import opened EnrollmentTheorems

  /** A run whose calls on directory `d` name only these URLs. */
  ghost predicate RunOn(trace: seq<Net>, events: seq<NetEvent>, d: nat, urls: set<Url>) {
    NetRun(trace, events) && Fresh(trace[0]) && UsesOnly(events, d, urls)
  }

  function IdentityAt(n: Net, d: nat): Option<Identity> {
    DirAt(n.dirs, d).identity
  }

  /** Once there is an identity.json it stays as it is. */
  ghost predicate KeepsIdentity(trace: seq<Net>, d: nat) {
    forall i, j :: 0 <= i <= j < |trace| && IdentityAt(trace[i], d).Some? ==>
      IdentityAt(trace[j], d) == IdentityAt(trace[i], d)
  }

  /** Once there is an identity.json it names one agent id. */
  ghost predicate KeepsAgent(trace: seq<Net>, d: nat) {
    forall i, j :: 0 <= i <= j < |trace| && IdentityAt(trace[i], d).Some? ==>
      IdentityAt(trace[j], d).Some? && IdentityAt(trace[j], d).value.agentId == IdentityAt(trace[i], d).value.agentId
  }

  /** A request from directory `d` created agent `a` of controller `c`. */
  predicate CreatedFrom(n: Net, d: nat, c: nat, a: Uuid) {
    (c, a) in n.origin && n.origin[(c, a)] in n.sent && n.sent[n.origin[(c, a)]].dir == d
  }

  /** All requests from the directory, to whatever controllers, created one agent at most. */
  ghost predicate OneAgent(trace: seq<Net>, d: nat) {
    forall i, c, a, c', b ::
      0 <= i < |trace| && CreatedFrom(trace[i], d, c, a) && CreatedFrom(trace[i], d, c', b) ==> c == c' && a == b
  }

  // ---------- what one URL, or one controller, guarantees ----------

  lemma OneUrlKeepsIdentity(trace: seq<Net>, events: seq<NetEvent>, d: nat, urls: set<Url>)
    requires RunOn(trace, events, d, urls)
    ensures OneUrl(urls) ==> KeepsIdentity(trace, d)
    ensures OneController(urls) ==> KeepsAgent(trace, d)
  {
    hide NetRun, Fresh, UsesOnly, OneUrl, OneController;
    forall i, j | 0 <= i <= j < |trace| && IdentityAt(trace[i], d).Some?
      ensures OneUrl(urls) ==> IdentityAt(trace[j], d) == IdentityAt(trace[i], d)
      ensures OneController(urls) ==>
                IdentityAt(trace[j], d).Some?
                    && IdentityAt(trace[j], d).value.agentId == IdentityAt(trace[i], d).value.agentId
    {
      DirectoryIsStable(trace, events, i, j, d, urls);
    }
  }

  lemma CreatedAt(trace: seq<Net>, events: seq<NetEvent>, i: nat, d: nat, urls: set<Url>, c: nat, a: Uuid)
    requires RunOn(trace, events, d, urls) && i < |trace| && CreatedFrom(trace[i], d, c, a)
    ensures exists u :: u in urls && u.controller == c
  {
    hide NetRun, Fresh, UsesOnly, Requests, Replies, Clients, OneCreator, Dirs, Sound, TablesAt;
    RunNames(trace, events, i, d, urls);
    Reachable(trace, events, i);
    var n := trace[i];
    assert Originates(n.tables, n.sent, c, a, n.origin[(c, a)]);
  }

  lemma OneControllerOneAgent(trace: seq<Net>, events: seq<NetEvent>, d: nat, urls: set<Url>)
    requires RunOn(trace, events, d, urls) && OneController(urls)
    ensures OneAgent(trace, d)
  {
    hide NetRun, Fresh, UsesOnly;
    forall i, c, a, c', b | 0 <= i < |trace| && CreatedFrom(trace[i], d, c, a) && CreatedFrom(trace[i], d, c', b)
      ensures c == c' && a == b
    {
      CreatedAt(trace, events, i, d, urls, c, a);
      CreatedAt(trace, events, i, d, urls, c', b);
      OneAgentPerController(trace, events, i, c, a, b);
    }
  }

  // ---------- two calls with two URLs ----------

  function SampleText(c: char): string {
    seq(36, i requires 0 <= i < 36 => if IsHyphenIndex(i) then '-' else if i == 14 then '7' else if i == 19 then c
        else '0')
  }

  lemma SampleParses(c: char)
    requires c == '8' || c == '9'
    ensures ValidateUUIDv7(SampleText(c)) && Parse(SampleText(c)).Some?
            && Format(Parse(SampleText(c)).value) == SampleText(c)
  {
    var s := SampleText(c);
    forall k | 0 <= k < 32 ensures HexValue(s[TextIndex(k)]).Some? {
    }
    ParseFormats(s);
  }

  function SampleId(c: char): Uuid
    requires c == '8' || c == '9'
  {
    SampleParses(c);
    Parse(SampleText(c)).value
  }

  lemma SampleIds()
    ensures Format(SampleId('8')) != Format(SampleId('9'))
    ensures ValidateUUIDv7(Format(SampleId('8'))) && ValidateUUIDv7(Format(SampleId('9')))
  {
    hide ValidateUUIDv7, Parse, Format;
    SampleParses('8');
    SampleParses('9');
    assert SampleText('8')[19] != SampleText('9')[19];
  }

  /** Two clients on directory `d`, one for each URL, with the same token. */
  function Pair(d: nat, u: Url, v: Url, p: EnrollPhase, q: EnrollPhase, r: nat): map<nat, Client> {
    map[0 := Client(d, u, 1, p, 0), 1 := Client(d, v, 1, q, r)]
  }

  /** The state with these two clients and this directory. */
  function At(n: Net, d: nat, u: Url, v: Url, p: EnrollPhase, q: EnrollPhase, r: nat, dir: Dir): Net {
    n.(clients := Pair(d, u, v, p, q, r), dirs := map[d := dir])
  }

  lemma ProceedIsStep(n: Net, pid: nat, input: EnrollInput)
    requires pid in n.clients
             && (input.Answer? ==> n.clients[pid].phase.Waiting? && (n.clients[pid].rid, input.reply) in n.replies)
    ensures NetStep(n, Proceed(pid, input), ProceedStep(n, pid, input))
  {
    hide ProceedStep;
  }

  lemma FirstMoves(n: Net, d: nat, u: Url, v: Url, p: EnrollPhase, q: EnrollPhase, r: nat, dir: Dir, input: EnrollInput)
    requires !p.Ready? && (input.Answer? ==> p.Waiting? && (0, input.reply) in n.replies)
    ensures var (p', dir') := Progress(p, u, dir, input);
            NetStep(At(n, d, u, v, p, q, r, dir), Proceed(0, input), At(n, d, u, v, p', q, r, dir'))
  {
    hide Progress, NetStep;
    var (p', dir') := Progress(p, u, dir, input);
    assert Pair(d, u, v, p, q, r)[0 := Client(d, u, 1, p', 0)] == Pair(d, u, v, p', q, r);
    assert map[d := dir][d := dir'] == map[d := dir'];
    ProceedIsStep(At(n, d, u, v, p, q, r, dir), 0, input);
  }

  lemma SecondMoves(n: Net, d: nat, u: Url, v: Url, p: EnrollPhase, q: EnrollPhase, r: nat, dir: Dir,
                    input: EnrollInput)
    requires !q.Ready? && (input.Answer? ==> q.Waiting? && (r, input.reply) in n.replies)
    ensures var (q', dir') := Progress(q, v, dir, input);
            NetStep(At(n, d, u, v, p, q, r, dir), Proceed(1, input), At(n, d, u, v, p, q', r, dir'))
  {
    hide Progress, NetStep;
    var (q', dir') := Progress(q, v, dir, input);
    assert Pair(d, u, v, p, q, r)[1 := Client(d, v, 1, q', r)] == Pair(d, u, v, p, q', r);
    assert map[d := dir][d := dir'] == map[d := dir'];
    ProceedIsStep(At(n, d, u, v, p, q, r, dir), 1, input);
  }

  /** Some run on these URLs leads to `n`. */
  ghost predicate RunsTo(trace: seq<Net>, events: seq<NetEvent>, d: nat, urls: set<Url>, n: Net) {
    RunOn(trace, events, d, urls) && trace[|events|] == n
  }

  ghost predicate Reached(d: nat, urls: set<Url>, n: Net) {
    exists trace, events :: RunsTo(trace, events, d, urls, n)
  }

  lemma ExtendRun(trace: seq<Net>, events: seq<NetEvent>, d: nat, urls: set<Url>, n: Net, e: NetEvent, m: Net)
    requires RunsTo(trace, events, d, urls, n) && NetStep(n, e, m) && (e.Spawn? ==> e.url in urls)
    ensures RunsTo(trace + [m], events + [e], d, urls, m)
  {
    hide NetStep, Fresh;
    var trace', events' := trace + [m], events + [e];
    forall i | 0 <= i < |events'| ensures NetStep(trace'[i], events'[i], trace'[i + 1]) {
      if i < |events| {
        assert NetStep(trace[i], events[i], trace[i + 1]);
      }
    }
  }

  lemma Reach(d: nat, urls: set<Url>, n: Net, e: NetEvent, m: Net)
    requires Reached(d, urls, n) && NetStep(n, e, m) && (e.Spawn? ==> e.url in urls)
    ensures Reached(d, urls, m)
  {
    hide RunsTo, NetStep;
    var trace, events :| RunsTo(trace, events, d, urls, n);
    ExtendRun(trace, events, d, urls, n, e, m);
  }

  function OneToken(): Tables {
    Tables(map[1 := Token(1, false)], map[])
  }

  function OneRow(id: Uuid): Tables {
    Tables(map[1 := Token(1, true)], map[id := AgentRow(7, 1)])
  }

  /** A token is issued at the controller each URL reaches, and a call is made with each. */
  function Prepared(u: Url, v: Url): Net {
    Net(map[u.controller := OneToken(), v.controller := OneToken()], map[], map[], {}, 0, map[], 2, map[])
  }

  lemma StartBoth(d: nat, u: Url, v: Url, urls: set<Url>)
    requires u in urls && v in urls
    ensures Reached(d, urls, At(Prepared(u, v), d, u, v, Unenrolled, Begin, 0, Dir(NoKey, None)))
  {
    hide Reached;
    var n0 := Net(map[], map[], map[], {}, 0, map[], 0, map[]);
    NothingYet(d, urls, n0);
    var n1 := n0.(tables := map[u.controller := OneToken()]);
    Reach(d, urls, n0, Others(u.controller, IssueOp(1, 1)), n1);
    var n2 := n1.(tables := Prepared(u, v).tables);
    assert n1.tables[v.controller := OneToken()] == n2.tables;
    Reach(d, urls, n1, Others(v.controller, IssueOp(1, 1)), n2);
    var n3 := n2.(clients := map[0 := Client(d, u, 1, Begin, 0)], nextPid := 1);
    Reach(d, urls, n2, Spawn(d, u, 1), n3);
    var n4 := n3.(clients := Pair(d, u, v, Begin, Begin, 0), nextPid := 2);
    assert n3.clients[1 := Client(d, v, 1, Begin, 0)] == n4.clients;
    Reach(d, urls, n3, Spawn(d, v, 1), n4);
    var n5 := At(Prepared(u, v), d, u, v, Unenrolled, Begin, 0, Dir(NoKey, None));
    assert n4.clients[0 := Client(d, u, 1, Unenrolled, 0)] == n5.clients;
    assert n4.dirs[d := Dir(NoKey, None)] == n5.dirs;
    Reach(d, urls, n4, Proceed(0, Nothing), n5);
  }

  lemma NothingYet(d: nat, urls: set<Url>, n: Net)
    requires n == Net(map[], map[], map[], {}, 0, map[], 0, map[])
    ensures Reached(d, urls, n)
  {
    assert RunsTo([n], [], d, urls, n);
  }

  /** The first call makes the key, the second finds it; neither has seen an identity. */
  lemma ReadyBoth(d: nat, u: Url, v: Url, urls: set<Url>)
    requires u in urls && v in urls
    ensures Reached(d, urls, At(Prepared(u, v), d, u, v, Ready(7), Ready(7), 0, Dir(FullKey(7), None)))
  {
    hide Reached, NetStep, At, LoadIdentityMetadata;
    StartBoth(d, u, v, urls);
    var n := Prepared(u, v);
    FirstMoves(n, d, u, v, Unenrolled, Begin, 0, Dir(NoKey, None), Entropy(7));
    Reach(d, urls, At(n, d, u, v, Unenrolled, Begin, 0, Dir(NoKey, None)), Proceed(0, Entropy(7)),
          At(n, d, u, v, Generated(7), Begin, 0, Dir(NoKey, None)));
    FirstMoves(n, d, u, v, Generated(7), Begin, 0, Dir(NoKey, None), Nothing);
    Reach(d, urls, At(n, d, u, v, Generated(7), Begin, 0, Dir(NoKey, None)), Proceed(0, Nothing),
          At(n, d, u, v, Creating(7), Begin, 0, Dir(TornKey, None)));
    FirstMoves(n, d, u, v, Creating(7), Begin, 0, Dir(TornKey, None), Nothing);
    Reach(d, urls, At(n, d, u, v, Creating(7), Begin, 0, Dir(TornKey, None)), Proceed(0, Nothing),
          At(n, d, u, v, Ready(7), Begin, 0, Dir(FullKey(7), None)));
    SecondMoves(n, d, u, v, Ready(7), Begin, 0, Dir(FullKey(7), None), Nothing);
    Reach(d, urls, At(n, d, u, v, Ready(7), Begin, 0, Dir(FullKey(7), None)), Proceed(1, Nothing),
          At(n, d, u, v, Ready(7), Unenrolled, 0, Dir(FullKey(7), None)));
    SecondMoves(n, d, u, v, Ready(7), Unenrolled, 0, Dir(FullKey(7), None), Nothing);
    Reach(d, urls, At(n, d, u, v, Ready(7), Unenrolled, 0, Dir(FullKey(7), None)), Proceed(1, Nothing),
          At(n, d, u, v, Ready(7), Ready(7), 0, Dir(FullKey(7), None)));
  }

  function Asked(d: nat, u: Url, v: Url): Net {
    Prepared(u, v).(sent := map[0 := EnrollRequest(d, u, 1, 7), 1 := EnrollRequest(d, v, 1, 7)], nextRid := 2)
  }

  lemma AskBoth(d: nat, u: Url, v: Url, urls: set<Url>)
    requires u in urls && v in urls
    ensures Reached(d, urls, At(Asked(d, u, v), d, u, v, Waiting(7), Waiting(7), 1, Dir(FullKey(7), None)))
  {
    hide Reached;
    ReadyBoth(d, u, v, urls);
    var dir := Dir(FullKey(7), None);
    var n0 := At(Prepared(u, v), d, u, v, Ready(7), Ready(7), 0, dir);
    var n1 := n0.(clients := Pair(d, u, v, Waiting(7), Ready(7), 0), sent := map[0 := EnrollRequest(d, u, 1, 7)],
                  nextRid := 1);
    assert n0.clients[0 := Client(d, u, 1, Waiting(7), 0)] == n1.clients;
    Reach(d, urls, n0, Proceed(0, Nothing), n1);
    var n2 := At(Asked(d, u, v), d, u, v, Waiting(7), Waiting(7), 1, dir);
    assert n1.clients[1 := Client(d, v, 1, Waiting(7), 1)] == n2.clients;
    assert n1.sent[1 := EnrollRequest(d, v, 1, 7)] == n2.sent;
    Reach(d, urls, n1, Proceed(1, Nothing), n2);
  }

  /** The id the second call is told: another agent at another controller, the same one at the same. */
  function SecondId(u: Url, v: Url): Uuid {
    if u.controller == v.controller then SampleId('8') else SampleId('9')
  }

  lemma RegisterFirst(id: Uuid)
    ensures Register(OneToken(), 1, 7, id, 0) == (OneRow(id), Registered(id, true)) && OneRow(id) != OneToken()
  {
    assert OneToken().agents == map[];
    assert OneRow(id).tokens[1].consumed && !OneToken().tokens[1].consumed;
    assert OneToken().tokens[1 := Token(1, true)] == OneRow(id).tokens;
  }

  lemma RegisterAgain(id: Uuid, other: Uuid)
    ensures Register(OneRow(id), 1, 7, other, 0) == (OneRow(id), Registered(id, false))
  {
    assert OneRow(id).agents[id].token == 1;
  }

  function Answered(d: nat, u: Url, v: Url): Net {
    var a, b := SampleId('8'), SecondId(u, v);
    var again := u.controller == v.controller;
    Asked(d, u, v).(
      tables := map[u.controller := OneRow(a), v.controller := OneRow(b)],
      replies := {(0, EnrollReply(201, Some(Format(a)))),
                  (1, EnrollReply(if again then 200 else 201, Some(Format(b))))},
      origin := if again then map[(u.controller, a) := 0] else map[(u.controller, a) := 0, (v.controller, b) := 1])
  }

  /** The state between the two answers. */
  function HalfAnswered(d: nat, u: Url, v: Url): Net {
    var a := SampleId('8');
    Asked(d, u, v).(
      tables := Prepared(u, v).tables[u.controller := OneRow(a)],
      replies := {(0, EnrollReply(201, Some(Format(a))))},
      origin := map[(u.controller, a) := 0])
  }

  lemma FirstServed(d: nat, u: Url, v: Url, clients: map<nat, Client>, dirs: map<nat, Dir>)
    ensures NetStep(Asked(d, u, v).(clients := clients, dirs := dirs), Serve(0, Faithful, SampleId('8'), 0),
                    HalfAnswered(d, u, v).(clients := clients, dirs := dirs))
  {
    hide Register, SampleId, Format, ValidateUUIDv7;
    SampleIds();
    RegisterFirst(SampleId('8'));
  }

  /** At the same controller the second registration is a repetition of the first. */
  lemma SecondRepeats(d: nat, u: Url, v: Url, clients: map<nat, Client>, dirs: map<nat, Dir>)
    requires u.controller == v.controller
    ensures NetStep(HalfAnswered(d, u, v).(clients := clients, dirs := dirs), Serve(1, Faithful, SampleId('9'), 0),
                    Answered(d, u, v).(clients := clients, dirs := dirs))
  {
    hide Register, SampleId, Format, ValidateUUIDv7;
    SampleIds();
    var a, n, m := SampleId('8'), HalfAnswered(d, u, v), Answered(d, u, v);
    RegisterAgain(a, SampleId('9'));
    assert n.tables[v.controller := OneRow(a)] == m.tables;
    assert m.replies == n.replies + {(1, EnrollReply(200, Some(Format(a))))};
  }

  /** At another controller it is the first. */
  lemma SecondRegisters(d: nat, u: Url, v: Url, clients: map<nat, Client>, dirs: map<nat, Dir>)
    requires u.controller != v.controller
    ensures NetStep(HalfAnswered(d, u, v).(clients := clients, dirs := dirs), Serve(1, Faithful, SampleId('9'), 0),
                    Answered(d, u, v).(clients := clients, dirs := dirs))
  {
    hide Register, SampleId, Format, ValidateUUIDv7;
    SampleIds();
    var b, n, m := SampleId('9'), HalfAnswered(d, u, v), Answered(d, u, v);
    RegisterFirst(b);
    assert n.tables[v.controller := OneRow(b)] == m.tables;
    assert m.replies == n.replies + {(1, EnrollReply(201, Some(Format(b))))};
    assert n.origin[(v.controller, b) := 1] == m.origin;
  }

  lemma AnswerBoth(d: nat, u: Url, v: Url, urls: set<Url>)
    requires u in urls && v in urls
    ensures Reached(d, urls, At(Answered(d, u, v), d, u, v, Waiting(7), Waiting(7), 1, Dir(FullKey(7), None)))
  {
    hide Reached, NetStep, Asked, HalfAnswered, Answered, SampleId;
    AskBoth(d, u, v, urls);
    var clients, dirs := Pair(d, u, v, Waiting(7), Waiting(7), 1), map[d := Dir(FullKey(7), None)];
    FirstServed(d, u, v, clients, dirs);
    if u.controller == v.controller {
      SecondRepeats(d, u, v, clients, dirs);
    } else {
      SecondRegisters(d, u, v, clients, dirs);
    }
    var n1 := HalfAnswered(d, u, v).(clients := clients, dirs := dirs);
    Reach(d, urls, Asked(d, u, v).(clients := clients, dirs := dirs), Serve(0, Faithful, SampleId('8'), 0), n1);
    Reach(d, urls, n1, Serve(1, Faithful, SampleId('9'), 0), Answered(d, u, v).(clients := clients, dirs := dirs));
  }

  lemma ReadBoth(d: nat, u: Url, v: Url, urls: set<Url>)
    requires u in urls && v in urls
    ensures Reached(d, urls, At(Answered(d, u, v), d, u, v, Writing(7, Format(SampleId('8'))),
                                Writing(7, Format(SecondId(u, v))), 1, Dir(FullKey(7), None)))
  {
    hide Reached, NetStep, SampleId, Format, ValidateUUIDv7, LoadIdentityMetadata, At;
    AnswerBoth(d, u, v, urls);
    SampleIds();
    var n, dir := Answered(d, u, v), Dir(FullKey(7), None);
    var x, y := Format(SampleId('8')), Format(SecondId(u, v));
    var first := EnrollReply(201, Some(x));
    var second := EnrollReply(if u.controller == v.controller then 200 else 201, Some(y));
    FirstMoves(n, d, u, v, Waiting(7), Waiting(7), 1, dir, Answer(first));
    Reach(d, urls, At(n, d, u, v, Waiting(7), Waiting(7), 1, dir), Proceed(0, Answer(first)),
          At(n, d, u, v, Writing(7, x), Waiting(7), 1, dir));
    SecondMoves(n, d, u, v, Writing(7, x), Waiting(7), 1, dir, Answer(second));
    Reach(d, urls, At(n, d, u, v, Writing(7, x), Waiting(7), 1, dir), Proceed(1, Answer(second)),
          At(n, d, u, v, Writing(7, x), Writing(7, y), 1, dir));
  }

  /** The two calls write identity.json, first the one, then the other over it. */
  lemma WriteBoth(d: nat, u: Url, v: Url, urls: set<Url>)
    returns (trace: seq<Net>, events: seq<NetEvent>)
    requires u in urls && v in urls
    ensures RunOn(trace, events, d, urls) && |events| > 0
    ensures IdentityAt(trace[|events| - 1], d) == Some(Identity(1, Format(SampleId('8')), u, 7))
    ensures IdentityAt(trace[|events|], d) == Some(Identity(1, Format(SecondId(u, v)), v, 7))
    ensures CreatedFrom(trace[|events|], d, u.controller, SampleId('8'))
    ensures u.controller != v.controller ==> CreatedFrom(trace[|events|], d, v.controller, SampleId('9'))
  {
    hide Reached, NetStep, SampleId, Format, RunOn, LoadIdentityMetadata, ReadReply;
    ReadBoth(d, u, v, urls);
    var n, dir := Answered(d, u, v), Dir(FullKey(7), None);
    var x, y := Format(SampleId('8')), Format(SecondId(u, v));
    var once := dir.(identity := Some(Identity(1, x, u, 7)));
    FirstMoves(n, d, u, v, Writing(7, x), Writing(7, y), 1, dir, Nothing);
    Reach(d, urls, At(n, d, u, v, Writing(7, x), Writing(7, y), 1, dir), Proceed(0, Nothing),
          At(n, d, u, v, Done(x), Writing(7, y), 1, once));
    var twice := dir.(identity := Some(Identity(1, y, v, 7)));
    SecondMoves(n, d, u, v, Done(x), Writing(7, y), 1, once, Nothing);
    trace, events := LastStep(d, urls, At(n, d, u, v, Done(x), Writing(7, y), 1, once), Proceed(1, Nothing),
                              At(n, d, u, v, Done(x), Done(y), 1, twice));
  }

  lemma LastStep(d: nat, urls: set<Url>, n: Net, e: NetEvent, m: Net) returns (trace: seq<Net>, events: seq<NetEvent>)
    requires Reached(d, urls, n) && NetStep(n, e, m) && !e.Spawn?
    ensures RunOn(trace, events, d, urls) && |events| > 0 && trace[|events| - 1] == n && trace[|events|] == m
  {
    hide NetStep, RunOn;
    var t, x :| RunsTo(t, x, d, urls, n);
    ExtendRun(t, x, d, urls, n, e, m);
    RunLength(t, x, d, urls);
    trace, events := t + [m], x + [e];
  }

  lemma RunLength(trace: seq<Net>, events: seq<NetEvent>, d: nat, urls: set<Url>)
    requires RunOn(trace, events, d, urls)
    ensures |trace| == |events| + 1
  {
  }

  // ---------- the exact conditions ----------

  /** identity.json stays as first written in every run exactly when the calls on the directory name one URL. */
  lemma IdentityFixedIff(d: nat, urls: set<Url>)
    ensures (forall trace, events :: RunOn(trace, events, d, urls) ==> KeepsIdentity(trace, d)) <==> OneUrl(urls)
  {
    hide RunOn;
    if OneUrl(urls) {
      forall trace, events | RunOn(trace, events, d, urls) ensures KeepsIdentity(trace, d) {
        OneUrlKeepsIdentity(trace, events, d, urls);
      }
    } else {
      var u, v :| u in urls && v in urls && u != v;
      var trace, events := WriteBoth(d, u, v, urls);
      RunLength(trace, events, d, urls);
      assert IdentityAt(trace[|events| - 1], d) != IdentityAt(trace[|events|], d);
      assert !KeepsIdentity(trace, d);
    }
  }

  /** It names one agent in every run, and its directory's requests create one agent at most over all controllers,
      exactly when the URLs reach one controller. */
  lemma AgentFixedIff(d: nat, urls: set<Url>)
    ensures (forall trace, events :: RunOn(trace, events, d, urls) ==> KeepsAgent(trace, d)) <==> OneController(urls)
    ensures (forall trace, events :: RunOn(trace, events, d, urls) ==> OneAgent(trace, d)) <==> OneController(urls)
  {
    hide RunOn;
    if OneController(urls) {
      forall trace, events | RunOn(trace, events, d, urls) ensures KeepsAgent(trace, d) && OneAgent(trace, d) {
        OneUrlKeepsIdentity(trace, events, d, urls);
        OneControllerOneAgent(trace, events, d, urls);
      }
    } else {
      var u, v :| u in urls && v in urls && u.controller != v.controller;
      var trace, events := WriteBoth(d, u, v, urls);
      RunLength(trace, events, d, urls);
      SampleIds();
      assert IdentityAt(trace[|events| - 1], d).value.agentId != IdentityAt(trace[|events|], d).value.agentId;
      assert !KeepsAgent(trace, d);
      assert CreatedFrom(trace[|events|], d, u.controller, SampleId('8'));
      assert !OneAgent(trace, d);
    }
  }
}
