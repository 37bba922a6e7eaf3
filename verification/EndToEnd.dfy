/** Requests and responses end to end: any number of clients and connections, byte streams cut
    anywhere, a server pool that finishes jobs in any order (Communication/core/comm_core.cpp).

    `handler` is the server's work callback.  A link is one TCP connection; `reqs` and `rsps` are
    history: the messages whose bytes are still in flight or in the receiver's cache. */
module EndToEnd {
  import opened Common

  import opened GenId
  import opened Framing

  type ClientId = nat
  type Handler = Bytes -> Bytes

  datatype Key = Key(client: ClientId, taskId: nat)

  datatype Link = Link(client: ClientId, sid: nat,
                       toServer: Bytes, serverCache: Bytes, reqs: seq<Message>,
                       toClient: Bytes, clientCache: Bytes, rsps: seq<Message>)

  /** resp_task_t, before or after the work callback has run; `asker` is history: whose request it is. */
  datatype Job = Job(sid: nat, taskId: nat, data: Bytes, asker: ClientId)

  datatype Net = Net(
    next: map<ClientId, nat>,
    issued: map<Key, Bytes>,
    pending: set<Key>,
    results: map<Key, Bytes>,
    links: map<nat, Link>,
    linked: nat,
    table: map<nat, nat>,
    sids: nat,
    jobs: seq<Job>,
    done: seq<Job>)

  const Quiet: Net := Net(map[], map[], {}, map[], map[], 0, map[], 0, [], [])

  datatype Step =
    | Open(client: ClientId, junk: nat)
    | TakeId(client: ClientId)
    | Send(link: nat, data: Bytes)
    | ServerRead(link: nat, n: nat)
    | Work(i: nat)
    | Reply(i: nat, ok: bool)
    | Push(link: nat, data: Bytes, junk: nat)
    | ClientRead(link: nat, n: nat)
    | Fail(key: Key)
    | ServerDrops(sid: nat)
    | Cut(link: nat)

  ghost function NextId(s: Net, c: ClientId): nat { if c in s.next then s.next[c] else 0 }

  ghost predicate Can(s: Net, st: Step) {
    match st
    case Open(c, junk) => true
    case TakeId(c) => true
    case Send(l, data) => l in s.links && |data| <= MAX_DATA && NextId(s, s.links[l].client) < Power256(8)
    case ServerRead(l, n) => l in s.links && n <= |s.links[l].toServer|
    case Work(i) => i < |s.jobs|
    case Reply(i, ok) => i < |s.done|
    case Push(l, data, junk) => l in s.links && |data| <= MAX_DATA && junk < Power256(8)
    case ClientRead(l, n) => l in s.links && n <= |s.links[l].toClient|
    case Fail(k) => true
    case ServerDrops(sid) => true
    case Cut(l) => true
  }

  // ----- the steps

  /** listen_cb and connect_cb: a connection with the next 16-bit id of the server.  If the table has
      that id, sl_conn_add leaves both the table and the connection's id, which was never set. */
  ghost function OpenDo(s: Net, c: ClientId, junk: nat): Net {
    var sid := Id(s.sids);
    s.(links := s.links[s.linked := Link(c, if sid in s.table then junk else sid, [], [], [], [], [], [])],
       linked := s.linked + 1,
       table := if sid in s.table then s.table else s.table[sid := s.linked],
       sids := s.sids + 1)
  }

  /** async_send up to uv_write: the package carries the task's id. */
  ghost function SendDo(s: Net, l: nat, data: Bytes): Net
    requires l in s.links
  {
    var k := s.links[l];
    var id := NextId(s, k.client);
    s.(next := s.next[k.client := id + 1],
       issued := s.issued[Key(k.client, id) := data],
       pending := s.pending + {Key(k.client, id)},
       links := s.links[l := k.(toServer := k.toServer + Build(data, PKG_TYPE_COMMON, id),
                                reqs := k.reqs + [Message(data, PKG_TYPE_COMMON, id)])])
  }

  /** _server_handler_req for every package of a read. */
  ghost function JobsOf(sid: nat, c: ClientId, pkgs: seq<Package>): seq<Job> {
    if pkgs == [] then []
    else
      (if pkgs[0].kind == PKG_TYPE_COMMON then [Job(sid, pkgs[0].taskId, pkgs[0].data, c)] else [])
      + JobsOf(sid, c, pkgs[1..])
  }

  /** read_cb on the server: `n` more bytes arrive. */
  ghost function ServerReadDo(s: Net, l: nat, n: nat): Net
    requires l in s.links && n <= |s.links[l].toServer|
  {
    var k := s.links[l];
    match Parse(k.serverCache + k.toServer[..n])
    case Overrun(_) => s
    case Parsed(pkgs, rest) =>
      s.(links := s.links[l := k.(toServer := k.toServer[n..], serverCache := rest,
                                  reqs := if |pkgs| <= |k.reqs| then k.reqs[|pkgs|..] else [])],
         jobs := if k.sid in s.table then s.jobs + JobsOf(k.sid, k.client, pkgs) else s.jobs)
  }

  /** async_cb for RESP: the package goes to the connection that now has the id, if any. */
  ghost function ReplyDo(s: Net, i: nat, ok: bool): Net
    requires i < |s.done|
  {
    var r, s1 := s.done[i], s.(done := RemoveAt(s.done, i));
    if r.sid !in s.table || !ok || s.table[r.sid] !in s.links then s1
    else
      var k := s.links[s.table[r.sid]];
      s1.(links := s.links[s.table[r.sid] :=
        k.(toClient := k.toClient + Build(r.data, PKG_TYPE_COMMON, r.taskId),
           rsps := k.rsps + [Message(r.data, PKG_TYPE_COMMON, r.taskId)])])
  }

  ghost function PushDo(s: Net, l: nat, data: Bytes, junk: nat): Net
    requires l in s.links
  {
    var k := s.links[l];
    s.(links := s.links[l := k.(toClient := k.toClient + Build(data, PKG_TYPE_PUSH, junk),
                                rsps := k.rsps + [Message(data, PKG_TYPE_PUSH, junk)])])
  }

  /** The client's dispatch loop: a common package completes the pending task with its id. */
  ghost function Receive(s: Net, c: ClientId, pkgs: seq<Package>): Net
    decreases |pkgs|
  {
    if pkgs == [] then s
    else
      var key := Key(c, pkgs[0].taskId);
      var s1 := if pkgs[0].kind == PKG_TYPE_COMMON && key in s.pending
                then s.(pending := s.pending - {key}, results := s.results[key := pkgs[0].data]) else s;
      Receive(s1, c, pkgs[1..])
  }

  ghost function ClientReadDo(s: Net, l: nat, n: nat): Net
    requires l in s.links && n <= |s.links[l].toClient|
  {
    var k := s.links[l];
    match Parse(k.clientCache + k.toClient[..n])
    case Overrun(_) => s
    case Parsed(pkgs, rest) =>
      Receive(s.(links := s.links[l := k.(toClient := k.toClient[n..], clientCache := rest,
                                          rsps := if |pkgs| <= |k.rsps| then k.rsps[|pkgs|..] else [])]),
              k.client, pkgs)
  }

  ghost function Do(handler: Handler, s: Net, st: Step): Net
    requires Can(s, st)
  {
    match st
    case Open(c, junk) => OpenDo(s, c, junk)
    case TakeId(c) => s.(next := s.next[c := NextId(s, c) + 1])
    case Send(l, data) => SendDo(s, l, data)
    case ServerRead(l, n) => ServerReadDo(s, l, n)
    case Work(i) =>
      var j := s.jobs[i];
      s.(jobs := RemoveAt(s.jobs, i), done := s.done + [j.(data := handler(j.data))])
    case Reply(i, ok) => ReplyDo(s, i, ok)
    case Push(l, data, junk) => PushDo(s, l, data, junk)
    case ClientRead(l, n) => ClientReadDo(s, l, n)
    case Fail(k) => s.(pending := s.pending - {k})
    case ServerDrops(sid) => s.(table := s.table - {sid})
    case Cut(l) => s.(links := s.links - {l})
  }

  ghost predicate IsRun(handler: Handler, s: Net, sts: seq<Step>)
    decreases |sts|
  {
    sts == [] || (Can(s, sts[0]) && IsRun(handler, Do(handler, s, sts[0]), sts[1..]))
  }

  ghost function Final(handler: Handler, s: Net, sts: seq<Step>): Net
    requires IsRun(handler, s, sts)
    decreases |sts|
  {
    if sts == [] then s else Final(handler, Do(handler, s, sts[0]), sts[1..])
  }

  // ----- which client an id stands for

  /** A connection, job or answer of the client carries the id. */
  ghost predicate Carries(s: Net, sid: nat, c: ClientId) {
    || (exists l :: l in s.links && s.links[l].sid == sid && s.links[l].client == c)
    || (exists j :: j in s.jobs && j.sid == sid && j.asker == c)
    || (exists j :: j in s.done && j.sid == sid && j.asker == c)
  }

  /** The connection that has the id in the table, if there is one, is the client's. */
  ghost predicate StandsFor(s: Net, sid: nat, c: ClientId) {
    sid in s.table && s.table[sid] in s.links ==> s.links[s.table[sid]].client == c
  }

  /** Every connection, job and answer is with the client its id stands for. */
  ghost predicate Right(s: Net) {
    forall sid, c {:trigger Carries(s, sid, c)} :: Carries(s, sid, c) ==> StandsFor(s, sid, c)
  }

  /** A connection is given an id that is carried for another client: the next one, or the one it
      happens to have if the table has the next one. */
  ghost predicate Clashes(s: Net, st: Step) {
    st.Open? && var sid := Id(s.sids);
      if sid in s.table then !StandsFor(s, st.junk, st.client) else exists d :: d != st.client && Carries(s, sid, d)
  }

  lemma {:induction false} JobsCarry(sid: nat, c: ClientId, pkgs: seq<Package>)
    ensures forall j :: j in JobsOf(sid, c, pkgs) ==> j.sid == sid && j.asker == c
  {
    if pkgs != [] { JobsCarry(sid, c, pkgs[1..]); }
  }

  lemma {:induction false} ReceiveLeaves(s: Net, c: ClientId, pkgs: seq<Package>)
    ensures var s' := Receive(s, c, pkgs);
      s'.links == s.links && s'.linked == s.linked && s'.table == s.table && s'.sids == s.sids &&
      s'.jobs == s.jobs && s'.done == s.done
    decreases |pkgs|
  {
    if pkgs != [] {
      var key := Key(c, pkgs[0].taskId);
      var s1 := if pkgs[0].kind == PKG_TYPE_COMMON && key in s.pending
                then s.(pending := s.pending - {key}, results := s.results[key := pkgs[0].data]) else s;
      ReceiveLeaves(s1, c, pkgs[1..]);
    }
  }

  /** A step other than Open adds no carrier and gives no id to another connection. */
  ghost predicate Undisturbed(s: Net, s': Net) {
    && (forall sid, c :: Carries(s', sid, c) ==> Carries(s, sid, c))
    && (forall l :: l in s'.links ==> l in s.links && s'.links[l].client == s.links[l].client)
    && (forall sid :: sid in s'.table ==> sid in s.table && s'.table[sid] == s.table[sid])
    && s'.linked == s.linked && s'.sids == s.sids
  }

  lemma LinkSettles(s: Net, s': Net, l: nat)
    requires l in s.links && l in s'.links && s'.links == s.links[l := s'.links[l]]
    requires s'.links[l].sid == s.links[l].sid && s'.links[l].client == s.links[l].client
    requires s'.table == s.table && s'.linked == s.linked && s'.sids == s.sids
    requires forall j :: j in s'.jobs ==> Carries(s, j.sid, j.asker)
    requires forall j :: j in s'.done ==> Carries(s, j.sid, j.asker)
    ensures Undisturbed(s, s')
  {
  }

  lemma ReadSettles(s: Net, l: nat, n: nat)
    requires l in s.links && n <= |s.links[l].toServer|
    ensures Undisturbed(s, ServerReadDo(s, l, n))
  {
    var k := s.links[l];
    var r := Parse(k.serverCache + k.toServer[..n]);
    if r.Parsed? {
      JobsCarry(k.sid, k.client, r.pkgs);
      assert Carries(s, k.sid, k.client);
      LinkSettles(s, ServerReadDo(s, l, n), l);
    }
  }

  lemma ReplySettles(s: Net, i: nat, ok: bool)
    requires i < |s.done|
    ensures Undisturbed(s, ReplyDo(s, i, ok))
  {
    var r, s' := s.done[i], ReplyDo(s, i, ok);
    forall x | x in RemoveAt(s.done, i) ensures x in s.done { }
    if r.sid in s.table && ok && s.table[r.sid] in s.links { LinkSettles(s, s', s.table[r.sid]); }
  }

  lemma ClientReadSettles(s: Net, l: nat, n: nat)
    requires l in s.links && n <= |s.links[l].toClient|
    ensures Undisturbed(s, ClientReadDo(s, l, n))
  {
    var k := s.links[l];
    var r := Parse(k.clientCache + k.toClient[..n]);
    if r.Parsed? {
      var s1 := s.(links := s.links[l := k.(toClient := k.toClient[n..], clientCache := r.rest,
                                            rsps := if |r.pkgs| <= |k.rsps| then k.rsps[|r.pkgs|..] else [])]);
      ReceiveLeaves(s1, k.client, r.pkgs);
      LinkSettles(s, ClientReadDo(s, l, n), l);
    }
  }

  lemma WorkSettles(handler: Handler, s: Net, i: nat)
    requires i < |s.jobs|
    ensures Undisturbed(s, Do(handler, s, Work(i)))
  {
    forall x | x in RemoveAt(s.jobs, i) ensures x in s.jobs { }
    assert s.jobs[i] in s.jobs;
  }

  lemma StepSettles(handler: Handler, s: Net, st: Step)
    requires Can(s, st) && !st.Open?
    ensures Undisturbed(s, Do(handler, s, st))
  {
    match st
    case TakeId(c) =>
    case Send(l, data) => LinkSettles(s, SendDo(s, l, data), l);
    case ServerRead(l, n) => ReadSettles(s, l, n);
    case Work(i) => WorkSettles(handler, s, i);
    case Reply(i, ok) => ReplySettles(s, i, ok);
    case Push(l, data, junk) => LinkSettles(s, PushDo(s, l, data, junk), l);
    case ClientRead(l, n) => ClientReadSettles(s, l, n);
    case Fail(k) =>
    case ServerDrops(sid) =>
    case Cut(l) =>
  }

  lemma OpenCarries(s: Net, c: ClientId, junk: nat, sid: nat, d: ClientId)
    requires s.linked !in s.links
    ensures var s' := OpenDo(s, c, junk);
      Carries(s', sid, d) <==> Carries(s, sid, d) || (sid == s'.links[s.linked].sid && d == c)
  {
    var s' := OpenDo(s, c, junk);
    if l :| l in s.links && s.links[l].sid == sid && s.links[l].client == d { assert l in s'.links; }
    assert s.linked in s'.links;
  }

  lemma OpenStandsFor(s: Net, c: ClientId, junk: nat, sid: nat, d: ClientId)
    requires IdsOk(s)
    ensures StandsFor(OpenDo(s, c, junk), sid, d) <==>
      if sid == Id(s.sids) && sid !in s.table then d == c else StandsFor(s, sid, d)
  {
  }

  lemma OpenExactly(s: Net, c: ClientId, junk: nat)
    requires IdsOk(s) && Right(s)
    ensures Right(OpenDo(s, c, junk)) <==> !Clashes(s, Open(c, junk))
  {
    var s', sid := OpenDo(s, c, junk), Id(s.sids);
    if Clashes(s, Open(c, junk)) {
      var x, d := junk, c;
      if sid !in s.table { x, d := sid, var d :| d != c && Carries(s, sid, d); d; }
      OpenCarries(s, c, junk, x, d);
      OpenStandsFor(s, c, junk, x, d);
      assert Carries(s', x, d) && !StandsFor(s', x, d);
    } else {
      forall x, d | Carries(s', x, d) ensures StandsFor(s', x, d) {
        OpenCarries(s, c, junk, x, d);
        OpenStandsFor(s, c, junk, x, d);
      }
    }
  }

  /** A step keeps every connection, job and answer with the client its id stands for if and only if
      it does not hand out an id that is carried for another client. */
  lemma RightExactly(handler: Handler, s: Net, st: Step)
    requires IdsOk(s) && Right(s) && Can(s, st)
    ensures Right(Do(handler, s, st)) <==> !Clashes(s, st)
  {
    if st.Open? {
      OpenExactly(s, st.client, st.junk);
    } else {
      StepSettles(handler, s, st);
    }
  }

  ghost predicate Unmixed(handler: Handler, s: Net, sts: seq<Step>)
    requires IsRun(handler, s, sts)
    decreases |sts|
  {
    sts != [] ==> !Clashes(s, sts[0]) && Unmixed(handler, Do(handler, s, sts[0]), sts[1..])
  }

  ghost predicate AlwaysRight(handler: Handler, s: Net, sts: seq<Step>)
    requires IsRun(handler, s, sts)
    decreases |sts|
  {
    Right(s) && (sts != [] ==> AlwaysRight(handler, Do(handler, s, sts[0]), sts[1..]))
  }

  // ----- a cut stream still holds the remaining messages

  /** If `a` has arrived of a stream of built packages and `b` has not, exactly the first `k`
      messages come out and the rest of the bytes are those of the other messages. */
  lemma {:induction false} PrefixParses(a: Bytes, b: Bytes, ms: seq<Message>) returns (k: nat)
    requires (forall m :: m in ms ==> Fits(m)) && a + b == BuildAll(ms)
    ensures k <= |ms| && Parse(a).Parsed? && Parse(a).pkgs == SentAll(ms[..k])
    ensures Parse(a).rest + b == BuildAll(ms[k..])
    decreases |ms|
  {
    if ms == [] {
      k := 0;
      return;
    }
    var first, later := Build(ms[0].data, ms[0].kind, ms[0].taskId), BuildAll(ms[1..]);
    if |a| < |first| {
      k := 0;
      ShortOfPackage(a, b, ms[0], later);
      assert ms[0..] == ms;
    } else {
      var a' := a[|first|..];
      CutAfter(a, b, first, later);
      var k' := PrefixParses(a', b, ms[1..]);
      FirstParses(a, a', ms, k');
      k := k' + 1;
      assert ms[k..] == ms[1..][k'..];
    }
  }

  lemma FirstParses(a: Bytes, a': Bytes, ms: seq<Message>, k: nat)
    requires k < |ms| && Fits(ms[0]) && a == Build(ms[0].data, ms[0].kind, ms[0].taskId) + a'
    requires Parse(a').Parsed? && Parse(a').pkgs == SentAll(ms[1..][..k])
    ensures Parse(a) == Parsed(SentAll(ms[..k + 1]), Parse(a').rest)
  {
    BuildParses(ms[0], a');
    SentFirst(ms, k);
  }

  lemma SentFirst(ms: seq<Message>, k: nat)
    requires k < |ms|
    ensures SentAll(ms[..k + 1]) == [Sent(ms[0])] + SentAll(ms[1..][..k])
  {
    assert ms[..k + 1][1..] == ms[1..][..k];
  }

  lemma CutAfter(a: Bytes, b: Bytes, first: Bytes, later: Bytes)
    requires a + b == first + later && |a| >= |first|
    ensures a == first + a[|first|..] && a[|first|..] + b == later
  {
    assert (a + b)[..|first|] == first && (a + b)[|first|..] == later;
  }

  lemma ShortOfPackage(a: Bytes, b: Bytes, m: Message, later: Bytes)
    requires Fits(m) && a + b == Build(m.data, m.kind, m.taskId) + later
    requires |a| < |Build(m.data, m.kind, m.taskId)|
    ensures Parse(a) == Parsed([], a)
  {
    if |a| >= HEADER {
      UnpackExtends(a, b);
      BuildUnpacks(m, later);
    }
  }

  lemma {:induction false} SentAllLength(ms: seq<Message>)
    ensures |SentAll(ms)| == |ms|
    ensures forall i :: 0 <= i < |ms| ==> SentAll(ms)[i] == Sent(ms[i])
  {
    if ms != [] { SentAllLength(ms[1..]); }
  }

  lemma {:induction false} BuildAllAppends(ms: seq<Message>, m: Message)
    ensures BuildAll(ms + [m]) == BuildAll(ms) + Build(m.data, m.kind, m.taskId)
  {
    if ms == [] {
      assert ([] + [m])[1..] == [];
      assert BuildAll([]) == [];
      assert [] + [m] == [m];
    } else {
      assert (ms + [m])[1..] == ms[1..] + [m];
      BuildAllAppends(ms[1..], m);
    }
  }

  // ----- every byte, job and result belongs to its request

  const MAX_RESP_BUF: nat := 4 * 1024 * 1024

  ghost predicate HandlerOk(handler: Handler) {
    forall d: Bytes {:trigger handler(d)} :: |handler(d)| <= MAX_RESP_BUF
  }

  type Issued = map<Key, Bytes>

  ghost predicate ReqOk(issued: Issued, c: ClientId, m: Message) {
    Fits(m) && m.kind == PKG_TYPE_COMMON && Key(c, m.taskId) in issued && issued[Key(c, m.taskId)] == m.data
  }

  /** With `own`, the message answers the client's own request. */
  ghost predicate RspOk(handler: Handler, issued: Issued, own: bool, c: ClientId, m: Message) {
    && Fits(m)
    && (own && m.kind == PKG_TYPE_COMMON ==>
          Key(c, m.taskId) in issued && m.data == handler(issued[Key(c, m.taskId)]))
  }

  ghost predicate JobOk(issued: Issued, j: Job) {
    && j.taskId < Power256(8)
    && Key(j.asker, j.taskId) in issued && issued[Key(j.asker, j.taskId)] == j.data
  }

  ghost predicate DoneOk(handler: Handler, issued: Issued, j: Job) {
    && j.taskId < Power256(8) && |j.data| <= MAX_DATA
    && Key(j.asker, j.taskId) in issued && handler(issued[Key(j.asker, j.taskId)]) == j.data
  }

  ghost predicate LinkOk(handler: Handler, issued: Issued, own: bool, k: Link) {
    && k.serverCache + k.toServer == BuildAll(k.reqs)
    && k.clientCache + k.toClient == BuildAll(k.rsps)
    && (forall m :: m in k.reqs ==> ReqOk(issued, k.client, m))
    && (forall m :: m in k.rsps ==> RspOk(handler, issued, own, k.client, m))
  }

  ghost predicate IdsOk(s: Net) {
    && (forall k :: k in s.issued ==> k.taskId < NextId(s, k.client))
    && (forall l :: l in s.links ==> l < s.linked)
    && (forall sid :: sid in s.table ==> s.table[sid] < s.linked)
  }

  ghost predicate NetOk(handler: Handler, s: Net, own: bool) {
    && IdsOk(s)
    && (forall l :: l in s.links ==> LinkOk(handler, s.issued, own, s.links[l]))
    && (forall j :: j in s.jobs ==> JobOk(s.issued, j))
    && (forall j :: j in s.done ==> DoneOk(handler, s.issued, j))
    && (own ==> forall k :: k in s.results ==> k in s.issued && s.results[k] == handler(s.issued[k]))
  }

  ghost predicate Grows<K, V>(m: map<K, V>, m': map<K, V>) {
    forall k :: k in m ==> k in m' && m'[k] == m[k]
  }

  /** Requests are only ever added, so what belonged keeps belonging. */
  lemma LinkGrows(handler: Handler, i: Issued, i': Issued, own: bool, k: Link)
    requires LinkOk(handler, i, own, k) && Grows(i, i')
    ensures LinkOk(handler, i', own, k)
  {
    forall m | m in k.reqs ensures ReqOk(i', k.client, m) { assert ReqOk(i, k.client, m); }
    forall m | m in k.rsps ensures RspOk(handler, i', own, k.client, m) { assert RspOk(handler, i, own, k.client, m); }
  }

  lemma SendLink(handler: Handler, i: Issued, own: bool, k: Link, m: Message)
    requires LinkOk(handler, i, own, k) && ReqOk(i, k.client, m)
    ensures LinkOk(handler, i, own, k.(toServer := k.toServer + Build(m.data, m.kind, m.taskId), reqs := k.reqs + [m]))
  {
    BuildAllAppends(k.reqs, m);
    Appended(k.serverCache, k.toServer, Build(m.data, m.kind, m.taskId));
  }

  lemma ReplyLink(handler: Handler, i: Issued, own: bool, k: Link, m: Message)
    requires LinkOk(handler, i, own, k) && RspOk(handler, i, own, k.client, m)
    ensures LinkOk(handler, i, own, k.(toClient := k.toClient + Build(m.data, m.kind, m.taskId), rsps := k.rsps + [m]))
  {
    BuildAllAppends(k.rsps, m);
    Appended(k.clientCache, k.toClient, Build(m.data, m.kind, m.taskId));
  }

  /** What the server parses out of any further bytes are requests of this link's client. */
  lemma ServerReadLink(handler: Handler, i: Issued, own: bool, k: Link, n: nat)
    requires LinkOk(handler, i, own, k) && n <= |k.toServer|
    ensures var r := Parse(k.serverCache + k.toServer[..n]);
      && r.Parsed? && |r.pkgs| <= |k.reqs|
      && LinkOk(handler, i, own, k.(toServer := k.toServer[n..], serverCache := r.rest, reqs := k.reqs[|r.pkgs|..]))
      && r.pkgs == SentAll(k.reqs[..|r.pkgs|])
  {
    forall m | m in k.reqs ensures Fits(m) { assert ReqOk(i, k.client, m); }
    assert k.serverCache + k.toServer[..n] + k.toServer[n..] == k.serverCache + k.toServer;
    var c := PrefixParses(k.serverCache + k.toServer[..n], k.toServer[n..], k.reqs);
    SentAllLength(k.reqs[..c]);
  }

  lemma ClientReadLink(handler: Handler, i: Issued, own: bool, k: Link, n: nat)
    requires LinkOk(handler, i, own, k) && n <= |k.toClient|
    ensures var r := Parse(k.clientCache + k.toClient[..n]);
      && r.Parsed? && |r.pkgs| <= |k.rsps|
      && LinkOk(handler, i, own, k.(toClient := k.toClient[n..], clientCache := r.rest, rsps := k.rsps[|r.pkgs|..]))
      && r.pkgs == SentAll(k.rsps[..|r.pkgs|])
  {
    forall m | m in k.rsps ensures Fits(m) { assert RspOk(handler, i, own, k.client, m); }
    assert k.clientCache + k.toClient[..n] + k.toClient[n..] == k.clientCache + k.toClient;
    var c := PrefixParses(k.clientCache + k.toClient[..n], k.toClient[n..], k.rsps);
    SentAllLength(k.rsps[..c]);
  }

  lemma {:induction false} JobsOk(i: Issued, sid: nat, c: ClientId, ms: seq<Message>)
    requires forall m :: m in ms ==> ReqOk(i, c, m)
    ensures forall j :: j in JobsOf(sid, c, SentAll(ms)) ==> JobOk(i, j)
  {
    if ms != [] {
      JobsOk(i, sid, c, ms[1..]);
      assert ReqOk(i, c, ms[0]);
      assert SentAll(ms)[1..] == SentAll(ms[1..]);
    }
  }

  lemma ResultKeeps(handler: Handler, s: Net, key: Key, data: Bytes, own: bool)
    requires NetOk(handler, s, own) && (own ==> key in s.issued && data == handler(s.issued[key]))
    ensures NetOk(handler, s.(pending := s.pending - {key}, results := s.results[key := data]), own)
  {
  }

  lemma {:induction false} ReceiveOk(handler: Handler, s: Net, c: ClientId, ms: seq<Message>, own: bool)
    requires NetOk(handler, s, own) && forall m :: m in ms ==> RspOk(handler, s.issued, own, c, m)
    ensures NetOk(handler, Receive(s, c, SentAll(ms)), own)
    decreases |ms|
  {
    if ms != [] {
      var p, key := Sent(ms[0]), Key(c, ms[0].taskId);
      assert RspOk(handler, s.issued, own, c, ms[0]);
      assert SentAll(ms)[1..] == SentAll(ms[1..]);
      var s1 := if p.kind == PKG_TYPE_COMMON && key in s.pending
                then s.(pending := s.pending - {key}, results := s.results[key := p.data]) else s;
      if s1 != s { ResultKeeps(handler, s, key, p.data, own); }
      ReceiveOk(handler, s1, c, ms[1..], own);
    }
  }

  // ----- every step keeps it

  /** More requests leave jobs and answers as good as they were. */
  lemma QueuesGrow(handler: Handler, s: Net, s': Net)
    requires forall j :: j in s.jobs ==> JobOk(s.issued, j)
    requires forall j :: j in s.done ==> DoneOk(handler, s.issued, j)
    requires Grows(s.issued, s'.issued)
    ensures forall j :: j in s.jobs ==> JobOk(s'.issued, j)
    ensures forall j :: j in s.done ==> DoneOk(handler, s'.issued, j)
  {
    forall j | j in s.jobs ensures JobOk(s'.issued, j) { assert JobOk(s.issued, j); }
    forall j | j in s.done ensures DoneOk(handler, s'.issued, j) {
      assert DoneOk(handler, s.issued, j);
    }
  }

  lemma LinkKeeps(handler: Handler, s: Net, l: nat, k: Link, own: bool)
    requires NetOk(handler, s, own) && l in s.links && LinkOk(handler, s.issued, own, k) && k.sid == s.links[l].sid
    ensures NetOk(handler, s.(links := s.links[l := k]), own)
  {
  }

  /** The task id and the request are recorded. */
  ghost function Issue(s: Net, c: ClientId, data: Bytes): Net {
    var id := NextId(s, c);
    s.(next := s.next[c := id + 1], issued := s.issued[Key(c, id) := data], pending := s.pending + {Key(c, id)})
  }

  lemma IssueKeeps(handler: Handler, s: Net, c: ClientId, data: Bytes, own: bool)
    requires NetOk(handler, s, own)
    ensures NetOk(handler, Issue(s, c, data), own)
  {
    var s' := Issue(s, c, data);
    assert Key(c, NextId(s, c)) !in s.issued;
    forall l | l in s'.links ensures LinkOk(handler, s'.issued, own, s'.links[l]) {
      LinkGrows(handler, s.issued, s'.issued, own, s.links[l]);
    }
    QueuesGrow(handler, s, s');
  }

  lemma SendIssues(s: Net, l: nat, data: Bytes)
    requires l in s.links
    ensures var k := s.links[l]; var id := NextId(s, k.client);
      SendDo(s, l, data) == Issue(s, k.client, data).(links := s.links[l :=
        k.(toServer := k.toServer + Build(data, PKG_TYPE_COMMON, id),
           reqs := k.reqs + [Message(data, PKG_TYPE_COMMON, id)])])
  {
  }

  lemma SendKeeps(handler: Handler, s: Net, l: nat, data: Bytes, own: bool)
    requires NetOk(handler, s, own) && l in s.links && |data| <= MAX_DATA && NextId(s, s.links[l].client) < Power256(8)
    ensures NetOk(handler, SendDo(s, l, data), own)
  {
    var k := s.links[l];
    var id := NextId(s, k.client);
    SendIssues(s, l, data);
    IssueKeeps(handler, s, k.client, data, own);
    var s1 := Issue(s, k.client, data);
    SendLink(handler, s1.issued, own, k, Message(data, PKG_TYPE_COMMON, id));
    LinkKeeps(handler, s1, l, k.(toServer := k.toServer + Build(data, PKG_TYPE_COMMON, id),
                                 reqs := k.reqs + [Message(data, PKG_TYPE_COMMON, id)]), own);
  }

  lemma ServerReadKeeps(handler: Handler, s: Net, l: nat, n: nat, own: bool)
    requires NetOk(handler, s, own) && l in s.links && n <= |s.links[l].toServer|
    ensures NetOk(handler, ServerReadDo(s, l, n), own)
  {
    var k := s.links[l];
    ServerReadLink(handler, s.issued, own, k, n);
    var pkgs := Parse(k.serverCache + k.toServer[..n]).pkgs;
    JobsOk(s.issued, k.sid, k.client, k.reqs[..|pkgs|]);
  }

  lemma WorkKeeps(handler: Handler, s: Net, i: nat, own: bool)
    requires NetOk(handler, s, own) && HandlerOk(handler) && i < |s.jobs|
    ensures NetOk(handler, Do(handler, s, Work(i)), own)
  {
    var j := s.jobs[i];
    assert JobOk(s.issued, j);
    assert DoneOk(handler, s.issued, j.(data := handler(j.data)));
    forall x | x in RemoveAt(s.jobs, i) ensures x in s.jobs { }
  }

  lemma UndoneKeeps(handler: Handler, s: Net, i: nat, own: bool)
    requires NetOk(handler, s, own) && i < |s.done|
    ensures NetOk(handler, s.(done := RemoveAt(s.done, i)), own)
  {
    forall x | x in RemoveAt(s.done, i) ensures x in s.done { }
  }

  lemma ReplyKeeps(handler: Handler, s: Net, i: nat, ok: bool, own: bool)
    requires NetOk(handler, s, own) && i < |s.done| && (own ==> Right(s))
    ensures NetOk(handler, ReplyDo(s, i, ok), own)
  {
    var r, s1 := s.done[i], s.(done := RemoveAt(s.done, i));
    assert DoneOk(handler, s.issued, r);
    UndoneKeeps(handler, s, i, own);
    if r.sid in s.table && ok && s.table[r.sid] in s.links {
      var l, m := s.table[r.sid], Message(r.data, PKG_TYPE_COMMON, r.taskId);
      var k := s.links[l];
      assert own ==> k.client == r.asker by { assert Carries(s, r.sid, r.asker); }
      assert LinkOk(handler, s.issued, own, k);
      ReplyLink(handler, s.issued, own, k, m);
      var k' := k.(toClient := k.toClient + Build(m.data, m.kind, m.taskId), rsps := k.rsps + [m]);
      LinkKeeps(handler, s1, l, k', own);
    }
  }

  lemma PushKeeps(handler: Handler, s: Net, l: nat, data: Bytes, junk: nat, own: bool)
    requires NetOk(handler, s, own) && l in s.links && |data| <= MAX_DATA && junk < Power256(8)
    ensures NetOk(handler, PushDo(s, l, data, junk), own)
  {
    var k := s.links[l];
    ReplyLink(handler, s.issued, own, k, Message(data, PKG_TYPE_PUSH, junk));
    LinkKeeps(handler, s, l, k.(toClient := k.toClient + Build(data, PKG_TYPE_PUSH, junk),
                                rsps := k.rsps + [Message(data, PKG_TYPE_PUSH, junk)]), own);
  }

  lemma ClientReadKeeps(handler: Handler, s: Net, l: nat, n: nat, own: bool)
    requires NetOk(handler, s, own) && l in s.links && n <= |s.links[l].toClient|
    ensures NetOk(handler, ClientReadDo(s, l, n), own)
  {
    var k := s.links[l];
    ClientReadLink(handler, s.issued, own, k, n);
    var r := Parse(k.clientCache + k.toClient[..n]);
    var k' := k.(toClient := k.toClient[n..], clientCache := r.rest, rsps := k.rsps[|r.pkgs|..]);
    LinkKeeps(handler, s, l, k', own);
    forall m | m in k.rsps[..|r.pkgs|] ensures RspOk(handler, s.issued, own, k.client, m) { assert m in k.rsps; }
    ReceiveOk(handler, s.(links := s.links[l := k']), k.client, k.rsps[..|r.pkgs|], own);
  }

  lemma OpenKeeps(handler: Handler, s: Net, c: ClientId, junk: nat, own: bool)
    requires NetOk(handler, s, own)
    ensures NetOk(handler, OpenDo(s, c, junk), own)
  {
  }

  lemma DropKeeps(handler: Handler, s: Net, st: Step, own: bool)
    requires NetOk(handler, s, own) && (st.TakeId? || st.Fail? || st.ServerDrops? || st.Cut?)
    ensures NetOk(handler, Do(handler, s, st), own)
  {
  }

  lemma StepKeeps(handler: Handler, s: Net, st: Step, own: bool)
    requires NetOk(handler, s, own) && HandlerOk(handler) && Can(s, st) && (own ==> Right(s))
    ensures NetOk(handler, Do(handler, s, st), own)
  {
    match st
    case Open(c, junk) => OpenKeeps(handler, s, c, junk, own);
    case Send(l, data) => SendKeeps(handler, s, l, data, own);
    case ServerRead(l, n) => ServerReadKeeps(handler, s, l, n, own);
    case Work(i) => WorkKeeps(handler, s, i, own);
    case Reply(i, ok) => ReplyKeeps(handler, s, i, ok, own);
    case Push(l, data, junk) => PushKeeps(handler, s, l, data, junk, own);
    case ClientRead(l, n) => ClientReadKeeps(handler, s, l, n, own);
    case _ => DropKeeps(handler, s, st, own);
  }

  /** With `own`, no step of the run hands out an id that is carried for another client. */
  lemma {:induction false} RunKeeps(handler: Handler, s: Net, sts: seq<Step>, own: bool)
    requires NetOk(handler, s, own) && HandlerOk(handler) && IsRun(handler, s, sts)
    requires own ==> Right(s) && Unmixed(handler, s, sts)
    ensures NetOk(handler, Final(handler, s, sts), own)
    decreases |sts|
  {
    if sts != [] {
      StepKeeps(handler, s, sts[0], own);
      if own { RightExactly(handler, s, sts[0]); }
      RunKeeps(handler, Do(handler, s, sts[0]), sts[1..], own);
    }
  }

  /** Over any interleaving of clients, connections, stream fragments and pool reorderings, a
      request that completes without error carries exactly the handler's output for its own
      input, as long as no server-side id is handed out that is carried for another client. */
  lemma OwnAnswer(handler: Handler, sts: seq<Step>, k: Key)
    requires HandlerOk(handler) && IsRun(handler, Quiet, sts) && k in Final(handler, Quiet, sts).results
    requires Unmixed(handler, Quiet, sts)
    ensures var s := Final(handler, Quiet, sts);
      k in s.issued && s.results[k] == handler(s.issued[k])
  {
    RunKeeps(handler, Quiet, sts, true);
  }

  /** In no run does a read meet a length that is out of range. */
  lemma NeverOverruns(handler: Handler, sts: seq<Step>, l: nat, n: nat)
    requires HandlerOk(handler) && IsRun(handler, Quiet, sts) && l in Final(handler, Quiet, sts).links
    ensures var k := Final(handler, Quiet, sts).links[l];
      && (n <= |k.toServer| ==> Parse(k.serverCache + k.toServer[..n]).Parsed?)
      && (n <= |k.toClient| ==> Parse(k.clientCache + k.toClient[..n]).Parsed?)
  {
    RunKeeps(handler, Quiet, sts, false);
    var s := Final(handler, Quiet, sts);
    if n <= |s.links[l].toServer| { ServerReadLink(handler, s.issued, false, s.links[l], n); }
    if n <= |s.links[l].toClient| { ClientReadLink(handler, s.issued, false, s.links[l], n); }
  }

  /** Throughout a run every connection, job and answer is with its client if and only if no id that
      is carried for another client is handed out. */
  lemma {:induction false} RunRight(handler: Handler, s: Net, sts: seq<Step>)
    requires NetOk(handler, s, false) && HandlerOk(handler) && Right(s) && IsRun(handler, s, sts)
    ensures AlwaysRight(handler, s, sts) <==> Unmixed(handler, s, sts)
    decreases |sts|
  {
    if sts != [] {
      RightExactly(handler, s, sts[0]);
      StepKeeps(handler, s, sts[0], false);
      if !Clashes(s, sts[0]) { RunRight(handler, Do(handler, s, sts[0]), sts[1..]); }
    }
  }

  // ----- the first cycle of ids

  /** The id was handed out by one of the first `n` calls. */
  ghost predicate Given(n: nat, sid: nat) { exists k: nat :: k < n && sid == Id(k) }

  ghost predicate AllGiven(s: Net) {
    && (forall sid :: sid in s.table ==> Given(s.sids, sid))
    && (s.sids <= CYCLE ==> forall sid, c :: Carries(s, sid, c) ==> Given(s.sids, sid))
  }

  /** In the first cycle no id comes twice. */
  lemma NotGiven(n: nat)
    requires n < CYCLE
    ensures !Given(n, Id(n))
  {
    if Given(n, Id(n)) {
      var k: nat :| k < n && Id(n) == Id(k);
      IdsDistinct(k, n);
    }
  }

  lemma OpenGiven(s: Net, c: ClientId, junk: nat)
    requires IdsOk(s) && AllGiven(s)
    ensures AllGiven(OpenDo(s, c, junk))
  {
    var s', sid := OpenDo(s, c, junk), Id(s.sids);
    forall x | Given(s.sids, x) || x == sid ensures Given(s'.sids, x) {
      var k: nat :| k <= s.sids && x == Id(k);
      assert k < s'.sids;
    }
    if s'.sids <= CYCLE {
      NotGiven(s.sids);
      forall x, d | Carries(s', x, d) ensures Given(s'.sids, x) { OpenCarries(s, c, junk, x, d); }
    }
  }

  lemma {:induction false} SidsGrow(handler: Handler, s: Net, sts: seq<Step>)
    requires IsRun(handler, s, sts)
    ensures s.sids <= Final(handler, s, sts).sids
    decreases |sts|
  {
    if sts != [] {
      if !sts[0].Open? { StepSettles(handler, s, sts[0]); }
      SidsGrow(handler, Do(handler, s, sts[0]), sts[1..]);
    }
  }

  lemma EarlyUnmixed(s: Net, st: Step)
    requires AllGiven(s) && s.sids < CYCLE
    ensures !Clashes(s, st)
  {
    NotGiven(s.sids);
  }

  lemma {:induction false} FewUnmixed(handler: Handler, s: Net, sts: seq<Step>)
    requires NetOk(handler, s, false) && HandlerOk(handler) && AllGiven(s) && IsRun(handler, s, sts)
    requires Final(handler, s, sts).sids <= CYCLE
    ensures Unmixed(handler, s, sts)
    decreases |sts|
  {
    if sts != [] {
      var st, s' := sts[0], Do(handler, s, sts[0]);
      StepKeeps(handler, s, st, false);
      SidsGrow(handler, s', sts[1..]);
      if st.Open? {
        EarlyUnmixed(s, st);
        OpenGiven(s, st.client, st.junk);
      } else {
        StepSettles(handler, s, st);
      }
      FewUnmixed(handler, s', sts[1..]);
    }
  }

  /** With up to 65535 connections no id is carried for another client when it is handed out. */
  lemma MixedNeedsWrap(handler: Handler, sts: seq<Step>)
    requires HandlerOk(handler) && IsRun(handler, Quiet, sts)
    ensures Final(handler, Quiet, sts).sids <= CYCLE ==> Unmixed(handler, Quiet, sts)
  {
    if Final(handler, Quiet, sts).sids <= CYCLE { FewUnmixed(handler, Quiet, sts); }
  }

  // ----- an id that is handed out too early

  ghost predicate Reachable(handler: Handler, s: Net) {
    exists sts :: IsRun(handler, Quiet, sts) && Final(handler, Quiet, sts) == s
  }

  lemma {:induction false} RunExtends(handler: Handler, s: Net, sts: seq<Step>, st: Step)
    requires IsRun(handler, s, sts) && Can(Final(handler, s, sts), st)
    ensures IsRun(handler, s, sts + [st]) && Final(handler, s, sts + [st]) == Do(handler, Final(handler, s, sts), st)
    decreases |sts|
  {
    var all := sts + [st];
    if sts == [] {
      assert all[1..] == [];
    } else {
      RunExtends(handler, Do(handler, s, sts[0]), sts[1..], st);
      assert all[1..] == sts[1..] + [st];
    }
  }

  lemma ReachNext(handler: Handler, s: Net, st: Step)
    requires Reachable(handler, s) && Can(s, st)
    ensures Reachable(handler, Do(handler, s, st))
  {
    var sts :| IsRun(handler, Quiet, sts) && Final(handler, Quiet, sts) == s;
    RunExtends(handler, Quiet, sts, st);
  }

  /** One request of client 0 waits for a worker, and no connection is left. */
  ghost predicate Stale(s: Net, data: Bytes, n: nat) {
    && s.jobs == [Job(Id(0), 0, data, 0)] && s.done == [] && s.links == map[] && s.table == map[]
    && s.sids == n && 1 !in s.next && Key(1, 0) !in s.issued
  }

  lemma Built(m: Message)
    requires Fits(m)
    ensures var b := Build(m.data, m.kind, m.taskId); [] + b[..|b|] == b && Parse(b) == Parsed([Sent(m)], [])
  {
    var b := Build(m.data, m.kind, m.taskId);
    BuildParses(m, []);
    assert b + [] == b;
    assert [Sent(m)] + [] == [Sent(m)];
  }

  lemma ReadAll(s: Net, l: nat, m: Message)
    requires l in s.links && Fits(m) && m.kind == PKG_TYPE_COMMON && s.links[l].sid in s.table
    requires s.links[l].serverCache == [] && s.links[l].toServer == Build(m.data, m.kind, m.taskId)
    ensures var s' := ServerReadDo(s, l, |s.links[l].toServer|);
      && s'.jobs == s.jobs + [Job(s.links[l].sid, m.taskId, m.data, s.links[l].client)]
      && s' == s.(links := s.links[l := s'.links[l]], jobs := s'.jobs)
  {
    Built(m);
    assert [Sent(m)][1..] == [];
    var k := s.links[l];
    assert JobsOf(k.sid, k.client, [Sent(m)]) == [Job(k.sid, m.taskId, m.data, k.client)];
  }

  lemma SentOne(handler: Handler, data: Bytes) returns (s: Net)
    requires |data| <= MAX_DATA
    ensures Reachable(handler, s) && s.jobs == [] && s.done == [] && s.sids == 1
    ensures 1 !in s.next && Key(1, 0) !in s.issued
    ensures s.links.Keys == {0} && s.table == map[Id(0) := 0] && s.links[0].sid == Id(0) && s.links[0].serverCache == []
    ensures s.links[0].toServer == Build(data, PKG_TYPE_COMMON, 0) && s.links[0].client == 0
  {
    assert IsRun(handler, Quiet, []) && Final(handler, Quiet, []) == Quiet;
    ReachNext(handler, Quiet, Open(0, 0));
    var s1 := OpenDo(Quiet, 0, 0);
    assert 0 < Power256(8);
    ReachNext(handler, s1, Send(0, data));
    s := SendDo(s1, 0, data);
    assert [] + Build(data, PKG_TYPE_COMMON, 0) == Build(data, PKG_TYPE_COMMON, 0);
  }

  lemma StaleOne(handler: Handler, data: Bytes) returns (s: Net)
    requires |data| <= MAX_DATA
    ensures Reachable(handler, s) && Stale(s, data, 1)
  {
    var s2 := SentOne(handler, data);
    ReachNext(handler, s2, ServerRead(0, |s2.links[0].toServer|));
    ReadAll(s2, 0, Message(data, PKG_TYPE_COMMON, 0));
    var s3 := ServerReadDo(s2, 0, |s2.links[0].toServer|);
    ReachNext(handler, s3, ServerDrops(Id(0)));
    var s4 := s3.(table := s3.table - {Id(0)});
    ReachNext(handler, s4, Cut(0));
    s := s4.(links := s4.links - {0});
  }

  /** Client 1 connects and disconnects until the ids have gone round. */
  lemma {:induction false} StaleMany(handler: Handler, data: Bytes, n: nat) returns (s: Net)
    requires |data| <= MAX_DATA && n >= 1
    ensures Reachable(handler, s) && Stale(s, data, n)
    decreases n
  {
    if n == 1 {
      s := StaleOne(handler, data);
    } else {
      var s0 := StaleMany(handler, data, n - 1);
      var sid := Id(s0.sids);
      ReachNext(handler, s0, Open(1, 0));
      var s1 := OpenDo(s0, 1, 0);
      ReachNext(handler, s1, ServerDrops(sid));
      var s2 := s1.(table := s1.table - {sid});
      ReachNext(handler, s2, Cut(s0.linked));
      s := s2.(links := s2.links - {s0.linked});
    }
  }

  /** Client 1 connects under the id of the stale job and sends a request. */
  lemma Reconnect(handler: Handler, s: Net, x: Bytes, y: Bytes) returns (s': Net, l: nat)
    requires |y| <= MAX_DATA && Reachable(handler, s) && Stale(s, x, CYCLE)
    ensures Reachable(handler, s') && Key(1, 0) in s'.issued && s'.issued[Key(1, 0)] == y && Key(1, 0) in s'.pending
    ensures l in s'.links && s'.table == map[Id(0) := l] && s'.jobs == [Job(Id(0), 0, x, 0)] && s'.done == []
    ensures s'.links[l].client == 1 && s'.links[l].clientCache == [] && s'.links[l].toClient == []
  {
    IdsDistinct(0, CYCLE);
    l := s.linked;
    ReachNext(handler, s, Open(1, 0));
    var s1 := OpenDo(s, 1, 0);
    assert NextId(s1, 1) == 0 && 0 < Power256(8);
    ReachNext(handler, s1, Send(l, y));
    s' := SendDo(s1, l, y);
  }

  /** The answer to the stale job goes to the connection that now has its id. */
  lemma Misdirect(handler: Handler, s: Net, x: Bytes, l: nat) returns (s': Net)
    requires Reachable(handler, s) && l in s.links && s.table == map[Id(0) := l]
    requires s.jobs == [Job(Id(0), 0, x, 0)] && s.done == [] && s.links[l].toClient == []
    ensures Reachable(handler, s') && s'.issued == s.issued && s'.pending == s.pending
    ensures l in s'.links && s'.links[l].client == s.links[l].client
    ensures s'.links[l].clientCache == s.links[l].clientCache
    ensures s'.links[l].toClient == Build(handler(x), PKG_TYPE_COMMON, 0)
  {
    ReachNext(handler, s, Work(0));
    var s1 := Do(handler, s, Work(0));
    assert s1.done == [Job(Id(0), 0, handler(x), 0)];
    ReachNext(handler, s1, Reply(0, true));
    s' := ReplyDo(s1, 0, true);
    assert [] + Build(handler(x), PKG_TYPE_COMMON, 0) == Build(handler(x), PKG_TYPE_COMMON, 0);
  }

  lemma ReceiveOne(s: Net, l: nat, m: Message)
    requires l in s.links && Fits(m) && m.kind == PKG_TYPE_COMMON && Key(s.links[l].client, m.taskId) in s.pending
    requires s.links[l].clientCache == [] && s.links[l].toClient == Build(m.data, m.kind, m.taskId)
    ensures var s', k := ClientReadDo(s, l, |s.links[l].toClient|), Key(s.links[l].client, m.taskId);
      k in s'.results && s'.results[k] == m.data && s'.issued == s.issued
  {
    Built(m);
    var k := s.links[l];
    var s1 := s.(links := s.links[l := k.(toClient := k.toClient[|k.toClient|..], clientCache := [],
                                          rsps := if 1 <= |k.rsps| then k.rsps[1..] else [])]);
    assert ClientReadDo(s, l, |k.toClient|) == Receive(s1, k.client, [Sent(m)]);
    ReceiveUnfolds(s1, k.client, Sent(m));
  }

  lemma ReceiveUnfolds(s: Net, c: ClientId, p: Package)
    requires p.kind == PKG_TYPE_COMMON && Key(c, p.taskId) in s.pending
    ensures Receive(s, c, [p]) ==
      s.(pending := s.pending - {Key(c, p.taskId)}, results := s.results[Key(c, p.taskId) := p.data])
  {
    assert [p][1..] == [];
  }

  /** So the condition is needed: after a whole cycle of ids, with a job still waiting, a request is
      completed with the answer to the request of another client. */
  lemma WrongAnswer(handler: Handler, x: Bytes, y: Bytes) returns (s: Net)
    requires HandlerOk(handler) && |x| <= MAX_DATA && |y| <= MAX_DATA && handler(x) != handler(y)
    ensures Reachable(handler, s) && Key(1, 0) in s.results && Key(1, 0) in s.issued
    ensures s.issued[Key(1, 0)] == y && s.results[Key(1, 0)] == handler(x) != handler(s.issued[Key(1, 0)])
  {
    var s1 := StaleMany(handler, x, CYCLE);
    var s0, l := Reconnect(handler, s1, x, y);
    var s2 := Misdirect(handler, s0, x, l);
    ReachNext(handler, s2, ClientRead(l, |s2.links[l].toClient|));
    ReceiveOne(s2, l, Message(handler(x), PKG_TYPE_COMMON, 0));
    s := ClientReadDo(s2, l, |s2.links[l].toClient|);
  }
}
