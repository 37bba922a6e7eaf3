/** Request by request: what every read delivers, and that no request is lost between the client that
    asks and the client that is answered, over the steps of EndToEnd. */
module Delivery {
  import opened Common
  import opened GenId
  import opened Framing

  import opened EndToEnd

  // ----- which messages a read completes

  /** The bytes hold the first `m` messages and not the whole of the next one. */
  ghost predicate Complete(n: nat, ms: seq<Message>, m: nat) {
    m <= |ms| && |BuildAll(ms[..m])| <= n && (m < |ms| ==> n < |BuildAll(ms[..m + 1])|)
  }

  lemma {:induction false} BuildAllSplits(ms: seq<Message>, k: nat)
    requires k <= |ms|
    ensures BuildAll(ms) == BuildAll(ms[..k]) + BuildAll(ms[k..])
    decreases k
  {
    if k == 0 {
      assert ms[..0] == [] && ms[0..] == ms;
    } else {
      var first, a, b := Build(ms[0].data, ms[0].kind, ms[0].taskId), BuildAll(ms[..k][1..]), BuildAll(ms[k..]);
      calc {
        BuildAll(ms);
        first + BuildAll(ms[1..]);
        { BuildAllSplits(ms[1..], k - 1); assert ms[1..][..k - 1] == ms[..k][1..] && ms[1..][k - 1..] == ms[k..]; }
        first + (a + b);
        { Appended(first, a, b); }
        (first + a) + b;
        BuildAll(ms[..k]) + b;
      }
    }
  }

  /** Unparsed bytes are fewer than the package they are the beginning of. */
  lemma RestIsShort(rest: Bytes, b: Bytes, ms: seq<Message>)
    requires ms != [] && Fits(ms[0]) && Settled(rest) && rest + b == BuildAll(ms)
    ensures |rest| < |Build(ms[0].data, ms[0].kind, ms[0].taskId)|
  {
    var first := Build(ms[0].data, ms[0].kind, ms[0].taskId);
    if |rest| >= |first| {
      CutAfter(rest, b, first, BuildAll(ms[1..]));
      BuildParses(ms[0], rest[|first|..]);
    }
  }

  lemma CompleteFrom(n: nat, rest: Bytes, b: Bytes, ms: seq<Message>, m: nat)
    requires (forall x :: x in ms ==> Fits(x)) && n + |b| == |BuildAll(ms)| && m <= |ms|
    requires Settled(rest) && rest + b == BuildAll(ms[m..])
    ensures Complete(n, ms, m) && (b == [] ==> m == |ms|)
  {
    BuildAllSplits(ms, m);
    assert |rest| + |b| == |BuildAll(ms[m..])|;
    if m < |ms| {
      RestIsShort(rest, b, ms[m..]);
      assert ms[..m + 1] == ms[..m] + [ms[m]];
      BuildAllAppends(ms[..m], ms[m]);
      assert |BuildAll(ms[m..])| >= |Build(ms[m].data, ms[m].kind, ms[m].taskId)|;
    }
  }

  /** A read of a stream of requests or of answers. */
  lemma ReadCompletes(a: Bytes, b: Bytes, ms: seq<Message>) returns (m: nat)
    requires (forall x :: x in ms ==> Fits(x)) && a + b == BuildAll(ms)
    ensures Complete(|a|, ms, m) && (b == [] ==> m == |ms|)
    ensures Parse(a).Parsed? && Parse(a).pkgs == SentAll(ms[..m])
  {
    m := PrefixParses(a, b, ms);
    RestSettled(a);
    assert |a| + |b| == |a + b|;
    CompleteFrom(|a|, Parse(a).rest, b, ms, m);
  }

  // ----- the server

  lemma {:induction false} JobEach(sid: nat, c: ClientId, ms: seq<Message>)
    requires forall m :: m in ms ==> m.kind == 1
    ensures var js := JobsOf(sid, c, SentAll(ms));
      |js| == |ms| && forall i :: 0 <= i < |ms| ==> js[i] == Job(sid, ms[i].taskId, ms[i].data, c)
  {
    if ms != [] {
      JobEach(sid, c, ms[1..]);
      JobFirst(sid, c, ms);
    }
  }

  lemma JobFirst(sid: nat, c: ClientId, ms: seq<Message>)
    requires ms != [] && ms[0].kind == 1
    ensures JobsOf(sid, c, SentAll(ms)) ==
      [Job(sid, ms[0].taskId, ms[0].data, c)] + JobsOf(sid, c, SentAll(ms[1..]))
  {
    assert SentAll(ms)[1..] == SentAll(ms[1..]);
  }

  /** The read completes the first `m` requests.  If the table has the id of the connection, each of
      them becomes a job for the client, in order; else none does.  Nothing else changes. */
  ghost predicate Dispatches(s: Net, s': Net, l: nat, n: nat, m: nat) {
    && l in s.links && l in s'.links
    && var k, k' := s.links[l], s'.links[l];
    && Complete(|k.serverCache| + n, k.reqs, m) && (n == |k.toServer| ==> m == |k.reqs|)
    && |s'.jobs| == |s.jobs| + (if k.sid in s.table then m else 0) && s'.jobs[..|s.jobs|] == s.jobs
    && (k.sid in s.table ==> forall i :: 0 <= i < m ==>
          s'.jobs[|s.jobs| + i] == Job(k.sid, k.reqs[i].taskId, k.reqs[i].data, k.client))
    && k'.reqs == k.reqs[m..] && k' == k.(toServer := k'.toServer, serverCache := k'.serverCache, reqs := k'.reqs)
    && s' == s.(links := s.links[l := k'], jobs := s'.jobs)
  }

  lemma ReadDispatches(handler: Handler, s: Net, s': Net, l: nat, n: nat, own: bool) returns (m: nat)
    requires NetOk(handler, s, own) && Can(s, ServerRead(l, n)) && s' == Do(handler, s, ServerRead(l, n))
    ensures Dispatches(s, s', l, n, m)
  {
    m := ServerReadIs(handler, s, s', l, n, own);
    var k := s.links[l];
    assert LinkOk(handler, s.issued, own, k);
    forall x | x in k.reqs[..m] ensures x.kind == 1 { assert ReqOk(s.issued, k.client, x); }
    TookDispatches(s, s', l, n, m);
  }

  lemma TookDispatches(s: Net, s': Net, l: nat, n: nat, m: nat)
    requires Took(s, s', l, n, m) && forall x :: x in s.links[l].reqs[..m] ==> x.kind == 1
    ensures Dispatches(s, s', l, n, m)
  {
    JobEach(s.links[l].sid, s.links[l].client, s.links[l].reqs[..m]);
  }

  ghost predicate Took(s: Net, s': Net, l: nat, n: nat, m: nat) {
    && l in s.links && n <= |s.links[l].toServer|
    && var k := s.links[l];
    && Complete(|k.serverCache| + n, k.reqs, m) && (n == |k.toServer| ==> m == |k.reqs|)
    && var r := Parse(k.serverCache + k.toServer[..n]);
    && r.Parsed?
    && var k' := k.(toServer := k.toServer[n..], serverCache := r.rest, reqs := k.reqs[m..]);
    && s' == s.(links := s.links[l := k'],
                jobs := if k.sid in s.table then s.jobs + JobsOf(k.sid, k.client, SentAll(k.reqs[..m])) else s.jobs)
  }

  lemma ServerReadIs(handler: Handler, s: Net, s': Net, l: nat, n: nat, own: bool) returns (m: nat)
    requires NetOk(handler, s, own) && l in s.links && n <= |s.links[l].toServer| && s' == ServerReadDo(s, l, n)
    ensures Took(s, s', l, n, m)
  {
    m := RequestsRead(handler, s, l, n, own);
    SentAllLength(s.links[l].reqs[..m]);
  }

  lemma RequestsRead(handler: Handler, s: Net, l: nat, n: nat, own: bool) returns (m: nat)
    requires NetOk(handler, s, own) && l in s.links && n <= |s.links[l].toServer|
    ensures var k := s.links[l];
      && Complete(|k.serverCache| + n, k.reqs, m) && (n == |k.toServer| ==> m == |k.reqs|)
      && var r := Parse(k.serverCache + k.toServer[..n]); r.Parsed? && r.pkgs == SentAll(k.reqs[..m])
  {
    var k := s.links[l];
    var a, b := k.serverCache + k.toServer[..n], k.toServer[n..];
    assert LinkOk(handler, s.issued, own, k);
    forall x | x in k.reqs ensures Fits(x) { assert ReqOk(s.issued, k.client, x); }
    assert a + b == k.serverCache + k.toServer;
    m := ReadCompletes(a, b, k.reqs);
  }

  // ----- the client

  /** The first answer to the task. */
  ghost predicate FirstFor(ms: seq<Message>, i: nat, id: nat) {
    && i < |ms| && ms[i].kind == 1 && ms[i].taskId == id
    && forall j :: 0 <= j < i ==> !(ms[j].kind == 1 && ms[j].taskId == id)
  }

  ghost predicate Hit(s: Net, c: ClientId, ms: seq<Message>, k: Key) {
    k.client == c && k in s.pending && exists i: nat :: FirstFor(ms, i, k.taskId)
  }

  lemma FirstShifts(ms: seq<Message>, id: nat, i: nat)
    requires ms != [] && !(ms[0].kind == 1 && ms[0].taskId == id)
    ensures FirstFor(ms, i, id) <==> i > 0 && FirstFor(ms[1..], i - 1, id)
  {
  }

  lemma HitShifts(s: Net, s1: Net, c: ClientId, ms: seq<Message>, k: Key)
    requires ms != [] && !(ms[0].kind == 1 && Key(c, ms[0].taskId) == k) && (k in s1.pending <==> k in s.pending)
    ensures Hit(s1, c, ms[1..], k) <==> Hit(s, c, ms, k)
  {
    if k.client == c {
      forall i: nat ensures FirstFor(ms, i, k.taskId) <==> i > 0 && FirstFor(ms[1..], i - 1, k.taskId) {
        FirstShifts(ms, k.taskId, i);
      }
      if i: nat :| FirstFor(ms[1..], i, k.taskId) { assert FirstFor(ms, i + 1, k.taskId); }
    }
  }

  ghost predicate SameFor(s: Net, s': Net, k: Key) {
    && (k in s'.pending <==> k in s.pending) && (k in s'.results <==> k in s.results)
    && (k in s.results ==> s'.results[k] == s.results[k])
  }

  /** A pending request is completed by the first answer to it, and nothing else happens to any. */
  ghost predicate Completes(s: Net, s': Net, c: ClientId, ms: seq<Message>, k: Key) {
    && (!Hit(s, c, ms, k) ==> SameFor(s, s', k))
    && (Hit(s, c, ms, k) ==>
          && k !in s'.pending && k in s'.results
          && forall i: nat :: FirstFor(ms, i, k.taskId) ==> s'.results[k] == ms[i].data)
  }

  lemma {:induction false} ReceiveMeans(s: Net, c: ClientId, ms: seq<Message>, k: Key)
    ensures Completes(s, Receive(s, c, SentAll(ms)), c, ms, k)
    decreases |ms|
  {
    if ms != [] {
      var key, p := Key(c, ms[0].taskId), Sent(ms[0]);
      var s1 := if p.kind == PKG_TYPE_COMMON && key in s.pending
                then s.(pending := s.pending - {key}, results := s.results[key := p.data]) else s;
      assert SentAll(ms)[1..] == SentAll(ms[1..]);
      ReceiveMeans(s1, c, ms[1..], k);
      if ms[0].kind == 1 && key == k {
        FirstCompletes(s, Receive(s, c, SentAll(ms)), c, ms, k);
      } else {
        LaterCompletes(s, s1, Receive(s, c, SentAll(ms)), c, ms, k);
      }
    }
  }

  lemma FirstCompletes(s: Net, s': Net, c: ClientId, ms: seq<Message>, k: Key)
    requires ms != [] && ms[0].kind == 1 && Key(c, ms[0].taskId) == k
    requires k !in s.pending ==> SameFor(s, s', k)
    requires k in s.pending ==> k !in s'.pending && k in s'.results && s'.results[k] == ms[0].data
    ensures Completes(s, s', c, ms, k)
  {
    assert FirstFor(ms, 0, k.taskId);
    assert forall i: nat :: FirstFor(ms, i, k.taskId) ==> i == 0;
  }

  lemma LaterCompletes(s: Net, s1: Net, s': Net, c: ClientId, ms: seq<Message>, k: Key)
    requires ms != [] && !(ms[0].kind == 1 && Key(c, ms[0].taskId) == k)
    requires SameFor(s, s1, k) && Completes(s1, s', c, ms[1..], k)
    ensures Completes(s, s', c, ms, k)
  {
    HitShifts(s, s1, c, ms, k);
    if Hit(s, c, ms, k) {
      forall i: nat | FirstFor(ms, i, k.taskId) ensures s'.results[k] == ms[i].data {
        FirstShifts(ms, k.taskId, i);
        assert s'.results[k] == ms[1..][i - 1].data;
      }
    }
  }

  lemma AnswersRead(handler: Handler, s: Net, l: nat, n: nat, own: bool) returns (m: nat)
    requires NetOk(handler, s, own) && l in s.links && n <= |s.links[l].toClient|
    ensures var k := s.links[l];
      && Complete(|k.clientCache| + n, k.rsps, m) && (n == |k.toClient| ==> m == |k.rsps|)
      && var r := Parse(k.clientCache + k.toClient[..n]); r.Parsed? && r.pkgs == SentAll(k.rsps[..m])
  {
    var k := s.links[l];
    var a, b := k.clientCache + k.toClient[..n], k.toClient[n..];
    assert LinkOk(handler, s.issued, own, k);
    forall x | x in k.rsps ensures Fits(x) { assert RspOk(handler, s.issued, own, k.client, x); }
    assert a + b == k.clientCache + k.toClient;
    m := ReadCompletes(a, b, k.rsps);
  }

  /** A read on the client completes exactly the first `m` messages of the stream; a request of the
      client that is pending is completed by the first of them that answers it, and no other is. */
  lemma ReadAnswers(handler: Handler, s: Net, s': Net, l: nat, n: nat, own: bool, k: Key) returns (m: nat)
    requires NetOk(handler, s, own) && Can(s, ClientRead(l, n)) && s' == Do(handler, s, ClientRead(l, n))
    ensures Answers(s, s', l, n, m, k)
  {
    m := ClientReadIs(handler, s, s', l, n, own);
    var e := s.links[l];
    var pkgs, cache := SentAll(e.rsps[..m]), Parse(e.clientCache + e.toClient[..n]).rest;
    var s1 := s.(links := s.links[l := e.(toClient := e.toClient[n..], clientCache := cache, rsps := e.rsps[m..])]);
    ReceiveMeans(s1, e.client, e.rsps[..m], k);
    ReceiveOnly(s1, e.client, pkgs);
    SameHits(s, s1, s', e.client, e.rsps[..m], k);
  }

  ghost predicate Answers(s: Net, s': Net, l: nat, n: nat, m: nat, k: Key) {
    && ReadOnly(s, s', l, m)
    && var e := s.links[l];
    && Complete(|e.clientCache| + n, e.rsps, m) && (n == |e.toClient| ==> m == |e.rsps|)
    && Completes(s, s', e.client, e.rsps[..m], k)
  }

  /** Beside what it completes, a read takes the messages from its stream and changes nothing. */
  ghost predicate ReadOnly(s: Net, s': Net, l: nat, m: nat) {
    && l in s.links && l in s'.links && m <= |s.links[l].rsps|
    && var e, e' := s.links[l], s'.links[l];
    && e'.rsps == e.rsps[m..]
    && e' == e.(toClient := e'.toClient, clientCache := e'.clientCache, rsps := e'.rsps)
    && s' == s.(links := s.links[l := e'], pending := s'.pending, results := s'.results)
  }

  lemma SameHits(s: Net, s1: Net, s': Net, c: ClientId, ms: seq<Message>, k: Key)
    requires s1.pending == s.pending && s1.results == s.results && Completes(s1, s', c, ms, k)
    ensures Completes(s, s', c, ms, k)
  {
  }

  ghost predicate Got(s: Net, s': Net, l: nat, n: nat, m: nat) {
    && l in s.links && n <= |s.links[l].toClient|
    && var e := s.links[l];
    && Complete(|e.clientCache| + n, e.rsps, m) && (n == |e.toClient| ==> m == |e.rsps|)
    && var r := Parse(e.clientCache + e.toClient[..n]);
    && r.Parsed?
    && var e' := e.(toClient := e.toClient[n..], clientCache := r.rest, rsps := e.rsps[m..]);
    && s' == Receive(s.(links := s.links[l := e']), e.client, SentAll(e.rsps[..m]))
  }

  lemma ClientReadIs(handler: Handler, s: Net, s': Net, l: nat, n: nat, own: bool) returns (m: nat)
    requires NetOk(handler, s, own) && l in s.links && n <= |s.links[l].toClient| && s' == ClientReadDo(s, l, n)
    ensures Got(s, s', l, n, m)
  {
    m := AnswersRead(handler, s, l, n, own);
    SentAllLength(s.links[l].rsps[..m]);
  }

  lemma {:induction false} ReceiveOnly(s: Net, c: ClientId, pkgs: seq<Package>)
    ensures var s' := Receive(s, c, pkgs); s' == s.(pending := s'.pending, results := s'.results)
    decreases |pkgs|
  {
    if pkgs != [] {
      var key := Key(c, pkgs[0].taskId);
      var s1 := if pkgs[0].kind == PKG_TYPE_COMMON && key in s.pending
                then s.(pending := s.pending - {key}, results := s.results[key := pkgs[0].data]) else s;
      ReceiveOnly(s1, c, pkgs[1..]);
    }
  }

  // ----- the other steps

  /** A request joins the stream of its connection under an id that its client has not used. */
  lemma SendAsks(handler: Handler, s: Net, s': Net, l: nat, data: Bytes, own: bool) returns (k: Key)
    requires NetOk(handler, s, own) && Can(s, Send(l, data)) && s' == Do(handler, s, Send(l, data))
    ensures k !in s.issued && s'.issued == s.issued[k := data] && s'.pending == s.pending + {k}
    ensures l in s.links && l in s'.links && k.client == s.links[l].client
    ensures s'.links == s.links[l := s'.links[l]] && s'.links[l].reqs == s.links[l].reqs + [Message(data, 1, k.taskId)]
    ensures s'.links[l] == s.links[l].(toServer := s'.links[l].toServer, reqs := s'.links[l].reqs)
    ensures s' == s.(next := s'.next, issued := s'.issued, pending := s'.pending, links := s'.links)
  {
    k := Key(s.links[l].client, NextId(s, s.links[l].client));
  }

  /** A job leaves the pool with the handler's output for its own data. */
  lemma WorkHandles(handler: Handler, s: Net, s': Net, i: nat)
    requires Can(s, Work(i)) && s' == Do(handler, s, Work(i))
    ensures i < |s.jobs| && s'.jobs == s.jobs[..i] + s.jobs[i + 1..]
    ensures var j := s.jobs[i]; s'.done == s.done + [Job(j.sid, j.taskId, handler(j.data), j.asker)]
    ensures s' == s.(jobs := s'.jobs, done := s'.done)
  {
  }

  /** An answer leaves in any case; it joins the stream of the connection that has its id, if the write
      is accepted and there is one, and no stream else. */
  lemma ReplySends(handler: Handler, s: Net, s': Net, i: nat, ok: bool)
    requires Can(s, Reply(i, ok)) && s' == Do(handler, s, Reply(i, ok))
    ensures i < |s.done| && s'.done == s.done[..i] + s.done[i + 1..]
    ensures s' == s.(done := s'.done, links := s'.links)
    ensures var r := s.done[i];
      if ok && r.sid in s.table && s.table[r.sid] in s.links then
        var l := s.table[r.sid];
        && l in s'.links && s'.links == s.links[l := s'.links[l]]
        && s'.links[l].rsps == s.links[l].rsps + [Message(r.data, 1, r.taskId)]
        && s'.links[l] == s.links[l].(toClient := s'.links[l].toClient, rsps := s'.links[l].rsps)
      else s'.links == s.links
  {
  }

  /** A pushed message joins the stream of its connection as one that answers no request. */
  lemma PushSends(handler: Handler, s: Net, s': Net, l: nat, data: Bytes, junk: nat)
    requires Can(s, Push(l, data, junk)) && s' == Do(handler, s, Push(l, data, junk))
    ensures l in s.links && l in s'.links && s' == s.(links := s.links[l := s'.links[l]])
    ensures s'.links[l].rsps == s.links[l].rsps + [Message(data, 2, junk)]
    ensures s'.links[l] == s.links[l].(toClient := s'.links[l].toClient, rsps := s'.links[l].rsps)
  {
  }

  /** A connection gets the next id, and the table the connection, if the table does not have the id. */
  lemma OpenConnects(handler: Handler, s: Net, s': Net, c: ClientId, junk: nat)
    requires IdsOk(s) && s' == Do(handler, s, Open(c, junk))
    ensures var sid, free := Id(s.sids), Id(s.sids) !in s.table;
      && s.linked !in s.links && s'.linked == s.linked + 1 && s'.sids == s.sids + 1
      && s'.links == s.links[s.linked := Link(c, if free then sid else junk, [], [], [], [], [], [])]
      && s'.table == (if free then s.table[sid := s.linked] else s.table)
      && s' == s.(linked := s'.linked, sids := s'.sids, links := s'.links, table := s'.table)
  {
  }

  // ----- no request is lost

  /** Where a request is: in the stream to the server, a job, an answer, in the stream to the client, or
      received. */
  datatype Place =
    | Asked(l: nat, i: nat)
    | Waiting(i: nat)
    | Worked(i: nat)
    | Answered(l: nat, i: nat)
    | Received

  ghost predicate At(s: Net, k: Key, p: Place) {
    match p
    case Asked(l, i) =>
      l in s.links && s.links[l].client == k.client && i < |s.links[l].reqs| && s.links[l].reqs[i].taskId == k.taskId
    case Waiting(i) => i < |s.jobs| && s.jobs[i].asker == k.client && s.jobs[i].taskId == k.taskId
    case Worked(i) => i < |s.done| && s.done[i].asker == k.client && s.done[i].taskId == k.taskId
    case Answered(l, i) =>
      && l in s.links && s.links[l].client == k.client && i < |s.links[l].rsps|
      && s.links[l].rsps[i].kind == 1 && s.links[l].rsps[i].taskId == k.taskId
    case Received => k in s.results
  }

  ghost predicate Somewhere(s: Net, k: Key) { exists p :: At(s, k, p) }

  /** No connection is lost, no write fails, no request is given up, and no id is handed out that the
      table still has. */
  ghost predicate Calm(s: Net, st: Step) {
    match st
    case Open(_, _) => Id(s.sids) !in s.table
    case Reply(_, ok) => ok
    case Fail(_) => false
    case ServerDrops(_) => false
    case Cut(_) => false
    case _ => true
  }

  /** Every id stands for a live connection: that of the client for which it is carried. */
  ghost predicate Live(s: Net, sid: nat, c: ClientId) {
    sid in s.table && s.table[sid] in s.links && s.links[s.table[sid]].client == c
  }

  ghost predicate Whole(s: Net) {
    && (forall sid, c {:trigger Carries(s, sid, c)} :: Carries(s, sid, c) ==> Live(s, sid, c))
    && (forall k :: k in s.issued ==> k in s.pending || k in s.results)
  }

  lemma CalmSettles(handler: Handler, s: Net, st: Step)
    requires Can(s, st) && Calm(s, st) && !st.Open?
    ensures var s' := Do(handler, s, st);
      && s'.table == s.table && s'.links.Keys == s.links.Keys
      && (forall l :: l in s.links ==> s'.links[l].client == s.links[l].client)
  {
    StepSettles(handler, s, st);
    match st
    case ServerRead(l, n) =>
    case ClientRead(l, n) =>
      var r := Parse(s.links[l].clientCache + s.links[l].toClient[..n]);
      if r.Parsed? {
        var k := s.links[l];
        ReceiveLeaves(s.(links := s.links[l := k.(toClient := k.toClient[n..], clientCache := r.rest,
          rsps := if |r.pkgs| <= |k.rsps| then k.rsps[|r.pkgs|..] else [])]), k.client, r.pkgs);
      }
    case _ =>
  }

  lemma CalmLive(handler: Handler, s: Net, st: Step, sid: nat, c: ClientId)
    requires IdsOk(s) && Whole(s) && Can(s, st) && Calm(s, st) && Carries(Do(handler, s, st), sid, c)
    ensures Live(Do(handler, s, st), sid, c)
  {
    if st.Open? {
      OpenCarries(s, st.client, st.junk, sid, c);
      assert Carries(s, sid, c) ==> Live(s, sid, c);
    } else {
      StepSettles(handler, s, st);
      CalmSettles(handler, s, st);
      assert Carries(s, sid, c) && Live(s, sid, c);
    }
  }

  lemma CalmUnmixed(s: Net, st: Step)
    requires Whole(s) && Calm(s, st)
    ensures !Clashes(s, st)
  {
    assert forall d :: Carries(s, Id(s.sids), d) ==> Live(s, Id(s.sids), d);
  }

  lemma ReadPends(handler: Handler, s: Net, l: nat, n: nat, k: Key)
    requires NetOk(handler, s, false) && Can(s, ClientRead(l, n)) && (k in s.pending || k in s.results)
    ensures var s' := Do(handler, s, ClientRead(l, n)); k in s'.pending || k in s'.results
  {
    var m := ReadAnswers(handler, s, Do(handler, s, ClientRead(l, n)), l, n, false, k);
  }

  lemma ReadKeepsIssued(handler: Handler, s: Net, l: nat, n: nat)
    requires NetOk(handler, s, false) && Can(s, ClientRead(l, n))
    ensures Do(handler, s, ClientRead(l, n)).issued == s.issued
  {
    var m := ReadAnswers(handler, s, Do(handler, s, ClientRead(l, n)), l, n, false, Key(0, 0));
  }

  lemma CalmPends(handler: Handler, s: Net, st: Step, k: Key)
    requires NetOk(handler, s, false) && Whole(s) && Can(s, st) && Calm(s, st) && k in Do(handler, s, st).issued
    ensures var s' := Do(handler, s, st); k in s'.pending || k in s'.results
  {
    match st
    case ClientRead(l, n) => ReadKeepsIssued(handler, s, l, n); ReadPends(handler, s, l, n, k);
    case _ =>
  }

  lemma CalmWhole(handler: Handler, s: Net, st: Step)
    requires NetOk(handler, s, false) && Whole(s) && Can(s, st) && Calm(s, st)
    ensures Whole(Do(handler, s, st))
  {
    var s' := Do(handler, s, st);
    forall sid, c {:trigger Carries(s', sid, c)} | Carries(s', sid, c) ensures Live(s', sid, c) {
      CalmLive(handler, s, st, sid, c);
    }
    forall k | k in s'.issued ensures k in s'.pending || k in s'.results { CalmPends(handler, s, st, k); }
  }

  // ----- each step keeps a request somewhere

  lemma SendKeepsPlace(handler: Handler, s: Net, l: nat, data: Bytes, k: Key)
    requires NetOk(handler, s, false) && Can(s, Send(l, data))
    requires k in Do(handler, s, Send(l, data)).issued && (k in s.issued ==> Somewhere(s, k))
    ensures Somewhere(Do(handler, s, Send(l, data)), k)
  {
    var s' := Do(handler, s, Send(l, data));
    var key := SendAsks(handler, s, s', l, data, false);
    if k == key { assert At(s', k, Asked(l, |s.links[l].reqs|)); } else { AskedPlace(s, s', l, k); }
  }

  /** Streams only grow. */
  lemma AskedPlace(s: Net, s': Net, l: nat, k: Key)
    requires l in s.links && l in s'.links && s'.links == s.links[l := s'.links[l]]
    requires s.links[l].reqs <= s'.links[l].reqs
    requires s'.links[l].client == s.links[l].client && s'.links[l].rsps == s.links[l].rsps
    requires s'.jobs == s.jobs && s'.done == s.done && s'.results == s.results && Somewhere(s, k)
    ensures Somewhere(s', k)
  {
    var p :| At(s, k, p);
    assert At(s', k, p);
  }

  lemma DispatchKeepsPlace(handler: Handler, s: Net, l: nat, n: nat, k: Key)
    requires NetOk(handler, s, false) && Whole(s) && Can(s, ServerRead(l, n)) && Somewhere(s, k)
    ensures Somewhere(Do(handler, s, ServerRead(l, n)), k)
  {
    var s' := Do(handler, s, ServerRead(l, n));
    var m := ReadDispatches(handler, s, s', l, n, false);
    var e := s.links[l];
    assert Carries(s, e.sid, e.client) && Live(s, e.sid, e.client);
    DispatchedPlace(s, s', l, n, m, k);
  }

  lemma DispatchedPlace(s: Net, s': Net, l: nat, n: nat, m: nat, k: Key)
    requires Dispatches(s, s', l, n, m) && s.links[l].sid in s.table && Somewhere(s, k)
    ensures Somewhere(s', k)
  {
    var p :| At(s, k, p);
    if p.Asked? && p.l == l {
      assert At(s', k, if p.i < m then Waiting(|s.jobs| + p.i) else Asked(l, p.i - m));
    } else {
      assert At(s', k, p);
    }
  }

  lemma WorkKeepsPlace(handler: Handler, s: Net, i: nat, k: Key)
    requires Can(s, Work(i)) && Somewhere(s, k)
    ensures Somewhere(Do(handler, s, Work(i)), k)
  {
    var s' := Do(handler, s, Work(i));
    WorkHandles(handler, s, s', i);
    var p :| At(s, k, p);
    if p.Waiting? {
      assert At(s', k, if p.i == i then Worked(|s.done|) else Waiting(if p.i < i then p.i else p.i - 1));
    } else {
      assert At(s', k, p);
    }
  }

  lemma ReplyKeepsPlace(handler: Handler, s: Net, i: nat, k: Key)
    requires Whole(s) && Can(s, Reply(i, true)) && Somewhere(s, k)
    ensures Somewhere(Do(handler, s, Reply(i, true)), k)
  {
    var s', r := Do(handler, s, Reply(i, true)), s.done[i];
    ReplySends(handler, s, s', i, true);
    assert Carries(s, r.sid, r.asker) && Live(s, r.sid, r.asker);
    var p :| At(s, k, p);
    if p.Worked? {
      var l := s.table[r.sid];
      assert At(s', k, if p.i == i then Answered(l, |s.links[l].rsps|) else Worked(if p.i < i then p.i else p.i - 1));
    } else {
      assert At(s', k, p);
    }
  }

  lemma AnswerKeepsPlace(handler: Handler, s: Net, l: nat, n: nat, k: Key)
    requires NetOk(handler, s, false) && Whole(s) && Can(s, ClientRead(l, n)) && Somewhere(s, k) && k in s.issued
    ensures Somewhere(Do(handler, s, ClientRead(l, n)), k)
  {
    var s' := Do(handler, s, ClientRead(l, n));
    var m := ReadAnswers(handler, s, s', l, n, false, k);
    AnsweredPlace(s, s', l, n, m, k);
  }

  lemma AnsweredPlace(s: Net, s': Net, l: nat, n: nat, m: nat, k: Key)
    requires Answers(s, s', l, n, m, k) && Somewhere(s, k) && (k in s.pending || k in s.results)
    ensures Somewhere(s', k)
  {
    var p :| At(s, k, p);
    if p.Answered? && p.l == l {
      if p.i < m {
        SomeFirst(s.links[l].rsps[..m], k.taskId, p.i);
        assert At(s', k, Received);
      } else {
        assert At(s', k, Answered(l, p.i - m));
      }
    } else {
      assert At(s', k, p);
    }
  }

  lemma {:induction false} SomeFirst(ms: seq<Message>, id: nat, i: nat)
    requires i < |ms| && ms[i].kind == 1 && ms[i].taskId == id
    ensures exists j: nat :: FirstFor(ms, j, id)
    decreases i
  {
    if j: nat :| j < i && ms[j].kind == 1 && ms[j].taskId == id {
      SomeFirst(ms, id, j);
    } else {
      assert FirstFor(ms, i, id);
    }
  }

  lemma OtherKeepsPlace(handler: Handler, s: Net, st: Step, k: Key)
    requires IdsOk(s) && Can(s, st) && (st.Open? || st.TakeId? || st.Push?) && Somewhere(s, k)
    ensures Somewhere(Do(handler, s, st), k)
  {
    var p :| At(s, k, p);
    assert At(Do(handler, s, st), k, p);
  }

  lemma CalmKeepsPlace(handler: Handler, s: Net, st: Step, k: Key)
    requires NetOk(handler, s, false) && Whole(s) && Can(s, st) && Calm(s, st)
    requires k in Do(handler, s, st).issued && (k in s.issued ==> Somewhere(s, k))
    ensures Somewhere(Do(handler, s, st), k)
  {
    match st
    case Send(l, data) => SendKeepsPlace(handler, s, l, data, k);
    case ServerRead(l, n) => DispatchKeepsPlace(handler, s, l, n, k);
    case Work(i) => WorkKeepsPlace(handler, s, i, k);
    case Reply(i, ok) => ReplyKeepsPlace(handler, s, i, k);
    case ClientRead(l, n) => ReadKeepsIssued(handler, s, l, n); AnswerKeepsPlace(handler, s, l, n, k);
    case _ => OtherKeepsPlace(handler, s, st, k);
  }

  // ----- every calm run

  ghost predicate CalmRun(handler: Handler, s: Net, sts: seq<Step>)
    requires IsRun(handler, s, sts)
    decreases |sts|
  {
    sts != [] ==> Calm(s, sts[0]) && CalmRun(handler, Do(handler, s, sts[0]), sts[1..])
  }

  lemma {:induction false} RunKeepsPlace(handler: Handler, s: Net, sts: seq<Step>, k: Key)
    requires NetOk(handler, s, false) && HandlerOk(handler) && Whole(s) && IsRun(handler, s, sts)
    requires CalmRun(handler, s, sts) && k in Final(handler, s, sts).issued && (k in s.issued ==> Somewhere(s, k))
    ensures Somewhere(Final(handler, s, sts), k) && Unmixed(handler, s, sts)
    decreases |sts|
  {
    if sts != [] {
      var s' := Do(handler, s, sts[0]);
      StepKeeps(handler, s, sts[0], false);
      CalmWhole(handler, s, sts[0]);
      CalmUnmixed(s, sts[0]);
      if k in s'.issued { CalmKeepsPlace(handler, s, sts[0], k); }
      RunKeepsPlace(handler, s', sts[1..], k);
    }
  }

  /** As long as no connection is lost, no write fails, no request is given up and no id is taken,
      every request is in a stream, a job or an answer, or has its answer. */
  lemma NothingLost(handler: Handler, sts: seq<Step>, k: Key)
    requires HandlerOk(handler) && IsRun(handler, Quiet, sts) && CalmRun(handler, Quiet, sts)
    requires k in Final(handler, Quiet, sts).issued
    ensures Somewhere(Final(handler, Quiet, sts), k)
  {
    RunKeepsPlace(handler, Quiet, sts, k);
  }

  /** So once the streams and the pool are empty, every request has been answered, with the handler's
      output for its own input. */
  lemma AllAnswered(handler: Handler, sts: seq<Step>, k: Key)
    requires HandlerOk(handler) && IsRun(handler, Quiet, sts) && CalmRun(handler, Quiet, sts)
    requires var s := Final(handler, Quiet, sts);
      && k in s.issued && s.jobs == [] && s.done == []
      && forall l :: l in s.links ==> s.links[l].reqs == [] && s.links[l].rsps == []
    ensures var s := Final(handler, Quiet, sts); k in s.results && s.results[k] == handler(s.issued[k])
  {
    RunKeepsPlace(handler, Quiet, sts, k);
    var p :| At(Final(handler, Quiet, sts), k, p);
    OwnAnswer(handler, sts, k);
  }
}
