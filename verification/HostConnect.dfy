/** From discovery to connection: HostChangeReq of bridge/connreq_mgr.cpp on top of the client
    loop.  Its list of pending addresses, the jobs it hands to its thread pool and the client's
    connection table together keep one connection per address. */
module HostConnect {
  import opened Common
  import opened GenId
  import opened ClientCore

  import opened ClientConns

  const CONN_TIMEOUT: nat := 1000

  datatype Phase = Pending | WaitingFor(id: TaskId) | Over

  datatype Job = Job(ip: string, phase: Phase)

  /** `owner` records which job submitted a connect task. */
  datatype Sys = Sys(client: Client, reqs: seq<string>, jobs: map<nat, Job>, started: nat, owner: map<TaskId, nat>)

  const Start: Sys := Sys(Init, [], map[], 0, map[])

  datatype Step =
    | Discover(ip: string, accepted: bool)
    | JobSkips(j: nat)
    | JobSubmits(j: nat)
    | JobEnds(j: nat)
    | Loop(e: Event)

  /** delsvrconn removes every entry with the address. */
  function Without(reqs: seq<string>, ip: string): seq<string> {
    if reqs == [] then [] else (if reqs[0] == ip then [] else [reqs[0]]) + Without(reqs[1..], ip)
  }

  lemma {:induction false} WithoutJoins(a: seq<string>, b: seq<string>, ip: string)
    ensures Without(a + b, ip) == Without(a, ip) + Without(b, ip)
    decreases |a|
  {
    if a == [] {
      assert a + b == b;
    } else {
      assert (a + b)[1..] == a[1..] + b;
      WithoutJoins(a[1..], b, ip);
    }
  }

  lemma {:induction false} WithoutCounts(reqs: seq<string>, ip: string)
    ensures multiset(Without(reqs, ip)) == multiset(reqs)[ip := 0]
    ensures ip !in Without(reqs, ip) && (ip !in reqs ==> Without(reqs, ip) == reqs)
    decreases |reqs|
  {
    if reqs != [] {
      WithoutCounts(reqs[1..], ip);
      assert reqs == [reqs[0]] + reqs[1..];
    }
  }

  /** Every entry with the address is erased, wherever it is, and the others stay in their order. */
  lemma WithoutMeans(a: seq<string>, b: seq<string>, ip: string)
    ensures Without(a + [ip] + b, ip) == Without(a, ip) + Without(b, ip)
    ensures ip !in a ==> Without(a, ip) == a
  {
    WithoutJoins(a + [ip], b, ip);
    WithoutJoins(a, [ip], ip);
    assert Without([ip], ip) == [];
    WithoutCounts(a, ip);
  }

  /** One round of the erasing loop. */
  lemma WithoutStep(reqs: seq<string>, it: nat, ip: string)
    requires it < |reqs|
    ensures var erased := reqs[..it] + reqs[it + 1..];
      reqs[..it] + Without(reqs[it..], ip) ==
        if reqs[it] == ip then erased[..it] + Without(erased[it..], ip)
        else reqs[..it + 1] + Without(reqs[it + 1..], ip)
  {
    var erased, rest := reqs[..it] + reqs[it + 1..], Without(reqs[it + 1..], ip);
    assert reqs[it..][1..] == reqs[it + 1..];
    assert erased[..it] == reqs[..it] && erased[it..] == reqs[it + 1..];
    if reqs[it] == ip {
      assert [] + rest == rest;
    } else {
      assert reqs[..it] + ([reqs[it]] + rest) == reqs[..it + 1] + rest;
    }
  }

  ghost predicate Can(s: Sys, st: Step) {
    match st
    case Discover(ip, accepted) => true
    case JobSkips(j) => j in s.jobs && s.jobs[j].phase == Pending
    case JobSubmits(j) => j in s.jobs && s.jobs[j].phase == Pending && s.client.running
    case JobEnds(j) => j in s.jobs && Ended(s, s.jobs[j].phase)
    case Loop(e) => Enabled(s.client, e) && !(e.Submit? && e.task.Connect?)
  }

  /** The semaphore of the job's task was posted, or it never submitted one. */
  ghost predicate Ended(s: Sys, p: Phase) {
    p == Over || (p.WaitingFor? && p.id in s.client.hist.posts && s.client.hist.posts[p.id] > 0)
  }

  ghost function Do(s: Sys, st: Step): Sys
    requires Can(s, st)
  {
    match st
    case Discover(ip, accepted) => DiscoverDo(s, ip, accepted)
    case JobSkips(j) => s.(jobs := s.jobs[j := s.jobs[j].(phase := Over)])
    case JobSubmits(j) => SubmitDo(s, j)
    case JobEnds(j) => s.(reqs := Without(s.reqs, s.jobs[j].ip), jobs := s.jobs - {j})
    case Loop(e) => s.(client := Apply(s.client, e))
  }

  /** addsvrconn; the pool may be full. */
  ghost function DiscoverDo(s: Sys, ip: string, accepted: bool): Sys {
    if ip in s.reqs then s
    else s.(reqs := s.reqs + [ip],
            jobs := if accepted then s.jobs[s.started := Job(ip, Pending)] else s.jobs, started := s.started + 1)
  }

  /** threadpool_work calls ssn_connect, which submits a CONNECT task and waits for it. */
  ghost function SubmitDo(s: Sys, j: nat): Sys
    requires j in s.jobs
  {
    var id := s.client.issued;
    s.(client := SubmitStep(s.client, Connect(s.jobs[j].ip, CONN_TIMEOUT)),
       jobs := s.jobs[j := s.jobs[j].(phase := WaitingFor(id))], owner := s.owner[id := j])
  }

  ghost predicate IsRunOf(s: Sys, sts: seq<Step>)
    decreases |sts|
  {
    sts == [] || (Can(s, sts[0]) && IsRunOf(Do(s, sts[0]), sts[1..]))
  }

  ghost function After(s: Sys, sts: seq<Step>): Sys
    requires IsRunOf(s, sts)
    decreases |sts|
  {
    if sts == [] then s else After(Do(s, sts[0]), sts[1..])
  }

  // ----- the list of pending addresses

  class HostChangeReq {
    var reqs: seq<string>

    constructor ()
      ensures reqs == []
    {
      reqs := [];
    }

    /** addsvrconn: whether a job is to be queued; together with the pool's answer this is the
        Discover step. */
    method AddSvrConn(ip: string) returns (push: bool)
      modifies this
      ensures push == (ip !in old(reqs)) && reqs == if push then old(reqs) + [ip] else old(reqs)
      ensures forall s: Sys, accepted: bool :: s.reqs == old(reqs) ==> DiscoverDo(s, ip, accepted).reqs == reqs
    {
      var it := 0;
      while it < |reqs| && reqs[it] != ip
        invariant 0 <= it <= |reqs| && ip !in reqs[..it]
      {
        it := it + 1;
      }
      push := it == |reqs|;
      if push {
        reqs := reqs + [ip];
      }
    }

    /** delsvrconn: erases every entry with the address while iterating. */
    method DelSvrConn(ip: string)
      modifies this
      ensures reqs == Without(old(reqs), ip) && ip !in reqs && multiset(reqs) == multiset(old(reqs))[ip := 0]
    {
      WithoutCounts(reqs, ip);
      var it := 0;
      while it < |reqs|
        invariant 0 <= it <= |reqs|
        invariant Without(old(reqs), ip) == reqs[..it] + Without(reqs[it..], ip)
        decreases |reqs| - it
      {
        WithoutStep(reqs, it, ip);
        if reqs[it] == ip {
          reqs := reqs[..it] + reqs[it + 1..];
        } else {
          it := it + 1;
        }
      }
      assert reqs[..it] == reqs && reqs[it..] == [];
    }
  }

  // ----- what the client loop does to addresses

  ghost function IpOf(s: Client, c: ConnId): Option<string> {
    if c in s.conns && s.conns[c] in s.handles then Some(s.handles[s.conns[c]].ip) else None
  }

  ghost predicate OnePerIp(s: Client) {
    forall c, d :: c in s.conns && d in s.conns && c != d ==> IpOf(s, c) != IpOf(s, d)
  }

  /** A pending connect task has no connection to its address beside it. */
  ghost predicate DialFree(s: Client, id: TaskId) {
    id in s.tasks && (s.tasks[id].Connect? ==> forall c :: c in s.conns ==> IpOf(s, c) != Some(s.tasks[id].ip))
  }

  /** No connection is new, and pending tasks are the same or fewer. */
  ghost predicate Fewer(s: Client, s': Client) {
    && FewerConns(s, s')
    && (forall i :: i in s'.tasks ==> i in s.tasks && s'.tasks[i] == s.tasks[i])
  }

  ghost predicate IpsOk(s: Client) {
    && OnePerIp(s)
    && (forall i {:trigger DialFree(s, i)} :: i in s.tasks ==> DialFree(s, i))
  }

  /** No connection is new. */
  ghost predicate FewerConns(s: Client, s': Client) {
    forall c :: c in s'.conns ==> c in s.conns && IpOf(s', c) == IpOf(s, c)
  }

  lemma FewerIps(s: Client, s': Client)
    requires IpsOk(s) && Fewer(s, s')
    ensures IpsOk(s')
  {
    forall i {:trigger DialFree(s', i)} | i in s'.tasks ensures DialFree(s', i) { assert DialFree(s, i); }
  }

  /** At most one pending connect task per address. */
  ghost predicate OneDial(s: Client) {
    forall i, j :: i in s.tasks && j in s.tasks && i != j && s.tasks[i].Connect? && s.tasks[j].Connect? ==>
      s.tasks[i].ip != s.tasks[j].ip
  }

  lemma FinishIps(s: Client, ids: set<TaskId>)
    requires IpsOk(s)
    ensures IpsOk(FinishAll(s, ids))
  {
    FewerIps(s, FinishAll(s, ids));
  }

  lemma RwIps(s: Client, id: TaskId, conn: ConnId, timeout: nat, outcome: Outcome)
    requires IpsOk(s)
    ensures IpsOk(RwStep(s, id, conn, timeout, outcome))
  {
    var s1 := s.(tasks := s.tasks[id := Rw(conn, timeout)]);
    forall i {:trigger DialFree(s1, i)} | i in s1.tasks ensures DialFree(s1, i) { assert i != id ==> DialFree(s, i); }
    FinishIps(s1, {id});
    FewerIps(s1, s1.(writes := s1.writes[id := timeout]));
  }

  lemma ConnectIps(s: Client, id: TaskId, ip: string, timeout: nat, outcome: Outcome)
    requires IpsOk(s) && ConnsOk(s) && id !in s.tasks
    ensures IpsOk(ConnectStep(s, id, ip, timeout, outcome))
  {
    var s1 := s.(tasks := s.tasks[id := Connect(ip, timeout)]);
    var s' := ConnectStep(s, id, ip, timeout, outcome);
    assert HandleOk(s, s.created);
    ConnectSame(s, id, ip, timeout, outcome);
    forall c | c in s.conns ensures IpOf(s', c) == IpOf(s, c) { assert EntryOk(s, c); }
    if Connected(s1, ip) || !outcome.Accepted? {
      ConnectUndone(s, id, ip, timeout, outcome);
      FewerIps(s, s');
    } else {
      assert s'.conns == s.conns && s'.tasks == s1.tasks;
      forall i {:trigger DialFree(s', i)} | i in s'.tasks ensures DialFree(s', i) {
        if i != id { assert DialFree(s, i); } else { DialedFree(s, s1, ip); }
      }
    }
  }

  lemma ConnectUndone(s: Client, id: TaskId, ip: string, timeout: nat, outcome: Outcome)
    requires id !in s.tasks && (Connected(s.(tasks := s.tasks[id := Connect(ip, timeout)]), ip) || !outcome.Accepted?)
    ensures ConnectStep(s, id, ip, timeout, outcome).tasks == s.tasks
  {
    assert s.tasks[id := Connect(ip, timeout)] - {id} == s.tasks;
  }

  lemma DialedFree(s: Client, s1: Client, ip: string)
    requires ConnsOk(s) && s1.conns == s.conns && s1.handles == s.handles && !Connected(s1, ip)
    ensures forall c :: c in s.conns ==> IpOf(s, c) != Some(ip)
  {
    forall c | c in s.conns ensures IpOf(s, c) != Some(ip) { assert EntryOk(s, c); }
  }

  lemma AsyncIps(s: Client, id: TaskId, outcome: Outcome)
    requires IpsOk(s) && Sound(s) && id in s.queued
    ensures IpsOk(AsyncStep(s, id, outcome))
  {
    QueuedFresh(s, id);
    var s1 := s.(queued := s.queued - {id});
    FewerIps(s, s1);
    LighterConns(s, s1);
    FinishIps(s1, {id});
    if s.queued[id].Rw? { RwIps(s1, id, s.queued[id].conn, s.queued[id].timeout, outcome); }
    else { ConnectIps(s1, id, s.queued[id].ip, s.queued[id].timeout, outcome); }
  }

  lemma WriteIps(s: Client, id: TaskId, ok: bool)
    requires IpsOk(s) && id in s.writes
    ensures IpsOk(WriteStep(s, id, ok))
  {
    var s1 := s.(writes := s.writes - {id}, hist := NoteLate(s.hist, id, id !in s.tasks, ok));
    FewerIps(s, s1);
    FinishIps(s1, {id});
    FewerIps(s1, s1.(timers := s1.timers[id := None]));
  }

  lemma CloseIps(s: Client, h: HandleId)
    requires IpsOk(s)
    ensures IpsOk(Close(s, h))
  {
    FewerIps(s, Close(s, h));
  }

  lemma TimeoutIps(s: Client, id: TaskId)
    requires IpsOk(s) && id in s.timers
    ensures IpsOk(TimeoutStep(s, id))
  {
    var s1 := s.(timers := s.timers - {id});
    FewerIps(s, s1);
    FinishIps(s1, {id});
    if s.timers[id].Some? { CloseIps(if id in s1.tasks then Finish(s1, id) else s1, s.timers[id].value); }
  }

  /** The new connection is the only one to its address. */
  lemma EstablishIps(s: Client, h: HandleId, ip: string)
    requires IpsOk(s) && ConnsOk(s) && h in s.handles && s.handles[h].ip == ip && s.handles[h].connId == INVALID_CONNID
    requires forall c :: c in s.conns ==> IpOf(s, c) != Some(ip)
    requires forall i :: i in s.tasks && s.tasks[i].Connect? ==> s.tasks[i].ip != ip
    ensures IpsOk(Establish(s, h))
  {
    var s' := Establish(s, h);
    forall c | c in s.conns ensures IpOf(s', c) == IpOf(s, c) { assert EntryOk(s, c); }
    forall i {:trigger DialFree(s', i)} | i in s'.tasks ensures DialFree(s', i) { assert DialFree(s, i); }
  }

  lemma ConnectedIps(s: Client, id: TaskId, ok: bool)
    requires IpsOk(s) && Sound(s) && OneDial(s) && id in s.connects && s.connects[id] in s.handles
    ensures IpsOk(ConnectedStep(s, id, ok))
  {
    assert DialOk(s, id) && TaskOk(s, id);
    var h := s.connects[id];
    if id in s.tasks {
      assert DialFree(s, id);
      var s0 := s.(tasks := s.tasks - {id}, timers := s.timers - {id});
      LighterConns(s, s0);
      UndialConns(s0, id);
      var s1 := s0.(connects := s.connects - {id});
      FewerIps(s, s1);
      if ok { EstablishIps(s1, h, s.handles[h].ip); FinishIps(Establish(s1, h), {id}); }
      else { CloseIps(s1, h); FinishIps(Close(s1, h), {id}); }
    } else {
      FewerIps(s, s.(connects := s.connects - {id}));
    }
  }

  lemma ReadErrorIps(s: Client, h: HandleId)
    requires IpsOk(s) && h in s.handles
    ensures IpsOk(ReadErrorStep(s, h))
  {
    var c := s.handles[h].connId;
    CloseIps(s, h);
    FewerIps(Close(s, h), Drop(Close(s, h), h, c));
    FinishIps(Drop(Close(s, h), h, c), RwOn(s.tasks, c));
  }

  lemma ClosedIps(s: Client, h: HandleId)
    requires IpsOk(s) && Sound(s) && h in s.handles
    ensures IpsOk(ClosedStep(s, h))
  {
    var s' := ClosedStep(s, h);
    forall c | c in s'.conns ensures c in s.conns && IpOf(s', c) == IpOf(s, c) { assert EntryOk(s, c); }
    FewerIps(s, s');
  }

  /** Every event of the client loop other than submitting a connect task keeps one connection
      per address, as long as there is one pending connect task per address. */
  lemma EventIps(s: Client, e: Event)
    requires IpsOk(s) && Sound(s) && OneDial(s) && Enabled(s, e)
    ensures IpsOk(Apply(s, e))
  {
    match e
    case Submit(t) => FewerIps(s, SubmitStep(s, t));
    case Async(i, o) => AsyncIps(s, i, o);
    case WriteDone(i, ok) => WriteIps(s, i, ok);
    case Timeout(i) => TimeoutIps(s, i);
    case ConnectDone(i, ok) => ConnectedIps(s, i, ok);
    case ReadError(h) => ReadErrorIps(s, h);
    case Response(i) => FewerIps(s, ResponseStep(s, i));
    case Closed(h) => ClosedIps(s, h);
    case Shutdown => FewerIps(s, ShutdownStep(s));
  }

  // ----- the composition

  ghost predicate NoDuplicates(reqs: seq<string>) {
    forall i, j :: 0 <= i < j < |reqs| ==> reqs[i] != reqs[j]
  }

  ghost predicate JobOk(s: Sys, j: nat) {
    && j in s.jobs && j < s.started && s.jobs[j].ip in s.reqs
    && (s.jobs[j].phase.WaitingFor? ==> s.jobs[j].phase.id < s.client.issued)
  }

  ghost predicate JobsApart(s: Sys) {
    forall j, k :: j in s.jobs && k in s.jobs && j != k ==> s.jobs[j].ip != s.jobs[k].ip
  }

  /** A waiting connect task belongs to the job that submitted it, which waits for it. */
  ghost predicate OwnedOk(s: Sys, i: TaskId) {
    Waiting(s.client, i) && i in s.client.hist.kind && s.client.hist.kind[i].Connect? ==>
      i in s.owner && s.owner[i] in s.jobs && s.jobs[s.owner[i]] == Job(s.client.hist.kind[i].ip, WaitingFor(i))
  }

  ghost predicate SysOk(s: Sys) {
    && Sound(s.client) && IpsOk(s.client)
    && NoDuplicates(s.reqs)
    && (forall j {:trigger JobOk(s, j)} :: j in s.jobs ==> JobOk(s, j))
    && JobsApart(s)
    && (forall i: TaskId {:trigger OwnedOk(s, i)} :: OwnedOk(s, i))
  }

  lemma OneDialEach(s: Sys)
    requires SysOk(s)
    ensures OneDial(s.client)
  {
    var c := s.client;
    forall i, j | i in c.tasks && j in c.tasks && i != j && c.tasks[i].Connect? && c.tasks[j].Connect?
      ensures c.tasks[i].ip != c.tasks[j].ip
    {
      assert TaskOk(c, i) && TaskOk(c, j);
      assert OwnedOk(s, i) && OwnedOk(s, j);
    }
  }

  /** No task starts waiting and no kind changes. */
  ghost predicate NoNewWait(s: Client, s': Client) {
    && s'.hist.kind == s.hist.kind && s'.issued == s.issued
    && (forall i :: i in s'.queued ==> i in s.queued)
    && (forall i :: i in s'.tasks ==> i in s.tasks || i in s.queued)
  }

  lemma FinishWaits(s: Client, s': Client, ids: set<TaskId>)
    requires NoNewWait(s, s')
    ensures NoNewWait(s, FinishAll(s', ids))
  {
  }

  lemma ConnectWaits(s: Client, k: TaskId, ip: string, timeout: nat, o: Outcome)
    requires k in s.queued
    ensures NoNewWait(s, ConnectStep(s.(queued := s.queued - {k}), k, ip, timeout, o))
  {
    var s1 := s.(queued := s.queued - {k}, tasks := s.tasks[k := Connect(ip, timeout)]);
    FinishWaits(s, s1, {k});
    FinishWaits(s, Open(s1, ip, true), {k});
    DialWaits(s, s1, k, ip, timeout);
  }

  lemma DialWaits(s: Client, s1: Client, k: TaskId, ip: string, timeout: nat)
    requires NoNewWait(s, s1)
    ensures NoNewWait(s, Dial(Open(s1, ip, false), k, s1.created, timeout))
  {
  }

  lemma AsyncWaits(s: Client, k: TaskId, o: Outcome)
    requires k in s.queued
    ensures NoNewWait(s, AsyncStep(s, k, o))
  {
    var s1 := s.(queued := s.queued - {k});
    FinishWaits(s, s1, {k});
    if s.queued[k].Rw? {
      FinishWaits(s, s1.(tasks := s.tasks[k := s.queued[k]]), {k});
    } else {
      ConnectWaits(s, k, s.queued[k].ip, s.queued[k].timeout, o);
    }
  }

  lemma WriteWaits(s: Client, k: TaskId, ok: bool)
    requires k in s.writes
    ensures NoNewWait(s, WriteStep(s, k, ok))
  {
    FinishWaits(s, s.(writes := s.writes - {k}, hist := NoteLate(s.hist, k, k !in s.tasks, ok)), {k});
  }

  lemma TimeoutWaits(s: Client, k: TaskId)
    requires k in s.timers
    ensures NoNewWait(s, TimeoutStep(s, k))
  {
    FinishWaits(s, s.(timers := s.timers - {k}), {k});
  }

  lemma ConnectedWaits(s: Client, k: TaskId, ok: bool)
    requires k in s.connects && s.connects[k] in s.handles
    ensures NoNewWait(s, ConnectedStep(s, k, ok))
  {
    var h, s1 := s.connects[k], s.(connects := s.connects - {k}, tasks := s.tasks - {k}, timers := s.timers - {k});
    FinishWaits(s, Close(s1, h), {k});
    FinishWaits(s, Establish(s1, h), {k});
  }

  lemma ReadErrorWaits(s: Client, h: HandleId)
    requires h in s.handles
    ensures NoNewWait(s, ReadErrorStep(s, h))
  {
    FinishWaits(s, Drop(Close(s, h), h, s.handles[h].connId), RwOn(s.tasks, s.handles[h].connId));
  }

  /** Apart from submissions, no task starts waiting and no kind changes. */
  lemma StepWaits(s: Client, e: Event)
    requires Enabled(s, e) && !e.Submit?
    ensures NoNewWait(s, Apply(s, e))
  {
    match e
    case Async(k, o) => AsyncWaits(s, k, o);
    case WriteDone(k, ok) => WriteWaits(s, k, ok);
    case Timeout(k) => TimeoutWaits(s, k);
    case ConnectDone(k, ok) => ConnectedWaits(s, k, ok);
    case ReadError(h) => ReadErrorWaits(s, h);
    case Response(k) => FinishWaits(s, s, {k});
    case Closed(h) =>
    case Shutdown => FinishWaits(s, Halt(s), s.tasks.Keys);
  }

  lemma LoopKeeps(s: Sys, e: Event)
    requires SysOk(s) && Enabled(s.client, e) && !(e.Submit? && e.task.Connect?)
    ensures SysOk(s.(client := Apply(s.client, e)))
  {
    var s' := s.(client := Apply(s.client, e));
    OneDialEach(s);
    SoundKept(s.client, e);
    EventIps(s.client, e);
    if !e.Submit? { StepWaits(s.client, e); }
    forall j {:trigger JobOk(s', j)} | j in s'.jobs ensures JobOk(s', j) { assert JobOk(s, j); }
    forall i: TaskId {:trigger OwnedOk(s', i)} ensures OwnedOk(s', i) { assert OwnedOk(s, i); }
  }

  lemma DiscoverKeeps(s: Sys, ip: string, accepted: bool)
    requires SysOk(s)
    ensures SysOk(DiscoverDo(s, ip, accepted))
  {
    var s' := DiscoverDo(s, ip, accepted);
    forall j {:trigger JobOk(s', j)} | j in s'.jobs ensures JobOk(s', j) {
      if j in s.jobs { assert JobOk(s, j); } else { assert s'.reqs[|s.reqs|] == ip; }
    }
    forall j, k | j in s'.jobs && k in s'.jobs && j != k ensures s'.jobs[j].ip != s'.jobs[k].ip {
      assert j in s.jobs ==> JobOk(s, j);
      assert k in s.jobs ==> JobOk(s, k);
    }
    forall i: TaskId {:trigger OwnedOk(s', i)} ensures OwnedOk(s', i) {
      assert OwnedOk(s, i);
      if i in s.owner && s.owner[i] in s.jobs { assert JobOk(s, s.owner[i]); }
    }
  }

  lemma SubmitKeeps(s: Sys, j: nat)
    requires SysOk(s) && j in s.jobs && s.jobs[j].phase == Pending && s.client.running
    ensures SysOk(SubmitDo(s, j))
  {
    var s', t := SubmitDo(s, j), Connect(s.jobs[j].ip, CONN_TIMEOUT);
    SoundKept(s.client, Submit(t));
    FewerIps(s.client, SubmitStep(s.client, t));
    assert TaskOk(s.client, s.client.issued);
    forall k {:trigger JobOk(s', k)} | k in s'.jobs ensures JobOk(s', k) { assert JobOk(s, k); }
    forall i: TaskId {:trigger OwnedOk(s', i)} ensures OwnedOk(s', i) { assert OwnedOk(s, i); }
  }

  lemma SkipKeeps(s: Sys, j: nat)
    requires SysOk(s) && j in s.jobs && s.jobs[j].phase == Pending
    ensures SysOk(s.(jobs := s.jobs[j := s.jobs[j].(phase := Over)]))
  {
    var s' := s.(jobs := s.jobs[j := s.jobs[j].(phase := Over)]);
    forall k {:trigger JobOk(s', k)} | k in s'.jobs ensures JobOk(s', k) { assert JobOk(s, k); }
    forall i: TaskId {:trigger OwnedOk(s', i)} ensures OwnedOk(s', i) { assert OwnedOk(s, i); }
  }

  lemma {:induction false} WithoutKeeps(reqs: seq<string>, ip: string)
    requires NoDuplicates(reqs)
    ensures NoDuplicates(Without(reqs, ip))
    ensures forall x :: x in Without(reqs, ip) <==> x in reqs && x != ip
  {
    if reqs != [] {
      WithoutKeeps(reqs[1..], ip);
      assert reqs == [reqs[0]] + reqs[1..];
      var w := Without(reqs[1..], ip);
      forall i | 0 <= i < |w| ensures w[i] != reqs[0] { assert w[i] in reqs[1..]; }
    }
  }

  lemma EndKeeps(s: Sys, j: nat)
    requires SysOk(s) && j in s.jobs && Ended(s, s.jobs[j].phase)
    ensures SysOk(s.(reqs := Without(s.reqs, s.jobs[j].ip), jobs := s.jobs - {j}))
  {
    var s' := s.(reqs := Without(s.reqs, s.jobs[j].ip), jobs := s.jobs - {j});
    WithoutKeeps(s.reqs, s.jobs[j].ip);
    forall k {:trigger JobOk(s', k)} | k in s'.jobs ensures JobOk(s', k) { assert JobOk(s, k); }
    forall i: TaskId {:trigger OwnedOk(s', i)} ensures OwnedOk(s', i) {
      assert OwnedOk(s, i) && TaskOk(s.client, i);
    }
  }

  lemma DoKeeps(s: Sys, st: Step)
    requires SysOk(s) && Can(s, st)
    ensures SysOk(Do(s, st))
  {
    match st
    case Discover(ip, accepted) => DiscoverKeeps(s, ip, accepted);
    case JobSkips(j) => SkipKeeps(s, j);
    case JobSubmits(j) => SubmitKeeps(s, j);
    case JobEnds(j) => EndKeeps(s, j);
    case Loop(e) => LoopKeeps(s, e);
  }

  lemma {:induction false} RunKeepsSys(s: Sys, sts: seq<Step>)
    requires SysOk(s) && IsRunOf(s, sts)
    ensures SysOk(After(s, sts))
    decreases |sts|
  {
    if sts != [] {
      DoKeeps(s, sts[0]);
      RunKeepsSys(Do(s, sts[0]), sts[1..]);
    }
  }

  /** In every run in which connects go through HostChangeReq, whatever timeouts race with late
      connect callbacks, no two connections in the client's table have the same address. */
  lemma OneConnectionPerAddress(sts: seq<Step>, c: ConnId, d: ConnId)
    requires IsRunOf(Start, sts)
    requires c in After(Start, sts).client.conns && d in After(Start, sts).client.conns && c != d
    ensures IpOf(After(Start, sts).client, c).Some?
    ensures IpOf(After(Start, sts).client, c) != IpOf(After(Start, sts).client, d)
  {
    InitSound();
    forall i: TaskId {:trigger OwnedOk(Start, i)} ensures OwnedOk(Start, i) { }
    assert SysOk(Start);
    RunKeepsSys(Start, sts);
    assert EntryOk(After(Start, sts).client, c);
  }

  // ----- the pending addresses are those of the jobs

  /** A new address is pending from now on and, if the pool takes it, has a job; a pending one changes
      nothing. */
  lemma DiscoverDoes(s: Sys, ip: string, accepted: bool)
    requires SysOk(s)
    ensures var s' := Do(s, Discover(ip, accepted));
      && s'.client == s.client && s'.owner == s.owner
      && (ip in s.reqs ==> s' == s)
      && (ip !in s.reqs ==>
            && s'.reqs == s.reqs + [ip] && s.started !in s.jobs
            && s'.jobs == (if accepted then s.jobs[s.started := Job(ip, Pending)] else s.jobs))
  {
    assert s.started in s.jobs ==> JobOk(s, s.started);
  }

  /** A job submits one connect to its address, and waits for it. */
  lemma JobDoes(s: Sys, j: nat, i: TaskId)
    requires SysOk(s) && Can(s, JobSubmits(j))
    ensures var s', id := Do(s, JobSubmits(j)), s.client.issued;
      && id !in s.client.queued && id in s'.client.queued && s'.client.queued[id] == Connect(s.jobs[j].ip, 1000)
      && (i != id ==> Look(s'.client, i) == Look(s.client, i)) && s'.client.conns == s.client.conns
      && s'.jobs == s.jobs[j := Job(s.jobs[j].ip, WaitingFor(id))] && s'.reqs == s.reqs
  {
    assert TaskOk(s.client, s.client.issued);
  }

  /** A job that ends takes its address out of the list; the address may be discovered anew. */
  lemma EndDoes(s: Sys, j: nat, x: string)
    requires SysOk(s) && Can(s, JobEnds(j))
    ensures var s' := Do(s, JobEnds(j));
      && (x in s'.reqs <==> x in s.reqs && x != s.jobs[j].ip) && s'.jobs == s.jobs - {j} && s'.client == s.client
  {
    WithoutKeeps(s.reqs, s.jobs[j].ip);
  }

  /** Every pending address has a job that works on it. */
  ghost predicate NoneStuck(s: Sys) {
    forall ip :: ip in s.reqs ==> exists j :: j in s.jobs && s.jobs[j].ip == ip
  }

  /** An address that is pending has a job, which will take it out of the list, as long as, and only
      as long as, the pool takes the job of every newly discovered address. */
  lemma StuckExactly(s: Sys, st: Step)
    requires SysOk(s) && NoneStuck(s) && Can(s, st)
    ensures NoneStuck(Do(s, st)) <==> !(st.Discover? && !st.accepted && st.ip !in s.reqs)
  {
    var s' := Do(s, st);
    match st
    case Discover(ip, accepted) => DiscoverStuck(s, ip, accepted);
    case JobEnds(j) =>
      WithoutKeeps(s.reqs, s.jobs[j].ip);
      forall ip | ip in s'.reqs ensures exists k :: k in s'.jobs && s'.jobs[k].ip == ip {
        var k :| k in s.jobs && s.jobs[k].ip == ip;
        assert k in s'.jobs && s'.jobs[k].ip == ip;
      }
    case _ =>
      forall ip | ip in s'.reqs ensures exists k :: k in s'.jobs && s'.jobs[k].ip == ip {
        var k :| k in s.jobs && s.jobs[k].ip == ip;
        assert k in s'.jobs && s'.jobs[k].ip == ip;
      }
  }

  lemma DiscoverStuck(s: Sys, ip: string, accepted: bool)
    requires SysOk(s) && NoneStuck(s)
    ensures NoneStuck(Do(s, Discover(ip, accepted))) <==> accepted || ip in s.reqs
  {
    var s' := Do(s, Discover(ip, accepted));
    DiscoverDoes(s, ip, accepted);
    if ip !in s.reqs {
      assert s'.reqs[|s.reqs|] == ip;
      if accepted {
        forall x | x in s'.reqs ensures exists k :: k in s'.jobs && s'.jobs[k].ip == x {
          if x == ip {
            assert s.started in s'.jobs;
          } else {
            var k :| k in s.jobs && s.jobs[k].ip == x;
            assert k in s'.jobs && s'.jobs[k].ip == x;
          }
        }
      } else {
        forall j | j in s'.jobs ensures s'.jobs[j].ip != ip { assert JobOk(s, j); }
        assert ip in s'.reqs && !NoneStuck(s');
      }
    }
  }

  // ----- without HostChangeReq

  lemma TwoSubmitted(ip: string) returns (s: Client)
    ensures Reachable(s) && s.running && s.conns == map[] && s.handles == map[] && s.connects == map[] &&
      s.tasks == map[]
    ensures s.allocs == 0 && s.created == 0 && s.queued == map[0 := Connect(ip, 0), 1 := Connect(ip, 0)]
  {
    ReachInit();
    ReachNext(Init, Submit(Connect(ip, 0)));
    var s1 := SubmitStep(Init, Connect(ip, 0));
    ReachNext(s1, Submit(Connect(ip, 0)));
    s := SubmitStep(s1, Connect(ip, 0));
  }

  /** Two connect tasks for one address that are both pending before either completes leave two
      connections to it; so the client loop alone does not keep one connection per address. */
  lemma DirectConnectsDuplicate(ip: string) returns (s: Client)
    ensures Reachable(s) && !OnePerIp(s)
  {
    var s2 := TwoSubmitted(ip);
    var s3 := DialOne(s2, 0, ip);
    var s4 := DialOne(s3, 1, ip);
    IdsDistinct(0, 1);
    var s5 := EstablishOne(s4, 0);
    s := EstablishOne(s5, 1);
    assert IpOf(s, Id(0)) == IpOf(s, Id(1)) && Id(0) in s.conns && Id(1) in s.conns;
  }

  // ----- exactly when the client loop alone keeps one connection per address

  /** A connect completes although a connection to its address was established meanwhile. */
  ghost predicate Duplicates(s: Client, e: Event) {
    && e.ConnectDone? && e.ok && e.id in s.tasks && e.id in s.connects && s.connects[e.id] in s.handles
    && Id(s.allocs) !in s.conns && Connected(s, s.handles[s.connects[e.id]].ip)
  }

  lemma HandlesFewer(s: Client, s': Client)
    requires s'.conns == s.conns && (forall c :: c in s.conns ==> s.conns[c] in s.handles)
    requires forall h :: h in s.handles ==> h in s'.handles && s'.handles[h].ip == s.handles[h].ip
    ensures FewerConns(s, s')
  {
  }

  lemma ConnectSame(s: Client, id: TaskId, ip: string, timeout: nat, outcome: Outcome)
    requires s.created !in s.handles
    ensures var s' := ConnectStep(s, id, ip, timeout, outcome);
      s'.conns == s.conns && forall h :: h in s.handles ==> h in s'.handles && s'.handles[h] == s.handles[h]
  {
  }

  lemma RwSame(s: Client, id: TaskId, conn: ConnId, timeout: nat, outcome: Outcome)
    ensures var s' := RwStep(s, id, conn, timeout, outcome); s'.conns == s.conns && s'.handles == s.handles
  {
  }

  lemma AsyncSame(s: Client, id: TaskId, outcome: Outcome)
    requires id in s.queued && s.created !in s.handles
    ensures var s' := AsyncStep(s, id, outcome);
      s'.conns == s.conns && forall h :: h in s.handles ==> h in s'.handles && s'.handles[h] == s.handles[h]
  {
    var s1 := s.(queued := s.queued - {id});
    match s.queued[id]
    case Rw(conn, timeout) => RwSame(s1, id, conn, timeout, outcome);
    case Connect(ip, timeout) => ConnectSame(s1, id, ip, timeout, outcome);
  }

  lemma AsyncFewer(s: Client, id: TaskId, outcome: Outcome)
    requires Sound(s) && id in s.queued
    ensures FewerConns(s, AsyncStep(s, id, outcome))
  {
    assert HandleOk(s, s.created);
    AsyncSame(s, id, outcome);
    forall c | c in s.conns ensures s.conns[c] in s.handles { assert EntryOk(s, c); }
    HandlesFewer(s, AsyncStep(s, id, outcome));
  }

  lemma TimeoutFewer(s: Client, id: TaskId)
    requires id in s.timers
    ensures FewerConns(s, TimeoutStep(s, id))
  {
  }

  lemma ReadErrorFewer(s: Client, h: HandleId)
    requires h in s.handles
    ensures FewerConns(s, ReadErrorStep(s, h))
  {
  }

  lemma FailedFewer(s: Client, id: TaskId, ok: bool)
    requires id in s.connects && s.connects[id] in s.handles && (ok ==> id !in s.tasks)
    ensures FewerConns(s, ConnectedStep(s, id, ok))
  {
  }

  lemma ClosedFewer(s: Client, h: HandleId)
    requires Sound(s) && h in s.handles
    ensures FewerConns(s, ClosedStep(s, h))
  {
    var s' := ClosedStep(s, h);
    forall c | c in s'.conns ensures c in s.conns && IpOf(s', c) == IpOf(s, c) { assert EntryOk(s, c); }
  }

  /** Only a completed connect adds a connection. */
  lemma OthersFewer(s: Client, e: Event)
    requires Sound(s) && Enabled(s, e) && !(e.ConnectDone? && e.ok && e.id in s.tasks)
    ensures FewerConns(s, Apply(s, e))
  {
    match e
    case Submit(t) => assert FewerConns(s, SubmitStep(s, t));
    case Async(i, o) => AsyncFewer(s, i, o);
    case WriteDone(i, ok) => assert FewerConns(s, WriteStep(s, i, ok));
    case Timeout(i) => TimeoutFewer(s, i);
    case ConnectDone(i, ok) => FailedFewer(s, i, ok);
    case ReadError(h) => ReadErrorFewer(s, h);
    case Response(i) => assert FewerConns(s, ResponseStep(s, i));
    case Closed(h) => ClosedFewer(s, h);
    case Shutdown => assert ShutdownStep(s).conns == map[];
  }

  lemma FewerOne(s: Client, s': Client)
    requires OnePerIp(s) && FewerConns(s, s')
    ensures OnePerIp(s')
  {
  }

  /** The table after a completed connect. */
  lemma CompletedTable(s: Client, id: TaskId)
    requires Sound(s) && id in s.connects && s.connects[id] in s.handles && id in s.tasks
    ensures var s', h, c := ConnectedStep(s, id, true), s.connects[id], Id(s.allocs);
      && s'.conns == (if c in s.conns then s.conns else s.conns[c := h])
      && (forall d :: d in s.conns ==> IpOf(s', d) == IpOf(s, d) && IpOf(s, d).Some?)
      && (c !in s.conns ==> IpOf(s', c) == Some(s.handles[h].ip))
  {
    var s' := ConnectedStep(s, id, true);
    forall d | d in s.conns ensures IpOf(s', d) == IpOf(s, d) && IpOf(s, d).Some? { assert EntryOk(s, d); }
  }

  lemma CompletedOne(s: Client, id: TaskId)
    requires Sound(s) && OnePerIp(s) && Enabled(s, ConnectDone(id, true)) && id in s.tasks
    ensures OnePerIp(ConnectedStep(s, id, true)) <==> !Duplicates(s, ConnectDone(id, true))
  {
    var s', h, c := ConnectedStep(s, id, true), s.connects[id], Id(s.allocs);
    CompletedTable(s, id);
    if c !in s.conns && Connected(s, s.handles[h].ip) {
      var d :| d in s.conns && s.conns[d] in s.handles && s.handles[s.conns[d]].ip == s.handles[h].ip;
      assert IpOf(s, d) == Some(s.handles[h].ip);
      assert c in s'.conns && d in s'.conns && c != d && IpOf(s', c) == IpOf(s', d);
    } else {
      forall a, b | a in s'.conns && b in s'.conns && a != b ensures IpOf(s', a) != IpOf(s', b) { }
    }
  }

  /** One event keeps one connection per address if and only if it is not a connect that completes
      beside an established connection to its address. */
  lemma OnePerIpExactly(s: Client, e: Event)
    requires Sound(s) && OnePerIp(s) && Enabled(s, e)
    ensures OnePerIp(Apply(s, e)) <==> !Duplicates(s, e)
  {
    if e.ConnectDone? && e.ok && e.id in s.tasks {
      CompletedOne(s, e.id);
    } else {
      OthersFewer(s, e);
      FewerOne(s, Apply(s, e));
    }
  }

  /** One connection per address in every state of a run. */
  ghost predicate AlwaysOne(s: Client, es: seq<Event>)
    requires IsRun(s, es)
    decreases |es|
  {
    OnePerIp(s) && (es != [] ==> AlwaysOne(Apply(s, es[0]), es[1..]))
  }

  ghost predicate NeverDuplicates(s: Client, es: seq<Event>)
    requires IsRun(s, es)
    decreases |es|
  {
    es != [] ==> !Duplicates(s, es[0]) && NeverDuplicates(Apply(s, es[0]), es[1..])
  }

  /** A run of the client loop alone has one connection per address throughout if and only if no
      connect completes beside an established connection to its address. */
  lemma {:induction false} RunOnePerIp(s: Client, es: seq<Event>)
    requires Sound(s) && OnePerIp(s) && IsRun(s, es)
    ensures AlwaysOne(s, es) <==> NeverDuplicates(s, es)
    decreases |es|
  {
    if es != [] {
      OnePerIpExactly(s, es[0]);
      SoundKept(s, es[0]);
      if !Duplicates(s, es[0]) { RunOnePerIp(Apply(s, es[0]), es[1..]); }
    }
  }
}
