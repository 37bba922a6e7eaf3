/** libuv's async handles (third/libuv/src/unix/async.c): senders on any number of threads race with
    the loop thread.  A step is one access to a shared word or to the wakeup descriptor, or one
    action of the loop thread. */
module AsyncWakeup {
  import opened Common

  type HandleId = nat
  type SendId = nat

  /** A handle.  `owner` is the send that last set `pending`, `served` the sends whose mark the loop
      has taken, `sends` all calls of uv_async_send, `calls` the callbacks made. */
  datatype Handle = Handle(open: bool, callback: bool, pending: bool,
                           owner: SendId, served: set<SendId>, sends: set<SendId>, calls: nat)

  /** A call of uv_async_send on `h`; `since` counts the marks taken before it began. */
  datatype Sender =
    | Reading(h: HandleId, since: nat)
    | Swapping(h: HandleId, since: nat)
    | Writing(h: HandleId, since: nat)
    | Returned(h: HandleId, since: nat)

  /** The loop thread: polling, in the read loop of uv__async_io, about to start or in the middle of
      uv__async_event, or calling back. */
  datatype Thread = Polling | Draining | Drained | Passing | Calling(h: HandleId)

  /** `tokens` is the counter of an eventfd, or the number of bytes in a pipe. */
  datatype State = State(
    eventfd: bool, tokens: nat, handles: map<HandleId, Handle>, senders: map<SendId, Sender>,
    ring: seq<HandleId>, local: seq<HandleId>, thread: Thread)

  datatype Event =
    | Open(h: HandleId, callback: bool)
    | Close(h: HandleId)
    | Send(i: SendId, h: HandleId)
    | Read(i: SendId)
    | Swap(i: SendId)
    | Write(i: SendId, full: bool)
    | Poll
    | Drain
    | Move
    | Visit
    | Call
    | Rest

  const BUFSIZE: nat := 1024

  function Init(eventfd: bool): State { State(eventfd, 0, map[], map[], [], [], Polling) }

  /** A write fails with EAGAIN only on a descriptor that is full, hence readable. */
  predicate Enabled(s: State, e: Event) {
    match e
    case Open(h, _) => h !in s.handles
    case Close(h) => h in s.handles && s.handles[h].open
    case Send(i, h) => i !in s.senders && h in s.handles
    case Read(i) => i in s.senders && s.senders[i].Reading? && s.senders[i].h in s.handles
    case Swap(i) => i in s.senders && s.senders[i].Swapping? && s.senders[i].h in s.handles
    case Write(i, full) => i in s.senders && s.senders[i].Writing? && (full ==> s.tokens > 0)
    case Poll => s.thread.Polling? && s.tokens > 0
    case Drain => s.thread.Draining?
    case Move => s.thread.Drained?
    case Visit => s.thread.Passing? && s.local != [] && s.local[0] in s.handles
    case Call => s.thread.Calling? && s.thread.h in s.handles
    case Rest => s.thread.Passing? && s.local == []
  }

  function Apply(s: State, e: Event): State
    requires Enabled(s, e)
  {
    match e
    case Open(h, callback) =>
      s.(handles := s.handles[h := Handle(true, callback, false, 0, {}, {}, 0)], ring := s.ring + [h])
    case Close(h) =>
      s.(handles := s.handles[h := s.handles[h].(open := false)], ring := Unlink(s.ring, h),
        local := Unlink(s.local, h))
    case Send(i, h) =>
      s.(handles := s.handles[h := s.handles[h].(sends := s.handles[h].sends + {i})],
         senders := s.senders[i := Reading(h, |s.handles[h].served|)])
    case Read(i) =>
      var c := s.senders[i];
      s.(senders := s.senders[i := if s.handles[c.h].pending then Returned(c.h, c.since) else Swapping(c.h, c.since)])
    case Swap(i) => SwapStep(s, i)
    case Write(i, full) =>
      s.(senders := s.senders[i := Returned(s.senders[i].h, s.senders[i].since)],
         tokens := if full then s.tokens else s.tokens + 1)
    case Poll => s.(thread := Draining)
    case Drain => DrainStep(s)
    case Move => s.(local := s.ring, ring := [], thread := Passing)
    case Visit => VisitStep(s)
    case Call =>
      var h := s.thread.h;
      s.(handles := s.handles[h := s.handles[h].(calls := s.handles[h].calls + 1)], thread := Passing)
    case Rest => s.(thread := Polling)
  }

  /** cmpxchgi(&handle->pending, 0, 1) */
  function SwapStep(s: State, i: SendId): State
    requires Enabled(s, Swap(i))
  {
    var c := s.senders[i];
    if s.handles[c.h].pending then s.(senders := s.senders[i := Returned(c.h, c.since)])
    else s.(
      senders := s.senders[i := Writing(c.h, c.since)],
      handles := s.handles[c.h := s.handles[c.h].(pending := true, owner := i)])
  }

  /** One read; a full buffer means that the loop reads again. */
  function DrainStep(s: State): State
    requires Enabled(s, Drain)
  {
    if s.eventfd then s.(tokens := 0, thread := Drained)
    else if s.tokens >= BUFSIZE then s.(tokens := s.tokens - BUFSIZE)
    else s.(tokens := 0, thread := Drained)
  }

  /** cmpxchgi(&h->pending, 1, 0) on the head of the local queue. */
  function VisitStep(s: State): State
    requires Enabled(s, Visit)
  {
    var h := s.local[0];
    var k, s1 := s.handles[h], s.(local := s.local[1..], ring := s.ring + [h]);
    if !k.pending then s1
    else s1.(
      handles := s.handles[h := k.(pending := false, served := k.served + {k.owner})],
      thread := if k.callback then Calling(h) else Passing)
  }

  ghost predicate IsRun(s: State, es: seq<Event>)
    decreases |es|
  {
    es == [] || (Enabled(s, es[0]) && IsRun(Apply(s, es[0]), es[1..]))
  }

  ghost function Final(s: State, es: seq<Event>): State
    requires IsRun(s, es)
    decreases |es|
  {
    if es == [] then s else Final(Apply(s, es[0]), es[1..])
  }

  // ----- the invariant

  ghost predicate WritingOn(s: State, i: SendId, h: HandleId) {
    i in s.senders && s.senders[i].Writing? && s.senders[i].h == h
  }

  /** A reason why the loop will look at the handle. */
  ghost predicate Awake(s: State, h: HandleId) {
    || (exists i :: WritingOn(s, i, h))
    || s.tokens > 0
    || s.thread.Draining? || s.thread.Drained?
    || h in s.local
  }

  ghost predicate HandleOk(s: State, h: HandleId) {
    h in s.handles ==>
      var k := s.handles[h];
      && k.served <= k.sends && (k.pending ==> k.owner in k.sends && k.owner !in k.served)
      && (k.open ==> h in s.ring || h in s.local)
      && (k.open && k.pending ==> Awake(s, h))
      && (k.callback ==> k.calls + (if s.thread == Calling(h) then 1 else 0) == |k.served|)
      && (!k.callback ==> k.calls == 0)
  }

  ghost predicate SenderOk(s: State, i: SendId) {
    i in s.senders ==>
      var c := s.senders[i];
      c.h in s.handles &&
      var k := s.handles[c.h];
      && c.since <= |k.served| && i in k.sends
      && (c.Reading? || c.Swapping? ==> i !in k.served && !(k.pending && k.owner == i))
      && (c.Writing? || c.Returned? ==> k.pending || |k.served| > c.since)
  }

  ghost predicate SendsKnown(s: State, h: HandleId) {
    h in s.handles ==> s.handles[h].sends <= s.senders.Keys
  }

  ghost predicate LoopOk(s: State) {
    && (s.local != [] ==> s.thread.Passing? || s.thread.Calling?)
    && (forall h :: h in s.ring || h in s.local ==> h in s.handles)
    && (s.thread.Calling? ==> s.thread.h in s.handles && s.handles[s.thread.h].callback)
    && (s.thread.Draining? && s.eventfd ==> s.tokens > 0)
  }

  ghost predicate StateOk(s: State) {
    && LoopOk(s)
    && (forall h {:trigger HandleOk(s, h)} :: HandleOk(s, h))
    && (forall h {:trigger SendsKnown(s, h)} :: SendsKnown(s, h))
    && (forall i {:trigger SenderOk(s, i)} :: SenderOk(s, i))
  }

  // ----- what a step does to one handle

  lemma CloseHandle(s: State, c: HandleId, h: HandleId)
    requires HandleOk(s, h) && Enabled(s, Close(c))
    ensures HandleOk(Apply(s, Close(c)), h)
  {
    UnlinkKeeps(s.ring, c, h);
    UnlinkKeeps(s.local, c, h);
    var s' := Apply(s, Close(c));
    assert forall i :: WritingOn(s, i, h) ==> WritingOn(s', i, h);
  }

  lemma SendHandle(s: State, i: SendId, c: HandleId, h: HandleId)
    requires HandleOk(s, h) && Enabled(s, Send(i, c))
    ensures HandleOk(Apply(s, Send(i, c)), h)
  {
    assert forall j :: WritingOn(s, j, h) ==> WritingOn(Apply(s, Send(i, c)), j, h);
  }

  lemma ReadHandle(s: State, i: SendId, h: HandleId)
    requires HandleOk(s, h) && Enabled(s, Read(i))
    ensures HandleOk(Apply(s, Read(i)), h)
  {
    assert forall j :: WritingOn(s, j, h) ==> WritingOn(Apply(s, Read(i)), j, h);
  }

  lemma SwapHandle(s: State, i: SendId, h: HandleId)
    requires HandleOk(s, h) && SenderOk(s, i) && Enabled(s, Swap(i))
    ensures HandleOk(Apply(s, Swap(i)), h)
  {
    var s' := Apply(s, Swap(i));
    assert forall j :: WritingOn(s, j, h) ==> WritingOn(s', j, h);
    assert s'.senders[i].Writing? ==> WritingOn(s', i, s.senders[i].h);
  }

  lemma WriteHandle(s: State, i: SendId, full: bool, h: HandleId)
    requires HandleOk(s, h) && Enabled(s, Write(i, full))
    ensures HandleOk(Apply(s, Write(i, full)), h)
  {
  }

  /** Steps that leave the senders and the handle alone. */
  lemma SameSenders(s: State, s': State, h: HandleId)
    requires s'.senders == s.senders
    ensures forall j :: WritingOn(s, j, h) <==> WritingOn(s', j, h)
  {
  }

  lemma OpenHandle(s: State, c: HandleId, callback: bool, h: HandleId)
    requires HandleOk(s, h) && Enabled(s, Open(c, callback)) && LoopOk(s)
    ensures HandleOk(Apply(s, Open(c, callback)), h)
  {
    SameSenders(s, Apply(s, Open(c, callback)), h);
  }

  lemma LoopHandle(s: State, e: Event, h: HandleId)
    requires HandleOk(s, h) && Enabled(s, e) && LoopOk(s) && (e.Poll? || e.Drain? || e.Move? || e.Rest? || e.Call?)
    ensures HandleOk(Apply(s, e), h)
  {
    SameSenders(s, Apply(s, e), h);
  }

  lemma VisitHandle(s: State, h: HandleId)
    requires HandleOk(s, h) && Enabled(s, Visit)
    ensures HandleOk(Apply(s, Visit), h)
  {
    SameSenders(s, Apply(s, Visit), h);
    assert h in s.local <==> h == s.local[0] || h in s.local[1..];
  }

  lemma HandleKept(s: State, e: Event, h: HandleId)
    requires HandleOk(s, h) && LoopOk(s) && Enabled(s, e) && (e.Swap? ==> SenderOk(s, e.i))
    ensures HandleOk(Apply(s, e), h)
  {
    match e
    case Open(c, callback) => OpenHandle(s, c, callback, h);
    case Close(c) => CloseHandle(s, c, h);
    case Send(i, c) => SendHandle(s, i, c, h);
    case Read(i) => ReadHandle(s, i, h);
    case Swap(i) => SwapHandle(s, i, h);
    case Write(i, full) => WriteHandle(s, i, full, h);
    case Visit => VisitHandle(s, h);
    case _ => LoopHandle(s, e, h);
  }

  lemma SenderKept(s: State, e: Event, i: SendId)
    requires SenderOk(s, i) && Enabled(s, e) && (forall h :: HandleOk(s, h) && SendsKnown(s, h))
    ensures SenderOk(Apply(s, e), i)
  {
    if i in s.senders { assert HandleOk(s, s.senders[i].h); }
    match e
    case Send(j, h) =>
      assert HandleOk(s, h) && SendsKnown(s, h);
      SendSender(s, j, h, i);
    case Swap(j) => SwapSender(s, j, i);
    case Visit => VisitSender(s, i);
    case Close(h) => assert SenderOk(Apply(s, Close(h)), i);
    case _ =>
  }

  lemma SendSender(s: State, j: SendId, h: HandleId, i: SendId)
    requires SenderOk(s, i) && Enabled(s, Send(j, h)) && HandleOk(s, h) && SendsKnown(s, h)
    ensures SenderOk(Apply(s, Send(j, h)), i)
  {
  }

  lemma SwapSender(s: State, j: SendId, i: SendId)
    requires SenderOk(s, i) && Enabled(s, Swap(j)) && (i in s.senders ==> HandleOk(s, s.senders[i].h))
    ensures SenderOk(SwapStep(s, j), i)
  {
  }

  lemma VisitSender(s: State, i: SendId)
    requires SenderOk(s, i) && Enabled(s, Visit) && (i in s.senders ==> HandleOk(s, s.senders[i].h))
    ensures SenderOk(VisitStep(s), i)
  {
  }

  lemma KnownKept(s: State, e: Event, h: HandleId)
    requires SendsKnown(s, h) && Enabled(s, e)
    ensures SendsKnown(Apply(s, e), h)
  {
  }

  lemma LoopKept(s: State, e: Event)
    requires LoopOk(s) && Enabled(s, e)
    ensures LoopOk(Apply(s, e))
  {
    if e.Close? {
      forall h ensures h in Unlink(s.ring, e.h) || h in Unlink(s.local, e.h) ==> h in s.handles {
        UnlinkKeeps(s.ring, e.h, h);
        UnlinkKeeps(s.local, e.h, h);
      }
    }
  }

  lemma StepKeeps(s: State, e: Event)
    requires StateOk(s) && Enabled(s, e)
    ensures StateOk(Apply(s, e))
  {
    LoopKept(s, e);
    forall h ensures HandleOk(Apply(s, e), h) {
      assert HandleOk(s, h);
      if e.Swap? { assert SenderOk(s, e.i); }
      HandleKept(s, e, h);
    }
    forall h ensures SendsKnown(Apply(s, e), h) { assert SendsKnown(s, h); KnownKept(s, e, h); }
    forall i ensures SenderOk(Apply(s, e), i) { assert SenderOk(s, i); SenderKept(s, e, i); }
  }

  lemma {:induction false} RunKeeps(s: State, es: seq<Event>)
    requires StateOk(s) && IsRun(s, es)
    ensures StateOk(Final(s, es)) && Final(s, es).eventfd == s.eventfd
    decreases |es|
  {
    if es != [] {
      StepKeeps(s, es[0]);
      RunKeeps(Apply(s, es[0]), es[1..]);
    }
  }

  lemma Reached(eventfd: bool, es: seq<Event>)
    requires IsRun(Init(eventfd), es)
    ensures StateOk(Final(Init(eventfd), es)) && Final(Init(eventfd), es).eventfd == eventfd
  {
    RunKeeps(Init(eventfd), es);
  }

  // ----- what it means

  /** No wakeup is lost: an open handle that is pending has a sender between its swap and its write,
      or a readable descriptor, or a pass of the loop that has not yet visited it. */
  lemma NoLostWakeup(eventfd: bool, es: seq<Event>, h: HandleId)
    requires IsRun(Init(eventfd), es) && h in Final(Init(eventfd), es).handles
    requires Final(Init(eventfd), es).handles[h].open && Final(Init(eventfd), es).handles[h].pending
    ensures Awake(Final(Init(eventfd), es), h)
  {
    Reached(eventfd, es);
    assert HandleOk(Final(Init(eventfd), es), h);
  }

  lemma SubsetSize<T>(a: set<T>, b: set<T>)
    requires a <= b
    ensures |a| <= |b|
  {
    assert b == a + (b - a);
  }

  /** Callbacks never outnumber sends. */
  lemma CallsWithinSends(eventfd: bool, es: seq<Event>, h: HandleId)
    requires IsRun(Init(eventfd), es) && h in Final(Init(eventfd), es).handles
    ensures var k := Final(Init(eventfd), es).handles[h]; k.calls + (if k.pending then 1 else 0) <= |k.sends|
  {
    Reached(eventfd, es);
    var k := Final(Init(eventfd), es).handles[h];
    assert HandleOk(Final(Init(eventfd), es), h);
    if k.pending {
      SubsetSize(k.served + {k.owner}, k.sends);
    } else {
      SubsetSize(k.served, k.sends);
    }
  }

  /** Once the loop polls an unreadable descriptor and no sender is about to write, every send that
      returned on an open handle has been followed, after it began, by a callback. */
  lemma SendsAreServed(eventfd: bool, es: seq<Event>, i: SendId)
    requires IsRun(Init(eventfd), es) && i in Final(Init(eventfd), es).senders
    requires var s := Final(Init(eventfd), es);
      s.senders[i].Returned? && s.thread.Polling? && s.tokens == 0 &&
        forall j :: j in s.senders ==> !s.senders[j].Writing?
    ensures var s := Final(Init(eventfd), es);
      && s.senders[i].h in s.handles
      && var k := s.handles[s.senders[i].h];
        k.open && k.callback ==> k.calls > s.senders[i].since
  {
    Reached(eventfd, es);
    var s := Final(Init(eventfd), es);
    assert SenderOk(s, i);
    assert HandleOk(s, s.senders[i].h);
  }

  /** The assertion of uv__async_io: an eventfd that is read has been written. */
  lemma EventfdReadable(es: seq<Event>)
    requires IsRun(Init(true), es) && Final(Init(true), es).thread.Draining?
    ensures Final(Init(true), es).tokens > 0
  {
    Reached(true, es);
  }

  // ----- the queues

  /** A handle is in one queue, once. */
  ghost predicate Once(ring: seq<HandleId>, local: seq<HandleId>) {
    && (forall i, j :: 0 <= i < j < |ring| ==> ring[i] != ring[j])
    && (forall i, j :: 0 <= i < j < |local| ==> local[i] != local[j])
    && forall h :: h in ring ==> h !in local
  }

  /** The queues hold exactly the open handles. */
  ghost predicate QueuesOk(s: State) {
    && Once(s.ring, s.local)
    && forall h :: h in s.ring || h in s.local <==> h in s.handles && s.handles[h].open
  }

  lemma CutOnce(q: seq<HandleId>, h: HandleId)
    requires forall j, k :: 0 <= j < k < |q| ==> q[j] != q[k]
    ensures forall j, k :: 0 <= j < k < |Unlink(q, h)| ==> Unlink(q, h)[j] != Unlink(q, h)[k]
    ensures forall x :: x in Unlink(q, h) <==> x in q && x != h
  {
    if h in q {
      var i: nat :| i < |q| && q[i] == h;
      UnlinkCuts(q, h, i);
      forall x | x in q && x != h ensures x in Unlink(q, h) { UnlinkKeeps(q, h, x); }
    } else {
      UnlinkAbsent(q, h);
    }
  }

  lemma VisitOnce(ring: seq<HandleId>, local: seq<HandleId>)
    requires Once(ring, local) && local != []
    ensures Once(ring + [local[0]], local[1..]) && local[0] !in ring && local[0] !in local[1..]
    ensures forall x :: x in ring + [local[0]] || x in local[1..] <==> x in ring || x in local
  {
    var h, ring' := local[0], ring + [local[0]];
    forall x | x in ring' ensures x !in local[1..] { assert x == h || x in ring; }
    forall i, j | 0 <= i < j < |ring'| ensures ring'[i] != ring'[j] { assert ring'[i] in ring && h in local; }
  }

  lemma OpenQueues(s: State, h: HandleId, callback: bool)
    requires QueuesOk(s) && Enabled(s, Open(h, callback))
    ensures QueuesOk(Apply(s, Open(h, callback)))
  {
    assert forall x :: x in s.ring + [h] <==> x in s.ring || x == h;
    forall i, j | 0 <= i < j < |s.ring + [h]| ensures (s.ring + [h])[i] != (s.ring + [h])[j] {
      assert s.ring[i] in s.ring;
    }
  }

  lemma StepQueues(s: State, e: Event)
    requires LoopOk(s) && QueuesOk(s) && Enabled(s, e)
    ensures QueuesOk(Apply(s, e))
  {
    match e
    case Open(h, callback) => OpenQueues(s, h, callback);
    case Close(h) =>
      CutOnce(s.ring, h);
      CutOnce(s.local, h);
    case Visit => VisitOnce(s.ring, s.local);
    case Move =>
    case _ => assert Apply(s, e).ring == s.ring && Apply(s, e).local == s.local;
  }

  lemma {:induction false} RunQueues(s: State, es: seq<Event>)
    requires StateOk(s) && QueuesOk(s) && IsRun(s, es)
    ensures QueuesOk(Final(s, es))
    decreases |es|
  {
    if es != [] {
      StepKeeps(s, es[0]);
      StepQueues(s, es[0]);
      RunQueues(Apply(s, es[0]), es[1..]);
    }
  }

  /** In every run each open handle is in exactly one of the two queues, once, and no other is in any. */
  lemma OpenHandlesQueued(eventfd: bool, es: seq<Event>, h: HandleId)
    requires IsRun(Init(eventfd), es)
    ensures var s := Final(Init(eventfd), es);
      && (h in s.handles && s.handles[h].open <==> h in s.ring || h in s.local)
      && multiset(s.ring + s.local)[h] <= 1
  {
    RunQueues(Init(eventfd), es);
    var s := Final(Init(eventfd), es);
    CountOnce(s.ring, h);
    CountOnce(s.local, h);
  }

  lemma {:induction false} CountOnce(q: seq<HandleId>, h: HandleId)
    requires forall i, j :: 0 <= i < j < |q| ==> q[i] != q[j]
    ensures multiset(q)[h] == if h in q then 1 else 0
    decreases |q|
  {
    if q != [] {
      assert q == [q[0]] + q[1..];
      assert q[0] !in q[1..];
      CountOnce(q[1..], h);
    }
  }

  /** A closed handle that is not being called back. */
  ghost predicate Gone(s: State, h: HandleId) {
    h in s.handles && !s.handles[h].open && h !in s.ring && h !in s.local && s.thread != Calling(h)
  }

  lemma StepGone(s: State, e: Event, h: HandleId)
    requires Gone(s, h) && Enabled(s, e)
    ensures Gone(Apply(s, e), h) && Apply(s, e).handles[h].calls == s.handles[h].calls
  {
    if e.Close? {
      UnlinkKeeps(s.ring, e.h, h);
      UnlinkKeeps(s.local, e.h, h);
    }
  }

  lemma {:induction false} RunGone(s: State, es: seq<Event>, h: HandleId)
    requires Gone(s, h) && IsRun(s, es)
    ensures Gone(Final(s, es), h) && Final(s, es).handles[h].calls == s.handles[h].calls
    decreases |es|
  {
    if es != [] {
      StepGone(s, es[0], h);
      RunGone(Apply(s, es[0]), es[1..], h);
    }
  }

  /** Once a handle is closed, outside its own callback, it is never called back again, whatever sends
      are under way. */
  lemma ClosedNotCalled(eventfd: bool, es: seq<Event>, rest: seq<Event>, h: HandleId)
    requires IsRun(Init(eventfd), es) && IsRun(Final(Init(eventfd), es), rest)
    requires var s := Final(Init(eventfd), es);
      h in s.handles && !s.handles[h].open && s.thread != Calling(h)
    ensures var s, z := Final(Init(eventfd), es), Final(Final(Init(eventfd), es), rest);
      h in z.handles && z.handles[h].calls == s.handles[h].calls
  {
    RunQueues(Init(eventfd), es);
    RunGone(Final(Init(eventfd), es), rest, h);
  }

  /** A sender returns at once if it finds the mark set, before or at its swap; else it sets it and
      writes to the descriptor, which grows unless it is full. */
  lemma SenderDoes(s: State, e: Event)
    requires Enabled(s, e) && (e.Read? || e.Swap? || e.Write?)
    ensures var s', c := Apply(s, e), s.senders[e.i];
      && s' == s.(senders := s'.senders, handles := s'.handles, tokens := s'.tokens)
      && (e.Read? ==>
            && s'.handles == s.handles && s'.tokens == s.tokens
            && s'.senders == s.senders[e.i := if s.handles[c.h].pending then Returned(c.h, c.since)
                                              else Swapping(c.h, c.since)])
      && (e.Swap? ==>
            var marked := s.handles[c.h].pending;
            && s'.tokens == s.tokens
            && s'.senders == s.senders[e.i := if marked then Returned(c.h, c.since) else Writing(c.h, c.since)]
            && s'.handles == (if marked then s.handles
                              else s.handles[c.h := s.handles[c.h].(pending := true, owner := e.i)]))
      && (e.Write? ==>
            && s'.handles == s.handles && s'.senders == s.senders[e.i := Returned(c.h, c.since)]
            && s'.tokens == s.tokens + (if e.full then 0 else 1))
  {
  }

  /** A new handle is open, not pending and last in the queue. */
  lemma OpenDoes(s: State, h: HandleId, callback: bool, k: HandleId)
    requires Enabled(s, Open(h, callback))
    ensures var s' := Apply(s, Open(h, callback));
      && s'.ring == s.ring + [h] && s'.local == s.local && s'.tokens == s.tokens && s'.senders == s.senders
      && h in s'.handles && s'.handles[h].open && !s'.handles[h].pending && s'.handles[h].calls == 0
      && s'.handles[h].callback == callback
      && (k in s.handles ==> k in s'.handles && s'.handles[k] == s.handles[k])
  {
  }

  // ----- the code of the steps

  /** A send that nothing interrupts. */
  ghost function Sent(s: State, i: SendId, h: HandleId): State
    requires Enabled(s, Send(i, h))
  {
    var s2 := Apply(Apply(s, Send(i, h)), Read(i));
    if s2.senders[i].Returned? then s2
    else
      var s3 := Apply(s2, Swap(i));
      if s3.senders[i].Returned? then s3 else Apply(s3, Write(i, false))
  }

  lemma SentKeeps(s: State, i: SendId, h: HandleId)
    requires StateOk(s) && Enabled(s, Send(i, h))
    ensures StateOk(Sent(s, i, h))
  {
    var s1 := Apply(s, Send(i, h));
    StepKeeps(s, Send(i, h));
    StepKeeps(s1, Read(i));
    var s2 := Apply(s1, Read(i));
    if !s2.senders[i].Returned? {
      StepKeeps(s2, Swap(i));
      var s3 := Apply(s2, Swap(i));
      if !s3.senders[i].Returned? { StepKeeps(s3, Write(i, false)); }
    }
  }

  /** A read loop that nothing interrupts. */
  ghost function ReadOut(s: State): State
    requires s.thread.Draining?
    decreases s.tokens
  {
    var s' := DrainStep(s);
    if s'.thread.Drained? then s' else ReadOut(s')
  }

  /** One turn of the loop of uv__async_event: the visit and the callback it leads to. */
  ghost function Turn(s: State): State
    requires Enabled(s, Visit)
  {
    var s' := VisitStep(s);
    if s'.thread.Calling? then Apply(s', Call) else s'
  }

  lemma TurnKeeps(s: State)
    requires StateOk(s) && Enabled(s, Visit)
    ensures StateOk(Turn(s)) && Turn(s).thread.Passing? && Turn(s).local == s.local[1..]
  {
    StepKeeps(s, Visit);
    var s' := VisitStep(s);
    if s'.thread.Calling? { StepKeeps(s', Call); }
  }

  lemma TurnTakes(s: State, h: HandleId)
    requires Enabled(s, Visit) && h in s.handles
    ensures var s', v := Turn(s), s.local[0];
      && s'.ring == s.ring + [v] && s'.tokens == s.tokens && h in s'.handles
      && s'.handles[h].callback == s.handles[h].callback
      && s'.handles[h].pending == (s.handles[h].pending && h != v)
      && s'.handles[h].calls == s.handles[h].calls +
        (if h == v && s.handles[h].pending && s.handles[h].callback then 1 else 0)
  {
  }

  /** The rest of a pass over the handles that nothing interrupts. */
  ghost function Passed(s: State): State
    requires StateOk(s) && s.thread.Passing?
    decreases |s.local|
  {
    if s.local == [] then Apply(s, Rest) else TurnKeeps(s); Passed(Turn(s))
  }

  /** A pass takes every mark, calls back once for each, and leaves the handles in their order. */
  lemma {:induction false} PassedTakes(s: State, h: HandleId)
    requires StateOk(s) && s.thread.Passing? && h in s.handles
    ensures var s' := Passed(s);
      && s'.thread.Polling? && s'.local == [] && s'.ring == s.ring + s.local && s'.tokens == s.tokens
      && h in s'.handles && s'.handles[h].pending == (s.handles[h].pending && h !in s.local)
      && s'.handles[h].calls == s.handles[h].calls +
        (if h in s.local && s.handles[h].pending && s.handles[h].callback then 1 else 0)
    decreases |s.local|
  {
    if s.local == [] {
      assert s.ring + s.local == s.ring;
    } else {
      TurnKeeps(s);
      TurnTakes(s, h);
      PassedTakes(Turn(s), h);
      assert s.ring + [s.local[0]] + s.local[1..] == s.ring + s.local;
      assert h in s.local <==> h == s.local[0] || h in s.local[1..];
    }
  }

  /** A whole pass. */
  ghost function Moved(s: State): State
    requires StateOk(s) && s.thread.Drained?
  {
    StepKeeps(s, Event.Move);
    Passed(Apply(s, Event.Move))
  }
}
