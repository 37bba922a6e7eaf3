/** The code of third/libuv/src/unix/async.c on ring queues: the queue of a loop's handles and the
    local queue of uv__async_event are rings of the nodes inside the handles.  Each method carries
    out steps of AsyncWakeup. */
module AsyncThreads {
  import opened Common
  import opened RoleRings
  import opened AsyncWakeup

  /** What a node is for: the head of loop->async_handles or of the local queue, or the node in a handle. */
  datatype Role = Handles | Queue | Own(h: HandleId)

  ghost function Owns(q: seq<HandleId>): (xs: seq<Role>)
    ensures |xs| == |q| && forall i :: 0 <= i < |q| ==> xs[i] == Own(q[i])
  {
    seq(|q|, i requires 0 <= i < |q| => Own(q[i]))
  }

  /** The rings hold the queues of the loop. */
  ghost predicate Matches(s: State, q: map<Role, seq<Role>>, known: set<Role>) {
    && q.Keys == {Handles, Queue} && q[Handles] == Owns(s.ring) && q[Queue] == Owns(s.local)
    && Handles in known && Queue in known && forall h :: h in s.handles <==> Own(h) in known
  }

  ghost predicate Looked(d: bool) { d }

  /** The trigger keeps the parts apart. */
  ghost predicate Agrees(s: State, q: map<Role, seq<Role>>, known: set<Role>) {
    forall d {:trigger Looked(d)} :: Looked(d) ==> Once(s.ring, s.local) && Matches(s, q, known)
  }

  // ----- the steps on the queues

  lemma InitAgrees(eventfd: bool, q: map<Role, seq<Role>>, known: set<Role>)
    requires q == map[Handles := [], Queue := []] && known == {Handles, Queue}
    ensures StateOk(Init(eventfd)) && Agrees(Init(eventfd), q, known)
  {
  }

  /** A step that leaves the queues alone. */
  lemma SameAgrees(s: State, s': State, q: map<Role, seq<Role>>, known: set<Role>)
    requires Agrees(s, q, known) && s'.ring == s.ring && s'.local == s.local && s'.handles.Keys == s.handles.Keys
    ensures Agrees(s', q, known)
  {
    assert Looked(true);
    assert forall h :: h in s'.handles <==> h in s'.handles.Keys;
  }

  lemma SentQueues(s: State, i: SendId, h: HandleId)
    requires Enabled(s, Send(i, h))
    ensures var s' := Sent(s, i, h); s'.ring == s.ring && s'.local == s.local && s'.handles.Keys == s.handles.Keys
  {
  }

  lemma SentMark(s: State, i: SendId, h: HandleId)
    requires Enabled(s, Send(i, h))
    ensures var k := s.handles[h].(sends := s.handles[h].sends + {i});
      Sent(s, i, h) == s.(
        senders := s.senders[i := Returned(h, |k.served|)],
        handles := s.handles[h := if k.pending then k else k.(pending := true, owner := i)],
        tokens := if k.pending then s.tokens else s.tokens + 1)
  {
    var k := s.handles[h].(sends := s.handles[h].sends + {i});
    var s1 := Apply(s, Send(i, h));
    var s2 := Apply(s1, Read(i));
    assert s1.handles[h] == k;
    if !k.pending {
      var s3 := Apply(s2, Swap(i));
      assert s3.handles == s.handles[h := k.(pending := true, owner := i)];
    }
  }

  lemma OpenAgrees(s: State, q: map<Role, seq<Role>>, known: set<Role>, h: HandleId, callback: bool)
    requires LoopOk(s) && Agrees(s, q, known) && Enabled(s, Open(h, callback))
    ensures Handles in q && Own(h) !in known && Own(h) !in q && forall k :: k in q ==> Own(h) !in q[k]
    ensures Agrees(Apply(s, Open(h, callback)), q[Handles := q[Handles] + [Own(h)]], known + {Own(h)})
  {
    assert Looked(true);
    assert forall k :: k in q ==> k == Handles || k == Queue;
    assert Owns(s.ring + [h]) == Owns(s.ring) + [Own(h)];
  }

  lemma CutAt(q: seq<HandleId>, i: nat)
    requires i < |q| && forall j, k :: 0 <= j < k < |q| ==> q[j] != q[k]
    ensures forall j, k :: 0 <= j < k < |RemoveAt(q, i)| ==> RemoveAt(q, i)[j] != RemoveAt(q, i)[k]
    ensures forall x :: x in RemoveAt(q, i) ==> x in q
    ensures Owns(RemoveAt(q, i)) == RemoveAt(Owns(q), i)
  {
  }

  lemma {:induction false} UnlinkOnce(ring: seq<HandleId>, h: HandleId, i: nat)
    requires i < |ring| && ring[i] == h && forall j, k :: 0 <= j < k < |ring| ==> ring[j] != ring[k]
    ensures Unlink(ring, h) == RemoveAt(ring, i)
  {
    UnlinkCuts(ring, h, i);
  }

  lemma CloseRing(s: State, q: map<Role, seq<Role>>, known: set<Role>, h: HandleId, i: nat)
    requires Agrees(s, q, known) && Enabled(s, Close(h)) && i < |s.ring| && s.ring[i] == h
    ensures Handles in q && Own(h) in known && i < |q[Handles]| && q[Handles][i] == Own(h)
    ensures Agrees(Apply(s, Close(h)), q[Handles := RemoveAt(q[Handles], i)], known)
  {
    assert Looked(true);
    UnlinkOnce(s.ring, h, i);
    UnlinkAbsent(s.local, h);
    CutAt(s.ring, i);
  }

  lemma CloseLocal(s: State, q: map<Role, seq<Role>>, known: set<Role>, h: HandleId, i: nat)
    requires Agrees(s, q, known) && Enabled(s, Close(h)) && i < |s.local| && s.local[i] == h
    ensures Queue in q && Own(h) in known && i < |q[Queue]| && q[Queue][i] == Own(h)
    ensures Agrees(Apply(s, Close(h)), q[Queue := RemoveAt(q[Queue], i)], known)
  {
    assert Looked(true);
    UnlinkOnce(s.local, h, i);
    UnlinkAbsent(s.ring, h);
    CutAt(s.local, i);
  }

  lemma CloseAgrees(s: State, q: map<Role, seq<Role>>, known: set<Role>, h: HandleId) returns (r: Role, i: nat)
    requires StateOk(s) && Agrees(s, q, known) && Enabled(s, Close(h))
    ensures r in q && Own(h) in known && i < |q[r]| && q[r][i] == Own(h)
    ensures Agrees(Apply(s, Close(h)), q[r := RemoveAt(q[r], i)], known)
  {
    assert HandleOk(s, h);
    if h in s.ring {
      r, i := Handles, var i: nat :| i < |s.ring| && s.ring[i] == h; i;
      CloseRing(s, q, known, h, i);
    } else {
      r, i := Queue, var i: nat :| i < |s.local| && s.local[i] == h; i;
      CloseLocal(s, q, known, h, i);
    }
  }

  lemma MoveAgrees(s: State, q: map<Role, seq<Role>>, known: set<Role>)
    requires LoopOk(s) && Agrees(s, q, known) && Enabled(s, Event.Move)
    ensures Handles in q && Queue in q && q[Queue] == []
    ensures Agrees(Apply(s, Event.Move), q[Handles := []][Queue := q[Handles]], known)
  {
    assert Looked(true);
  }

  /** Whether the local queue is empty. */
  lemma LocalAgrees(s: State, q: map<Role, seq<Role>>, known: set<Role>)
    requires Agrees(s, q, known)
    ensures Queue in q && (q[Queue] == [] <==> s.local == [])
  {
    assert Looked(true);
  }

  lemma VisitQueues(s: State)
    requires Enabled(s, Visit)
    ensures VisitStep(s).ring == s.ring + [s.local[0]] && VisitStep(s).local == s.local[1..]
    ensures VisitStep(s).handles.Keys == s.handles.Keys
  {
  }

  lemma VisitAgrees(s: State, q: map<Role, seq<Role>>, known: set<Role>)
    requires Agrees(s, q, known) && Enabled(s, Visit)
    ensures Handles in q && Queue in q && q[Queue] != [] && q[Queue][0] == Own(s.local[0]) && Own(s.local[0]) in known
    ensures var x, q1 := q[Queue][0], q[Queue := RemoveAt(q[Queue], 0)];
      && x !in q1 && (forall k :: k in q1 ==> x !in q1[k])
      && Agrees(VisitStep(s), q1[Handles := q1[Handles] + [x]], known)
  {
    assert Looked(true);
    var h := s.local[0];
    VisitQueues(s);
    VisitOnce(s.ring, s.local);
    assert RemoveAt(Owns(s.local), 0) == Owns(s.local[1..]);
    assert Owns(s.ring + [h]) == Owns(s.ring) + [Own(h)];
    assert forall k :: k in q ==> k == Handles || k == Queue;
    assert forall x :: x in VisitStep(s).handles <==> x in VisitStep(s).handles.Keys;
  }

  class AsyncLoop {
    const eventfd: bool
    const rings: Rings<Role>
    var tokens: nat
    var handles: map<HandleId, Handle>
    ghost var ring: seq<HandleId>
    ghost var local: seq<HandleId>
    ghost var senders: map<SendId, Sender>
    ghost var thread: Thread

    ghost function Value(): State
      reads this
    {
      State(eventfd, tokens, handles, senders, ring, local, thread)
    }

    ghost predicate Valid()
      reads this, rings, rings.y.Values
    {
      StateOk(Value()) && rings.Valid() && Agrees(Value(), rings.q, rings.y.Keys)
    }

    constructor (useEventfd: bool)
      ensures Valid() && Value() == Init(useEventfd) && fresh(rings) && fresh(rings.y.Values)
    {
      eventfd, tokens, handles, ring, local := useEventfd, 0, map[], [], [];
      senders, thread := map[], Polling;
      rings := new Rings<Role>();
      new;
      AddQueue(Handles);
      AddQueue(Queue);
      InitAgrees(eventfd, rings.q, rings.y.Keys);
    }

    /** QUEUE_INIT of a new head */
    method AddQueue(r: Role)
      requires rings.Valid() && r !in rings.y && r !in rings.q && forall k :: k in rings.q ==> r !in rings.q[k]
      modifies rings, rings.y.Values
      ensures rings.Valid() && rings.q == old(rings.q)[r := []] && rings.y.Keys == old(rings.y.Keys) + {r}
      ensures rings.y.Values >= old(rings.y.Values) && fresh(rings.y.Values - old(rings.y.Values))
    {
      rings.NewNode(r);
      rings.NewQueue(r);
    }

    method Enlist(x: Role)
      requires rings.Valid() && Handles in rings.q && x !in rings.y && x !in rings.q
      requires forall k :: k in rings.q ==> x !in rings.q[k]
      modifies rings, rings.y.Values
      ensures rings.Valid() && rings.q == old(rings.q)[Handles := old(rings.q)[Handles] + [x]]
      ensures rings.y.Keys == old(rings.y.Keys) + {x}
      ensures rings.y.Values >= old(rings.y.Values) && fresh(rings.y.Values - old(rings.y.Values))
    {
      rings.NewNode(x);
      rings.Append(Handles, x);
    }

    /** uv_async_init: QUEUE_INSERT_TAIL */
    method AsyncInit(h: HandleId, callback: bool)
      requires Valid() && Enabled(Value(), Open(h, callback))
      modifies this, rings, rings.y.Values
      ensures Valid() && Value() == Apply(old(Value()), Open(h, callback))
      ensures rings.y.Values >= old(rings.y.Values) && fresh(rings.y.Values - old(rings.y.Values))
    {
      StepKeeps(Value(), Open(h, callback));
      OpenAgrees(Value(), rings.q, rings.y.Keys, h, callback);
      handles := handles[h := Handle(true, callback, false, 0, {}, {}, 0)];
      ring := ring + [h];
      Enlist(Own(h));
    }

    /** uv__async_close: QUEUE_REMOVE, whichever queue has the node */
    method AsyncClose(h: HandleId)
      requires Valid() && Enabled(Value(), Close(h))
      modifies this, rings, rings.y.Values
      ensures Valid() && Value() == Apply(old(Value()), Close(h)) && rings.y == old(rings.y)
    {
      StepKeeps(Value(), Close(h));
      ghost var r, i := CloseAgrees(Value(), rings.q, rings.y.Keys, h);
      ring, local := Unlink(ring, h), Unlink(local, h);
      handles := handles[h := handles[h].(open := false)];
      rings.Remove(Own(h), r, i);
    }

    /** uv_async_send */
    method AsyncSend(i: SendId, h: HandleId)
      requires Valid() && Enabled(Value(), Send(i, h))
      modifies this`handles, this`tokens, this`senders
      ensures Valid() && Value() == Sent(old(Value()), i, h)
    {
      SentKeeps(Value(), i, h);
      SentQueues(Value(), i, h);
      SameAgrees(Value(), Sent(Value(), i, h), rings.q, rings.y.Keys);
      SetMark(i, h);
    }

    /** The mark is set, and the descriptor written by the sender that has set it. */
    method SetMark(i: SendId, h: HandleId)
      requires Enabled(Value(), Send(i, h))
      modifies this`handles, this`tokens, this`senders
      ensures Value() == Sent(old(Value()), i, h)
    {
      SentMark(Value(), i, h);
      ghost var since := |handles[h].served|;
      handles := handles[h := handles[h].(sends := handles[h].sends + {i})];
      if !handles[h].pending {
        handles := handles[h := handles[h].(pending := true, owner := i)];
        tokens := tokens + 1;
      }
      senders := senders[i := Returned(h, since)];
    }

    /** The read loop of uv__async_io. */
    method AsyncIo()
      requires Valid() && thread.Draining?
      modifies this`tokens, this`thread
      ensures Valid() && Value() == ReadOut(old(Value())) && Value() == old(Value()).(tokens := 0, thread := Drained)
    {
      ghost var s := Value();
      var more := true;
      while more
        invariant StateOk(Value()) && Value() == s.(tokens := tokens, thread := thread)
        invariant more ==> thread.Draining? && ReadOut(Value()) == ReadOut(s)
        invariant !more ==> thread.Drained? && Value() == ReadOut(s) && tokens == 0
        decreases tokens, more
      {
        StepKeeps(Value(), Drain);
        var r := if eventfd || tokens < BUFSIZE then tokens else BUFSIZE;
        tokens := tokens - r;
        more := !eventfd && r == BUFSIZE;
        if !more { thread := Drained; }
      }
      SameAgrees(s, Value(), rings.q, rings.y.Keys);
    }

    /** QUEUE_REMOVE and QUEUE_INSERT_TAIL of the first node of the local queue */
    method Requeue(x: Role)
      requires rings.Valid() && Handles in rings.q && Queue in rings.q && rings.q[Queue] != []
      requires x == rings.q[Queue][0] && x in rings.y && x !in rings.q
      requires var q1 := rings.q[Queue := RemoveAt(rings.q[Queue], 0)]; forall k :: k in q1 ==> x !in q1[k]
      modifies rings, rings.y.Values
      ensures rings.Valid() && rings.y == old(rings.y)
      ensures var q1 := old(rings.q)[Queue := RemoveAt(old(rings.q)[Queue], 0)];
        rings.q == q1[Handles := q1[Handles] + [x]]
    {
      rings.Remove(x, Queue, 0);
      rings.Append(Handles, x);
    }

    /** The body of the loop of uv__async_event up to the callback, which may then use the other methods. */
    method VisitFirst() returns (h: HandleId, call: bool)
      requires Valid() && Enabled(Value(), Visit)
      modifies this, rings, rings.y.Values
      ensures Valid() && Value() == Apply(old(Value()), Visit) && rings.y == old(rings.y)
      ensures h == old(local)[0] && (call <==> thread == Calling(h))
    {
      StepKeeps(Value(), Visit);
      VisitAgrees(Value(), rings.q, rings.y.Keys);
      ghost var s := Value();
      var x := rings.First(Queue);
      h := x.h;
      local, ring := local[1..], ring + [h];
      call := TakeMark(h, s);
      Requeue(x);
    }

    /** cmpxchgi(&h->pending, 1, 0), and the test for a callback */
    method TakeMark(h: HandleId, ghost s: State) returns (call: bool)
      requires Enabled(s, Visit) && h == s.local[0] && Value() == s.(local := s.local[1..], ring := s.ring + [h])
      modifies this`handles, this`thread
      ensures Value() == VisitStep(s) && (call <==> thread == Calling(h))
    {
      if !handles[h].pending { return false; }
      handles := handles[h := handles[h].(pending := false, served := handles[h].served + {handles[h].owner})];
      call := handles[h].callback;
      thread := if call then Calling(h) else Passing;
    }

    /** The callback is counted. */
    method CallBack(h: HandleId)
      requires Valid() && thread == Calling(h)
      modifies this`handles, this`thread
      ensures Valid() && Enabled(old(Value()), Call) && Value() == Apply(old(Value()), Call)
    {
      StepKeeps(Value(), Call);
      SameAgrees(Value(), Apply(Value(), Call), rings.q, rings.y.Keys);
      handles := handles[h := handles[h].(calls := handles[h].calls + 1)];
      thread := Passing;
    }

    /** The body of the loop with a callback that leaves the handles alone. */
    method Serve()
      requires Valid() && Enabled(Value(), Visit)
      modifies this, rings, rings.y.Values
      ensures Valid() && Value() == Turn(old(Value())) && rings.y == old(rings.y)
    {
      var h, call := VisitFirst();
      if call { CallBack(h); }
    }

    /** QUEUE_MOVE to the local queue */
    method Collect()
      requires Valid() && thread.Drained?
      modifies this`ring, this`local, this`thread, rings, rings.y.Values
      ensures Valid() && Value() == Apply(old(Value()), Event.Move) && rings.y == old(rings.y)
    {
      StepKeeps(Value(), Event.Move);
      MoveAgrees(Value(), rings.q, rings.y.Keys);
      local, ring, thread := ring, [], Passing;
      rings.Move(Handles, Queue);
    }

    /** QUEUE_EMPTY of the local queue */
    method Finished() returns (empty: bool)
      requires Valid()
      ensures empty <==> local == []
    {
      LocalAgrees(Value(), rings.q, rings.y.Keys);
      empty := rings.IsEmpty(Queue);
    }

    /** The loop of uv__async_event. */
    method ServeAll()
      requires Valid() && thread.Passing?
      modifies this, rings, rings.y.Values
      ensures Valid() && thread.Passing? && local == [] && Passed(Value()) == Passed(old(Value()))
      ensures rings.y == old(rings.y)
    {
      ghost var s := Value();
      var empty := Finished();
      while !empty
        invariant Valid() && thread.Passing? && Passed(Value()) == Passed(s) && rings.y == old(rings.y)
        invariant empty <==> local == []
        decreases |local|
      {
        TurnKeeps(Value());
        Serve();
        empty := Finished();
      }
    }

    /** uv__async_event, with callbacks that leave the handles alone. */
    method AsyncEvent()
      requires Valid() && thread.Drained?
      modifies this, rings, rings.y.Values
      ensures Valid() && Value() == Moved(old(Value())) && rings.y == old(rings.y)
    {
      Collect();
      ServeAll();
      StepKeeps(Value(), Rest);
      SameAgrees(Value(), Apply(Value(), Rest), rings.q, rings.y.Keys);
      thread := Polling;
    }
  }
}
