/** libuv's thread pool (third/libuv/src/threadpool.c): every locked region of worker, post,
    uv__work_cancel and uv__work_done is one step, interleaved in any order over any number of
    threads and loops.  A submission of a request that has completed is a new work id. */
module UvPool {
  import opened Common

  type WorkId = nat
  type LoopId = nat
  type ThreadId = nat

  /** w->work: the caller's function, NULL once it has run, or uv__cancelled. */
  datatype Fn = Func | Null | Cancelled

  datatype Status = Success | Ecanceled

  /** A request.  `linked` is the outcome of !QUEUE_EMPTY(&w->wq); `runs`, `cancels` (the successful
      ones) and `done` record what has happened. */
  datatype Work = Work(loop: LoopId, fn: Fn, linked: bool, runs: nat, cancels: nat, done: seq<Status>)

  datatype Item = Job(w: WorkId) | Exit

  /** What a worker thread holds: nothing, a work not run yet, or a work just run. */
  datatype Pc = Idle | Got(w: WorkId) | Ran(w: WorkId) | Exited

  datatype Pool = Pool(
    works: map<WorkId, Work>,
    wq: seq<Item>,
    workers: map<ThreadId, Pc>,
    cancelling: multiset<WorkId>,     // calls of uv__work_cancel between their two locked regions
    queues: map<LoopId, seq<WorkId>>, // loop->wq
    moved: map<LoopId, seq<WorkId>>)  // the local queue of uv__work_done

  datatype Event =
    | Submit(w: WorkId, l: LoopId)
    | PostExit
    | Take(t: ThreadId)
    | Run(t: ThreadId)
    | Finish(t: ThreadId)
    | Cancel(w: WorkId)
    | CancelEnds(w: WorkId)
    | Move(l: LoopId)
    | Fire(l: LoopId)

  const Init: Pool := Pool(map[], [], map[], multiset{}, map[], map[])

  function PcOf(s: Pool, t: ThreadId): Pc { if t in s.workers then s.workers[t] else Idle }

  function QueueOf(m: map<LoopId, seq<WorkId>>, l: LoopId): seq<WorkId> { if l in m then m[l] else [] }

  /** The test of uv__work_cancel. */
  predicate Cancellable(k: Work) { k.linked && k.fn != Null }

  function UnlinkAll(m: map<LoopId, seq<WorkId>>, w: WorkId): map<LoopId, seq<WorkId>> {
    map l | l in m :: Unlink(m[l], w)
  }

  /** When an event can happen.  A request is cancelled only before its callback has run. */
  predicate Enabled(s: Pool, e: Event) {
    match e
    case Submit(w, l) => w !in s.works
    case PostExit => true
    case Take(t) => PcOf(s, t).Idle? && s.wq != [] && (s.wq[0].Job? ==> s.wq[0].w in s.works)
    case Run(t) => PcOf(s, t).Got? && PcOf(s, t).w in s.works
    case Finish(t) => PcOf(s, t).Ran? && PcOf(s, t).w in s.works
    case Cancel(w) => w in s.works && s.works[w].done == []
    case CancelEnds(w) => w in s.cancelling && w in s.works
    case Move(l) => QueueOf(s.moved, l) == []
    case Fire(l) => QueueOf(s.moved, l) != [] && QueueOf(s.moved, l)[0] in s.works
  }

  function Apply(s: Pool, e: Event): Pool
    requires Enabled(s, e)
  {
    match e
    case Submit(w, l) => s.(works := s.works[w := Work(l, Func, true, 0, 0, [])], wq := s.wq + [Job(w)])
    case PostExit => s.(wq := s.wq + [Exit])
    case Take(t) => TakeStep(s, t)
    case Run(t) =>
      var w := PcOf(s, t).w;
      s.(workers := s.workers[t := Ran(w)], works := s.works[w := s.works[w].(runs := s.works[w].runs + 1)])
    case Finish(t) =>
      var w := PcOf(s, t).w;
      s.(workers := s.workers[t := Idle],
         works := s.works[w := s.works[w].(fn := Null, linked := true)],
         queues := Posted(s.queues, s.works[w].loop, w))
    case Cancel(w) => CancelStep(s, w)
    case CancelEnds(w) =>
      s.(cancelling := s.cancelling - multiset{w},
         works := s.works[w := s.works[w].(fn := Cancelled, linked := true)],
         queues := Posted(s.queues, s.works[w].loop, w))
    case Move(l) => s.(moved := s.moved[l := QueueOf(s.queues, l)], queues := s.queues[l := []])
    case Fire(l) => FireStep(s, l)
  }

  function Posted(m: map<LoopId, seq<WorkId>>, l: LoopId, w: WorkId): map<LoopId, seq<WorkId>> {
    m[l := QueueOf(m, l) + [w]]
  }

  /** The exit message stays in the queue for the other workers. */
  function TakeStep(s: Pool, t: ThreadId): Pool
    requires Enabled(s, Take(t))
  {
    match s.wq[0]
    case Exit => s.(workers := s.workers[t := Exited])
    case Job(w) =>
      s.(wq := s.wq[1..], workers := s.workers[t := Got(w)], works := s.works[w := s.works[w].(linked := false)])
  }

  /** UV_EBUSY changes nothing.  QUEUE_REMOVE leaves the links of the node itself in place, so a
      second caller can pass the test before the first has linked the node again.  Its QUEUE_REMOVE
      acts on the old links, and leaves the queues alone exactly if the old neighbours are still
      linked to each other (RingQueue.RemoveAgain). */
  function CancelStep(s: Pool, w: WorkId): Pool
    requires Enabled(s, Cancel(w))
  {
    if !Cancellable(s.works[w]) then s
    else s.(
      works := s.works[w := s.works[w].(cancels := s.works[w].cancels + 1)],
      wq := Unlink(s.wq, Job(w)), queues := UnlinkAll(s.queues, w), moved := UnlinkAll(s.moved, w),
      cancelling := s.cancelling + multiset{w})
  }

  function FireStep(s: Pool, l: LoopId): Pool
    requires Enabled(s, Fire(l))
  {
    var w := s.moved[l][0];
    var k := s.works[w];
    s.(moved := s.moved[l := s.moved[l][1..]],
       works := s.works[w := k.(done := k.done + [if k.fn == Cancelled then Ecanceled else Success])])
  }

  ghost predicate IsRun(s: Pool, es: seq<Event>)
    decreases |es|
  {
    es == [] || (Enabled(s, es[0]) && IsRun(Apply(s, es[0]), es[1..]))
  }

  ghost function Final(s: Pool, es: seq<Event>): Pool
    requires IsRun(s, es)
    decreases |es|
  {
    if es == [] then s else Final(Apply(s, es[0]), es[1..])
  }

  // ----- where a work is

  datatype Place =
    | Queued(i: nat)
    | Held(t: ThreadId)
    | Cancelling(i: nat)
    | Waiting(l: LoopId, i: nat)
    | Moving(l: LoopId, i: nat)
    | Done(i: nat)

  ghost predicate At(s: Pool, w: WorkId, p: Place) {
    match p
    case Queued(i) => i < |s.wq| && s.wq[i] == Job(w)
    case Held(t) => PcOf(s, t) == Got(w) || PcOf(s, t) == Ran(w)
    case Cancelling(i) => i < s.cancelling[w]
    case Waiting(l, i) => i < |QueueOf(s.queues, l)| && QueueOf(s.queues, l)[i] == w
    case Moving(l, i) => i < |QueueOf(s.moved, l)| && QueueOf(s.moved, l)[i] == w
    case Done(i) => w in s.works && i < |s.works[w].done|
  }

  /** What the fields of a work say, place by place. */
  ghost predicate FieldsOk(s: Pool, k: Work, p: Place) {
    match p
    case Queued(_) => k.fn == Func && k.linked && k.runs == 0 && k.cancels == 0
    case Held(t) => k.fn == Func && !k.linked && k.cancels == 0 && k.runs == (if PcOf(s, t).Ran? then 1 else 0)
    case Cancelling(_) => k.fn != Null && k.linked && k.runs == 0 && k.cancels > 0
    case Waiting(l, _) => k.loop == l && k.linked && Settled(k)
    case Moving(l, _) => k.loop == l && k.linked && Settled(k)
    case Done(_) => Settled(k) && k.done == [if k.cancels > 0 then Ecanceled else Success]
  }

  /** The work ran and was not cancelled, or was cancelled and did not run. */
  ghost predicate Settled(k: Work) {
    if k.cancels > 0 then k.fn == Cancelled && k.runs == 0 else k.fn == Null && k.runs == 1
  }

  ghost predicate Located(s: Pool, w: WorkId, p: Place) {
    && w in s.works && At(s, w, p) && FieldsOk(s, s.works[w], p)
    && forall q :: At(s, w, q) ==> q == p
  }

  ghost predicate WorkOk(s: Pool, w: WorkId) {
    if w in s.works then exists p :: Located(s, w, p) else forall p :: !At(s, w, p)
  }

  ghost predicate PoolOk(s: Pool) { forall w {:trigger WorkOk(s, w)} :: WorkOk(s, w) }

  // ----- every step keeps every work in one place

  lemma SubmitKeeps(s: Pool, v: WorkId, l: LoopId, w: WorkId)
    requires WorkOk(s, w) && Enabled(s, Submit(v, l))
    ensures WorkOk(Apply(s, Submit(v, l)), w)
  {
    var s' := Apply(s, Submit(v, l));
    forall q | At(s', w, q) && !(w == v && q == Queued(|s.wq|)) ensures At(s, w, q) { }
    if w == v {
      assert Located(s', w, Queued(|s.wq|));
    } else if w in s.works {
      var p :| Located(s, w, p);
      assert Located(s', w, p);
    }
  }

  lemma ExitKeeps(s: Pool, w: WorkId)
    requires WorkOk(s, w) && Enabled(s, PostExit)
    ensures WorkOk(Apply(s, PostExit), w)
  {
    var s' := Apply(s, PostExit);
    forall q | At(s', w, q) ensures At(s, w, q) { }
    if w in s.works {
      var p :| Located(s, w, p);
      assert Located(s', w, p);
    }
  }

  lemma TakeKeeps(s: Pool, t: ThreadId, w: WorkId)
    requires WorkOk(s, w) && Enabled(s, Take(t)) && s.wq[0].Job?
    ensures WorkOk(Apply(s, Take(t)), w)
  {
    var s', v := Apply(s, Take(t)), s.wq[0].w;
    forall q | At(s', w, q) && !(w == v && q == Held(t))
      ensures At(s, w, if q.Queued? then Queued(q.i + 1) else q)
    {
    }
    assert w == v ==> At(s, w, Queued(0));
    if w in s.works {
      var p :| Located(s, w, p);
      if w == v { assert Located(s', w, Held(t)); } else {
        assert Located(s', w, if p.Queued? then Queued(p.i - 1) else p);
      }
    }
  }

  lemma TakeExitKeeps(s: Pool, t: ThreadId, w: WorkId)
    requires WorkOk(s, w) && Enabled(s, Take(t)) && s.wq[0].Exit?
    ensures WorkOk(Apply(s, Take(t)), w)
  {
    var s' := Apply(s, Take(t));
    forall q | At(s', w, q) ensures At(s, w, q) { }
    if w in s.works {
      var p :| Located(s, w, p);
      assert Located(s', w, p);
    }
  }

  lemma RunKeeps(s: Pool, t: ThreadId, w: WorkId)
    requires WorkOk(s, w) && Enabled(s, Run(t))
    ensures WorkOk(Apply(s, Run(t)), w)
  {
    var s' := Apply(s, Run(t));
    forall q | At(s', w, q) ensures At(s, w, q) { }
    assert w == PcOf(s, t).w ==> At(s, w, Held(t));
    if w in s.works {
      var p :| Located(s, w, p);
      assert Located(s', w, p);
    }
  }

  /** Appending to the queue of a loop adds one place. */
  lemma PostedPlace(s: Pool, s': Pool, l: LoopId, v: WorkId, w: WorkId, q: Place)
    requires s'.queues == Posted(s.queues, l, v) && q.Waiting?
    ensures At(s', w, q) <==> At(s, w, q) || (w == v && q == Waiting(l, |QueueOf(s.queues, l)|))
  {
  }

  lemma FinishKeeps(s: Pool, t: ThreadId, w: WorkId)
    requires WorkOk(s, w) && Enabled(s, Finish(t))
    ensures WorkOk(Apply(s, Finish(t)), w)
  {
    var s', v := Apply(s, Finish(t)), PcOf(s, t).w;
    var l := s.works[v].loop;
    var added := Waiting(l, |QueueOf(s.queues, l)|);
    forall q | At(s', w, q) && !(w == v && q == added)
      ensures At(s, w, q) && q != Held(t)
    {
      if q.Waiting? { PostedPlace(s, s', l, v, w, q); }
    }
    assert w == v ==> At(s, w, Held(t));
    if w in s.works {
      var p :| Located(s, w, p);
      PostedPlace(s, s', l, v, w, added);
      if p.Waiting? { PostedPlace(s, s', l, v, w, p); }
      assert Located(s', w, if w == v then added else p);
    }
  }

  lemma CancelEndsKeeps(s: Pool, v: WorkId, w: WorkId)
    requires WorkOk(s, w) && Enabled(s, CancelEnds(v))
    ensures WorkOk(Apply(s, CancelEnds(v)), w)
  {
    var s', l := Apply(s, CancelEnds(v)), s.works[v].loop;
    var added := Waiting(l, |QueueOf(s.queues, l)|);
    assert w == v ==> At(s, w, Cancelling(0)) && !At(s, w, Cancelling(1));
    forall q | At(s', w, q) && !(w == v && q == added)
      ensures At(s, w, q) && !(w == v && q == Cancelling(0))
    {
      if q.Waiting? { PostedPlace(s, s', l, v, w, q); }
    }
    if w in s.works {
      var p :| Located(s, w, p);
      PostedPlace(s, s', l, v, w, added);
      if p.Waiting? { PostedPlace(s, s', l, v, w, p); }
      assert Located(s', w, if w == v then added else p);
    }
  }

  lemma MoveKeeps(s: Pool, l: LoopId, w: WorkId)
    requires WorkOk(s, w) && Enabled(s, Move(l))
    ensures WorkOk(Apply(s, Move(l)), w)
  {
    var s' := Apply(s, Move(l));
    forall q | At(s', w, q)
      ensures At(s, w, if q.Moving? && q.l == l then Waiting(l, q.i) else q) && !(q.Waiting? && q.l == l)
    {
    }
    if w in s.works {
      var p :| Located(s, w, p);
      assert Located(s', w, if p.Waiting? && p.l == l then Moving(l, p.i) else p);
    }
  }

  lemma FireKeepsOther(s: Pool, l: LoopId, w: WorkId)
    requires WorkOk(s, w) && Enabled(s, Fire(l)) && w != s.moved[l][0]
    ensures WorkOk(Apply(s, Fire(l)), w)
  {
    var s' := Apply(s, Fire(l));
    forall q | At(s', w, q) ensures At(s, w, if q.Moving? && q.l == l then Moving(l, q.i + 1) else q) { }
    if w in s.works {
      var p :| Located(s, w, p);
      assert Located(s', w, if p.Moving? && p.l == l then Moving(l, p.i - 1) else p);
    }
  }

  lemma FireKeeps(s: Pool, l: LoopId, w: WorkId)
    requires WorkOk(s, w) && Enabled(s, Fire(l))
    ensures WorkOk(Apply(s, Fire(l)), w)
  {
    if w == s.moved[l][0] {
      var s' := Apply(s, Fire(l));
      assert At(s, w, Moving(l, 0)) && !At(s, w, Done(0));
      forall q | At(s', w, q) && q != Done(0)
        ensures At(s, w, if q.Moving? && q.l == l then Moving(l, q.i + 1) else q)
      {
      }
      assert Located(s', w, Done(0));
    } else {
      FireKeepsOther(s, l, w);
    }
  }

  // ----- cancelling

  /** The queue in which `v` sits at `c` loses that entry. */
  lemma WqCut(s: Pool, v: WorkId, c: Place)
    requires Located(s, v, c)
    ensures Unlink(s.wq, Job(v)) == if c.Queued? then RemoveAt(s.wq, c.i) else s.wq
  {
    if i: nat :| i < |s.wq| && s.wq[i] == Job(v) {
      assert At(s, v, Queued(i));
      assert forall j: nat :: j < i ==> s.wq[j] == Job(v) ==> At(s, v, Queued(j));
      UnlinkCuts(s.wq, Job(v), i);
    } else {
      UnlinkAbsent(s.wq, Job(v));
    }
  }

  lemma QueueCut(s: Pool, v: WorkId, c: Place, l: LoopId)
    requires Located(s, v, c)
    ensures Unlink(QueueOf(s.queues, l), v) ==
      if c.Waiting? && c.l == l then RemoveAt(QueueOf(s.queues, l), c.i) else QueueOf(s.queues, l)
  {
    var q := QueueOf(s.queues, l);
    if i: nat :| i < |q| && q[i] == v {
      assert At(s, v, Waiting(l, i));
      assert forall j: nat :: j < i ==> q[j] == v ==> At(s, v, Waiting(l, j));
      UnlinkCuts(q, v, i);
    } else {
      UnlinkAbsent(q, v);
    }
  }

  lemma MovedCut(s: Pool, v: WorkId, c: Place, l: LoopId)
    requires Located(s, v, c)
    ensures Unlink(QueueOf(s.moved, l), v) ==
      if c.Moving? && c.l == l then RemoveAt(QueueOf(s.moved, l), c.i) else QueueOf(s.moved, l)
  {
    var q := QueueOf(s.moved, l);
    if i: nat :| i < |q| && q[i] == v {
      assert At(s, v, Moving(l, i));
      assert forall j: nat :: j < i ==> q[j] == v ==> At(s, v, Moving(l, j));
      UnlinkCuts(q, v, i);
    } else {
      UnlinkAbsent(q, v);
    }
  }

  /** Two places in the same queue, the first at or after the second. */
  ghost predicate Behind(q: Place, c: Place) {
    match q
    case Queued(i) => c.Queued? && c.i <= i
    case Waiting(l, i) => c.Waiting? && c.l == l && c.i <= i
    case Moving(l, i) => c.Moving? && c.l == l && c.i <= i
    case _ => false
  }

  ghost function Nudge(q: Place, d: int): Place
    requires (q.Queued? || q.Waiting? || q.Moving?) && q.i + d >= 0
  {
    match q
    case Queued(i) => Queued(i + d)
    case Waiting(l, i) => Waiting(l, i + d)
    case Moving(l, i) => Moving(l, i + d)
  }

  /** An entry of a cut queue was there before, one further on if it was behind the cut. */
  lemma CutAt<T>(q: seq<T>, c: nat, x: T, i: nat)
    requires c < |q|
    ensures (i < |RemoveAt(q, c)| && RemoveAt(q, c)[i] == x) <==>
      var k := if c <= i then i + 1 else i; k < |q| && q[k] == x
  {
  }

  lemma CancelQueued(s: Pool, v: WorkId, c: Place, w: WorkId, i: nat)
    requires Enabled(s, Cancel(v)) && Cancellable(s.works[v]) && v !in s.cancelling && Located(s, v, c)
    ensures At(CancelStep(s, v), w, Queued(i)) <==> At(s, w, Queued(if c.Queued? && c.i <= i then i + 1 else i))
  {
    WqCut(s, v, c);
    if c.Queued? { CutAt(s.wq, c.i, Job(w), i); }
  }

  lemma CancelWaiting(s: Pool, v: WorkId, c: Place, w: WorkId, l: LoopId, i: nat)
    requires Enabled(s, Cancel(v)) && Cancellable(s.works[v]) && v !in s.cancelling && Located(s, v, c)
    ensures At(CancelStep(s, v), w, Waiting(l, i)) <==>
      At(s, w, Waiting(l, if c.Waiting? && c.l == l && c.i <= i then i + 1 else i))
  {
    QueueCut(s, v, c, l);
    if c.Waiting? && c.l == l { CutAt(QueueOf(s.queues, l), c.i, w, i); }
    assert QueueOf(CancelStep(s, v).queues, l) == Unlink(QueueOf(s.queues, l), v);
  }

  lemma CancelMoving(s: Pool, v: WorkId, c: Place, w: WorkId, l: LoopId, i: nat)
    requires Enabled(s, Cancel(v)) && Cancellable(s.works[v]) && v !in s.cancelling && Located(s, v, c)
    ensures At(CancelStep(s, v), w, Moving(l, i)) <==>
      At(s, w, Moving(l, if c.Moving? && c.l == l && c.i <= i then i + 1 else i))
  {
    MovedCut(s, v, c, l);
    if c.Moving? && c.l == l { CutAt(QueueOf(s.moved, l), c.i, w, i); }
    assert QueueOf(CancelStep(s, v).moved, l) == Unlink(QueueOf(s.moved, l), v);
  }

  lemma CancelPlace(s: Pool, v: WorkId, c: Place, w: WorkId, q: Place)
    requires Enabled(s, Cancel(v)) && Cancellable(s.works[v]) && v !in s.cancelling && Located(s, v, c) &&
      !q.Cancelling?
    ensures At(CancelStep(s, v), w, q) <==> At(s, w, if Behind(q, c) then Nudge(q, 1) else q)
  {
    match q
    case Queued(i) => CancelQueued(s, v, c, w, i);
    case Waiting(l, i) => CancelWaiting(s, v, c, w, l, i);
    case Moving(l, i) => CancelMoving(s, v, c, w, l, i);
    case _ =>
  }

  /** Where another work is after the cut, given where it was. */
  lemma CancelMovesOther(s: Pool, v: WorkId, c: Place, w: WorkId, p: Place)
    requires Enabled(s, Cancel(v)) && Cancellable(s.works[v]) && v !in s.cancelling && Located(s, v, c)
    requires w != v && Located(s, w, p)
    ensures Located(CancelStep(s, v), w, if Behind(p, c) then Nudge(p, -1) else p)
  {
    var s', p' := CancelStep(s, v), if Behind(p, c) then Nudge(p, -1) else p;
    assert p != c;
    forall q | At(s', w, q) ensures q == p' {
      if !q.Cancelling? { CancelPlace(s, v, c, w, q); }
      assert At(s, w, if Behind(q, c) then Nudge(q, 1) else q);
    }
    if !p'.Cancelling? { CancelPlace(s, v, c, w, p'); }
    assert At(s', w, p') && FieldsOk(s', s'.works[w], p');
  }

  lemma CancelKeepsOther(s: Pool, v: WorkId, c: Place, w: WorkId)
    requires Enabled(s, Cancel(v)) && Cancellable(s.works[v]) && v !in s.cancelling && Located(s, v, c)
    requires WorkOk(s, w) && w != v
    ensures WorkOk(CancelStep(s, v), w)
  {
    if w in s.works {
      var p :| Located(s, w, p);
      CancelMovesOther(s, v, c, w, p);
    } else {
      forall q ensures !At(CancelStep(s, v), w, q) {
        if !q.Cancelling? { CancelPlace(s, v, c, w, q); }
        assert !At(s, w, if Behind(q, c) then Nudge(q, 1) else q);
      }
    }
  }

  lemma CancelKeepsOwn(s: Pool, v: WorkId, c: Place)
    requires Enabled(s, Cancel(v)) && Cancellable(s.works[v]) && v !in s.cancelling && Located(s, v, c)
    ensures Located(CancelStep(s, v), v, Cancelling(0))
  {
    var s' := CancelStep(s, v);
    forall q | At(s', v, q) ensures q == Cancelling(0) {
      if !q.Cancelling? {
        CancelPlace(s, v, c, v, q);
        assert Behind(c, c);
      }
    }
  }

  lemma CancelKeeps(s: Pool, v: WorkId, w: WorkId)
    requires WorkOk(s, v) && WorkOk(s, w) && Enabled(s, Cancel(v)) && !Overlaps(s, Cancel(v))
    ensures WorkOk(Apply(s, Cancel(v)), w)
  {
    if Cancellable(s.works[v]) {
      var c :| Located(s, v, c);
      if w == v { CancelKeepsOwn(s, v, c); } else { CancelKeepsOther(s, v, c, w); }
    }
  }

  // ----- every run

  /** A cancel passes its test while another one of the same request is between its locked regions. */
  predicate Overlaps(s: Pool, e: Event) {
    e.Cancel? && e.w in s.works && Cancellable(s.works[e.w]) && e.w in s.cancelling
  }

  lemma StepKeeps(s: Pool, e: Event)
    requires PoolOk(s) && Enabled(s, e) && !Overlaps(s, e)
    ensures PoolOk(Apply(s, e))
  {
    forall w ensures WorkOk(Apply(s, e), w) {
      assert WorkOk(s, w);
      match e
      case Submit(v, l) => SubmitKeeps(s, v, l, w);
      case PostExit => ExitKeeps(s, w);
      case Take(t) => if s.wq[0].Exit? { TakeExitKeeps(s, t, w); } else { TakeKeeps(s, t, w); }
      case Run(t) => RunKeeps(s, t, w);
      case Finish(t) => FinishKeeps(s, t, w);
      case Cancel(v) => assert WorkOk(s, v); CancelKeeps(s, v, w);
      case CancelEnds(v) => CancelEndsKeeps(s, v, w);
      case Move(l) => MoveKeeps(s, l, w);
      case Fire(l) => FireKeeps(s, l, w);
    }
  }

  /** A run without overlapping cancels. */
  ghost predicate Calm(s: Pool, es: seq<Event>)
    requires IsRun(s, es)
    decreases |es|
  {
    es != [] ==> !Overlaps(s, es[0]) && Calm(Apply(s, es[0]), es[1..])
  }

  lemma {:induction false} RunKeepsPool(s: Pool, es: seq<Event>)
    requires PoolOk(s) && IsRun(s, es) && Calm(s, es)
    ensures PoolOk(Final(s, es))
    decreases |es|
  {
    if es != [] {
      StepKeeps(s, es[0]);
      RunKeepsPool(Apply(s, es[0]), es[1..]);
    }
  }

  lemma InitOk()
    ensures PoolOk(Init)
  {
    assert forall v, q :: !At(Init, v, q);
  }

  lemma RunLocates(es: seq<Event>, w: WorkId) returns (p: Place)
    requires IsRun(Init, es) && Calm(Init, es) && w in Final(Init, es).works
    ensures Located(Final(Init, es), w, p)
  {
    InitOk();
    RunKeepsPool(Init, es);
    assert WorkOk(Final(Init, es), w);
    p :| Located(Final(Init, es), w, p);
  }

  /** One entry of one queue, one worker, one cancellation under way, or one report. */
  ghost predicate OnePlace(s: Pool, w: WorkId) {
    exists p :: At(s, w, p) && forall q :: At(s, w, q) ==> q == p
  }

  ghost predicate AllOnePlace(s: Pool) { forall w {:trigger OnePlace(s, w)} :: w in s.works ==> OnePlace(s, w) }

  lemma OkIsOnePlace(s: Pool)
    requires PoolOk(s)
    ensures AllOnePlace(s)
  {
    forall w {:trigger OnePlace(s, w)} | w in s.works ensures OnePlace(s, w) {
      assert WorkOk(s, w);
      var p :| Located(s, w, p);
      assert At(s, w, p);
    }
  }

  /** In every run without overlapping cancels each work is in exactly one place. */
  lemma ExactlyOnePlace(es: seq<Event>, w: WorkId)
    requires IsRun(Init, es) && Calm(Init, es) && w in Final(Init, es).works
    ensures OnePlace(Final(Init, es), w)
  {
    var p := RunLocates(es, w);
    assert At(Final(Init, es), w, p);
  }

  /** A cancel leaves its work in one place if and only if no other cancel of it is under way. */
  lemma OnePlaceExactly(s: Pool, w: WorkId)
    requires PoolOk(s) && Enabled(s, Cancel(w))
    ensures OnePlace(Apply(s, Cancel(w)), w) <==> w !in s.cancelling
    ensures w in s.cancelling <==> Overlaps(s, Cancel(w))
  {
    assert WorkOk(s, w);
    if w in s.cancelling {
      var s' := Apply(s, Cancel(w));
      assert At(s, w, Cancelling(0));
      assert At(s', w, Cancelling(0)) && At(s', w, Cancelling(1));
    } else {
      CancelKeeps(s, w, w);
      var s' := Apply(s, Cancel(w));
      var p :| Located(s', w, p);
      assert At(s', w, p);
    }
  }

  ghost predicate AlwaysOnePlace(s: Pool, es: seq<Event>)
    requires IsRun(s, es)
    decreases |es|
  {
    AllOnePlace(s) && (es != [] ==> AlwaysOnePlace(Apply(s, es[0]), es[1..]))
  }

  /** A run has every work in exactly one place throughout if and only if no two cancels of one
      request overlap in it. */
  lemma {:induction false} RunOnePlace(s: Pool, es: seq<Event>)
    requires PoolOk(s) && IsRun(s, es)
    ensures AlwaysOnePlace(s, es) <==> Calm(s, es)
    decreases |es|
  {
    OkIsOnePlace(s);
    if es != [] {
      var s' := Apply(s, es[0]);
      if Overlaps(s, es[0]) {
        OnePlaceExactly(s, es[0].w);
        assert !OnePlace(s', es[0].w) && es[0].w in s'.works;
        assert !AllOnePlace(s');
        assert !AlwaysOnePlace(s', es[1..]);
      } else {
        StepKeeps(s, es[0]);
        RunOnePlace(s', es[1..]);
      }
    }
  }

  /** One request, cancelled twice before a worker takes it; the loop's pass comes between the second
      locked regions of the two calls. */
  const Twice: seq<Event> :=
    [Submit(0, 0), Cancel(0), Cancel(0), CancelEnds(0), Move(0), Fire(0), CancelEnds(0), Move(0), Fire(0)]

  lemma TwiceTested()
    ensures Enabled(Init, Twice[0])
    ensures var s := Apply(Init, Twice[0]); Enabled(s, Cancel(0)) && !Overlaps(s, Cancel(0))
    ensures var s := Apply(Apply(Init, Twice[0]), Cancel(0));
      && Enabled(s, Cancel(0)) && Overlaps(s, Cancel(0))
      && Apply(s, Cancel(0)) == Pool(map[0 := Work(0, Func, true, 0, 2, [])], [], map[], multiset{0, 0}, map[], map[])
  {
    var s := Apply(Init, Twice[0]);
    assert s.wq == [Job(0)];
    UnlinkCuts(s.wq, Job(0), 0);
    UnlinkAbsent(Apply(s, Cancel(0)).wq, Job(0));
  }

  /** From the second region of a cancel to the report, with the loop's queues empty. */
  lemma Reported(s: Pool)
    requires s.cancelling[0] > 0 && 0 in s.works && s.works[0].loop == 0
    requires QueueOf(s.queues, 0) == [] && QueueOf(s.moved, 0) == []
    ensures var es := [CancelEnds(0), Move(0), Fire(0)];
      && IsRun(s, es)
      && Final(s, es).cancelling == s.cancelling - multiset{0}
      && QueueOf(Final(s, es).queues, 0) == [] && QueueOf(Final(s, es).moved, 0) == []
      && 0 in Final(s, es).works
      && Final(s, es).works[0] == s.works[0].(fn := Cancelled, linked := true, done := s.works[0].done + [Ecanceled])
  {
    var es := [CancelEnds(0), Move(0), Fire(0)];
    var s1 := Apply(s, es[0]);
    var s2 := Apply(s1, es[1]);
    assert QueueOf(s1.queues, 0) == [0];
    assert QueueOf(s2.moved, 0) == [0] && 0 in s2.works;
    var s3 := Apply(s2, es[2]);
    assert es[1..] == [Move(0), Fire(0)] && es[1..][1..] == [Fire(0)] && es[2..][1..] == [];
    assert IsRun(s3, []) && Final(s3, []) == s3;
    assert IsRun(s2, [Fire(0)]) && Final(s2, [Fire(0)]) == s3;
    assert IsRun(s1, es[1..]) && Final(s1, es[1..]) == s3;
  }

  lemma {:induction false} Continued(s: Pool, es: seq<Event>, fs: seq<Event>)
    requires IsRun(s, es) && IsRun(Final(s, es), fs)
    ensures IsRun(s, es + fs) && Final(s, es + fs) == Final(Final(s, es), fs)
    decreases |es|
  {
    if es == [] {
      assert es + fs == fs;
    } else {
      assert (es + fs)[1..] == es[1..] + fs;
      Continued(Apply(s, es[0]), es[1..], fs);
    }
  }

  lemma Preceded(s: Pool, es: seq<Event>, k: nat)
    requires k < |es| && Enabled(s, es[k]) && IsRun(Apply(s, es[k]), es[k + 1..])
    ensures IsRun(s, es[k..]) && Final(s, es[k..]) == Final(Apply(s, es[k]), es[k + 1..])
    ensures Calm(s, es[k..]) <==> !Overlaps(s, es[k]) && Calm(Apply(s, es[k]), es[k + 1..])
  {
    assert es[k..][1..] == es[k + 1..];
  }

  lemma TwiceReported(s: Pool)
    requires s == Pool(map[0 := Work(0, Func, true, 0, 2, [])], [], map[], multiset{0, 0}, map[], map[])
    ensures IsRun(s, Twice[3..])
    ensures var r := Final(s, Twice[3..]);
      0 in r.works && r.works[0].cancels == 2 && r.works[0].done == [Ecanceled, Ecanceled]
  {
    var report := [CancelEnds(0), Move(0), Fire(0)];
    Reported(s);
    Reported(Final(s, report));
    Continued(s, report, report);
    assert Twice[3..] == report + report;
  }

  /** Overlapping cancels can make the done callback run twice. */
  lemma CancelledTwice()
    ensures IsRun(Init, Twice) && !Calm(Init, Twice)
    ensures var s := Final(Init, Twice);
      0 in s.works && s.works[0].cancels == 2 && s.works[0].done == [Ecanceled, Ecanceled]
  {
    TwiceTested();
    var s1 := Apply(Init, Twice[0]);
    var s2 := Apply(s1, Cancel(0));
    TwiceReported(Apply(s2, Cancel(0)));
    Preceded(s2, Twice, 2);
    Preceded(s1, Twice, 1);
    Preceded(Init, Twice, 0);
    assert Twice[0..] == Twice;
  }

  /** The done callback runs at most once; it reports UV_ECANCELED if and only if a cancel
      succeeded, and then the work function never ran; otherwise it ran exactly once. */
  lemma DoneOnce(es: seq<Event>, w: WorkId)
    requires IsRun(Init, es) && Calm(Init, es) && w in Final(Init, es).works
    ensures var k := Final(Init, es).works[w];
      && |k.done| <= 1 && k.runs <= 1
      && (k.cancels > 0 ==> k.runs == 0)
      && (k.done != [] ==>
            && k.done == [if k.cancels > 0 then Ecanceled else Success]
            && k.runs + (if k.cancels > 0 then 1 else 0) == 1)
  {
    var p := RunLocates(es, w);
    if Final(Init, es).works[w].done != [] { assert At(Final(Init, es), w, Done(0)); }
  }

  /** The test of uv__work_cancel holds of an outstanding request exactly while it is queued for a
      worker or has already been cancelled. */
  lemma CancellableWhen(es: seq<Event>, w: WorkId)
    requires IsRun(Init, es) && Calm(Init, es) && w in Final(Init, es).works && Final(Init, es).works[w].done == []
    ensures var s := Final(Init, es); Cancellable(s.works[w]) <==> Job(w) in s.wq || s.works[w].cancels > 0
  {
    var s := Final(Init, es);
    var p := RunLocates(es, w);
    if Job(w) in s.wq {
      var i: nat :| i < |s.wq| && s.wq[i] == Job(w);
      assert At(s, w, Queued(i));
    }
  }

  // ----- every run, with overlapping cancels as well

  ghost predicate Registered(s: Pool) { forall w, p :: At(s, w, p) ==> w in s.works }

  lemma CancelRegistered(s: Pool, v: WorkId, w: WorkId, q: Place)
    requires Registered(s) && Enabled(s, Cancel(v)) && At(CancelStep(s, v), w, q)
    ensures w in s.works
  {
    if Cancellable(s.works[v]) {
      match q
      case Queued(i) =>
        UnlinkKeeps(s.wq, Job(v), Job(w));
        var k: nat :| k < |s.wq| && s.wq[k] == Job(w);
        assert At(s, w, Queued(k));
      case Waiting(l, i) =>
        UnlinkKeeps(QueueOf(s.queues, l), v, w);
        var k: nat :| k < |QueueOf(s.queues, l)| && QueueOf(s.queues, l)[k] == w;
        assert At(s, w, Waiting(l, k));
      case Moving(l, i) =>
        UnlinkKeeps(QueueOf(s.moved, l), v, w);
        var k: nat :| k < |QueueOf(s.moved, l)| && QueueOf(s.moved, l)[k] == w;
        assert At(s, w, Moving(l, k));
      case _ => assert w == v || At(s, w, q);
    } else {
      assert At(s, w, q);
    }
  }

  lemma WorkerRegistered(s: Pool, e: Event, w: WorkId, q: Place)
    requires Registered(s) && Enabled(s, e) && At(Apply(s, e), w, q) && (e.Take? || e.Run? || e.Finish?)
    ensures w in s.works
  {
    if e.Take? && q.Queued? {
      assert At(s, w, q) || At(s, w, Queued(q.i + 1));
    } else {
      assert w in s.works || At(s, w, q);
    }
  }

  lemma LoopRegistered(s: Pool, e: Event, w: WorkId, q: Place)
    requires Registered(s) && Enabled(s, e) && At(Apply(s, e), w, q) && (e.CancelEnds? || e.Move? || e.Fire?)
    ensures w in s.works
  {
    if e.Move? && q.Moving? {
      assert At(s, w, q) || At(s, w, Waiting(q.l, q.i));
    } else if e.Fire? && q.Moving? {
      assert At(s, w, q) || At(s, w, Moving(q.l, q.i + 1));
    } else if e.CancelEnds? {
      assert w == e.w || At(s, w, q);
    } else {
      assert q.Done? || At(s, w, q);
    }
  }

  lemma StepRegistered(s: Pool, e: Event)
    requires Registered(s) && Enabled(s, e)
    ensures Registered(Apply(s, e))
  {
    var s' := Apply(s, e);
    forall w, q | At(s', w, q) ensures w in s'.works {
      match e
      case Cancel(v) => CancelRegistered(s, v, w, q);
      case Submit(v, _) => assert w == v || At(s, w, q);
      case PostExit => assert At(s, w, q);
      case Take(_) => WorkerRegistered(s, e, w, q);
      case Run(_) => WorkerRegistered(s, e, w, q);
      case Finish(_) => WorkerRegistered(s, e, w, q);
      case _ => LoopRegistered(s, e, w, q);
    }
  }

  lemma {:induction false} RunRegistered(s: Pool, es: seq<Event>)
    requires Registered(s) && IsRun(s, es)
    ensures Registered(Final(s, es))
    decreases |es|
  {
    if es != [] {
      StepRegistered(s, es[0]);
      RunRegistered(Apply(s, es[0]), es[1..]);
    }
  }

  /** Every step that a thread or a loop is at is enabled: the ids in the structures are known. */
  lemma IdsKnown(es: seq<Event>, t: ThreadId, l: LoopId)
    requires IsRun(Init, es)
    ensures var s := Final(Init, es);
      && (PcOf(s, t).Got? ==> Enabled(s, Run(t))) && (PcOf(s, t).Ran? ==> Enabled(s, Finish(t)))
      && (PcOf(s, t).Idle? && s.wq != [] ==> Enabled(s, Take(t)))
      && (QueueOf(s.moved, l) != [] ==> Enabled(s, Fire(l)))
      && (forall w :: w in s.cancelling ==> Enabled(s, CancelEnds(w)))
  {
    RunRegistered(Init, es);
    var s := Final(Init, es);
    forall w | w in s.cancelling ensures w in s.works { assert At(s, w, Cancelling(0)); }
    assert PcOf(s, t).Got? || PcOf(s, t).Ran? ==> At(s, PcOf(s, t).w, Held(t));
    assert s.wq != [] && s.wq[0].Job? ==> At(s, s.wq[0].w, Queued(0));
    assert QueueOf(s.moved, l) != [] ==> At(s, QueueOf(s.moved, l)[0], Moving(l, 0));
  }

  lemma Known(s: Pool, w: WorkId, p: Place)
    requires PoolOk(s) && At(s, w, p)
    ensures w in s.works
  {
    assert WorkOk(s, w);
  }

  // ----- the code of the steps

  /** The rest of a pass of uv__work_done that nothing interrupts. */
  ghost function Drained(s: Pool, l: LoopId): Pool
    requires PoolOk(s)
    decreases |QueueOf(s.moved, l)|
  {
    if QueueOf(s.moved, l) == [] then s
    else
      Known(s, QueueOf(s.moved, l)[0], Moving(l, 0));
      StepKeeps(s, Fire(l));
      Drained(Apply(s, Fire(l)), l)
  }

  /** A whole pass. */
  ghost function Passed(s: Pool, l: LoopId): Pool
    requires PoolOk(s) && Enabled(s, Move(l))
  {
    StepKeeps(s, Move(l));
    Drained(Apply(s, Move(l)), l)
  }

  /** Every work moved from the loop's queue is done after the pass, and nothing else is. */
  lemma {:induction false} DrainedReports(s: Pool, l: LoopId, w: WorkId)
    requires PoolOk(s) && w in s.works
    ensures QueueOf(Drained(s, l).moved, l) == [] && w in Drained(s, l).works
    ensures Drained(s, l).works[w].done != [] <==> s.works[w].done != [] || w in QueueOf(s.moved, l)
    decreases |QueueOf(s.moved, l)|
  {
    if QueueOf(s.moved, l) != [] {
      Known(s, QueueOf(s.moved, l)[0], Moving(l, 0));
      StepKeeps(s, Fire(l));
      DrainedReports(Apply(s, Fire(l)), l, w);
    }
  }
}
