/** The order in which libuv's thread pool serves requests, and where it reports them: properties of
    the runs of UvPool beside that every work is in one place. */
module UvOrder {
  import opened Common

  import opened UvPool

  // ----- what single steps do

  /** A cancel that passes its test takes exactly this work out of whatever queue holds it; one that
      does not changes nothing. */
  lemma CancelDoes(s: Pool, w: WorkId, x: WorkId, l: LoopId)
    requires PoolOk(s) && Enabled(s, Cancel(w)) && w !in s.cancelling
    ensures var s', k := Apply(s, Cancel(w)), s.works[w];
      if !k.linked || k.fn == Null then s' == s
      else
        && s'.works == s.works[w := k.(cancels := k.cancels + 1)] && s'.cancelling == s.cancelling + multiset{w}
        && (Job(x) in s'.wq <==> Job(x) in s.wq && x != w) && (Exit in s'.wq <==> Exit in s.wq)
        && (x in QueueOf(s'.queues, l) <==> x in QueueOf(s.queues, l) && x != w)
        && (x in QueueOf(s'.moved, l) <==> x in QueueOf(s.moved, l) && x != w)
        && s'.workers == s.workers
  {
    if Cancellable(s.works[w]) {
      var s' := CancelStep(s, w);
      CancelKeeps(s, w, w);
      assert WorkOk(s', w);
      var c :| Located(s, w, c);
      CancelKeepsOwn(s, w, c);
      UnlinkKeeps(s.wq, Job(w), Job(x));
      UnlinkKeeps(s.wq, Job(w), Exit);
      UnlinkKeeps(QueueOf(s.queues, l), w, x);
      UnlinkKeeps(QueueOf(s.moved, l), w, x);
      assert QueueOf(s'.queues, l) == Unlink(QueueOf(s.queues, l), w);
      assert QueueOf(s'.moved, l) == Unlink(QueueOf(s.moved, l), w);
      NowhereElse(s', w, l);
    }
  }

  lemma NowhereElse(s: Pool, w: WorkId, l: LoopId)
    requires Located(s, w, Cancelling(0))
    ensures Job(w) !in s.wq && w !in QueueOf(s.queues, l) && w !in QueueOf(s.moved, l)
  {
    assert forall i: nat :: i < |s.wq| && s.wq[i] == Job(w) ==> At(s, w, Queued(i));
    assert forall i: nat :: i < |QueueOf(s.queues, l)| && QueueOf(s.queues, l)[i] == w ==> At(s, w, Waiting(l, i));
    assert forall i: nat :: i < |QueueOf(s.moved, l)| && QueueOf(s.moved, l)[i] == w ==> At(s, w, Moving(l, i));
  }

  /** A worker takes the first request off the queue, then runs it once. */
  lemma WorkerDoes(s: Pool, e: Event, w: WorkId)
    requires Enabled(s, e) && ((e.Take? && s.wq[0] == Job(w)) || (e.Run? && PcOf(s, e.t) == Got(w)))
    ensures var s' := Apply(s, e);
      && w in s.works && s' == s.(wq := s'.wq, workers := s'.workers, works := s'.works)
      && (e.Take? ==>
            && s'.wq == s.wq[1..] && s'.workers == s.workers[e.t := Got(w)]
            && s'.works == s.works[w := s.works[w].(linked := false)])
      && (e.Run? ==>
            && s'.wq == s.wq && s'.workers == s.workers[e.t := Ran(w)]
            && s'.works == s.works[w := s.works[w].(runs := s.works[w].runs + 1)])
  {
  }

  /** A work that has run or was cancelled joins the queue of its own loop at the tail. */
  lemma PostsLast(s: Pool, e: Event, w: WorkId, l: LoopId)
    requires Enabled(s, e) && (e == CancelEnds(w) || (e.Finish? && PcOf(s, e.t) == Ran(w)))
    ensures var s' := Apply(s, e);
      && w in s.works && w in s'.works
      && QueueOf(s'.queues, l) == QueueOf(s.queues, l) + (if l == s.works[w].loop then [w] else [])
      && s'.works[w] == s.works[w].(fn := if e.Finish? then Null else UvPool.Fn.Cancelled, linked := true)
      && s'.wq == s.wq && s'.moved == s.moved
  {
  }

  /** A pass takes over the whole queue of its loop, in order. */
  lemma MoveTakes(s: Pool, l: LoopId, m: LoopId)
    requires Enabled(s, Move(l))
    ensures var s' := Apply(s, Move(l));
      && QueueOf(s'.moved, l) == QueueOf(s.queues, l) && QueueOf(s'.queues, l) == []
      && (m != l ==> QueueOf(s'.moved, m) == QueueOf(s.moved, m) && QueueOf(s'.queues, m) == QueueOf(s.queues, m))
      && s'.works == s.works && s'.wq == s.wq && s'.workers == s.workers && s'.cancelling == s.cancelling
  {
  }

  /** The first work of the pass is reported, on the loop that it was submitted for. */
  lemma FireReports(s: Pool, l: LoopId)
    requires PoolOk(s) && Enabled(s, Fire(l))
    ensures var s', q := Apply(s, Fire(l)), QueueOf(s.moved, l);
      && q != [] && q[0] in s.works && s.works[q[0]].loop == l
      && QueueOf(s'.moved, l) == q[1..] && s.works[q[0]].done == []
      && s'.works == s.works[q[0] := s.works[q[0]].(done := [if s.works[q[0]].cancels > 0 then Ecanceled else Success])]
      && s'.wq == s.wq && s'.queues == s.queues && s'.workers == s.workers && s'.cancelling == s.cancelling
  {
    var w := QueueOf(s.moved, l)[0];
    assert WorkOk(s, w) && At(s, w, Moving(l, 0));
    var p :| Located(s, w, p);
    assert !At(s, w, Done(0));
    assert p == Moving(l, 0) && s.works[w].done == [];
    var status := if s.works[w].cancels > 0 then Ecanceled else Success;
    assert [] + [status] == [status];
    assert s.works[w].fn == UvPool.Fn.Cancelled <==> s.works[w].cancels > 0;
  }

  // ----- the loop of a request

  lemma {:induction false} LoopStays(s: Pool, es: seq<Event>, w: WorkId)
    requires IsRun(s, es) && w in s.works
    ensures w in Final(s, es).works && Final(s, es).works[w].loop == s.works[w].loop
    ensures Final(s, es).works[w].cancels >= s.works[w].cancels
    decreases |es|
  {
    if es != [] {
      StepLoop(s, es[0], w);
      LoopStays(Apply(s, es[0]), es[1..], w);
    }
  }

  lemma StepLoop(s: Pool, e: Event, w: WorkId)
    requires Enabled(s, e) && w in s.works
    ensures var s' := Apply(s, e);
      w in s'.works && s'.works[w].loop == s.works[w].loop && s'.works[w].cancels >= s.works[w].cancels
  {
  }

  /** A request is reported by a pass of the loop that it was submitted for. */
  lemma ReportedOnOwnLoop(es: seq<Event>, fs: seq<Event>, w: WorkId, l: LoopId, m: LoopId)
    requires IsRun(Init, es) && Enabled(Final(Init, es), Submit(w, l))
    requires var s := Apply(Final(Init, es), Submit(w, l)); IsRun(s, fs) && Enabled(Final(s, fs), Fire(m))
    requires var z := Final(Apply(Final(Init, es), Submit(w, l)), fs); PoolOk(z) && QueueOf(z.moved, m)[0] == w
    ensures m == l
  {
    var s := Apply(Final(Init, es), Submit(w, l));
    LoopStays(s, fs, w);
    FireReports(Final(s, fs), m);
  }

  // ----- first come, first served

  /** `v` is ahead of `w` in the global queue. */
  ghost predicate Ahead(s: Pool, v: WorkId, w: WorkId) {
    exists i, j :: 0 <= i < j < |s.wq| && s.wq[i] == Job(v) && s.wq[j] == Job(w)
  }

  /** `v` has left the queue, `w` was cancelled, or `v` is still ahead. */
  ghost predicate Served(s: Pool, v: WorkId, w: WorkId) {
    v in s.works && w in s.works && (Job(v) !in s.wq || s.works[w].cancels > 0 || Ahead(s, v, w))
  }

  /** A new request is behind every other. */
  lemma SubmitBehind(s: Pool, v: WorkId, w: WorkId, l: LoopId)
    requires Enabled(s, Submit(w, l)) && v in s.works
    ensures Served(Apply(s, Submit(w, l)), v, w)
  {
    var s' := Apply(s, Submit(w, l));
    if Job(v) in s'.wq {
      var i :| 0 <= i < |s'.wq| && s'.wq[i] == Job(v);
      assert s'.wq[|s.wq|] == Job(w) && i < |s.wq|;
    }
  }

  lemma TakeServes(s: Pool, t: ThreadId, v: WorkId, w: WorkId)
    requires PoolOk(s) && Enabled(s, Take(t)) && Ahead(s, v, w) && v in s.works && w in s.works
    ensures Served(Apply(s, Take(t)), v, w)
  {
    var s' := Apply(s, Take(t));
    var i, j :| 0 <= i < j < |s.wq| && s.wq[i] == Job(v) && s.wq[j] == Job(w);
    if s.wq[0] == Job(v) {
      assert WorkOk(s, v) && At(s, v, Queued(0));
      assert forall k: nat :: k < |s.wq| && s.wq[k] == Job(v) ==> At(s, v, Queued(k));
      assert s'.wq == s.wq[1..];
    } else if s.wq[0].Job? {
      assert s'.wq[i - 1] == Job(v) && s'.wq[j - 1] == Job(w);
    }
  }

  /** Another entry is cut out. */
  lemma CutAhead(s: Pool, s': Pool, c: nat, v: WorkId, w: WorkId)
    requires c < |s.wq| && s'.wq == RemoveAt(s.wq, c) && s.wq[c] != Job(v) && s.wq[c] != Job(w) && Ahead(s, v, w)
    ensures Ahead(s', v, w)
  {
    var i, j :| 0 <= i < j < |s.wq| && s.wq[i] == Job(v) && s.wq[j] == Job(w);
    var i', j' := if c < i then i - 1 else i, if c < j then j - 1 else j;
    assert s'.wq[i'] == Job(v) && s'.wq[j'] == Job(w);
  }

  lemma CancelServes(s: Pool, u: WorkId, v: WorkId, w: WorkId)
    requires PoolOk(s) && Enabled(s, Cancel(u)) && !Overlaps(s, Cancel(u)) && Ahead(s, v, w)
    requires v in s.works && w in s.works
    ensures Served(Apply(s, Cancel(u)), v, w)
  {
    if Cancellable(s.works[u]) {
      var s' := CancelStep(s, u);
      if u == v {
        CancelDoes(s, u, v, 0);
      } else if u != w {
        assert WorkOk(s, u);
        var c :| Located(s, u, c);
        WqCut(s, u, c);
        if c.Queued? { CutAhead(s, s', c.i, v, w); }
      }
    }
  }

  /** Once out of the queue, a work does not come back. */
  lemma OutStaysOut(s: Pool, e: Event, v: WorkId)
    requires Enabled(s, e) && v in s.works && Job(v) !in s.wq
    ensures Job(v) !in Apply(s, e).wq
  {
    if e.Cancel? { UnlinkKeeps(s.wq, Job(e.w), Job(v)); }
  }

  lemma AheadServes(s: Pool, e: Event, v: WorkId, w: WorkId)
    requires PoolOk(s) && Enabled(s, e) && !Overlaps(s, e) && Ahead(s, v, w) && v in s.works && w in s.works
    ensures Served(Apply(s, e), v, w)
  {
    StepLoop(s, e, v);
    StepLoop(s, e, w);
    match e
    case Take(t) => TakeServes(s, t, v, w);
    case Cancel(u) => CancelServes(s, u, v, w);
    case _ =>
      var i, j :| 0 <= i < j < |s.wq| && s.wq[i] == Job(v) && s.wq[j] == Job(w);
      assert Apply(s, e).wq[i] == Job(v) && Apply(s, e).wq[j] == Job(w);
  }

  lemma StepServes(s: Pool, e: Event, v: WorkId, w: WorkId)
    requires PoolOk(s) && Enabled(s, e) && !Overlaps(s, e) && Served(s, v, w)
    ensures Served(Apply(s, e), v, w)
  {
    StepLoop(s, e, v);
    StepLoop(s, e, w);
    if Job(v) !in s.wq {
      OutStaysOut(s, e, v);
    } else if s.works[w].cancels == 0 {
      AheadServes(s, e, v, w);
    }
  }

  lemma {:induction false} RunServes(s: Pool, es: seq<Event>, v: WorkId, w: WorkId)
    requires PoolOk(s) && IsRun(s, es) && Calm(s, es) && Served(s, v, w)
    ensures Served(Final(s, es), v, w) && PoolOk(Final(s, es))
    decreases |es|
  {
    if es != [] {
      StepKeeps(s, es[0]);
      StepServes(s, es[0], v, w);
      RunServes(Apply(s, es[0]), es[1..], v, w);
    }
  }

  /** A worker takes a request only after every request that was submitted before it has been taken or
      cancelled. */
  lemma FirstComeFirstServed(es: seq<Event>, fs: seq<Event>, v: WorkId, w: WorkId, l: LoopId, t: ThreadId)
    requires IsRun(Init, es) && Calm(Init, es)
    requires var s := Final(Init, es); v in s.works && Enabled(s, Submit(w, l))
    requires var s := Apply(Final(Init, es), Submit(w, l)); IsRun(s, fs) && Calm(s, fs)
    requires var z := Final(Apply(Final(Init, es), Submit(w, l)), fs); Enabled(z, Take(t)) && z.wq[0] == Job(w)
    ensures var z := Final(Apply(Final(Init, es), Submit(w, l)), fs); Job(v) !in z.wq
  {
    InitOk();
    RunKeepsPool(Init, es);
    var s := Final(Init, es);
    StepKeeps(s, Submit(w, l));
    SubmitBehind(s, v, w, l);
    RunServes(Apply(s, Submit(w, l)), fs, v, w);
    var z := Final(Apply(s, Submit(w, l)), fs);
    assert WorkOk(z, w) && At(z, w, Queued(0));
    assert forall j: nat :: j < |z.wq| && z.wq[j] == Job(w) ==> At(z, w, Queued(j));
  }

  // ----- the exit message

  /** The exit message stays for the other workers, and a worker that has taken it is out for good. */
  lemma {:induction false} ExitStays(s: Pool, es: seq<Event>, t: ThreadId)
    requires IsRun(s, es)
    ensures Exit in s.wq ==> Exit in Final(s, es).wq
    ensures PcOf(s, t).Exited? ==> PcOf(Final(s, es), t).Exited?
    decreases |es|
  {
    if es != [] {
      if es[0].Cancel? { UnlinkKeeps(s.wq, Job(es[0].w), Exit); }
      if es[0].Take? && s.wq[0].Job? && Exit in s.wq { assert Exit in s.wq[1..]; }
      ExitStays(Apply(s, es[0]), es[1..], t);
    }
  }

  /** A worker that finds the exit message leaves, and leaves the queue as it is. */
  lemma ExitTaken(s: Pool, t: ThreadId)
    requires Enabled(s, Take(t)) && s.wq[0] == Exit
    ensures PcOf(Apply(s, Take(t)), t).Exited? && Apply(s, Take(t)).wq == s.wq
  {
  }

  // ----- at rest

  /** Nothing waits for a worker, a canceller or a loop. */
  ghost predicate AtRest(s: Pool) {
    && (forall i :: 0 <= i < |s.wq| ==> s.wq[i].Exit?) && s.cancelling == multiset{}
    && (forall t :: !PcOf(s, t).Got? && !PcOf(s, t).Ran?)
    && (forall l :: QueueOf(s.queues, l) == [] && QueueOf(s.moved, l) == [])
  }

  /** Then every request has been reported exactly once. */
  lemma RestReported(es: seq<Event>, w: WorkId)
    requires IsRun(Init, es) && Calm(Init, es) && AtRest(Final(Init, es)) && w in Final(Init, es).works
    ensures |Final(Init, es).works[w].done| == 1
  {
    var p := RunLocates(es, w);
  }
}
