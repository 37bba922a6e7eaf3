/** The code of third/libuv/src/threadpool.c on ring queues: the global queue, the queue of each loop
    and the local queue of uv__work_done are rings of the nodes inside the requests.  Each locked
    region carries out one step of UvPool; whether a request is linked is what QUEUE_EMPTY says of
    its node, also while the node is in no queue. */
module UvThreads {
  import opened Common
  import opened RoleRings
  import opened UvPool

  /** What a node is for: the head of the global queue, of a loop's queue or of a local queue, the exit
      message, or the node in a request. */
  datatype Role = Global | Message | Head(l: LoopId) | Local(l: LoopId) | Own(w: WorkId)

  predicate IsQueue(r: Role) { r.Global? || r.Head? || r.Local? }

  ghost function WorkRoles(q: seq<WorkId>): (xs: seq<Role>)
    ensures |xs| == |q| && forall i :: 0 <= i < |q| ==> xs[i] == Own(q[i])
  {
    seq(|q|, i requires 0 <= i < |q| => Own(q[i]))
  }

  ghost function ItemRole(x: Item): Role { if x.Job? then Own(x.w) else Message }

  ghost function ItemRoles(q: seq<Item>): (xs: seq<Role>)
    ensures |xs| == |q| && forall i :: 0 <= i < |q| ==> xs[i] == ItemRole(q[i])
  {
    seq(|q|, i requires 0 <= i < |q| => ItemRole(q[i]))
  }

  /** What the queues of the pool hold. */
  ghost function Roles(s: Pool, r: Role): seq<Role> {
    match r
    case Global => ItemRoles(s.wq)
    case Head(l) => WorkRoles(QueueOf(s.queues, l))
    case Local(l) => WorkRoles(QueueOf(s.moved, l))
    case _ => []
  }

  // ----- the steps on queues of roles

  ghost predicate OnlyAt(s: Pool, s': Pool, r: Role, xs: seq<Role>) {
    Roles(s', r) == xs && forall x {:trigger Roles(s', x)} :: x != r ==> Roles(s', x) == Roles(s, x)
  }

  lemma SubmitRoles(s: Pool, w: WorkId, l: LoopId)
    requires Enabled(s, Submit(w, l))
    ensures OnlyAt(s, Apply(s, Submit(w, l)), Global, Roles(s, Global) + [Own(w)])
  {
  }

  lemma ExitRoles(s: Pool)
    requires Enabled(s, PostExit)
    ensures OnlyAt(s, Apply(s, PostExit), Global, Roles(s, Global) + [Message])
  {
  }

  lemma TakeRoles(s: Pool, t: ThreadId)
    requires Enabled(s, Take(t)) && s.wq[0].Job?
    ensures Roles(s, Global) != [] && OnlyAt(s, Apply(s, Take(t)), Global, RemoveAt(Roles(s, Global), 0))
  {
  }

  /** A step that links a work at the tail of a loop's queue. */
  lemma PostRoles(s: Pool, s': Pool, w: WorkId, l: LoopId)
    requires s'.wq == s.wq && s'.moved == s.moved && s'.queues == Posted(s.queues, l, w)
    ensures OnlyAt(s, s', Head(l), Roles(s, Head(l)) + [Own(w)])
  {
  }

  lemma FireRoles(s: Pool, l: LoopId)
    requires Enabled(s, Fire(l))
    ensures Roles(s, Local(l)) != [] && OnlyAt(s, Apply(s, Fire(l)), Local(l), RemoveAt(Roles(s, Local(l)), 0))
  {
  }

  lemma MoveRoles(s: Pool, l: LoopId)
    requires Enabled(s, Move(l))
    ensures var s' := Apply(s, Move(l));
      && Roles(s, Local(l)) == [] && Roles(s', Head(l)) == [] && Roles(s', Local(l)) == Roles(s, Head(l))
      && forall x :: x != Head(l) && x != Local(l) ==> Roles(s', x) == Roles(s, x)
  {
  }

  ghost predicate InQueue(p: Place) { p.Queued? || p.Waiting? || p.Moving? }

  ghost function RoleOf(p: Place): Role
    requires InQueue(p)
  {
    match p
    case Queued(_) => Global
    case Waiting(l, _) => Head(l)
    case Moving(l, _) => Local(l)
  }

  lemma PlaceRole(s: Pool, w: WorkId, p: Place)
    requires InQueue(p)
    ensures At(s, w, p) <==> p.i < |Roles(s, RoleOf(p))| && Roles(s, RoleOf(p))[p.i] == Own(w)
  {
  }

  /** A cancel that passes its test finds the work in a queue. */
  lemma CancelFinds(s: Pool, w: WorkId, c: Place)
    requires Enabled(s, Cancel(w)) && Cancellable(s.works[w]) && w !in s.cancelling && Located(s, w, c)
    ensures InQueue(c) && c.i < |Roles(s, RoleOf(c))| && Roles(s, RoleOf(c))[c.i] == Own(w)
  {
    assert InQueue(c);
    PlaceRole(s, w, c);
  }

  lemma RolesCut(q: seq<WorkId>, i: nat)
    requires i < |q|
    ensures WorkRoles(RemoveAt(q, i)) == RemoveAt(WorkRoles(q), i)
  {
  }

  lemma CancelGlobal(s: Pool, w: WorkId, c: Place)
    requires Located(s, w, c)
    ensures ItemRoles(Unlink(s.wq, Job(w))) == if c.Queued? then RemoveAt(ItemRoles(s.wq), c.i) else ItemRoles(s.wq)
  {
    WqCut(s, w, c);
  }

  lemma CancelHead(s: Pool, w: WorkId, c: Place, l: LoopId)
    requires Located(s, w, c)
    ensures WorkRoles(Unlink(QueueOf(s.queues, l), w)) ==
      if c.Waiting? && c.l == l then RemoveAt(Roles(s, Head(l)), c.i) else Roles(s, Head(l))
  {
    QueueCut(s, w, c, l);
    if c.Waiting? && c.l == l { RolesCut(QueueOf(s.queues, l), c.i); }
  }

  lemma CancelLocal(s: Pool, w: WorkId, c: Place, l: LoopId)
    requires Located(s, w, c)
    ensures WorkRoles(Unlink(QueueOf(s.moved, l), w)) ==
      if c.Moving? && c.l == l then RemoveAt(Roles(s, Local(l)), c.i) else Roles(s, Local(l))
  {
    MovedCut(s, w, c, l);
    if c.Moving? && c.l == l { RolesCut(QueueOf(s.moved, l), c.i); }
  }

  lemma CancelRole(s: Pool, w: WorkId, c: Place, x: Role)
    requires Enabled(s, Cancel(w)) && Cancellable(s.works[w]) && w !in s.cancelling && Located(s, w, c)
    requires InQueue(c) && c.i < |Roles(s, RoleOf(c))|
    ensures Roles(CancelStep(s, w), x) == if x == RoleOf(c) then RemoveAt(Roles(s, x), c.i) else Roles(s, x)
  {
    var s' := CancelStep(s, w);
    match x
    case Global => CancelGlobal(s, w, c);
    case Head(l) =>
      CancelHead(s, w, c, l);
      assert QueueOf(s'.queues, l) == Unlink(QueueOf(s.queues, l), w);
    case Local(l) =>
      CancelLocal(s, w, c, l);
      assert QueueOf(s'.moved, l) == Unlink(QueueOf(s.moved, l), w);
    case _ =>
  }

  lemma CancelRoles(s: Pool, w: WorkId, c: Place)
    requires Enabled(s, Cancel(w)) && Cancellable(s.works[w]) && w !in s.cancelling && Located(s, w, c)
    requires InQueue(c) && c.i < |Roles(s, RoleOf(c))|
    ensures OnlyAt(s, CancelStep(s, w), RoleOf(c), RemoveAt(Roles(s, RoleOf(c)), c.i))
  {
    forall x ensures Roles(CancelStep(s, w), x) == if x == RoleOf(c) then RemoveAt(Roles(s, x), c.i) else Roles(s, x) {
      CancelRole(s, w, c, x);
    }
  }

  /** A work that is held, being cancelled or done is in no queue. */
  lemma NotQueued(s: Pool, w: WorkId, p: Place, r: Role)
    requires Located(s, w, p) && !InQueue(p)
    ensures Own(w) !in Roles(s, r)
  {
    if Own(w) in Roles(s, r) {
      var i: nat :| i < |Roles(s, r)| && Roles(s, r)[i] == Own(w);
      var at := if r.Global? then Queued(i) else if r.Head? then Waiting(r.l, i) else Moving(r.l, i);
      PlaceRole(s, w, at);
    }
  }

  // ----- the rings hold the queues of the pool

  ghost predicate Matches(s: Pool, q: map<Role, seq<Role>>, known: set<Role>, lone: set<Role>) {
    && Global in q && (forall r :: r in q ==> IsQueue(r) && q[r] == Roles(s, r))
    && (forall l :: Head(l) in q <==> Local(l) in q) && Message in known
    && (forall w :: w in s.works <==> Own(w) in known)
    && (forall w :: w in s.works ==> Head(s.works[w].loop) in q && (s.works[w].linked <==> Own(w) !in lone))
  }

  lemma MatchesOne(s: Pool, s': Pool, q: map<Role, seq<Role>>, r: Role, xs: seq<Role>)
    requires r in q && OnlyAt(s, s', r, xs) && forall k :: k in q ==> q[k] == Roles(s, k)
    ensures forall k :: k in q ==> q[r := xs][k] == Roles(s', k)
  {
  }

  /** What the fields of the requests hold. */
  ghost predicate FieldsTied(fns: map<WorkId, Fn>, loops: map<WorkId, LoopId>, s: Pool) {
    forall w :: w in s.works ==> w in fns && fns[w] == s.works[w].fn && w in loops && loops[w] == s.works[w].loop
  }

  ghost predicate Looked(d: bool) { d }

  /** The requests, the threads and the queues agree with the pool; the trigger keeps the parts apart. */
  ghost predicate Agrees(s: Pool, fns: map<WorkId, Fn>, loops: map<WorkId, LoopId>, workers: map<ThreadId, Pc>,
                         q: map<Role, seq<Role>>, known: set<Role>, lone: set<Role>) {
    forall d {:trigger Looked(d)} :: Looked(d) ==>
      FieldsTied(fns, loops, s) && workers == s.workers && Matches(s, q, known, lone)
  }

  class Threadpool {
    const rings: Rings<Role>
    var fns: map<WorkId, Fn>
    var loops: map<WorkId, LoopId>
    var workers: map<ThreadId, Pc>
    ghost var s: Pool

    ghost predicate Valid()
      reads this, rings, rings.y.Values
    {
      PoolOk(s) && rings.Valid() && Agrees(s, fns, loops, workers, rings.q, rings.y.Keys, rings.lone)
    }

    constructor ()
      ensures Valid() && s == Init && fresh(rings) && fresh(rings.y.Values)
    {
      rings := new Rings<Role>();
      fns, loops, workers, s := map[], map[], map[], Init;
      new;
      rings.NewNode(Global);
      rings.NewQueue(Global);
      rings.NewNode(Message);
      InitOk();
      assert Roles(Init, Global) == [];
    }

    /** The queue of a new loop, and the local queue of its uv__work_done. */
    method AddLoop(l: LoopId)
      requires Valid() && Head(l) !in rings.y && Local(l) !in rings.y && Head(l) !in rings.q
      modifies rings, rings.y.Values
      ensures Valid() && s == old(s) && Head(l) in rings.q
      ensures rings.y.Values >= old(rings.y.Values) && fresh(rings.y.Values - old(rings.y.Values))
    {
      LoopAgrees(s, fns, loops, workers, rings.q, rings.y.Keys, rings.lone, l);
      AddQueue(Head(l));
      AddQueue(Local(l));
    }

    method AddQueue(r: Role)
      requires rings.Valid() && r !in rings.y && r !in rings.q && forall k :: k in rings.q ==> r !in rings.q[k]
      modifies rings, rings.y.Values
      ensures rings.Valid() && rings.q == old(rings.q)[r := []] && rings.lone == old(rings.lone) - {r}
      ensures rings.y.Keys == old(rings.y.Keys) + {r}
      ensures rings.y.Values >= old(rings.y.Values) && fresh(rings.y.Values - old(rings.y.Values))
    {
      rings.NewNode(r);
      rings.NewQueue(r);
    }

    method Enlist(x: Role)
      requires rings.Valid() && Global in rings.q && x !in rings.y && x !in rings.q
      requires forall k :: k in rings.q ==> x !in rings.q[k]
      modifies rings, rings.y.Values
      ensures rings.Valid() && rings.q == old(rings.q)[Global := old(rings.q)[Global] + [x]]
      ensures rings.lone == old(rings.lone) - {x} && rings.y.Keys == old(rings.y.Keys) + {x}
      ensures rings.y.Values >= old(rings.y.Values) && fresh(rings.y.Values - old(rings.y.Values))
    {
      rings.NewNode(x);
      rings.Append(Global, x);
    }

    /** uv__work_submit and post */
    method WorkSubmit(w: WorkId, l: LoopId)
      requires Valid() && Enabled(s, Submit(w, l)) && Head(l) in rings.q
      modifies this, rings, rings.y.Values
      ensures Valid() && s == Apply(old(s), Submit(w, l))
      ensures rings.y.Values >= old(rings.y.Values) && fresh(rings.y.Values - old(rings.y.Values))
    {
      StepKeeps(s, Submit(w, l));
      SubmitAgrees(s, fns, loops, workers, rings.q, rings.y.Keys, rings.lone, w, l);
      fns, loops, s := fns[w := Func], loops[w := l], Apply(s, Submit(w, l));
      Enlist(Own(w));
    }

    /** post of the exit message, once. */
    method PostExitMessage()
      requires Valid() && Enabled(s, PostExit) && Exit !in s.wq
      modifies this`s, rings, rings.y.Values
      ensures Valid() && s == Apply(old(s), PostExit) && rings.y == old(rings.y)
    {
      StepKeeps(s, PostExit);
      ExitAgrees(s, fns, loops, workers, rings.q, rings.y.Keys, rings.lone);
      s := Apply(s, PostExit);
      rings.Append(Global, Message);
    }

    /** worker, its first locked region: QUEUE_HEAD, QUEUE_REMOVE and QUEUE_INIT */
    method WorkerTake(t: ThreadId) returns (x: Role)
      requires Valid() && Enabled(s, Take(t))
      modifies this, rings, rings.y.Values
      ensures Valid() && s == Apply(old(s), Take(t)) && x == ItemRole(old(s).wq[0]) && rings.y == old(rings.y)
    {
      StepKeeps(s, Take(t));
      TakeAgrees(s, fns, loops, workers, rings.q, rings.y.Keys, rings.lone, t);
      x := rings.First(Global);
      if x == Message {
        workers, s := workers[t := Exited], Apply(s, Take(t));
      } else {
        workers, s := workers[t := Got(x.w)], Apply(s, Take(t));
        TakeOut(x);
      }
    }

    method TakeOut(x: Role)
      requires rings.Valid() && Global in rings.q && rings.q[Global] != [] && rings.q[Global][0] == x
      requires x in rings.y && x !in rings.q
      requires var q' := rings.q[Global := RemoveAt(rings.q[Global], 0)]; forall k :: k in q' ==> x !in q'[k]
      modifies rings, rings.y.Values
      ensures rings.Valid() && rings.q == old(rings.q)[Global := RemoveAt(old(rings.q)[Global], 0)]
      ensures rings.lone == old(rings.lone) + {x} && rings.y == old(rings.y)
    {
      rings.Remove(x, Global, 0);
      rings.Reset(x);
    }

    /** w->work(w) */
    method WorkerRun(t: ThreadId)
      requires Valid() && Enabled(s, Run(t))
      modifies this`s, this`workers
      ensures Valid() && s == Apply(old(s), Run(t))
    {
      StepKeeps(s, Run(t));
      RunAgrees(s, fns, loops, workers, rings.q, rings.y.Keys, rings.lone, t);
      workers, s := workers[t := Ran(workers[t].w)], Apply(s, Run(t));
    }

    /** worker, its second locked region: QUEUE_INSERT_TAIL */
    method WorkerPost(t: ThreadId)
      requires Valid() && Enabled(s, Finish(t))
      modifies this, rings, rings.y.Values
      ensures Valid() && s == Apply(old(s), Finish(t)) && rings.y == old(rings.y)
    {
      StepKeeps(s, Finish(t));
      FinishAgrees(s, fns, loops, workers, rings.q, rings.y.Keys, rings.lone, t);
      var w := workers[t].w;
      var l := loops[w];
      Publish(Head(l), Own(w), fns[w := Null], workers[t := Idle], Apply(s, Finish(t)));
    }

    /** The node of a request joins the queue of its loop. */
    method Publish(h: Role, x: Role, fns': map<WorkId, Fn>, workers': map<ThreadId, Pc>, ghost s': Pool)
      requires rings.Valid() && h in rings.q && x in rings.y && x !in rings.q
      requires PoolOk(s') && forall k :: k in rings.q ==> x !in rings.q[k]
      requires Agrees(s', fns', loops, workers', rings.q[h := rings.q[h] + [x]], rings.y.Keys, rings.lone - {x})
      modifies this`fns, this`workers, this`s, rings, rings.y.Values
      ensures Valid() && s == s' && rings.y == old(rings.y)
    {
      fns, workers, s := fns', workers', s';
      rings.Append(h, x);
    }

    /** uv__work_cancel, its first locked region: QUEUE_EMPTY and QUEUE_REMOVE */
    method WorkCancel(w: WorkId) returns (cancelled: bool)
      requires Valid() && Enabled(s, Cancel(w)) && w !in s.cancelling
      modifies this`s, rings, rings.y.Values
      ensures Valid() && s == Apply(old(s), Cancel(w)) && rings.y == old(rings.y)
      ensures cancelled <==> Cancellable(old(s).works[w])
    {
      StepKeeps(s, Cancel(w));
      CancelTest(s, fns, loops, workers, rings.q, rings.y.Keys, rings.lone, w);
      var empty := rings.IsAlone(Own(w));
      cancelled := !empty && fns[w] != Null;
      if cancelled {
        ghost var c := CancelAgrees(s, fns, loops, workers, rings.q, rings.y.Keys, rings.lone, w);
        s := Apply(s, Cancel(w));
        rings.Remove(Own(w), RoleOf(c), c.i);
      }
    }

    /** uv__work_cancel, its second locked region: QUEUE_INSERT_TAIL */
    method WorkCancelled(w: WorkId)
      requires Valid() && Enabled(s, CancelEnds(w))
      modifies this, rings, rings.y.Values
      ensures Valid() && s == Apply(old(s), CancelEnds(w)) && rings.y == old(rings.y)
    {
      StepKeeps(s, CancelEnds(w));
      CancelEndsAgrees(s, fns, loops, workers, rings.q, rings.y.Keys, rings.lone, w);
      var l := loops[w];
      Publish(Head(l), Own(w), fns[w := Cancelled], workers, Apply(s, CancelEnds(w)));
    }

    /** uv__work_done, with callbacks that leave the pool alone: QUEUE_MOVE, then QUEUE_HEAD and
        QUEUE_REMOVE until QUEUE_EMPTY */
    method WorkDone(l: LoopId)
      requires Valid() && Enabled(s, UvPool.Move(l)) && Head(l) in rings.q
      modifies this`s, rings, rings.y.Values
      ensures Valid() && s == Passed(old(s), l)
    {
      StepKeeps(s, UvPool.Move(l));
      MoveAgrees(s, fns, loops, workers, rings.q, rings.y.Keys, rings.lone, l);
      s := Apply(s, UvPool.Move(l));
      ghost var moved := s;
      rings.Move(Head(l), Local(l));
      var empty := rings.IsEmpty(Local(l));
      while !empty
        invariant Valid() && Local(l) in rings.q && rings.y == old(rings.y)
        invariant Drained(s, l) == Drained(moved, l) && (empty <==> rings.q[Local(l)] == [])
        decreases |rings.q[Local(l)]|
      {
        var w, err := FireFirst(l);
        empty := rings.IsEmpty(Local(l));
      }
      EmptyAgrees(s, fns, loops, workers, rings.q, rings.y.Keys, rings.lone, l);
    }

    /** The body of the loop of uv__work_done up to the done callback, which may then use the other
        methods. */
    method FireFirst(l: LoopId) returns (w: WorkId, err: Status)
      requires Valid() && Local(l) in rings.q && rings.q[Local(l)] != []
      modifies this`s, rings, rings.y.Values
      ensures Valid() && Enabled(old(s), Fire(l)) && s == Apply(old(s), Fire(l)) && rings.y == old(rings.y)
      ensures rings.q.Keys == old(rings.q.Keys) && |rings.q[Local(l)]| < |old(rings.q)[Local(l)]|
      ensures w in old(s).works && w in s.works && s.works[w].done == old(s).works[w].done + [err]
    {
      FireAgrees(s, fns, loops, workers, rings.q, rings.y.Keys, rings.lone, l);
      FireReads(s, fns, loops, workers, rings.q, rings.y.Keys, rings.lone, l);
      StepKeeps(s, Fire(l));
      var x := rings.First(Local(l));
      w := x.w;
      err := if fns[w] == Cancelled then Ecanceled else Success;
      s := Apply(s, Fire(l));
      rings.Remove(x, Local(l), 0);
    }
  }

  // ----- what each step does to the queues

  lemma LoopMatches(s: Pool, q: map<Role, seq<Role>>, known: set<Role>, lone: set<Role>, l: LoopId)
    requires PoolOk(s) && Matches(s, q, known, lone) && Head(l) !in q
    ensures forall k :: k in q ==> Head(l) !in q[k] && Local(l) !in q[k]
    ensures var a, b := Head(l), Local(l);
      Matches(s, q[a := []][b := []], known + {a} + {b}, lone - {a} - {b})
  {
    if QueueOf(s.queues, l) != [] { LoopOfPlace(s, QueueOf(s.queues, l)[0], Waiting(l, 0)); }
    if QueueOf(s.moved, l) != [] { LoopOfPlace(s, QueueOf(s.moved, l)[0], Moving(l, 0)); }
  }

  /** A work waits in the queues of its own loop. */
  lemma LoopOfPlace(s: Pool, w: WorkId, p: Place)
    requires PoolOk(s) && At(s, w, p) && (p.Waiting? || p.Moving?)
    ensures w in s.works && s.works[w].loop == p.l
  {
    Known(s, w, p);
    assert WorkOk(s, w);
  }

  lemma ExitMatches(s: Pool, q: map<Role, seq<Role>>, known: set<Role>, lone: set<Role>)
    requires Matches(s, q, known, lone) && Enabled(s, PostExit) && Exit !in s.wq
    ensures forall k :: k in q ==> Message !in q[k]
    ensures Matches(Apply(s, PostExit), q[Global := q[Global] + [Message]], known, lone - {Message})
  {
    ExitRoles(s);
    MatchesOne(s, Apply(s, PostExit), q, Global, q[Global] + [Message]);
  }

  lemma TakenNotQueued(s: Pool, t: ThreadId, r: Role)
    requires PoolOk(s) && Enabled(s, Take(t)) && s.wq[0].Job?
    ensures Own(s.wq[0].w) !in Roles(Apply(s, Take(t)), r)
  {
    var w, s' := s.wq[0].w, Apply(s, Take(t));
    StepKeeps(s, Take(t));
    assert WorkOk(s', w);
    var p :| Located(s', w, p);
    assert At(s', w, Held(t));
    NotQueued(s', w, p, r);
  }

  lemma TakeMatches(s: Pool, q: map<Role, seq<Role>>, known: set<Role>, lone: set<Role>, t: ThreadId)
    requires PoolOk(s) && Matches(s, q, known, lone) && Enabled(s, Take(t)) && s.wq[0].Job?
    ensures var x, q' := Own(s.wq[0].w), q[Global := RemoveAt(q[Global], 0)];
      && x in known && q[Global] != [] && q[Global][0] == x
      && Matches(Apply(s, Take(t)), q', known, lone + {x})
      && forall k :: k in q' ==> x !in q'[k]
  {
    TakeRoles(s, t);
    var w, s' := s.wq[0].w, Apply(s, Take(t));
    MatchesOne(s, s', q, Global, RemoveAt(q[Global], 0));
    forall k | k in q ensures Own(w) !in Roles(s', k) { TakenNotQueued(s, t, k); }
  }

  /** A step that links one work at the tail of its loop's queue. */
  lemma PostMatches(s: Pool, s': Pool, q: map<Role, seq<Role>>, known: set<Role>, lone: set<Role>, w: WorkId)
    requires Matches(s, q, known, lone) && w in s.works && s'.works.Keys == s.works.Keys
    requires s'.wq == s.wq && s'.moved == s.moved && s'.queues == Posted(s.queues, s.works[w].loop, w)
    requires forall v :: v in s.works ==> s'.works[v].loop == s.works[v].loop
    requires forall v :: v in s.works ==> s'.works[v].linked == (s.works[v].linked || v == w)
    ensures var h, x := Head(s.works[w].loop), Own(w); h in q && Matches(s', q[h := q[h] + [x]], known, lone - {x})
  {
    var h := Head(s.works[w].loop);
    PostRoles(s, s', w, s.works[w].loop);
    MatchesOne(s, s', q, h, q[h] + [Own(w)]);
  }

  lemma FinishMatches(s: Pool, q: map<Role, seq<Role>>, known: set<Role>, lone: set<Role>, t: ThreadId)
    requires PoolOk(s) && Matches(s, q, known, lone) && Enabled(s, Finish(t))
    ensures var x, h := Own(PcOf(s, t).w), Head(s.works[PcOf(s, t).w].loop);
      && h in q && x in known && (forall k :: k in q ==> x !in q[k])
      && Matches(Apply(s, Finish(t)), q[h := q[h] + [x]], known, lone - {x})
  {
    var w := PcOf(s, t).w;
    assert WorkOk(s, w);
    var p :| Located(s, w, p);
    assert At(s, w, Held(t));
    forall k | k in q ensures Own(w) !in Roles(s, k) { NotQueued(s, w, p, k); }
    PostMatches(s, Apply(s, Finish(t)), q, known, lone, w);
  }

  lemma CancelEndsMatches(s: Pool, q: map<Role, seq<Role>>, known: set<Role>, lone: set<Role>, w: WorkId)
    requires PoolOk(s) && Matches(s, q, known, lone) && Enabled(s, CancelEnds(w))
    ensures var x, h := Own(w), Head(s.works[w].loop);
      && h in q && x in known && (forall k :: k in q ==> x !in q[k])
      && Matches(Apply(s, CancelEnds(w)), q[h := q[h] + [x]], known, lone - {x})
  {
    assert WorkOk(s, w);
    var p :| Located(s, w, p);
    assert At(s, w, Cancelling(0));
    forall k | k in q ensures Own(w) !in Roles(s, k) { NotQueued(s, w, p, k); }
    PostMatches(s, Apply(s, CancelEnds(w)), q, known, lone, w);
  }

  /** A step that changes one queue and no link. */
  lemma SameLinks(s: Pool, s': Pool, q: map<Role, seq<Role>>, known: set<Role>, lone: set<Role>, r: Role, xs: seq<Role>)
    requires Matches(s, q, known, lone) && r in q && OnlyAt(s, s', r, xs) && s'.works.Keys == s.works.Keys
    requires forall w :: w in s.works ==> s'.works[w].loop == s.works[w].loop && s'.works[w].linked == s.works[w].linked
    ensures Matches(s', q[r := xs], known, lone)
  {
    MatchesOne(s, s', q, r, xs);
  }

  lemma CancelMatches(s: Pool, q: map<Role, seq<Role>>, known: set<Role>, lone: set<Role>, w: WorkId) returns (c: Place)
    requires PoolOk(s) && Matches(s, q, known, lone)
    requires Enabled(s, Cancel(w)) && Cancellable(s.works[w]) && w !in s.cancelling
    ensures InQueue(c) && RoleOf(c) in q && c.i < |q[RoleOf(c)]| && q[RoleOf(c)][c.i] == Own(w) && Own(w) in known
    ensures Matches(CancelStep(s, w), q[RoleOf(c) := RemoveAt(q[RoleOf(c)], c.i)], known, lone)
  {
    assert WorkOk(s, w);
    c :| Located(s, w, c);
    CancelFinds(s, w, c);
    CancelRoles(s, w, c);
    assert RoleOf(c) in q by { if !c.Queued? { LoopOfPlace(s, w, c); } }
    SameLinks(s, CancelStep(s, w), q, known, lone, RoleOf(c), RemoveAt(Roles(s, RoleOf(c)), c.i));
  }

  lemma MoveMatches(s: Pool, q: map<Role, seq<Role>>, known: set<Role>, lone: set<Role>, l: LoopId)
    requires Matches(s, q, known, lone) && Enabled(s, UvPool.Move(l)) && Head(l) in q
    ensures Local(l) in q && q[Local(l)] == []
    ensures Matches(Apply(s, UvPool.Move(l)), q[Head(l) := []][Local(l) := q[Head(l)]], known, lone)
  {
    MoveRoles(s, l);
  }

  lemma FireEnabled(s: Pool, l: LoopId)
    requires PoolOk(s) && Roles(s, Local(l)) != []
    ensures Enabled(s, Fire(l))
  {
    Known(s, QueueOf(s.moved, l)[0], Moving(l, 0));
  }

  lemma FireMatches(s: Pool, q: map<Role, seq<Role>>, known: set<Role>, lone: set<Role>, l: LoopId)
    requires Matches(s, q, known, lone) && Enabled(s, Fire(l)) && Local(l) in q
    ensures q[Local(l)] != [] && q[Local(l)][0] in known
    ensures Matches(Apply(s, Fire(l)), q[Local(l) := RemoveAt(q[Local(l)], 0)], known, lone)
  {
    FireRoles(s, l);
    SameLinks(s, Apply(s, Fire(l)), q, known, lone, Local(l), RemoveAt(q[Local(l)], 0));
  }

  lemma SubmitMatches(s: Pool, q: map<Role, seq<Role>>, known: set<Role>, lone: set<Role>, w: WorkId, l: LoopId)
    requires PoolOk(s) && Matches(s, q, known, lone) && Enabled(s, Submit(w, l)) && Head(l) in q
    ensures forall k :: k in q ==> Own(w) !in q[k]
    ensures var x := Own(w);
      Matches(Apply(s, Submit(w, l)), q[Global := q[Global] + [x]], known + {x}, lone - {x})
    ensures var x := Own(w); lone - {x} - {x} == lone - {x}
  {
    SubmitRoles(s, w, l);
    forall k | k in q ensures Own(w) !in q[k] { UnknownRole(s, w, k); }
    MatchesOne(s, Apply(s, Submit(w, l)), q, Global, q[Global] + [Own(w)]);
  }

  lemma UnknownRole(s: Pool, w: WorkId, r: Role)
    requires PoolOk(s) && w !in s.works
    ensures Own(w) !in Roles(s, r)
  {
    assert WorkOk(s, w);
    if Own(w) in Roles(s, r) {
      var i: nat :| i < |Roles(s, r)| && Roles(s, r)[i] == Own(w);
      var at := if r.Global? then Queued(i) else if r.Head? then Waiting(r.l, i) else Moving(r.l, i);
      PlaceRole(s, w, at);
    }
  }

  // ----- the same with the fields

  lemma Parts(s: Pool, fns: map<WorkId, Fn>, loops: map<WorkId, LoopId>, workers: map<ThreadId, Pc>,
              q: map<Role, seq<Role>>, known: set<Role>, lone: set<Role>)
    ensures Agrees(s, fns, loops, workers, q, known, lone) <==>
      FieldsTied(fns, loops, s) && workers == s.workers && Matches(s, q, known, lone)
  {
    assert Looked(true);
  }

  lemma FieldsKept(fns: map<WorkId, Fn>, loops: map<WorkId, LoopId>, s: Pool, s': Pool)
    requires FieldsTied(fns, loops, s) && s'.works.Keys == s.works.Keys
    requires forall v :: v in s.works ==> s'.works[v].loop == s.works[v].loop && s'.works[v].fn == s.works[v].fn
    ensures FieldsTied(fns, loops, s')
  {
  }

  lemma FieldsSame(fns: map<WorkId, Fn>, loops: map<WorkId, LoopId>, s: Pool, s': Pool, w: WorkId)
    requires FieldsTied(fns, loops, s) && w in s.works && s'.works.Keys == s.works.Keys
    requires forall v :: v in s.works ==>
      s'.works[v].loop == s.works[v].loop && (v != w ==> s'.works[v].fn == s.works[v].fn)
    ensures FieldsTied(fns[w := s'.works[w].fn], loops, s')
  {
  }

  lemma LoopAgrees(s: Pool, fns: map<WorkId, Fn>, loops: map<WorkId, LoopId>, workers: map<ThreadId, Pc>,
                   q: map<Role, seq<Role>>, known: set<Role>, lone: set<Role>, l: LoopId)
    requires Agrees(s, fns, loops, workers, q, known, lone)
    requires PoolOk(s) && Head(l) !in q
    ensures forall k :: k in q ==> Head(l) !in q[k] && Local(l) !in q[k]
    ensures Local(l) !in q
    ensures var a, b := Head(l), Local(l);
      Agrees(s, fns, loops, workers, q[a := []][b := []], known + {a} + {b}, lone - {a} - {b})
  {
    assert Looked(true);
    LoopMatches(s, q, known, lone, l);
  }

  lemma SubmitAgrees(s: Pool, fns: map<WorkId, Fn>, loops: map<WorkId, LoopId>, workers: map<ThreadId, Pc>,
                     q: map<Role, seq<Role>>, known: set<Role>, lone: set<Role>, w: WorkId, l: LoopId)
    requires Agrees(s, fns, loops, workers, q, known, lone)
    requires PoolOk(s) && Enabled(s, Submit(w, l)) && Head(l) in q
    ensures Global in q && Own(w) !in known && Own(w) !in q && forall k :: k in q ==> Own(w) !in q[k]
    ensures var x := Own(w);
      Agrees(Apply(s, Submit(w, l)), fns[w := Func], loops[w := l], workers, q[Global := q[Global] + [x]],
        known + {x}, lone - {x})
  {
    assert Looked(true);
    SubmitMatches(s, q, known, lone, w, l);
  }

  lemma ExitAgrees(s: Pool, fns: map<WorkId, Fn>, loops: map<WorkId, LoopId>, workers: map<ThreadId, Pc>,
                   q: map<Role, seq<Role>>, known: set<Role>, lone: set<Role>)
    requires Agrees(s, fns, loops, workers, q, known, lone)
    requires Enabled(s, PostExit) && Exit !in s.wq
    ensures Global in q && Message in known && Message !in q && forall k :: k in q ==> Message !in q[k]
    ensures Agrees(Apply(s, PostExit), fns, loops, workers, q[Global := q[Global] + [Message]], known, lone - {Message})
  {
    assert Looked(true);
    ExitMatches(s, q, known, lone);
  }

  lemma TakeJobAgrees(s: Pool, fns: map<WorkId, Fn>, loops: map<WorkId, LoopId>, workers: map<ThreadId, Pc>,
                      q: map<Role, seq<Role>>, known: set<Role>, lone: set<Role>, t: ThreadId)
    requires FieldsTied(fns, loops, s) && workers == s.workers && Enabled(s, Take(t)) && s.wq[0].Job?
    requires Global in q && q[Global] != []
    requires Matches(Apply(s, Take(t)), q[Global := RemoveAt(q[Global], 0)], known, lone + {Own(s.wq[0].w)})
    ensures Agrees(Apply(s, Take(t)), fns, loops, workers[t := Got(s.wq[0].w)],
                   q[Global := RemoveAt(q[Global], 0)], known, lone + {Own(s.wq[0].w)})
  {
    FieldsKept(fns, loops, s, Apply(s, Take(t)));
  }

  lemma ExitedAgrees(s: Pool, fns: map<WorkId, Fn>, loops: map<WorkId, LoopId>,
                     q: map<Role, seq<Role>>, known: set<Role>, lone: set<Role>, t: ThreadId)
    requires FieldsTied(fns, loops, s) && Matches(s, q, known, lone)
    ensures Agrees(s.(workers := s.workers[t := Exited]), fns, loops, s.workers[t := Exited], q, known, lone)
  {
    var s' := s.(workers := s.workers[t := Exited]);
    assert forall r :: Roles(s', r) == Roles(s, r);
    FieldsKept(fns, loops, s, s');
  }

  lemma TakeAgrees(s: Pool, fns: map<WorkId, Fn>, loops: map<WorkId, LoopId>, workers: map<ThreadId, Pc>,
                   q: map<Role, seq<Role>>, known: set<Role>, lone: set<Role>, t: ThreadId)
    requires Agrees(s, fns, loops, workers, q, known, lone)
    requires PoolOk(s) && Enabled(s, Take(t))
    ensures Global in q && q[Global] != [] && q[Global][0] == ItemRole(s.wq[0])
    ensures s.wq[0].Exit? ==> Agrees(Apply(s, Take(t)), fns, loops, workers[t := Exited], q, known, lone)
    ensures s.wq[0].Job? ==>
      var w, q' := s.wq[0].w, q[Global := RemoveAt(q[Global], 0)];
      && Own(w) in known && Own(w) !in q && (forall k :: k in q' ==> Own(w) !in q'[k])
      && Agrees(Apply(s, Take(t)), fns, loops, workers[t := Got(w)], q', known, lone + {Own(w)})
  {
    Parts(s, fns, loops, workers, q, known, lone);
    if s.wq[0].Job? {
      TakeMatches(s, q, known, lone, t);
      TakeJobAgrees(s, fns, loops, workers, q, known, lone, t);
    } else {
      assert Apply(s, Take(t)) == s.(workers := s.workers[t := Exited]);
      ExitedAgrees(s, fns, loops, q, known, lone, t);
    }
  }

  lemma RunAgrees(s: Pool, fns: map<WorkId, Fn>, loops: map<WorkId, LoopId>, workers: map<ThreadId, Pc>,
                  q: map<Role, seq<Role>>, known: set<Role>, lone: set<Role>, t: ThreadId)
    requires Agrees(s, fns, loops, workers, q, known, lone)
    requires Enabled(s, Run(t))
    ensures t in workers && workers[t].Got?
    ensures Agrees(Apply(s, Run(t)), fns, loops, workers[t := Ran(workers[t].w)], q, known, lone)
  {
    var s', w := Apply(s, Run(t)), PcOf(s, t).w;
    Parts(s, fns, loops, workers, q, known, lone);
    assert forall r :: Roles(s', r) == Roles(s, r);
    FieldsKept(fns, loops, s, s');
    Parts(s', fns, loops, workers[t := Ran(w)], q, known, lone);
  }

  lemma FinishAgrees(s: Pool, fns: map<WorkId, Fn>, loops: map<WorkId, LoopId>, workers: map<ThreadId, Pc>,
                     q: map<Role, seq<Role>>, known: set<Role>, lone: set<Role>, t: ThreadId)
    requires Agrees(s, fns, loops, workers, q, known, lone)
    requires PoolOk(s) && Enabled(s, Finish(t))
    ensures t in workers && workers[t].Ran? && workers[t].w in loops
    ensures var w := workers[t].w; var x, h := Own(w), Head(loops[w]);
      && h in q && x in known && x !in q && (forall k :: k in q ==> x !in q[k])
      && Agrees(Apply(s, Finish(t)), fns[w := Null], loops, workers[t := Idle], q[h := q[h] + [x]], known, lone - {x})
  {
    var w := PcOf(s, t).w;
    var s', x, h := Apply(s, Finish(t)), Own(w), Head(s.works[w].loop);
    Parts(s, fns, loops, workers, q, known, lone);
    FinishMatches(s, q, known, lone, t);
    FieldsSame(fns, loops, s, s', w);
    Parts(s', fns[w := Null], loops, workers[t := Idle], q[h := q[h] + [x]], known, lone - {x});
  }

  lemma CancelEndsAgrees(s: Pool, fns: map<WorkId, Fn>, loops: map<WorkId, LoopId>, workers: map<ThreadId, Pc>,
                         q: map<Role, seq<Role>>, known: set<Role>, lone: set<Role>, w: WorkId)
    requires Agrees(s, fns, loops, workers, q, known, lone)
    requires PoolOk(s) && Enabled(s, CancelEnds(w))
    ensures w in loops
    ensures var x, h := Own(w), Head(loops[w]);
      && h in q && x in known && x !in q && (forall k :: k in q ==> x !in q[k])
      && Agrees(Apply(s, CancelEnds(w)), fns[w := Cancelled], loops, workers, q[h := q[h] + [x]], known, lone - {x})
  {
    var s', x, h := Apply(s, CancelEnds(w)), Own(w), Head(s.works[w].loop);
    Parts(s, fns, loops, workers, q, known, lone);
    CancelEndsMatches(s, q, known, lone, w);
    FieldsSame(fns, loops, s, s', w);
    Parts(s', fns[w := Cancelled], loops, workers, q[h := q[h] + [x]], known, lone - {x});
  }

  /** QUEUE_EMPTY and w->work decide as the pool says. */
  lemma CancelTest(s: Pool, fns: map<WorkId, Fn>, loops: map<WorkId, LoopId>, workers: map<ThreadId, Pc>,
                   q: map<Role, seq<Role>>, known: set<Role>, lone: set<Role>, w: WorkId)
    requires Agrees(s, fns, loops, workers, q, known, lone) && w in s.works
    ensures Own(w) in known && Own(w) !in q && w in fns
    ensures Cancellable(s.works[w]) <==> Own(w) !in lone && fns[w] != Null
  {
    Parts(s, fns, loops, workers, q, known, lone);
  }

  lemma CancelAgrees(s: Pool, fns: map<WorkId, Fn>, loops: map<WorkId, LoopId>, workers: map<ThreadId, Pc>,
                     q: map<Role, seq<Role>>, known: set<Role>, lone: set<Role>, w: WorkId) returns (c: Place)
    requires Agrees(s, fns, loops, workers, q, known, lone) && PoolOk(s)
    requires Enabled(s, Cancel(w)) && Cancellable(s.works[w]) && w !in s.cancelling
    ensures InQueue(c) && RoleOf(c) in q && c.i < |q[RoleOf(c)]| && q[RoleOf(c)][c.i] == Own(w)
    ensures Agrees(CancelStep(s, w), fns, loops, workers, q[RoleOf(c) := RemoveAt(q[RoleOf(c)], c.i)], known, lone)
  {
    Parts(s, fns, loops, workers, q, known, lone);
    c := CancelMatches(s, q, known, lone, w);
    CancelFields(s, fns, loops, w);
    Parts(CancelStep(s, w), fns, loops, workers, q[RoleOf(c) := RemoveAt(q[RoleOf(c)], c.i)], known, lone);
  }

  lemma CancelFields(s: Pool, fns: map<WorkId, Fn>, loops: map<WorkId, LoopId>, w: WorkId)
    requires FieldsTied(fns, loops, s) && Enabled(s, Cancel(w))
    ensures FieldsTied(fns, loops, CancelStep(s, w)) && CancelStep(s, w).workers == s.workers
  {
  }

  lemma MoveAgrees(s: Pool, fns: map<WorkId, Fn>, loops: map<WorkId, LoopId>, workers: map<ThreadId, Pc>,
                   q: map<Role, seq<Role>>, known: set<Role>, lone: set<Role>, l: LoopId)
    requires Agrees(s, fns, loops, workers, q, known, lone)
    requires Enabled(s, UvPool.Move(l)) && Head(l) in q
    ensures Local(l) in q && q[Local(l)] == []
    ensures Agrees(Apply(s, UvPool.Move(l)), fns, loops, workers, q[Head(l) := []][Local(l) := q[Head(l)]], known, lone)
  {
    assert Looked(true);
    MoveMatches(s, q, known, lone, l);
  }

  lemma EmptyAgrees(s: Pool, fns: map<WorkId, Fn>, loops: map<WorkId, LoopId>, workers: map<ThreadId, Pc>,
                    q: map<Role, seq<Role>>, known: set<Role>, lone: set<Role>, l: LoopId)
    requires Agrees(s, fns, loops, workers, q, known, lone)
    requires Local(l) in q && q[Local(l)] == []
    ensures QueueOf(s.moved, l) == []
  {
    assert Looked(true);
    assert Roles(s, Local(l)) == [];
  }

  /** The head of the local queue, and its w->work. */
  lemma FireReads(s: Pool, fns: map<WorkId, Fn>, loops: map<WorkId, LoopId>, workers: map<ThreadId, Pc>,
                  q: map<Role, seq<Role>>, known: set<Role>, lone: set<Role>, l: LoopId)
    requires Agrees(s, fns, loops, workers, q, known, lone)
    requires Enabled(s, Fire(l)) && Local(l) in q && q[Local(l)] != []
    ensures var w := s.moved[l][0]; q[Local(l)][0] == Own(w) && w in fns && fns[w] == s.works[w].fn
  {
    Parts(s, fns, loops, workers, q, known, lone);
  }

  lemma FireAgrees(s: Pool, fns: map<WorkId, Fn>, loops: map<WorkId, LoopId>, workers: map<ThreadId, Pc>,
                   q: map<Role, seq<Role>>, known: set<Role>, lone: set<Role>, l: LoopId)
    requires Agrees(s, fns, loops, workers, q, known, lone)
    requires PoolOk(s) && Local(l) in q && q[Local(l)] != []
    ensures Enabled(s, Fire(l)) && q[Local(l)][0] in known
    ensures Agrees(Apply(s, Fire(l)), fns, loops, workers, q[Local(l) := RemoveAt(q[Local(l)], 0)], known, lone)
  {
    Parts(s, fns, loops, workers, q, known, lone);
    FireEnabled(s, l);
    FireMatches(s, q, known, lone, l);
    var s', w := Apply(s, Fire(l)), QueueOf(s.moved, l)[0];
    FieldsKept(fns, loops, s, s');
    Parts(s', fns, loops, workers, q[Local(l) := RemoveAt(q[Local(l)], 0)], known, lone);
  }
}
