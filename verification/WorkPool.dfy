/** The bounded thread pool of third/threadpool/threadpool.c over the linked queue: pushes, worker
    threads and the teardown in any interleaving of their locked regions. */
module WorkPool {
  import opened Common

  import opened LinkedQueue

  type JobId = nat
  type ThreadId = nat

  const LIMIT: nat := 64

  /** A pushed job: whether it has an after callback, and what has happened to it. */
  datatype Job = Job(after: bool, runs: nat, drops: nat, afters: nat)

  /** A worker: at the top of its loop, past the exit test, with a job to run, with a job whose
      after callback is due, or out of its loop. */
  datatype Pc = Top | Ready | Got(j: JobId) | Worked(j: JobId) | Exited

  /** `exit` is the exit semaphore being positive; `cleared` the queue having been cleared by the
      teardown; `late` the jobs pushed after that; `lost` the job without an after callback whose
      callback the teardown called, which ends the process. */
  datatype Pool = Pool(jobs: map<JobId, Job>, queue: seq<JobId>, workers: seq<Pc>,
                       exit: bool, cleared: bool, late: set<JobId>, lost: Option<JobId>)

  datatype Event =
    | Push(j: JobId, after: bool)
    | Test(t: ThreadId)
    | Take(t: ThreadId)
    | Work(t: ThreadId)
    | After(t: ThreadId)
    | PostExit
    | Clear

  function Init(threads: nat): Pool { Pool(map[], [], seq(threads, i => Top), false, false, {}, None) }

  predicate Known(s: Pool, q: seq<JobId>) { forall i :: 0 <= i < |q| ==> q[i] in s.jobs }

  ghost predicate Enabled(s: Pool, e: Event) {
    s.lost.None? &&
    match e
    case Push(j, _) => j !in s.jobs
    case Test(t) => t < |s.workers| && s.workers[t].Top?
    case Take(t) => t < |s.workers| && s.workers[t].Ready?
    case Work(t) => t < |s.workers| && s.workers[t].Got? && s.workers[t].j in s.jobs
    case After(t) => t < |s.workers| && s.workers[t].Worked? && s.workers[t].j in s.jobs
    case PostExit => true
    case Clear => s.exit && Known(s, s.queue)
  }

  ghost function Apply(s: Pool, e: Event): Pool
    requires Enabled(s, e)
  {
    match e
    case Push(j, after) => PushStep(s, j, after)
    case Test(t) => s.(workers := s.workers[t := if s.exit then Exited else Ready])
    case Take(t) =>
      if s.queue == [] then s.(workers := s.workers[t := Top])
      else s.(queue := s.queue[1..], workers := s.workers[t := Got(s.queue[0])])
    case Work(t) =>
      var j := s.workers[t].j;
      s.(jobs := s.jobs[j := s.jobs[j].(runs := s.jobs[j].runs + 1)], workers := s.workers[t := Worked(j)])
    case After(t) =>
      var j := s.workers[t].j;
      s.(jobs := s.jobs[j := Called(s.jobs[j])], workers := s.workers[t := Top])
    case PostExit => s.(exit := true)
    case Clear => ClearStep(s)
  }

  function Called(k: Job): Job { if k.after then k.(afters := k.afters + 1) else k }

  /** threadpool_push_work: a full queue rejects the job. */
  function PushStep(s: Pool, j: JobId, after: bool): Pool {
    if |s.queue| > LIMIT then s
    else s.(jobs := s.jobs[j := Job(after, 0, 0, 0)], queue := s.queue + [j],
            late := if s.cleared then s.late + {j} else s.late)
  }

  function Drop(k: Job): Job { k.(drops := k.drops + 1, afters := k.afters + 1) }

  /** The last job leaves the queue and its after callback is called. */
  function DropOne(s: Pool): Pool
    requires s.queue != [] && Known(s, s.queue)
  {
    var n := |s.queue| - 1;
    s.(queue := s.queue[..n], jobs := s.jobs[s.queue[n] := Drop(s.jobs[s.queue[n]])])
  }

  /** The last job has no after callback, which is called without a test. */
  function LoseOne(s: Pool): Pool
    requires s.queue != []
  {
    s.(queue := s.queue[..|s.queue| - 1], lost := Some(s.queue[|s.queue| - 1]))
  }

  /** easy_queue_clear with queue_free_func */
  function ClearStep(s: Pool): Pool
    requires Known(s, s.queue)
    decreases |s.queue|
  {
    if s.queue == [] then s.(cleared := true)
    else if !s.jobs[s.queue[|s.queue| - 1]].after then LoseOne(s)
    else ClearStep(DropOne(s))
  }

  ghost predicate IsRun(s: Pool, es: seq<Event>)
    decreases |es|
  {
    es == [] || (Enabled(s, es[0]) && IsRun(Apply(s, es[0]), es[1..]))
  }

  ghost function Final(s: Pool, es: seq<Event>): Pool
    requires IsRun(s, es)
    decreases |es|
  {
    if es == [] then s else Final(Apply(s, es[0]), es[1..])
  }

  // ----- where a job is

  datatype Place = Queued(i: nat) | Held(t: ThreadId) | Over | Lost

  ghost predicate At(s: Pool, j: JobId, p: Place) {
    match p
    case Queued(i) => i < |s.queue| && s.queue[i] == j
    case Held(t) => t < |s.workers| && (s.workers[t] == Got(j) || s.workers[t] == Worked(j))
    case Over => j in s.jobs && (s.jobs[j].drops > 0 || (s.jobs[j].runs > 0 && !Due(s, j)))
    case Lost => s.lost == Some(j)
  }

  ghost predicate Due(s: Pool, j: JobId) {
    exists t :: 0 <= t < |s.workers| && s.workers[t] == Worked(j)
  }

  ghost predicate FieldsOk(s: Pool, k: Job, p: Place) {
    match p
    case Queued(_) => k.runs == 0 && k.drops == 0 && k.afters == 0
    case Held(t) => t < |s.workers| && k.runs == (if s.workers[t].Got? then 0 else 1) && k.drops == 0 && k.afters == 0
    case Over => k.runs + k.drops == 1 && k.afters == (if k.after then 1 else 0)
    case Lost => k.runs == 0 && k.drops == 0 && k.afters == 0 && !k.after
  }

  ghost predicate Located(s: Pool, j: JobId, p: Place) {
    && j in s.jobs && At(s, j, p) && FieldsOk(s, s.jobs[j], p)
    && forall q :: At(s, j, q) ==> q == p
  }

  ghost predicate JobOk(s: Pool, j: JobId) {
    if j in s.jobs then exists p :: Located(s, j, p) else forall p :: !At(s, j, p)
  }

  ghost predicate PoolOk(s: Pool) {
    && (forall j {:trigger JobOk(s, j)} :: JobOk(s, j))
    && |s.queue| <= LIMIT + 1
    && (s.cleared ==> s.exit && forall i :: 0 <= i < |s.queue| ==> s.queue[i] in s.late)
  }

  // ----- every step keeps every job in one place

  lemma PushKeeps(s: Pool, v: JobId, after: bool, j: JobId)
    requires JobOk(s, j) && Enabled(s, Push(v, after)) && |s.queue| <= LIMIT
    ensures JobOk(PushStep(s, v, after), j)
  {
    var s' := PushStep(s, v, after);
    assert forall i :: Due(s', i) <==> Due(s, i);
    forall q | At(s', j, q) && !(j == v && q == Queued(|s.queue|)) ensures At(s, j, q) { }
    if j == v {
      assert Located(s', j, Queued(|s.queue|));
    } else if j in s.jobs {
      var p :| Located(s, j, p);
      assert Located(s', j, p);
    }
  }

  /** A worker without a job moves. */
  lemma MoveKeeps(s: Pool, t: ThreadId, pc: Pc, j: JobId)
    requires JobOk(s, j) && t < |s.workers|
    requires !s.workers[t].Got? && !s.workers[t].Worked? && !pc.Got? && !pc.Worked?
    ensures JobOk(s.(workers := s.workers[t := pc]), j)
  {
    var s' := s.(workers := s.workers[t := pc]);
    assert forall u :: 0 <= u < |s.workers| ==> (s'.workers[u] == Worked(j) <==> s.workers[u] == Worked(j));
    assert Due(s', j) <==> Due(s, j);
    forall q | At(s', j, q) ensures At(s, j, q) { }
    if j in s.jobs {
      var p :| Located(s, j, p);
      assert Located(s', j, p);
    }
  }

  lemma TakeKeeps(s: Pool, t: ThreadId, j: JobId)
    requires JobOk(s, j) && Enabled(s, Take(t)) && s.queue != []
    ensures JobOk(Apply(s, Take(t)), j)
  {
    var s', v := Apply(s, Take(t)), s.queue[0];
    assert forall u :: 0 <= u < |s.workers| ==> (s'.workers[u] == Worked(j) <==> s.workers[u] == Worked(j));
    assert Due(s', j) <==> Due(s, j);
    forall q | At(s', j, q) && !(j == v && q == Held(t))
      ensures At(s, j, if q.Queued? then Queued(q.i + 1) else q)
    {
    }
    assert j == v ==> At(s, j, Queued(0));
    if j in s.jobs {
      var p :| Located(s, j, p);
      if j == v { assert Located(s', j, Held(t)); } else {
        assert Located(s', j, if p.Queued? then Queued(p.i - 1) else p);
      }
    }
  }

  lemma WorkKeeps(s: Pool, t: ThreadId, j: JobId)
    requires JobOk(s, j) && Enabled(s, Work(t))
    ensures JobOk(Apply(s, Work(t)), j)
  {
    var s', v := Apply(s, Work(t)), s.workers[t].j;
    if j == v {
      assert At(s, j, Held(t));
      var p :| Located(s, j, p);
      assert s'.workers[t] == Worked(j);
      assert Due(s', j);
      forall q | At(s', j, q) ensures At(s, j, q) { }
      assert Located(s', j, Held(t));
    } else {
      assert forall u :: 0 <= u < |s.workers| ==> (s'.workers[u] == Worked(j) <==> s.workers[u] == Worked(j));
      assert Due(s', j) <==> Due(s, j);
      forall q | At(s', j, q) ensures At(s, j, q) { }
      if j in s.jobs {
        var p :| Located(s, j, p);
        assert Located(s', j, p);
      }
    }
  }

  lemma AfterKeeps(s: Pool, t: ThreadId, j: JobId)
    requires JobOk(s, j) && Enabled(s, After(t))
    ensures JobOk(Apply(s, After(t)), j)
  {
    var s', v := Apply(s, After(t)), s.workers[t].j;
    if j == v {
      assert At(s, j, Held(t));
      var p :| Located(s, j, p);
      assert forall u :: 0 <= u < |s.workers| && s.workers[u] == Worked(j) ==> At(s, j, Held(u));
      assert !Due(s', j);
      forall q | At(s', j, q) && q != Over ensures At(s, j, q) { }
      assert Located(s', j, Over);
    } else {
      assert forall u :: 0 <= u < |s.workers| ==> (s'.workers[u] == Worked(j) <==> s.workers[u] == Worked(j));
      assert Due(s', j) <==> Due(s, j);
      forall q | At(s', j, q) ensures At(s, j, q) { }
      if j in s.jobs {
        var p :| Located(s, j, p);
        assert Located(s', j, p);
      }
    }
  }

  /** The last of the queue leaves its place for another one. */
  lemma LastKeeps(s: Pool, s': Pool, p': Place, j: JobId)
    requires JobOk(s, j) && s.queue != [] && Known(s, s.queue) && s.lost.None? && (s' == DropOne(s) || s' == LoseOne(s))
    requires s.jobs[s.queue[|s.queue| - 1]].after <==> s' == DropOne(s)
    requires p' == if s' == DropOne(s) then Over else Lost
    ensures JobOk(s', j)
  {
    var n := |s.queue| - 1;
    assert Due(s', j) <==> Due(s, j);
    forall q | At(s', j, q) && !(j == s.queue[n] && q == p') ensures At(s, j, q) && q != Queued(n) { }
    assert j == s.queue[n] ==> At(s, j, Queued(n));
    if j in s.jobs {
      var p :| Located(s, j, p);
      if j == s.queue[n] {
        assert !At(s, j, Over);
        assert Located(s', j, p');
      } else {
        assert Located(s', j, p);
      }
    }
  }

  lemma {:induction false} ClearKeeps(s: Pool, j: JobId)
    requires JobOk(s, j) && Known(s, s.queue) && s.lost.None?
    ensures JobOk(ClearStep(s), j)
    decreases |s.queue|
  {
    if s.queue == [] {
      var s' := s.(cleared := true);
      assert Due(s', j) <==> Due(s, j);
      assert forall q :: At(s', j, q) <==> At(s, j, q);
      if j in s.jobs {
        var p :| Located(s, j, p);
        assert Located(s', j, p);
      }
    } else if !s.jobs[s.queue[|s.queue| - 1]].after {
      assert LoseOne(s).lost.Some?;
      LastKeeps(s, LoseOne(s), Lost, j);
    } else {
      LastKeeps(s, DropOne(s), Over, j);
      ClearKeeps(DropOne(s), j);
    }
  }

  /** What the teardown leaves of the queue was in it before, and its jobs are known. */
  lemma {:induction false} ClearShrinks(s: Pool)
    requires Known(s, s.queue)
    ensures ClearStep(s).queue <= s.queue && ClearStep(s).late == s.late && ClearStep(s).exit == s.exit
    ensures ClearStep(s).lost.None? ==> ClearStep(s).queue == [] && ClearStep(s).cleared
    ensures ClearStep(s).cleared ==> s.cleared || ClearStep(s).queue == []
    decreases |s.queue|
  {
    if s.queue != [] && s.jobs[s.queue[|s.queue| - 1]].after { ClearShrinks(DropOne(s)); }
  }

  /** The teardown calls a missing callback, and ends there, if and only if a queued job has none. */
  lemma {:induction false} TeardownLosesExactly(s: Pool)
    requires Known(s, s.queue) && s.lost.None?
    ensures ClearStep(s).lost.Some? <==> exists i :: 0 <= i < |s.queue| && !s.jobs[s.queue[i]].after
    decreases |s.queue|
  {
    var n := |s.queue| - 1;
    if s.queue != [] && s.jobs[s.queue[n]].after {
      var s' := DropOne(s);
      TeardownLosesExactly(s');
      assert forall i :: 0 <= i < n ==>
        s'.queue[i] == s.queue[i] && s'.jobs[s.queue[i]].after == s.jobs[s.queue[i]].after;
    }
  }

  lemma JobKept(s: Pool, e: Event, j: JobId)
    requires JobOk(s, j) && Enabled(s, e)
    ensures JobOk(Apply(s, e), j)
  {
    assert s.lost.None?;
    match e
    case Push(v, after) => if |s.queue| <= LIMIT { PushKeeps(s, v, after, j); }
    case Test(t) => MoveKeeps(s, t, if s.exit then Exited else Ready, j);
    case Take(t) => if s.queue == [] { MoveKeeps(s, t, Top, j); } else { TakeKeeps(s, t, j); }
    case Work(t) => WorkKeeps(s, t, j);
    case After(t) => AfterKeeps(s, t, j);
    case PostExit =>
      var s' := s.(exit := true);
      assert forall q :: At(s', j, q) <==> At(s, j, q);
      if j in s.jobs {
        var p :| Located(s, j, p);
        assert Located(s', j, p);
      }
    case Clear => ClearKeeps(s, j);
  }

  lemma StepKeeps(s: Pool, e: Event)
    requires PoolOk(s) && Enabled(s, e)
    ensures PoolOk(Apply(s, e))
  {
    forall j ensures JobOk(Apply(s, e), j) {
      assert JobOk(s, j);
      JobKept(s, e, j);
    }
    if e.Clear? { ClearShrinks(s); }
  }

  lemma {:induction false} RunKeeps(s: Pool, es: seq<Event>)
    requires PoolOk(s) && IsRun(s, es)
    ensures PoolOk(Final(s, es))
    decreases |es|
  {
    if es != [] {
      StepKeeps(s, es[0]);
      RunKeeps(Apply(s, es[0]), es[1..]);
    }
  }

  lemma Reached(threads: nat, es: seq<Event>)
    requires IsRun(Init(threads), es)
    ensures PoolOk(Final(Init(threads), es))
  {
    assert forall j, q :: !At(Init(threads), j, q);
    RunKeeps(Init(threads), es);
  }

  /** The queue never holds more than 65 jobs; every accepted job runs or is dropped at most once in
      all, and its after callback is called at most once, and only after that. */
  lemma AtMostOnce(threads: nat, es: seq<Event>, j: JobId)
    requires IsRun(Init(threads), es)
    ensures var s := Final(Init(threads), es);
      && |s.queue| <= 65
      && (j in s.jobs ==> s.jobs[j].afters <= s.jobs[j].runs + s.jobs[j].drops <= 1)
  {
    Reached(threads, es);
    assert JobOk(Final(Init(threads), es), j);
  }

  ghost predicate TornDown(s: Pool) {
    s.cleared && s.lost.None? && forall t :: 0 <= t < |s.workers| ==> s.workers[t].Exited?
  }

  /** After the teardown every accepted job has been run or dropped exactly once, with its after
      callback called exactly once, except those that were pushed after the queue was cleared and
      are still in it. */
  lemma ExactlyOnceAfterTeardown(threads: nat, es: seq<Event>, j: JobId)
    requires IsRun(Init(threads), es) && TornDown(Final(Init(threads), es)) && j in Final(Init(threads), es).jobs
    ensures var s := Final(Init(threads), es); var k := s.jobs[j];
      && (j !in s.queue ==> k.runs + k.drops == 1 && k.afters == (if k.after then 1 else 0))
      && (j in s.queue ==> k.runs + k.drops == 0 && k.afters == 0 && j in s.late)
  {
    Reached(threads, es);
    var s := Final(Init(threads), es);
    assert JobOk(s, j);
    var p :| Located(s, j, p);
    if j in s.queue {
      var i: nat :| i < |s.queue| && s.queue[i] == j;
      assert At(s, j, Queued(i));
    }
  }

  /** So without such late pushes every accepted job is run or dropped exactly once. */
  lemma ExactlyOnceUnlessLate(threads: nat, es: seq<Event>, j: JobId)
    requires IsRun(Init(threads), es) && TornDown(Final(Init(threads), es)) && j in Final(Init(threads), es).jobs
    requires Final(Init(threads), es).late == {}
    ensures var k := Final(Init(threads), es).jobs[j]; k.runs + k.drops == 1 && k.afters == (if k.after then 1 else 0)
  {
    ExactlyOnceAfterTeardown(threads, es, j);
  }

  /** A job pushed between the clearing and the end of the pool is neither run nor dropped. */
  lemma LateJobStays()
    ensures var es := [PostExit, Clear, Test(0), Push(0, true)];
      && IsRun(Init(1), es) && TornDown(Final(Init(1), es))
      && 0 in Final(Init(1), es).jobs && Final(Init(1), es).jobs[0] == Job(true, 0, 0, 0)
  {
    var es := [PostExit, Clear, Test(0), Push(0, true)];
    var s1 := Init(1).(exit := true);
    var s2 := s1.(cleared := true);
    var s3 := s2.(workers := [Exited]);
    assert Apply(Init(1), PostExit) == s1 && Apply(s1, Clear) == s2 && Apply(s2, Test(0)) == s3;
    var s4 := Apply(s3, Push(0, true));
    assert es[1..] == [Clear, Test(0), Push(0, true)] && es[1..][1..] == [Test(0), Push(0, true)];
    assert es[1..][1..][1..] == [Push(0, true)] && es[1..][1..][1..][1..] == [];
    assert IsRun(s3, [Push(0, true)]) && Final(s3, [Push(0, true)]) == s4;
    assert IsRun(s2, [Test(0), Push(0, true)]) && Final(s2, [Test(0), Push(0, true)]) == s4;
    assert IsRun(s1, es[1..]) && Final(s1, es[1..]) == s4;
  }

  // ----- what the steps do

  /** A job is accepted, unrun and last in the queue, exactly if at most 64 jobs wait. */
  lemma PushDoes(s: Pool, j: JobId, after: bool)
    requires Enabled(s, Push(j, after))
    ensures var s' := Apply(s, Push(j, after));
      if |s.queue| <= 64 then
        && s'.queue == s.queue + [j] && s'.jobs == s.jobs[j := Job(after, 0, 0, 0)]
        && s'.late == (if s.cleared then s.late + {j} else s.late)
        && s' == s.(queue := s'.queue, jobs := s'.jobs, late := s'.late)
      else s' == s
  {
  }

  /** The first job of the queue goes to the worker; without one it goes back to its test. */
  lemma TakeDoes(s: Pool, t: ThreadId)
    requires Enabled(s, Take(t))
    ensures var s' := Apply(s, Take(t));
      && t < |s.workers| && s'.jobs == s.jobs
      && (s.queue == [] ==> s'.queue == [] && s'.workers == s.workers[t := Top])
      && (s.queue != [] ==> s'.queue == s.queue[1..] && s'.workers == s.workers[t := Got(s.queue[0])])
      && s' == s.(queue := s'.queue, workers := s'.workers)
  {
  }

  /** A worker leaves its loop exactly if the teardown has begun, runs the job it holds, and calls back
      a job that has an after callback. */
  lemma WorkerDoes(s: Pool, e: Event)
    requires Enabled(s, e) && (e.Test? || e.Work? || e.After?)
    ensures var s', t := Apply(s, e), e.t;
      && t < |s.workers| && s' == s.(jobs := s'.jobs, workers := s'.workers)
      && (e.Test? ==> s'.jobs == s.jobs && s'.workers == s.workers[t := if s.exit then Exited else Ready])
      && (e.Work? ==>
            var j := s.workers[t].j;
            && s'.jobs == s.jobs[j := s.jobs[j].(runs := s.jobs[j].runs + 1)]
            && s'.workers == s.workers[t := Worked(j)])
      && (e.After? ==>
            var j := s.workers[t].j;
            && s'.jobs == s.jobs[j := s.jobs[j].(afters := s.jobs[j].afters + (if s.jobs[j].after then 1 else 0))]
            && s'.workers == s.workers[t := Top])
  {
  }

  ghost predicate Dropped(k: Job, k': Job) { k.after && k' == Job(k.after, k.runs, k.drops + 1, k.afters + 1) }

  /** Jobs `n` and later have been dropped and called back, and no other job has changed. */
  ghost predicate DroppedFrom(s: Pool, s': Pool, n: nat) {
    && n <= |s.queue| && s'.jobs.Keys == s.jobs.Keys
    && (forall i :: n <= i < |s.queue| && s.queue[i] in s.jobs ==> Dropped(s.jobs[s.queue[i]], s'.jobs[s.queue[i]]))
    && (forall j :: j in s.jobs && (forall i :: n <= i < |s.queue| ==> s.queue[i] != j) ==> s'.jobs[j] == s.jobs[j])
  }

  ghost predicate Unrepeated(q: seq<JobId>) { forall i, j :: 0 <= i < j < |q| ==> q[i] != q[j] }

  lemma DropMore(s: Pool, s': Pool, n: nat)
    requires Known(s, s.queue) && Unrepeated(s.queue) && s.queue != [] && s.jobs[s.queue[|s.queue| - 1]].after
    requires DroppedFrom(DropOne(s), s', n)
    ensures DroppedFrom(s, s', n)
  {
    var last, s1 := |s.queue| - 1, DropOne(s);
    assert s1.queue == s.queue[..last];
    forall i | n <= i < |s.queue| && s.queue[i] in s.jobs ensures Dropped(s.jobs[s.queue[i]], s'.jobs[s.queue[i]]) {
      if i < last { assert s1.queue[i] == s.queue[i]; }
    }
    forall j | j in s.jobs && (forall i :: n <= i < |s.queue| ==> s.queue[i] != j) ensures s'.jobs[j] == s.jobs[j] {
      assert forall i :: n <= i < last ==> s1.queue[i] == s.queue[i];
    }
  }

  /** What becomes of the queue: all of it has gone, or all up to the last job without an after
      callback, at which the teardown ends. */
  ghost predicate Ended(s: Pool, s': Pool, n: nat) {
    && n <= |s.queue| && Known(s, s.queue)
    && s' == s.(jobs := s'.jobs, queue := s'.queue, cleared := s'.cleared, lost := s'.lost)
    && (if n == 0 then s'.queue == [] && s'.cleared && s'.lost == s.lost
        else
          && !s.jobs[s.queue[n - 1]].after && s'.lost == Some(s.queue[n - 1])
          && s'.queue == s.queue[..n - 1] && s'.cleared == s.cleared)
  }

  lemma EndMore(s: Pool, s': Pool, n: nat)
    requires Known(s, s.queue) && Unrepeated(s.queue) && s.queue != [] && Ended(DropOne(s), s', n)
    ensures Ended(s, s', n)
  {
    assert DropOne(s).queue == s.queue[..|s.queue| - 1];
    if n > 0 { assert DropOne(s).queue[..n - 1] == s.queue[..n - 1]; }
  }

  /** The teardown drops and calls back every job of the queue, from the last one; or those behind the
      last job that has no after callback, at which it ends. */
  lemma {:induction false} ClearDoes(s: Pool) returns (n: nat)
    requires Known(s, s.queue) && Unrepeated(s.queue) && s.lost.None?
    ensures DroppedFrom(s, ClearStep(s), n) && Ended(s, ClearStep(s), n)
    decreases |s.queue|
  {
    if s.queue != [] && s.jobs[s.queue[|s.queue| - 1]].after {
      var s' := ClearStep(DropOne(s));
      assert ClearStep(s) == s';
      n := ClearDoes(DropOne(s));
      DropMore(s, s', n);
      EndMore(s, s', n);
    } else {
      n := |s.queue|;
      EndsAtOnce(s);
    }
  }

  lemma EndsAtOnce(s: Pool)
    requires Known(s, s.queue) && s.lost.None? && (s.queue == [] || !s.jobs[s.queue[|s.queue| - 1]].after)
    ensures DroppedFrom(s, ClearStep(s), |s.queue|) && Ended(s, ClearStep(s), |s.queue|)
  {
  }

  // ----- first come, first served

  /** `i` has left the queue, or is still ahead of `j` if that waits. */
  ghost predicate Served(s: Pool, i: JobId, j: JobId) {
    && i in s.jobs && j in s.jobs
    && (i in s.queue && j in s.queue ==> exists a, b :: 0 <= a < b < |s.queue| && s.queue[a] == i && s.queue[b] == j)
    && (i in s.queue && j !in s.queue ==> Torn(s))
  }

  /** The teardown has begun to drop jobs. */
  ghost predicate Torn(s: Pool) { s.cleared || s.lost.Some? }

  lemma QueueUnrepeated(s: Pool)
    requires PoolOk(s)
    ensures Known(s, s.queue) && Unrepeated(s.queue)
  {
    QueueKnown(s);
    forall i, j | 0 <= i < j < |s.queue| ensures s.queue[i] != s.queue[j] {
      assert JobOk(s, s.queue[i]) && At(s, s.queue[i], Queued(i));
      assert s.queue[i] == s.queue[j] ==> At(s, s.queue[i], Queued(j));
    }
  }

  lemma StepServes(s: Pool, e: Event, i: JobId, j: JobId)
    requires PoolOk(s) && Enabled(s, e) && Served(s, i, j) && i != j
    ensures Served(Apply(s, e), i, j)
  {
    QueueUnrepeated(s);
    match e
    case Take(t) => if s.queue != [] { TakeServes(s, t, i, j); }
    case Clear => ClearServes(s, i, j);
    case Push(v, after) =>
      if |s.queue| <= LIMIT {
        assert forall x :: x in s.queue + [v] <==> x in s.queue || x == v;
        if i in s.queue && j in s.queue {
          var a, b :| 0 <= a < b < |s.queue| && s.queue[a] == i && s.queue[b] == j;
          assert (s.queue + [v])[a] == i && (s.queue + [v])[b] == j;
        }
      }
    case _ => assert Apply(s, e).queue == s.queue;
  }

  lemma TakeServes(s: Pool, t: ThreadId, i: JobId, j: JobId)
    requires Enabled(s, Take(t)) && s.queue != [] && Unrepeated(s.queue) && Served(s, i, j) && i != j
    ensures Served(Apply(s, Take(t)), i, j)
  {
    var q := s.queue[1..];
    assert forall x :: x in s.queue <==> x == s.queue[0] || x in q;
    if i in q {
      if j in s.queue {
        var a, b :| 0 <= a < b < |s.queue| && s.queue[a] == i && s.queue[b] == j;
        assert s.queue[0] != i;
        assert q[a - 1] == i && q[b - 1] == j;
      }
    }
  }

  lemma ClearServes(s: Pool, i: JobId, j: JobId)
    requires PoolOk(s) && Enabled(s, Clear) && Served(s, i, j)
    ensures Served(Apply(s, Clear), i, j)
  {
    QueueUnrepeated(s);
    var s' := ClearStep(s);
    var n := ClearDoes(s);
    if n > 0 && i in s'.queue && j in s'.queue {
      var a, b :| 0 <= a < b < |s.queue| && s.queue[a] == i && s.queue[b] == j;
      var y :| 0 <= y < n - 1 && s'.queue[y] == j;
      assert y == b && s'.queue[a] == i;
    }
  }

  lemma {:induction false} RunServes(s: Pool, es: seq<Event>, i: JobId, j: JobId)
    requires PoolOk(s) && IsRun(s, es) && Served(s, i, j) && i != j
    ensures Served(Final(s, es), i, j)
    decreases |es|
  {
    if es != [] {
      StepKeeps(s, es[0]);
      StepServes(s, es[0], i, j);
      RunServes(Apply(s, es[0]), es[1..], i, j);
    }
  }

  /** Until the teardown, a job leaves the queue only after every job that was accepted before it. */
  lemma FirstComeFirstServed(threads: nat, es: seq<Event>, fs: seq<Event>, i: JobId, j: JobId, after: bool)
    requires IsRun(Init(threads), es) && i in Final(Init(threads), es).jobs
    requires var s := Final(Init(threads), es);
      Enabled(s, Push(j, after)) && |s.queue| <= 64 && IsRun(Apply(s, Push(j, after)), fs)
    ensures var z := Final(Apply(Final(Init(threads), es), Push(j, after)), fs);
      !z.cleared && z.lost.None? && j !in z.queue ==> i !in z.queue
  {
    Reached(threads, es);
    var s := Final(Init(threads), es);
    var s' := Apply(s, Push(j, after));
    StepKeeps(s, Push(j, after));
    if i in s'.queue {
      var a :| 0 <= a < |s'.queue| && s'.queue[a] == i;
      assert s'.queue[|s.queue|] == j && a < |s.queue|;
    }
    assert j in s'.queue by { assert s'.queue[|s.queue|] == j; }
    RunServes(s', fs, i, j);
  }

  // ----- the code of the steps

  const PARAM: nat := 24   // sizeof(thread_param_t)

  ghost predicate Params(q: seq<Entry<JobId>>) { forall i :: 0 <= i < |q| ==> q[i].len == PARAM }

  ghost function Ids(q: seq<Entry<JobId>>): (r: seq<JobId>)
    ensures |r| == |q| && forall i :: 0 <= i < |q| ==> r[i] == q[i].data
  {
    seq(|q|, i requires 0 <= i < |q| => q[i].data)
  }

  lemma IdsAppend(q: seq<Entry<JobId>>, j: JobId)
    requires Params(q)
    ensures Ids(q + [Entry(j, PARAM)]) == Ids(q) + [j] && Params(q + [Entry(j, PARAM)])
  {
  }

  lemma IdsTail(q: seq<Entry<JobId>>)
    requires Params(q) && q != []
    ensures Ids(q[1..]) == Ids(q)[1..] && Params(q[1..])
  {
  }

  class Threadpool {
    const queue: EasyQueue<JobId>
    var jobs: map<JobId, Job>
    var workers: seq<Pc>
    var exit: bool
    var lost: Option<JobId>
    ghost var cleared: bool
    ghost var late: set<JobId>

    ghost predicate Held()
      reads this, queue, queue.chain
    {
      queue.Valid() && Params(queue.Contents())
    }

    ghost function State(): Pool
      requires Held()
      reads this, queue, queue.chain
    {
      Pool(jobs, Ids(queue.Contents()), workers, exit, cleared, late, lost)
    }

    ghost predicate Valid()
      reads this, queue, queue.chain
    {
      Held() && PoolOk(State())
    }

    /** threadpool_init */
    constructor (threads: nat)
      ensures Valid() && State() == Init(threads) && fresh(queue)
    {
      queue := new EasyQueue<JobId>();
      jobs, workers, exit, cleared, late, lost := map[], seq(threads, i => Top), false, false, {}, None;
      new;
      assert workers == Init(threads).workers;
      assert forall j, q :: !At(Init(threads), j, q);
    }

    /** threadpool_push_work */
    method PushWork(j: JobId, after: bool) returns (ret: int)
      requires Valid() && Enabled(State(), Push(j, after))
      modifies this, queue, queue.tail
      ensures Valid() && State() == Apply(old(State()), Push(j, after))
      ensures ret == if |old(State()).queue| > 64 then -1 else 0
    {
      StepKeeps(State(), Push(j, after));
      var n := queue.Size();
      if n > LIMIT { return -1; }
      Enqueue(j, after);
      return 0;
    }

    method Enqueue(j: JobId, after: bool)
      requires Held() && |queue.Contents()| <= LIMIT
      modifies this`jobs, this`late, queue, queue.tail
      ensures Held() && State() == PushStep(old(State()), j, after)
    {
      IdsAppend(queue.Contents(), j);
      queue.Push(j, PARAM);
      jobs := jobs[j := Job(after, 0, 0, 0)];
      if cleared { late := late + {j}; }
    }

    /** The locked region of thread_func. */
    method TakeWork(t: ThreadId)
      requires Valid() && Enabled(State(), Take(t))
      modifies this, queue, queue.chain
      ensures Valid() && State() == Apply(old(State()), Take(t))
    {
      StepKeeps(State(), Take(t));
      var ret, j := Dequeue();
      workers := workers[t := if ret == -1 then Top else Got(j)];
    }

    method Dequeue() returns (ret: int, j: JobId)
      requires Held()
      modifies queue, queue.chain
      ensures Held() && ret == if old(State()).queue == [] then -1 else 0
      ensures ret == 0 ==> j == old(State()).queue[0] && State() == old(State()).(queue := old(State()).queue[1..])
      ensures ret != 0 ==> State() == old(State())
    {
      if queue.Contents() != [] { IdsTail(queue.Contents()); }
      var element, len;
      ret, element, len := queue.Pop(true, PARAM);
      j := if element.Some? then element.value else 0;
    }

    /** The semaphore posts and the locked region of _threadpool_cancel_all. */
    method CancelAll()
      requires Valid() && Enabled(State(), PostExit)
      modifies this, queue, queue.chain
      ensures Valid() && State() == Cancelled(old(State()))
    {
      ghost var s := Apply(State(), PostExit);
      StepKeeps(State(), PostExit);
      QueueKnown(s);
      StepKeeps(s, Clear);
      exit := true;
      Teardown();
    }

    /** easy_queue_clear with queue_free_func. */
    method Teardown()
      requires Held() && Known(State(), State().queue) && lost.None?
      modifies this`jobs, this`lost, this`cleared, queue, queue.chain
      ensures Held() && State() == ClearStep(old(State()))
    {
      ghost var s := State();
      while queue.tail != queue.head
        invariant Held() && queue.chain <= old(queue.chain) && lost.None?
        invariant Known(State(), State().queue) && ClearStep(State()) == ClearStep(s)
        decreases queue.size
      {
        var crash := DropLast();
        if crash { return; }
      }
      assert State().queue == [];
      cleared := true;
    }

    /** One round: the last block leaves the queue and its handler is called. */
    method DropLast() returns (crash: bool)
      requires Held() && queue.tail != queue.head && Known(State(), State().queue) && lost.None?
      modifies this`jobs, this`lost, queue, queue.chain
      ensures Held() && old(State()).queue != [] && queue.chain <= old(queue.chain)
      ensures queue.size < old(queue.size)
      ensures var s := old(State());
        && crash == !s.jobs[s.queue[|s.queue| - 1]].after
        && State() == if crash then LoseOne(s) else DropOne(s)
    {
      var j := PopLast();
      crash := !jobs[j].after;
      if crash { lost := Some(j); } else { jobs := jobs[j := Drop(jobs[j])]; }
    }

    method PopLast() returns (j: JobId)
      requires Held() && queue.tail != queue.head
      modifies queue, queue.chain
      ensures Held() && old(State()).queue != [] && queue.chain <= old(queue.chain) && queue.size < old(queue.size)
      ensures var q := old(State()).queue;
        j == q[|q| - 1] && State() == old(State()).(queue := q[..|q| - 1])
    {
      ghost var q := Ids(queue.Contents());
      var e := queue.DropTail();
      j := e.data;
      assert Ids(queue.Contents()) == q[..|q| - 1];
    }
  }

  /** The teardown of the queue. */
  ghost function Cancelled(s: Pool): Pool
    requires PoolOk(s) && Enabled(s, PostExit)
  {
    StepKeeps(s, PostExit);
    QueueKnown(Apply(s, PostExit));
    Apply(Apply(s, PostExit), Clear)
  }

  lemma QueueKnown(s: Pool)
    requires PoolOk(s)
    ensures Known(s, s.queue)
  {
    forall i | 0 <= i < |s.queue| ensures s.queue[i] in s.jobs {
      assert JobOk(s, s.queue[i]);
      assert At(s, s.queue[i], Queued(i));
    }
  }
}
