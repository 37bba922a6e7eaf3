/** Timers of the event loop: third/libuv/src/unix/timer.c.

    The ghost map `st` records the fields of all handles of the loop; start, stop and the run
    over due timers are functions on it, carried out by the methods of `Loop`. */
module LoopTimers {
  import opened Common
  import opened HeapOrder

  import opened TimerHeap

  const U64_MAX: nat := 0xFFFF_FFFF_FFFF_FFFF
  const INT_MAX: nat := 0x7FFF_FFFF
  const EINVAL: int := -22

  /** When a timer set at `time` is due: the sum, or the largest 64-bit value if it overflows. */
  function DueAt(time: nat, timeout: nat): nat {
    if time + timeout <= U64_MAX then time + timeout else U64_MAX
  }

  /** The overflow test of uv_timer_start. */
  function Clamp(time: nat, timeout: nat): nat {
    var sum := (time + timeout) % (U64_MAX + 1);
    if sum < timeout then U64_MAX else sum
  }

  lemma ClampIsDueAt(time: nat, timeout: nat)
    requires time <= U64_MAX && timeout <= U64_MAX
    ensures Clamp(time, timeout) == DueAt(time, timeout)
    ensures var sum := time + timeout;
      Clamp(time, timeout) == if sum < 0x1_0000_0000_0000_0000 then sum else 0xFFFF_FFFF_FFFF_FFFF
  {
  }

  /** A repeating timer is re-armed strictly later unless the clock has reached its end. */
  lemma RearmedLater(time: nat, repeat: nat)
    requires time <= U64_MAX && repeat > 0
    ensures DueAt(time, repeat) > time <==> time < U64_MAX
  {
  }

  // ----- handles as values

  datatype Handle = Handle(key: Key, repeat: nat, active: bool, callback: bool)

  type Handles = map<Timer, Handle>

  ghost predicate HandleOk(h: Handle, counter: nat) {
    && (h.active ==> h.callback && h.key.id < counter)
    && h.repeat <= U64_MAX
  }

  /** Start ids of active timers are distinct. */
  ghost predicate Good(st: Handles, counter: nat) {
    && (forall t :: t in st ==> HandleOk(st[t], counter))
    && (forall t, u :: t in st && u in st && t != u && st[t].active && st[u].active ==> st[t].key.id != st[u].key.id)
  }

  ghost function Active(st: Handles): set<Timer> {
    set t | t in st && st[t].active
  }

  ghost function Stopped(st: Handles, t: Timer): Handles
    requires t in st
  {
    st[t := st[t].(active := false)]
  }

  ghost function Started(st: Handles, t: Timer, due: nat, repeat: nat, id: nat): Handles {
    st[t := Handle(Key(due, id), repeat, true, true)]
  }

  lemma StartedAgain(st: Handles, t: Timer, due: nat, repeat: nat, id: nat)
    requires t in st
    ensures Started(Stopped(st, t), t, due, repeat, id) == Started(st, t, due, repeat, id)
  {
  }

  lemma StoppedGood(st: Handles, t: Timer, counter: nat)
    requires t in st && Good(st, counter)
    ensures Good(Stopped(st, t), counter) && Active(Stopped(st, t)) == Active(st) - {t}
  {
  }

  lemma StartedGood(st: Handles, t: Timer, due: nat, repeat: nat, counter: nat)
    requires t in st && Good(st, counter) && repeat <= U64_MAX
    ensures Good(Started(st, t, due, repeat, counter), counter + 1)
    ensures Active(Started(st, t, due, repeat, counter)) == Active(st) + {t}
  {
  }

  // ----- one run over the due timers

  ghost predicate IsDue(h: Handle, time: nat) { h.active && h.key.timeout <= time }

  ghost function DueSet(st: Handles, time: nat): set<Timer> {
    set t | t in st && IsDue(st[t], time)
  }

  /** What firing leaves behind: a one-shot timer stops, a repeating one is due again later. */
  ghost predicate FiredOk(before: Handle, after: Handle, time: nat) {
    if before.repeat == 0 then after == before.(active := false)
    else after == Handle(Key(DueAt(time, before.repeat), after.key.id), before.repeat, true, true)
  }

  ghost predicate InOrder(st: Handles, fired: seq<Timer>) {
    && (forall i :: 0 <= i < |fired| ==> fired[i] in st)
    && (forall i, j :: 0 <= i < j < |fired| ==> Less(st[fired[i]].key, st[fired[j]].key))
  }

  /** Stopping and, for a repeating timer, starting again is firing. */
  lemma FiredAgain(st: Handles, t: Timer, time: nat, id: nat)
    requires t in st && st[t].active && st[t].callback
    ensures var h, st1 := st[t], Stopped(st, t);
      var st2 := if h.repeat > 0 then Started(st1, t, DueAt(time, h.repeat), h.repeat, id) else st1;
      t in st2 && st2 == st[t := st2[t]] && FiredOk(h, st2[t], time)
  {
  }

  /** From `st0`, the run at `time` has fired the timers `fired`, ahead of all others. */
  ghost predicate Ran(st0: Handles, st: Handles, time: nat, fired: seq<Timer>) {
    && st.Keys == st0.Keys
    && InOrder(st0, fired)
    && (forall t :: t in fired ==> t in st0 && IsDue(st0[t], time) && FiredOk(st0[t], st[t], time))
    && (forall t :: t in st && t !in fired ==> st[t] == st0[t])
    && (forall t, u :: t in fired && u in st && u !in fired && st0[u].active ==> Less(st0[t].key, st0[u].key))
  }

  /** No due timer is re-armed for the same instant. */
  ghost predicate RunsOut(st: Handles, time: nat) {
    forall t :: t in st && IsDue(st[t], time) && st[t].repeat > 0 ==> DueAt(time, st[t].repeat) > time
  }

  /** The run over the due timers ends if and only if the clock is below its maximum or no due timer
      repeats. */
  lemma RunsOutExactly(st: Handles, time: nat)
    requires time <= U64_MAX
    ensures RunsOut(st, time) <==> time < U64_MAX || forall t :: t in st && IsDue(st[t], time) ==> st[t].repeat == 0
  {
    forall t | t in st && st[t].repeat > 0 ensures DueAt(time, st[t].repeat) > time <==> time < U64_MAX {
      RearmedLater(time, st[t].repeat);
    }
  }

  /** Rounds of uv__run_timers from `sts[0]`: round i fires a due timer. */
  ghost predicate Rounds(sts: seq<Handles>, time: nat, fired: seq<Timer>) {
    && |sts| == |fired| + 1
    && forall i :: 0 <= i < |fired| ==>
      && fired[i] in sts[i] && IsDue(sts[i][fired[i]], time) && fired[i] in sts[i + 1]
      && sts[i + 1] == sts[i][fired[i] := sts[i + 1][fired[i]]] && FiredOk(sts[i][fired[i]], sts[i + 1][fired[i]], time)
  }

  /** Otherwise it never ends: after any number of rounds a due timer is left. */
  lemma {:induction false} NeverRunsOut(sts: seq<Handles>, time: nat, fired: seq<Timer>, k: nat) returns (t: Timer)
    requires Rounds(sts, time, fired) && k <= |fired| && time <= U64_MAX && !RunsOut(sts[0], time)
    ensures t in DueSet(sts[k], time) && t in sts[k] && sts[k][t].repeat > 0 && time == U64_MAX
    decreases k
  {
    RunsOutExactly(sts[0], time);
    if k == 0 {
      t :| t in sts[0] && IsDue(sts[0][t], time) && sts[0][t].repeat > 0;
    } else {
      t := NeverRunsOut(sts, time, fired, k - 1);
      RearmedLater(time, sts[k - 1][t].repeat);
    }
  }

  /** Firing the least active timer continues the run. */
  lemma RanStep(st0: Handles, st: Handles, time: nat, fired: seq<Timer>, h: Timer, st': Handles, counter: nat)
    requires Ran(st0, st, time, fired) && h in st && IsDue(st[h], time) && Good(st, counter)
    requires RunsOut(st0, time)
    requires forall u :: u in st && st[u].active ==> !Less(st[u].key, st[h].key)
    requires h in st' && st' == st[h := st'[h]] && FiredOk(st[h], st'[h], time)
    ensures h !in fired && Ran(st0, st', time, fired + [h]) && !IsDue(st'[h], time)
  {
    assert h !in fired;
    var fired' := fired + [h];
    forall i, j | 0 <= i < j < |fired'| ensures Less(st0[fired'[i]].key, st0[fired'[j]].key) {
      if j == |fired| { assert fired'[i] in fired && st0[h].active; }
    }
    forall t, u | t in fired' && u in st' && u !in fired' && st0[u].active ensures Less(st0[t].key, st0[u].key) {
      if t == h { assert st[u].active && st[u] == st0[u]; }
    }
  }

  /** When no active timer is due, exactly the timers due at the start have been fired. */
  lemma RanAll(st0: Handles, st: Handles, time: nat, fired: seq<Timer>)
    requires Ran(st0, st, time, fired)
    requires forall t :: t in st && st[t].active ==> st[t].key.timeout > time
    ensures forall t :: t in st0 ==> (t in fired <==> IsDue(st0[t], time))
  {
  }

  /** The order of firing and what it leaves behind, field by field. */
  lemma RanMeans(st0: Handles, st: Handles, time: nat, fired: seq<Timer>)
    requires Ran(st0, st, time, fired)
    ensures forall i, j :: 0 <= i < j < |fired| && fired[i] in st0 && fired[j] in st0 ==>
      var a, b := st0[fired[i]].key, st0[fired[j]].key;
      a.timeout < b.timeout || (a.timeout == b.timeout && a.id < b.id)
    ensures forall t :: t in fired && t in st0 && t in st && st0[t].callback ==>
      var h := st0[t];
      if h.repeat == 0 then st[t] == h.(active := false)
      else st[t] == h.(key := st[t].key) && st[t].key.timeout == DueAt(time, h.repeat)
  {
    forall t | t in fired && t in st0 && t in st ensures IsDue(st0[t], time) && FiredOk(st0[t], st[t], time) { }
  }

  lemma DueShrinks(st: Handles, st': Handles, h: Timer, time: nat)
    requires h in st && IsDue(st[h], time) && h in st' && st' == st[h := st'[h]] && !IsDue(st'[h], time)
    ensures |DueSet(st', time)| < |DueSet(st, time)|
  {
    assert DueSet(st', time) == DueSet(st, time) - {h};
  }

  lemma SameActive(s: Handles, s': Handles, t: Timer)
    requires t in s && t in s' && s' == s[t := s'[t]] && s[t].active == s'[t].active
    ensures Active(s') == Active(s)
  {
  }

  class Loop {
    var time: nat
    var counter: nat
    const heap: Heap
    ghost var st: Handles

    ghost predicate TiedTo(t: Timer)
      requires t in st
      reads this`st, t`timeout, t`startId, t`repeat, t`active, t`hasCallback
    {
      Handle(KeyOf(t), t.repeat, t.active, t.hasCallback) == st[t]
    }

    ghost predicate Tied()
      reads this, st.Keys`timeout, st.Keys`startId, st.Keys`repeat, st.Keys`active, st.Keys`hasCallback
    {
      forall t :: t in st ==> TiedTo(t)
    }

    ghost predicate HeapOk()
      reads this, heap, heap.m.links.Keys`left, heap.m.links.Keys`right, heap.m.links.Keys`parent
      reads heap.slots`timeout, heap.slots`startId
    {
      var active := Active(st);
      heap.Valid() && heap.m.links.Keys == active
    }

    ghost predicate Valid()
      reads this, heap, st.Keys`timeout, st.Keys`startId, st.Keys`repeat, st.Keys`active, st.Keys`hasCallback
      reads heap.m.links.Keys`left, heap.m.links.Keys`right, heap.m.links.Keys`parent
      reads heap.slots`timeout, heap.slots`startId
    {
      var handles := st;
      time <= U64_MAX && Tied() && Good(handles, counter) && HeapOk()
    }

    constructor (now: nat)
      requires now <= U64_MAX
      ensures Valid() && st == map[] && time == now && fresh(heap)
    {
      heap := new Heap();
      time, counter, st := now, 0, map[];
    }

    method Leave(handle: Timer)
      requires Valid() && handle in st && st[handle].active && heap.nelts < 0x1_0000_0000
      modifies this`st, heap, st.Keys`left, st.Keys`right, st.Keys`parent, handle`active
      ensures Valid() && st == Stopped(old(st), handle) && heap.nelts == old(heap.nelts) - 1
    {
      StoppedGood(st, handle, counter);
      TakeOut(handle);
      Mark(handle, false);
    }

    /** uv__handle_start and uv__handle_stop */
    method Mark(handle: Timer, active: bool)
      requires Tied() && handle in st
      modifies this`st, handle`active
      ensures Tied() && st == old(st)[handle := old(st)[handle].(active := active)]
    {
      handle.active := active;
      st := st[handle := st[handle].(active := active)];
    }

    method TakeOut(handle: Timer)
      requires Tied() && HeapOk() && handle in st && st[handle].active && heap.nelts < 0x1_0000_0000
      modifies heap, st.Keys`left, st.Keys`right, st.Keys`parent
      ensures Tied() && heap.Valid() && heap.m.links.Keys == Active(st) - {handle} && heap.nelts == old(heap.nelts) - 1
    {
      heap.Remove(handle);
    }

    /** uv_timer_stop */
    method Stop(handle: Timer)
      requires Valid() && handle in st && heap.nelts < 0x1_0000_0000
      modifies this`st, heap, st.Keys`left, st.Keys`right, st.Keys`parent, handle`active
      ensures Valid() && st == old(st)[handle := old(st)[handle].(active := false)] && heap.nelts <= old(heap.nelts)
      ensures old(st)[handle].active ==> heap.nelts == old(heap.nelts) - 1
    {
      if !handle.active {
        return;
      }
      Leave(handle);
    }

    /** uv_timer_init */
    method Init(handle: Timer)
      requires Valid() && handle !in st
      modifies this`st, handle`active, handle`hasCallback, handle`repeat
      ensures Valid() && handle in st && st == old(st)[handle := st[handle]]
      ensures !st[handle].active && !st[handle].callback && st[handle].repeat == 0
    {
      handle.active, handle.hasCallback, handle.repeat := false, false, 0;
      st := st[handle := Handle(KeyOf(handle), 0, false, false)];
      assert Active(st) == Active(old(st));
    }

    /** The key of a timer outside the heap may change. */
    method SetKey(handle: Timer, due: nat, id: nat)
      requires heap.Valid() && handle !in heap.m.links
      modifies handle`timeout, handle`startId
      ensures heap.Valid() && KeyOf(handle) == Key(due, id)
    {
      ghost var ks := KeysOf(heap.slots);
      forall i | 0 <= i < |heap.slots| ensures heap.slots[i] != handle { heap.SlotKnown(heap.slots[i]); }
      handle.timeout := due;
      handle.startId := id;
      assert KeysOf(heap.slots) == ks;
    }

    method SetFields(handle: Timer, due: nat, repeat: nat, id: nat)
      requires Tied() && handle in st && !st[handle].active && handle !in heap.m.links && heap.Valid()
      modifies this`st, handle`timeout, handle`repeat, handle`startId, handle`hasCallback
      ensures Tied() && heap.Valid() && st == old(st)[handle := Handle(Key(due, id), repeat, false, true)]
    {
      SetKey(handle, due, id);
      SetRest(handle, repeat);
    }

    method SetRest(handle: Timer, repeat: nat)
      requires handle in st && !handle.active && forall t :: t in st && t != handle ==> TiedTo(t)
      modifies this`st, handle`repeat, handle`hasCallback
      ensures Tied() && st == old(st)[handle := Handle(KeyOf(handle), repeat, false, true)]
    {
      handle.hasCallback := true;
      handle.repeat := repeat;
      st := st[handle := Handle(KeyOf(handle), repeat, false, true)];
    }

    method PutIn(handle: Timer)
      requires Tied() && heap.Valid() && heap.m.links.Keys == Active(st) && handle in st && !st[handle].active
      requires heap.nelts < 0xFFFF_FFFF
      modifies heap, st.Keys`left, st.Keys`right, st.Keys`parent
      ensures Tied() && heap.Valid() && heap.m.links.Keys == Active(st) + {handle} && heap.nelts == old(heap.nelts) + 1
    {
      heap.Insert(handle);
    }

    /** uv_timer_start */
    method Start(handle: Timer, cb: bool, timeout: nat, repeat: nat) returns (err: int)
      requires Valid() && handle in st && heap.nelts < 0xFFFF_FFFF
      requires timeout <= U64_MAX && repeat <= U64_MAX
      modifies this`st, this`counter, heap, st.Keys`left, st.Keys`right, st.Keys`parent
      modifies handle`timeout, handle`repeat, handle`startId, handle`active, handle`hasCallback
      ensures Valid() && err == if cb then 0 else -22
      ensures st == if cb then old(st)[handle := Handle(Key(DueAt(time, timeout), old(counter)), repeat, true, true)]
        else old(st)
      ensures counter == if cb then old(counter) + 1 else old(counter)
      ensures heap.nelts <= old(heap.nelts) + 1
    {
      if !cb {
        return EINVAL;
      }
      StartedAgain(st, handle, DueAt(time, timeout), repeat, counter);
      if handle.active {
        Stop(handle);
      }
      Arm(handle, timeout, repeat);
      return 0;
    }

    method Arm(handle: Timer, timeout: nat, repeat: nat)
      requires Valid() && handle in st && !st[handle].active && heap.nelts < 0xFFFF_FFFF
      requires timeout <= U64_MAX && repeat <= U64_MAX
      modifies this`st, this`counter, heap, st.Keys`left, st.Keys`right, st.Keys`parent
      modifies handle`timeout, handle`repeat, handle`startId, handle`active, handle`hasCallback
      ensures Valid() && st == Started(old(st), handle, DueAt(time, timeout), repeat, old(counter))
      ensures counter == old(counter) + 1 && heap.nelts == old(heap.nelts) + 1
    {
      ClampIsDueAt(time, timeout);
      StartedGood(st, handle, DueAt(time, timeout), repeat, counter);
      var startId := counter;
      counter := counter + 1;
      Activate(handle, Clamp(time, timeout), repeat, startId);
    }

    method Activate(handle: Timer, due: nat, repeat: nat, id: nat)
      requires Tied() && HeapOk() && handle in st && !st[handle].active && heap.nelts < 0xFFFF_FFFF
      modifies this`st, heap, st.Keys`left, st.Keys`right, st.Keys`parent
      modifies handle`timeout, handle`repeat, handle`startId, handle`active, handle`hasCallback
      ensures Tied() && st == Started(old(st), handle, due, repeat, id)
      ensures heap.Valid() && heap.m.links.Keys == Active(old(st)) + {handle} && heap.nelts == old(heap.nelts) + 1
    {
      ghost var s := st;
      SetFields(handle, due, repeat, id);
      SameActive(s, st, handle);
      Join(handle);
    }

    method Join(handle: Timer)
      requires Tied() && heap.Valid() && heap.m.links.Keys == Active(st) && handle in st && !st[handle].active
      requires heap.nelts < 0xFFFF_FFFF
      modifies this`st, heap, st.Keys`left, st.Keys`right, st.Keys`parent, handle`active
      ensures Tied() && st == old(st)[handle := old(st)[handle].(active := true)]
      ensures heap.Valid() && heap.m.links.Keys == Active(old(st)) + {handle} && heap.nelts == old(heap.nelts) + 1
    {
      PutIn(handle);
      Mark(handle, true);
    }

    /** uv_timer_again */
    method Again(handle: Timer) returns (err: int)
      requires Valid() && handle in st && heap.nelts < 0xFFFF_FFFF
      modifies this`st, this`counter, heap, st.Keys`left, st.Keys`right, st.Keys`parent
      modifies handle`timeout, handle`repeat, handle`startId, handle`active, handle`hasCallback
      ensures Valid() && err == if old(st)[handle].callback then 0 else -22
      ensures var h := old(st)[handle];
        if h.callback && h.repeat > 0
        then st == old(st)[handle := Handle(Key(DueAt(time, h.repeat), old(counter)), h.repeat, true, true)] &&
          heap.nelts <= old(heap.nelts) + 1
        else st == old(st) && heap.nelts == old(heap.nelts)
    {
      if !handle.hasCallback {
        return EINVAL;
      }
      if handle.repeat > 0 {
        StartedAgain(st, handle, DueAt(time, handle.repeat), handle.repeat, counter);
        Stop(handle);
        err := Start(handle, true, handle.repeat, handle.repeat);
      }
      return 0;
    }

    /** uv__next_timeout: how long the loop may block. */
    method NextTimeout() returns (r: int)
      requires Valid()
      ensures (forall t :: t in st ==> !st[t].active) ==> r == -1
      ensures (exists t :: t in st && st[t].active) ==>
        exists t :: t in st && st[t].active &&
          (forall u :: u in st && st[u].active ==> st[t].key.timeout <= st[u].key.timeout) &&
          var due := st[t].key.timeout;
          r == if due <= time then 0 else if due - time > 0x7FFF_FFFF then 0x7FFF_FFFF else due - time
    {
      if heap.min == null {
        heap.EmptyKnown();
        assert forall t :: t in st && st[t].active ==> t in Active(st);
        return -1;
      }
      var handle: Timer := heap.min;
      LeastKnown();
      assert handle in st && st[handle].active;
      if handle.timeout <= time {
        return 0;
      }
      var diff := handle.timeout - time;
      if diff > INT_MAX {
        diff := INT_MAX;
      }
      return diff;
    }

    /** The heap's root is the first timer to be due. */
    lemma LeastKnown()
      requires Valid() && heap.min != null
      ensures heap.min in Active(st)
      ensures forall u :: u in st && st[u].active ==> !Less(st[u].key, st[heap.min].key)
    {
      heap.RootKnown();
      forall u | u in st && st[u].active ensures !Less(st[u].key, st[heap.min].key) {
        assert u in heap.m.links;
        heap.MinIsLeast(u);
      }
    }

    /** uv__run_timers, with callbacks that start or stop no timers. */
    method RunTimers() returns (fired: seq<Timer>)
      requires Valid() && heap.nelts < 0xFFFF_FFFF
      requires RunsOut(st, time)
      modifies this`st, this`counter, heap, st.Keys
      ensures Valid() && time == old(time) && st.Keys == old(st).Keys
      ensures forall t :: t in fired <==> t in old(st) && old(st)[t].active && old(st)[t].key.timeout <= time
      ensures forall i, j :: 0 <= i < j < |fired| && fired[i] in old(st) && fired[j] in old(st) ==>
        var a, b := old(st)[fired[i]].key, old(st)[fired[j]].key;
        a.timeout < b.timeout || (a.timeout == b.timeout && a.id < b.id)
      ensures forall t :: t in fired && t in old(st) && t in st ==>
        var h := old(st)[t];
        if h.repeat == 0 then st[t] == h.(active := false)
        else st[t] == h.(key := st[t].key) && st[t].key.timeout == DueAt(time, h.repeat)
      ensures forall t :: t in st && t !in fired ==> t in old(st) && st[t] == old(st)[t]
      ensures forall t :: t in st && st[t].active ==> st[t].key.timeout > time
    {
      ghost var st0 := st;
      fired := FireDue();
      RanMeans(st0, st, time, fired);
    }

    /** The loop of uv__run_timers. */
    method FireDue() returns (fired: seq<Timer>)
      requires Valid() && heap.nelts < 0xFFFF_FFFF && RunsOut(st, time)
      modifies this`st, this`counter, heap, st.Keys
      ensures Valid() && time == old(time) && Ran(old(st), st, time, fired)
      ensures forall t :: t in old(st) ==> (t in fired <==> IsDue(old(st)[t], time))
      ensures forall t :: t in st && st[t].active ==> st[t].key.timeout > time
    {
      fired := [];
      while true
        invariant Valid() && heap.nelts <= old(heap.nelts)
        invariant Ran(old(st), st, time, fired)
        decreases |DueSet(st, time)|
      {
        var handle := FirstDue();
        if handle == null {
          break;
        }
        ghost var s, c := st, counter;
        FireOne(handle);
        RanStep(old(st), s, time, fired, handle, st, c);
        DueShrinks(s, st, handle, time);
        fired := fired + [handle];
      }
      RanAll(old(st), st, time, fired);
    }

    /** The exit tests of uv__run_timers. */
    method FirstDue() returns (handle: Timer?)
      requires Valid()
      ensures handle != null ==> handle in st && IsDue(st[handle], time)
      ensures handle != null ==> forall u :: u in st && st[u].active ==> !Less(st[u].key, st[handle].key)
      ensures handle == null ==> forall u :: u in st && st[u].active ==> st[u].key.timeout > time
    {
      handle := heap.min;
      if handle == null {
        heap.EmptyKnown();
        assert forall u :: u in st && st[u].active ==> u in Active(st);
        return;
      }
      LeastKnown();
      if handle.timeout > time {
        handle := null;
      }
    }

    /** One round of uv__run_timers up to the callback. */
    method FireOne(handle: Timer)
      requires Valid() && handle in st && st[handle].active && heap.nelts < 0xFFFF_FFFF
      modifies this`st, this`counter, heap, st.Keys`left, st.Keys`right, st.Keys`parent
      modifies handle`timeout, handle`repeat, handle`startId, handle`active, handle`hasCallback
      ensures Valid() && handle in st && st == old(st)[handle := st[handle]] &&
        FiredOk(old(st)[handle], st[handle], time)
      ensures heap.nelts <= old(heap.nelts)
    {
      FiredAgain(st, handle, time, counter);
      Stop(handle);
      var err := Again(handle);
    }
  }
}
