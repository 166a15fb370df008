/**
 The bounded queue between the threads: a monitor with two condition variables. Every call of
 Put or Get is a thread that is either awake (it will take the mutex and test its condition)
 or asleep on its condition variable.
 */
module FifoBuffer {

  const MAX_TASK_NUMBER := 5000

  /** `max_size_ > data_.size()` compares as 64-bit unsigned numbers. */
  function Capacity(maxSize: int): nat
    requires -0x8000_0000 <= maxSize < 0x8000_0000
  {
    if maxSize >= 0 then maxSize else maxSize + 0x1_0000_0000_0000_0000
  }

  /** `items` is the queue. `puts` and `gets` are history: what calls have put and got, in the
      order in which they held the mutex. */
  datatype Monitor<T> = Monitor(items: seq<T>, values: map<nat, T>,
    putAwake: set<nat>, putAsleep: set<nat>, getAwake: set<nat>, getAsleep: set<nat>,
    puts: seq<T>, gets: seq<T>)

  /** RunPut and RunGet: the thread has the mutex and tests its condition; `wake` is the sleeper
      that notify_one reaches, if there are any. */
  datatype Event<T> =
    | CallPut(thread: nat, value: T)
    | CallGet(thread: nat)
    | RunPut(thread: nat, wake: nat)
    | RunGet(thread: nat, wake: nat)
    | WakePut(thread: nat)
    | WakeGet(thread: nat)

  function Empty<T>(): Monitor<T> { Monitor([], map[], {}, {}, {}, {}, [], []) }

  function Pending<T>(m: Monitor<T>): set<nat> { m.putAwake + m.putAsleep + m.getAwake + m.getAsleep }

  predicate Enabled<T>(m: Monitor<T>, e: Event<T>) {
    match e
    case CallPut(t, _) => t !in Pending(m)
    case CallGet(t) => t !in Pending(m)
    case RunPut(t, w) => t in m.putAwake && t in m.values && (m.getAsleep != {} ==> w in m.getAsleep)
    case RunGet(t, w) => t in m.getAwake && (m.putAsleep != {} ==> w in m.putAsleep)
    case WakePut(t) => t in m.putAsleep
    case WakeGet(t) => t in m.getAsleep
  }

  /** cond_get_.notify_one() */
  function NotifyGet<T>(m: Monitor<T>, w: nat): Monitor<T> {
    if m.getAsleep == {} then m else m.(getAsleep := m.getAsleep - {w}, getAwake := m.getAwake + {w})
  }

  function NotifyPut<T>(m: Monitor<T>, w: nat): Monitor<T> {
    if m.putAsleep == {} then m else m.(putAsleep := m.putAsleep - {w}, putAwake := m.putAwake + {w})
  }

  function Step<T>(m: Monitor<T>, e: Event<T>, capacity: nat): Monitor<T>
    requires Enabled(m, e)
  {
    match e
    case CallPut(t, v) => m.(putAwake := m.putAwake + {t}, values := m.values[t := v])
    case CallGet(t) => m.(getAwake := m.getAwake + {t})
    case RunPut(t, w) =>
      var n := m.(putAwake := m.putAwake - {t});
      if capacity > |m.items| then
        NotifyGet(n.(items := m.items + [m.values[t]], puts := m.puts + [m.values[t]]), w)
      else n.(putAsleep := m.putAsleep + {t})
    case RunGet(t, w) =>
      var n := m.(getAwake := m.getAwake - {t});
      if m.items != [] then NotifyPut(n.(items := m.items[1..], gets := m.gets + [m.items[0]]), w)
      else n.(getAsleep := m.getAsleep + {t})
    case WakePut(t) => m.(putAsleep := m.putAsleep - {t}, putAwake := m.putAwake + {t})
    case WakeGet(t) => m.(getAsleep := m.getAsleep - {t}, getAwake := m.getAwake + {t})
  }

  /** Events that are not enabled do nothing. */
  function Run<T>(events: seq<Event<T>>, capacity: nat): Monitor<T> {
    if events == [] then Empty()
    else
      var m, e := Run(events[..|events| - 1], capacity), events[|events| - 1];
      if Enabled(m, e) then Step(m, e, capacity) else m
  }

  // ---------- invariants ----------

  /** A call is in one place, and a pending put has its value. */
  predicate Separate<T>(m: Monitor<T>) {
    && m.putAwake !! m.putAsleep !! m.getAwake !! m.getAsleep
    && m.putAwake + m.putAsleep <= m.values.Keys
  }

  /** While a getter sleeps there are no more items than getters that will look; while a putter
      sleeps there is no more room than putters that will look. */
  predicate NoLostWakeUp<T>(m: Monitor<T>, capacity: nat) {
    && (m.getAsleep != {} ==> |m.items| <= |m.getAwake|)
    && (m.putAsleep != {} ==> capacity - |m.items| <= |m.putAwake|)
  }

  ghost predicate Inv<T>(m: Monitor<T>, capacity: nat) {
    && Separate(m)
    && |m.items| <= capacity
    && m.puts == m.gets + m.items
    && NoLostWakeUp(m, capacity)
  }

  lemma CallKeepsInv<T>(m: Monitor<T>, e: Event<T>, capacity: nat)
    requires Inv(m, capacity) && Enabled(m, e) && (e.CallPut? || e.CallGet?)
    ensures Inv(Step(m, e, capacity), capacity)
  {
  }

  lemma WakeKeepsInv<T>(m: Monitor<T>, e: Event<T>, capacity: nat)
    requires Inv(m, capacity) && Enabled(m, e) && (e.WakePut? || e.WakeGet?)
    ensures Inv(Step(m, e, capacity), capacity)
  {
  }

  lemma RunKeepsSeparate<T>(m: Monitor<T>, e: Event<T>, capacity: nat)
    requires Separate(m) && Enabled(m, e) && (e.RunPut? || e.RunGet?)
    ensures Separate(Step(m, e, capacity))
  {
  }

  lemma PutKeepsCounts<T>(m: Monitor<T>, t: nat, w: nat, capacity: nat)
    requires Inv(m, capacity) && Enabled(m, RunPut(t, w)) && capacity > |m.items|
    ensures var n := Step(m, RunPut(t, w), capacity);
            |n.items| <= capacity && n.puts == n.gets + n.items && NoLostWakeUp(n, capacity)
  {
    var v := m.values[t];
    assert m.puts + [v] == m.gets + (m.items + [v]);
    assert |m.putAwake - {t}| == |m.putAwake| - 1;
    assert m.getAsleep != {} ==> |m.getAwake + {w}| == |m.getAwake| + 1;
  }

  lemma RunPutKeepsInv<T>(m: Monitor<T>, t: nat, w: nat, capacity: nat)
    requires Inv(m, capacity) && Enabled(m, RunPut(t, w))
    ensures Inv(Step(m, RunPut(t, w), capacity), capacity)
  {
    RunKeepsSeparate(m, RunPut(t, w), capacity);
    if capacity > |m.items| {
      PutKeepsCounts(m, t, w, capacity);
    }
  }

  lemma GetKeepsCounts<T>(m: Monitor<T>, t: nat, w: nat, capacity: nat)
    requires Inv(m, capacity) && Enabled(m, RunGet(t, w)) && m.items != []
    ensures var n := Step(m, RunGet(t, w), capacity);
            |n.items| <= capacity && n.puts == n.gets + n.items && NoLostWakeUp(n, capacity)
  {
    assert m.gets + m.items == m.gets + [m.items[0]] + m.items[1..];
    assert |m.getAwake - {t}| == |m.getAwake| - 1;
    assert m.putAsleep != {} ==> |m.putAwake + {w}| == |m.putAwake| + 1;
  }

  lemma RunGetKeepsInv<T>(m: Monitor<T>, t: nat, w: nat, capacity: nat)
    requires Inv(m, capacity) && Enabled(m, RunGet(t, w))
    ensures Inv(Step(m, RunGet(t, w), capacity), capacity)
  {
    RunKeepsSeparate(m, RunGet(t, w), capacity);
    if m.items != [] {
      GetKeepsCounts(m, t, w, capacity);
    }
  }

  /** The queue in every reachable state, with spurious wake-ups and any choice of the thread
      that is notified. */
  lemma {:induction false} RunKeepsInv<T>(events: seq<Event<T>>, capacity: nat)
    ensures Inv(Run(events, capacity), capacity)
  {
    if events != [] {
      var m, e := Run(events[..|events| - 1], capacity), events[|events| - 1];
      RunKeepsInv(events[..|events| - 1], capacity);
      if Enabled(m, e) {
        match e
        case CallPut(_, _) => CallKeepsInv(m, e, capacity);
        case CallGet(_) => CallKeepsInv(m, e, capacity);
        case RunPut(t, w) => RunPutKeepsInv(m, t, w, capacity);
        case RunGet(t, w) => RunGetKeepsInv(m, t, w, capacity);
        case WakePut(_) => WakeKeepsInv(m, e, capacity);
        case WakeGet(_) => WakeKeepsInv(m, e, capacity);
      }
    }
  }

  // ---------- what the invariants are for ----------

  datatype Operation<T> = Enqueue(value: T) | Dequeue | Stutter

  /** A bounded first-in-first-out queue. */
  ghost predicate Abstract<T>(items: seq<T>, op: Operation<T>, next: seq<T>, capacity: nat) {
    match op
    case Enqueue(v) => |items| < capacity && next == items + [v]
    case Dequeue => items != [] && items == [items[0]] + next
    case Stutter => next == items
  }

  function OperationOf<T>(m: Monitor<T>, e: Event<T>, capacity: nat): Operation<T>
    requires Enabled(m, e)
  {
    if e.RunPut? && |m.items| < capacity then Enqueue(m.values[e.thread])
    else if e.RunGet? && m.items != [] then Dequeue
    else Stutter
  }

  /** Refinement: every step of the monitor is one step of the bounded queue or none, and a
      Get returns its oldest item. */
  lemma Refines<T>(m: Monitor<T>, e: Event<T>, capacity: nat)
    requires Enabled(m, e)
    ensures var n := Step(m, e, capacity);
            && Abstract(m.items, OperationOf(m, e, capacity), n.items, capacity)
            && n.puts == m.puts + (if OperationOf(m, e, capacity).Enqueue? then [m.values[e.thread]] else [])
            && n.gets == m.gets + (if OperationOf(m, e, capacity).Dequeue? then [m.items[0]] else [])
  {
    assert m.puts + [] == m.puts && m.gets + [] == m.gets;
    if e.RunGet? && m.items != [] {
      assert m.items == [m.items[0]] + m.items[1..];
    }
  }

  /** Pending calls that could complete are never all asleep; when nobody is awake, the queue
      is empty and only getters wait, or it is full and only putters do, or both with no room
      at all. */
  lemma NobodyIsForgotten<T>(events: seq<Event<T>>, capacity: nat)
    ensures var m := Run(events, capacity);
            && (m.items != [] && m.getAsleep != {} ==> m.getAwake != {})
            && (|m.items| < capacity && m.putAsleep != {} ==> m.putAwake != {})
            && (m.putAwake + m.getAwake == {} && Pending(m) != {} ==>
                  || (m.items == [] && m.putAsleep == {})
                  || (|m.items| == capacity && m.getAsleep == {})
                  || capacity == 0)
  {
    RunKeepsInv(events, capacity);
  }

  /** First in, first out: what was got is a prefix of what was put, and the rest is queued. */
  lemma {:induction false} GetsFollowPuts<T>(events: seq<Event<T>>, capacity: nat)
    ensures var m := Run(events, capacity);
            m.gets <= m.puts && m.puts[|m.gets|..] == m.items && |m.items| <= capacity
  {
    RunKeepsInv(events, capacity);
  }

  ghost predicate Standoff<T>(m: Monitor<T>) {
    m.putAwake + m.getAwake == {} && m.putAsleep != {} && m.getAsleep != {}
  }

  ghost predicate EndsInStandoff(events: seq<Event<int>>, capacity: nat) { Standoff(Run(events, capacity)) }

  lemma RunSnoc<T>(events: seq<Event<T>>, e: Event<T>, capacity: nat)
    requires Enabled(Run(events, capacity), e)
    ensures Run(events + [e], capacity) == Step(Run(events, capacity), e, capacity)
  {
    assert (events + [e])[..|events|] == events;
  }

  /** Without any room, a putter and a getter wait for each other. */
  lemma StandoffExample() returns (events: seq<Event<int>>)
    ensures Standoff(Run(events, 0))
  {
    RunSnoc([], CallPut(1, 7), 0);
    events := [] + [CallPut(1, 7)];
    RunSnoc(events, CallGet(2), 0);
    events := events + [CallGet(2)];
    RunSnoc(events, RunPut(1, 0), 0);
    events := events + [RunPut(1, 0)];
    var m := Run(events, 0);
    assert m.putAwake == {} && m.putAsleep == {1} && m.getAwake == {2} && m.getAsleep == {} && m.items == [];
    RunSnoc(events, RunGet(2, 1), 0);
    events := events + [RunGet(2, 1)];
    assert m.getAwake - {2} == {};
  }

  /** A putter and a getter can sleep at the same time with nobody awake exactly when there is
      no room at all, that is for a maximum of 0; a negative maximum is no bound. */
  lemma StandoffIff(maxSize: int)
    requires -0x8000_0000 <= maxSize < 0x8000_0000
    ensures maxSize == 0 <==>
              exists events: seq<Event<int>> :: EndsInStandoff(events, Capacity(maxSize))
    ensures maxSize < 0 ==> Capacity(maxSize) > 0x7fff_ffff_ffff_ffff
  {
    if maxSize == 0 {
      var events := StandoffExample();
      assert EndsInStandoff(events, Capacity(maxSize));
    } else {
      forall events: seq<Event<int>> ensures !EndsInStandoff(events, Capacity(maxSize)) {
        RunKeepsInv(events, Capacity(maxSize));
      }
    }
  }

  // ---------- the class ----------

  class FIFOBuffer<T> {
    var maxSize: int
    var data: seq<T>
    /** The threads that wait on cond_put_ and on cond_get_, and those that are on their way. */
    ghost var monitor: Monitor<T>
    ghost var events: seq<Event<T>>

    constructor ()
      ensures Valid() && maxSize == MAX_TASK_NUMBER && data == [] && events == []
    {
      maxSize, data, monitor, events := MAX_TASK_NUMBER, [], Empty(), [];
    }

    ghost predicate Valid()
      reads this
    {
      && -0x8000_0000 <= maxSize < 0x8000_0000
      && monitor == Run(events, Capacity(maxSize))
      && data == monitor.items
    }

    /** Before the first call. */
    method SetMaxQueueSize(size: int)
      requires Valid() && events == [] && -0x8000_0000 <= size < 0x8000_0000
      modifies this
      ensures Valid() && maxSize == size && events == []
    {
      maxSize := size;
    }

    ghost method Record(e: Event<T>)
      requires -0x8000_0000 <= maxSize < 0x8000_0000
      requires monitor == Run(events, Capacity(maxSize)) && Enabled(monitor, e)
      modifies this`monitor, this`events
      ensures monitor == Step(old(monitor), e, Capacity(maxSize)) == Run(events, Capacity(maxSize))
      ensures events == old(events) + [e]
    {
      monitor := Step(monitor, e, Capacity(maxSize));
      events := events + [e];
      assert events[..|events| - 1] == old(events);
    }

    /** Put from the moment the thread holds the mutex until it releases it: it pushes and
        notifies a getter, or it waits on cond_put_. */
    method Put(thread: nat, value: T, wake: nat) returns (done: bool)
      requires Valid() && Enabled(monitor, RunPut(thread, wake)) && monitor.values[thread] == value
      modifies this
      ensures Valid() && maxSize == old(maxSize) && events == old(events) + [RunPut(thread, wake)]
      ensures done <==> |old(data)| < Capacity(maxSize)
      ensures data == old(data) + if done then [value] else []
    {
      Record(RunPut(thread, wake));
      done := Capacity(maxSize) > |data|;
      if done {
        data := data + [value];
      }
    }

    method Get(thread: nat, wake: nat) returns (done: bool, temp: seq<T>)
      requires Valid() && Enabled(monitor, RunGet(thread, wake))
      modifies this
      ensures Valid() && maxSize == old(maxSize) && events == old(events) + [RunGet(thread, wake)]
      ensures done <==> old(data) != []
      ensures |temp| == (if done then 1 else 0) && old(data) == temp + data
    {
      Record(RunGet(thread, wake));
      done, temp := data != [], [];
      if done {
        temp := [data[0]];
        data := data[1..];
      }
    }
  }
}
