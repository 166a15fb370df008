/**
 The lock that lets handlers run until it is stopped: any number of threads, each atomic
 operation a step, compare-and-exchange may fail spuriously.
 */
module ScopeRunner {

  /** Where a thread is: in continue_lock or stop before its next compare-and-exchange with the
      value it expects, or past the call. */
  datatype Pc = Trying(expected: int) | Locked | Refused | Stopping(awaited: int) | Stopped

  /** `count` is the atomic counter. */
  datatype State = State(count: int, threads: map<nat, Pc>)

  const INITIAL := State(0, map[])

  /** Enter: continue_lock reads the counter. TryLock, TryStop: one turn of the loop in
      continue_lock or stop. Leave: the lock is destroyed. */
  datatype Event =
    | Enter(t: nat)
    | TryLock(t: nat, spurious: bool)
    | Leave(t: nat)
    | EnterStop(t: nat)
    | TryStop(t: nat, spurious: bool)

  predicate Enabled(s: State, e: Event) {
    match e
    case Enter(t) => t !in s.threads
    case EnterStop(t) => t !in s.threads
    case TryLock(t, _) => t in s.threads && s.threads[t].Trying?
    case Leave(t) => t in s.threads && s.threads[t].Locked?
    case TryStop(t, _) => t in s.threads && s.threads[t].Stopping?
  }

  /** compare_exchange_weak: the new counter, the new expected value, and success. */
  function CompareExchange(count: int, expected: int, desired: int, spurious: bool): (int, int, bool) {
    if count == expected && !spurious then (desired, expected, true) else (count, count, false)
  }

  function Step(s: State, e: Event): State
    requires Enabled(s, e)
  {
    match e
    case Enter(t) => s.(threads := s.threads[t := Trying(s.count)])
    case TryLock(t, spurious) =>
      var expected := s.threads[t].expected;
      if expected < 0 then s.(threads := s.threads[t := Refused])
      else
        var (count, seen, ok) := CompareExchange(s.count, expected, expected + 1, spurious);
        State(count, s.threads[t := if ok then Locked else Trying(seen)])
    case Leave(t) => State(s.count - 1, s.threads - {t})
    case EnterStop(t) => s.(threads := s.threads[t := Stopping(0)])
    case TryStop(t, spurious) =>
      var (count, seen, ok) := CompareExchange(s.count, s.threads[t].awaited, -1, spurious);
      State(count, s.threads[t := if ok || seen < 0 then Stopped else Stopping(0)])
  }

  /** Events that are not enabled do nothing. */
  function Run(events: seq<Event>): State {
    if events == [] then INITIAL
    else
      var s, e := Run(events[..|events| - 1]), events[|events| - 1];
      if Enabled(s, e) then Step(s, e) else s
  }

  /** The live shared locks. */
  function Holders(s: State): set<nat> {
    set t | t in s.threads && s.threads[t].Locked?
  }

  predicate Inv(s: State) {
    && s.count >= -1
    && (s.count >= 0 ==> s.count == |Holders(s)|)
    && (s.count == -1 ==> Holders(s) == {})
    && forall t :: t in s.threads ==>
         && (s.threads[t].Trying? ==> s.threads[t].expected >= -1)
         && (s.threads[t].Stopping? ==> s.threads[t].awaited == 0)
         && (s.threads[t].Stopped? || s.threads[t].Refused? || s.threads[t] == Trying(-1) ==> s.count == -1)
  }

  lemma LeaveKeepsCount(s: State, t: nat)
    requires t in s.threads && s.threads[t].Locked?
    ensures Holders(Step(s, Leave(t))) == Holders(s) - {t} && |Holders(s) - {t}| == |Holders(s)| - 1
  {
  }

  lemma LockKeepsCount(s: State, t: nat)
    requires t in s.threads && !s.threads[t].Locked?
    ensures var u := s.(threads := s.threads[t := Locked]);
            Holders(u) == Holders(s) + {t} && |Holders(u)| == |Holders(s)| + 1
  {
  }

  lemma OtherKeepsHolders(s: State, t: nat, pc: Pc)
    requires t in s.threads ==> !s.threads[t].Locked?
    requires !pc.Locked?
    ensures Holders(s.(threads := s.threads[t := pc])) == Holders(s)
  {
  }

  lemma StepKeepsInv(s: State, e: Event)
    requires Inv(s) && Enabled(s, e)
    ensures Inv(Step(s, e))
  {
    var u := Step(s, e);
    if e.Leave? {
      LeaveKeepsCount(s, e.t);
    } else if u.threads[e.t].Locked? {
      LockKeepsCount(s, e.t);
    } else {
      OtherKeepsHolders(s, e.t, u.threads[e.t]);
    }
  }

  lemma {:induction false} RunKeepsInv(events: seq<Event>)
    ensures Inv(Run(events))
  {
    if events != [] {
      RunKeepsInv(events[..|events| - 1]);
      var s, e := Run(events[..|events| - 1]), events[|events| - 1];
      if Enabled(s, e) {
        StepKeepsInv(s, e);
      }
    }
  }

  /** Until it is stopped, the counter is the number of live locks; once some call of stop has
      returned, or some continue_lock has been refused, there is none. */
  lemma CountIsLiveLocks(events: seq<Event>, t: nat)
    ensures var s := Run(events);
            && (s.count == |Holders(s)| || (s.count == -1 && Holders(s) == {}))
            && (t in s.threads && (s.threads[t].Stopped? || s.threads[t].Refused?) ==> s.count == -1)
  {
    RunKeepsInv(events);
  }

  /** A step stops the runner exactly when it is a turn of stop that finds no live lock and does
      not fail spuriously. */
  lemma StopsIff(events: seq<Event>, e: Event)
    requires var s := Run(events); s.count != -1 && Enabled(s, e)
    ensures Step(Run(events), e).count == -1 <==> e.TryStop? && !e.spurious && Holders(Run(events)) == {}
  {
    RunKeepsInv(events);
    var s := Run(events);
    if e.Leave? {
      LeaveKeepsCount(s, e.t);
    }
  }

  lemma StoppedStep(s: State, e: Event)
    requires Inv(s) && Enabled(s, e) && s.count == -1
    ensures Step(s, e).count == -1
  {
    assert e.Leave? ==> e.t in Holders(s);
  }

  /** Stopping is final: whatever runs afterwards, with any number of further stoppers, the
      counter stays -1 and no thread holds a lock. */
  lemma {:induction false} StopIsFinal(before: seq<Event>, after: seq<Event>)
    requires Run(before).count == -1
    ensures Run(before + after).count == -1 && Holders(Run(before + after)) == {}
    decreases |after|
  {
    RunKeepsInv(before + after);
    if after == [] {
      assert before + after == before;
    } else {
      var shorter := after[..|after| - 1];
      var all := before + after;
      assert all[..|all| - 1] == before + shorter && all[|all| - 1] == after[|after| - 1];
      StopIsFinal(before, shorter);
      RunKeepsInv(before + shorter);
      if Enabled(Run(before + shorter), after[|after| - 1]) {
        StoppedStep(Run(before + shorter), after[|after| - 1]);
      }
    }
  }

  /** After a stop, a continue_lock that is still trying is refused in at most two turns. */
  lemma RefusedSoon(s: State, t: nat, first: bool, second: bool)
    requires Inv(s) && s.count == -1 && t in s.threads && s.threads[t].Trying?
    ensures var u := Step(s, TryLock(t, first));
            u.threads[t].Refused? || (u.threads[t].Trying? && Step(u, TryLock(t, second)).threads[t].Refused?)
  {
  }

  class Runner {
    var count: int
    ghost var threads: map<nat, Pc>
    ghost var events: seq<Event>

    constructor ()
      ensures Valid() && count == 0 && events == []
    {
      count, threads, events := 0, map[], [];
    }

    ghost predicate Valid()
      reads this
    {
      State(count, threads) == Run(events)
    }

    method CompareExchangeWeak(expected: int, desired: int, spurious: bool) returns (seen: int, ok: bool)
      modifies this`count
      ensures (count, seen, ok) == CompareExchange(old(count), expected, desired, spurious)
    {
      if count == expected && !spurious {
        count := desired;
        return expected, true;
      }
      return count, false;
    }

    ghost method Record(e: Event, was: int)
      requires State(was, threads) == Run(events) && Enabled(Run(events), e)
      requires count == Step(Run(events), e).count
      modifies this`threads, this`events
      ensures Valid() && events == old(events) + [e]
    {
      threads := Step(Run(events), e).threads;
      events := events + [e];
      assert events[..|events| - 1] == old(events);
    }

    /** `long expected = count;` */
    method EnterContinueLock(t: nat) returns (expected: int)
      requires Valid() && t !in threads
      modifies this
      ensures Valid() && events == old(events) + [Enter(t)] && expected == count == old(count)
    {
      expected := count;
      Record(Enter(t), count);
    }

    /** One turn of the loop: `granted` is None while the thread has to go on trying with `seen`. */
    method TurnOfContinueLock(t: nat, expected: int, spurious: bool) returns (seen: int, over: bool, granted: bool)
      requires Valid() && t in threads && threads[t] == Trying(expected)
      modifies this
      ensures Valid() && events == old(events) + [TryLock(t, spurious)]
      ensures over <==> expected < 0 || granted
      ensures granted <==> expected >= 0 && old(count) == expected && !spurious
      ensures !over ==> seen == count == old(count)
      ensures granted ==> t in Holders(State(count, threads))
    {
      ghost var was := count;
      seen, over, granted := expected, true, false;
      if expected >= 0 {
        seen, granted := CompareExchangeWeak(expected, expected + 1, spurious);
        over := granted;
      }
      Record(TryLock(t, spurious), was);
    }

    /** ~SharedLock: fetch_sub(1). */
    method Leave(t: nat)
      requires Valid() && t in threads && threads[t].Locked?
      modifies this
      ensures Valid() && events == old(events) + [Event.Leave(t)] && count == old(count) - 1 >= 0
    {
      ghost var was := count;
      RunKeepsInv(events);
      assert t in Holders(State(count, threads));
      count := count - 1;
      Record(Event.Leave(t), was);
    }

    method EnterStop(t: nat)
      requires Valid() && t !in threads
      modifies this
      ensures Valid() && events == old(events) + [Event.EnterStop(t)]
    {
      Record(Event.EnterStop(t), count);
    }

    /** One turn of the loop in stop; it returns only when the runner is stopped. */
    method TurnOfStop(t: nat, spurious: bool) returns (over: bool)
      requires Valid() && t in threads && threads[t].Stopping?
      modifies this
      ensures Valid() && events == old(events) + [TryStop(t, spurious)]
      ensures over ==> count == -1 && Holders(State(count, threads)) == {}
      ensures !over ==> count == old(count) >= 0
    {
      ghost var was := count;
      RunKeepsInv(events);
      var expected := 0;
      var ok: bool;
      expected, ok := CompareExchangeWeak(expected, -1, spurious);
      over := ok || expected < 0;
      Record(TryStop(t, spurious), was);
      RunKeepsInv(events);
    }
  }
}
