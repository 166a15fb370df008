/**
 The interleaved rendezvous under the real lock: sessions acquire and release a leased key with
 their tokens on a server with a clock. Whoever writes before its deadline makes the leases of
 the interleaved rendezvous last.
 */
module TimedRendezvous {
  import opened Wrappers
  import opened TraceResult
  import opened Rendezvous
  import LeaseLock
  import LockedRendezvous
  import Serialisation

  type System = LockedRendezvous.System
  type Pc = LockedRendezvous.Pc
  type Steps = seq<LockedRendezvous.Event>

  datatype Timed = Timed(world: LeaseLock.World, stored: Option<Stored>, out: seq<Continued>, pcs: seq<Pc>)

  /** `Act` is the next step of a session that has the lock, or had it. */
  datatype Event = Acquire(session: nat, lease: int, lost: bool) | Act(session: nat) | Pass(time: nat)

  function Begin(n: nat): Timed {
    Timed(LeaseLock.INITIAL, None, [], LockedRendezvous.Begin(n).pcs)
  }

  /** The steps that have nothing to do with the lock. */
  function Inner(arrivals: seq<Arrival>, t: Timed, i: nat): Timed
    requires |t.pcs| == |arrivals|
  {
    var s := LockedRendezvous.Step(arrivals, LockedRendezvous.System(None, t.stored, t.out, t.pcs), LockedRendezvous.Run(i));
    t.(stored := s.stored, out := s.out, pcs := s.pcs)
  }

  function Step(uids: seq<string>, arrivals: seq<Arrival>, t: Timed, e: Event): (t': Timed)
    requires |t.pcs| == |arrivals| == |uids|
    ensures |t'.pcs| == |arrivals|
  {
    match e
    case Pass(time) => t.(world := LeaseLock.Step(uids, t.world, LeaseLock.Tick(time)))
    case Acquire(i, lease, lost) =>
      if i >= |uids| || !t.pcs[i].Start? then t
      else
        var w := LeaseLock.Step(uids, t.world, LeaseLock.Acquire(i, lease, lost));
        t.(world := w, pcs := if i in w.granted then t.pcs[i := LockedRendezvous.Locked] else t.pcs)
    case Act(i) =>
      if i >= |uids| || t.pcs[i].Start? then t
      else if t.pcs[i].Written? then
        t.(world := LeaseLock.Step(uids, t.world, LeaseLock.Release(i)),
           pcs := t.pcs[i := LockedRendezvous.Unlocked(t.pcs[i].wait, t.pcs[i].read)])
      else Inner(arrivals, t, i)
  }

  function Run(uids: seq<string>, arrivals: seq<Arrival>, events: seq<Event>): (t: Timed)
    requires |arrivals| == |uids|
    ensures |t.pcs| == |arrivals|
  {
    if events == [] then Begin(|arrivals|)
    else Step(uids, arrivals, Run(uids, arrivals, events[..|events| - 1]), events[|events| - 1])
  }

  // ---------- the view without clock and tokens ----------

  /** The session whose lease runs. */
  ghost function Owner(w: LeaseLock.World): Option<nat> {
    if exists i: nat :: LeaseLock.Holds(w, i) then
      var i: nat :| LeaseLock.Holds(w, i);
      Some(i)
    else None
  }

  ghost function View(t: Timed): System {
    LockedRendezvous.System(Owner(t.world), t.stored, t.out, t.pcs)
  }

  /** Between its acquisition and its release. */
  predicate Has(pc: Pc) { pc.Locked? || pc.Holding? || pc.Written? }

  ghost predicate Inv(uids: seq<string>, t: Timed) {
    && |t.pcs| == |uids|
    && LeaseLock.Consistent(uids, t.world)
    && forall i: nat :: i in t.world.granted <==> i < |t.pcs| && Has(t.pcs[i])
  }

  lemma OwnerIs(uids: seq<string>, w: LeaseLock.World, i: nat)
    requires LeaseLock.DistinctUids(uids) && LeaseLock.Consistent(uids, w) && LeaseLock.Holds(w, i)
    ensures Owner(w) == Some(i)
  {
    var j: nat :| Owner(w) == Some(j) && LeaseLock.Holds(w, j);
    assert uids[i] == uids[j];
  }

  lemma NoOwner(w: LeaseLock.World)
    requires forall i: nat :: !LeaseLock.Holds(w, i)
    ensures Owner(w).None?
  {
  }

  /** Who held the lock in `w` and still holds it in `v`, if nobody new does. */
  lemma OwnerStays(uids: seq<string>, w: LeaseLock.World, v: LeaseLock.World)
    requires LeaseLock.DistinctUids(uids) && LeaseLock.Consistent(uids, w)
    requires forall i: nat :: LeaseLock.Holds(v, i) ==> LeaseLock.Holds(w, i)
    ensures Owner(v) == if Owner(w).Some? && LeaseLock.Holds(v, Owner(w).value) then Owner(w) else None
  {
    if Owner(w).Some? {
      var i: nat :| Owner(w) == Some(i) && LeaseLock.Holds(w, i);
      if LeaseLock.Holds(v, i) {
        assert exists j: nat :: LeaseLock.Holds(v, j);
        var j: nat :| Owner(v) == Some(j) && LeaseLock.Holds(v, j);
        OwnerIs(uids, w, j);
      } else {
        forall j: nat ensures !LeaseLock.Holds(v, j) {
          if LeaseLock.Holds(v, j) {
            OwnerIs(uids, w, j);
          }
        }
      }
    }
  }

  lemma StepKeepsInv(uids: seq<string>, arrivals: seq<Arrival>, t: Timed, e: Event)
    requires LeaseLock.DistinctUids(uids) && |arrivals| == |uids| && Inv(uids, t)
    ensures Inv(uids, Step(uids, arrivals, t, e))
  {
    match e
    case Pass(time) => LeaseLock.StepConsistent(uids, t.world, LeaseLock.Tick(time));
    case Acquire(i, lease, lost) => LeaseLock.StepConsistent(uids, t.world, LeaseLock.Acquire(i, lease, lost));
    case Act(i) => LeaseLock.StepConsistent(uids, t.world, LeaseLock.Release(i));
  }

  // ---------- simulation ----------

  /** No session is inside after its deadline. */
  predicate Timely(t: Timed) {
    forall i :: 0 <= i < |t.pcs| && LockedRendezvous.Inside(t.pcs[i]) ==> LeaseLock.Holds(t.world, i)
  }

  /** The steps of the interleaved rendezvous from one view to the other. */
  ghost predicate Simulated(arrivals: seq<Arrival>, t: Timed, t': Timed, steps: Steps) {
    && |t.pcs| == |arrivals|
    && LockedRendezvous.RunFrom(arrivals, View(t), steps) == View(t')
    && (Timely(t') ==> LockedRendezvous.LeasesLast(arrivals, View(t), steps))
  }

  lemma OneStep(arrivals: seq<Arrival>, s: System, e: LockedRendezvous.Event)
    requires |s.pcs| == |arrivals|
    ensures LockedRendezvous.RunFrom(arrivals, s, [e]) == LockedRendezvous.Step(arrivals, s, e)
    ensures LockedRendezvous.LeasesLast(arrivals, s, [e]) <==> LockedRendezvous.LeaseLongEnough(s, e)
  {
  }

  lemma PassSimulates(uids: seq<string>, arrivals: seq<Arrival>, t: Timed, time: nat) returns (steps: Steps)
    requires LeaseLock.DistinctUids(uids) && |arrivals| == |uids| && Inv(uids, t)
    ensures Simulated(arrivals, t, Step(uids, arrivals, t, Pass(time)), steps)
  {
    var t' := Step(uids, arrivals, t, Pass(time));
    OwnerStays(uids, t.world, t'.world);
    if Owner(t'.world) == Owner(t.world) {
      steps := [];
    } else {
      steps := [LockedRendezvous.Expire];
      OneStep(arrivals, View(t), LockedRendezvous.Expire);
    }
  }

  lemma AcquireSimulates(uids: seq<string>, arrivals: seq<Arrival>, t: Timed, e: Event) returns (steps: Steps)
    requires LeaseLock.DistinctUids(uids) && |arrivals| == |uids| && Inv(uids, t) && e.Acquire?
    ensures Simulated(arrivals, t, Step(uids, arrivals, t, e), steps)
  {
    var i, t' := e.session, Step(uids, arrivals, t, e);
    if i >= |uids| || !t.pcs[i].Start? {
      return [];
    }
    if i !in t'.world.granted {
      OwnerStays(uids, t.world, t'.world);
      return [];
    }
    forall j: nat ensures !LeaseLock.Holds(t.world, j) {
    }
    NoOwner(t.world);
    StepKeepsInv(uids, arrivals, t, e);
    var run := LockedRendezvous.Run(i);
    var s := LockedRendezvous.Step(arrivals, View(t), run);
    OneStep(arrivals, View(t), run);
    if e.lease > 0 {
      OwnerIs(uids, t'.world, i);
      return [run];
    }
    NoOwner(t'.world);
    steps := [run, LockedRendezvous.Expire];
    assert steps[1..] == [LockedRendezvous.Expire];
    OneStep(arrivals, s, LockedRendezvous.Expire);
  }

  lemma ActSimulates(uids: seq<string>, arrivals: seq<Arrival>, t: Timed, i: nat) returns (steps: Steps)
    requires LeaseLock.DistinctUids(uids) && |arrivals| == |uids| && Inv(uids, t)
    ensures Simulated(arrivals, t, Step(uids, arrivals, t, Act(i)), steps)
  {
    var t' := Step(uids, arrivals, t, Act(i));
    if i >= |uids| || t.pcs[i].Start? {
      return [];
    }
    steps := [LockedRendezvous.Run(i)];
    OneStep(arrivals, View(t), LockedRendezvous.Run(i));
    if t.pcs[i].Written? {
      OwnerStays(uids, t.world, t'.world);
    }
  }

  lemma {:induction false} RunAppend(arrivals: seq<Arrival>, s: System, a: Steps, b: Steps)
    requires |s.pcs| == |arrivals|
    ensures var m := LockedRendezvous.RunFrom(arrivals, s, a);
            && |m.pcs| == |arrivals|
            && LockedRendezvous.RunFrom(arrivals, s, a + b) == LockedRendezvous.RunFrom(arrivals, m, b)
            && (LockedRendezvous.LeasesLast(arrivals, s, a + b) <==>
                  LockedRendezvous.LeasesLast(arrivals, s, a) && LockedRendezvous.LeasesLast(arrivals, m, b))
    decreases |a|
  {
    if a == [] {
      assert a + b == b;
    } else {
      assert (a + b)[1..] == a[1..] + b;
      RunAppend(arrivals, LockedRendezvous.Step(arrivals, s, a[0]), a[1..], b);
    }
  }

  /** Every state of the run is timely. */
  predicate AllTimely(uids: seq<string>, arrivals: seq<Arrival>, events: seq<Event>)
    requires |arrivals| == |uids|
  {
    events != [] ==>
      Timely(Run(uids, arrivals, events)) && AllTimely(uids, arrivals, events[..|events| - 1])
  }

  /** With distinct tokens, every run under the real lock is a run of the interleaved rendezvous,
      and when no session is ever inside after its deadline, one in which leases last. */
  lemma {:induction false} Simulation(uids: seq<string>, arrivals: seq<Arrival>, events: seq<Event>)
    returns (steps: Steps)
    requires LeaseLock.DistinctUids(uids) && |arrivals| == |uids|
    ensures Inv(uids, Run(uids, arrivals, events))
    ensures LockedRendezvous.RunFrom(arrivals, LockedRendezvous.Begin(|arrivals|), steps) == View(Run(uids, arrivals, events))
    ensures AllTimely(uids, arrivals, events) ==>
              LockedRendezvous.LeasesLast(arrivals, LockedRendezvous.Begin(|arrivals|), steps)
  {
    if events == [] {
      NoOwner(LeaseLock.INITIAL);
      steps := [];
    } else {
      var front, e := events[..|events| - 1], events[|events| - 1];
      var t := Run(uids, arrivals, front);
      var before := Simulation(uids, arrivals, front);
      StepKeepsInv(uids, arrivals, t, e);
      var more;
      match e {
        case Pass(time) => more := PassSimulates(uids, arrivals, t, time);
        case Acquire(_, _, _) => more := AcquireSimulates(uids, arrivals, t, e);
        case Act(i) => more := ActSimulates(uids, arrivals, t, i);
      }
      steps := before + more;
      RunAppend(arrivals, LockedRendezvous.Begin(|arrivals|), before, more);
    }
  }

  /** Under the real lock, with distinct tokens and sessions that keep their deadlines: once all
      sessions are done and one brought a trace result, the sessions pushed are exactly the
      messages, each once, each with the deciding result. */
  lemma EveryMessageGoesOnOnce(uids: seq<string>, arrivals: seq<Arrival>, events: seq<Event>)
    requires LeaseLock.DistinctUids(uids) && |arrivals| == |uids| && AllTimely(uids, arrivals, events)
    requires LockedRendezvous.Sound(arrivals) && LockedRendezvous.Finished(View(Run(uids, arrivals, events)))
    requires exists i :: 0 <= i < |arrivals| && arrivals[i].Trace?
    ensures var t := Run(uids, arrivals, events);
            var w := Decision(t.stored);
            && w.Some? && Trace(w.value) in arrivals && t.stored == Some(Typed(TRACE, [], w))
            && multiset(t.out) == multiset(ContinueAll(Businesses(arrivals), ReadInto(w)))
  {
    var steps := Simulation(uids, arrivals, events);
    LockedRendezvous.EveryMessageGoesOnOnce(arrivals, steps);
  }

  /** Whatever the trace results say, the outcome is that of the visits done one after another in
      some order. */
  lemma EqualsSerial(uids: seq<string>, arrivals: seq<Arrival>, events: seq<Event>) returns (order: seq<Arrival>)
    requires LeaseLock.DistinctUids(uids) && |arrivals| == |uids| && AllTimely(uids, arrivals, events)
    requires LockedRendezvous.WellSent(arrivals) && LockedRendezvous.Finished(View(Run(uids, arrivals, events)))
    ensures multiset(order) == multiset(arrivals)
    ensures var t := Run(uids, arrivals, events);
            multiset(t.out) == multiset(Fold(order).out) && t.stored == Fold(order).stored
  {
    var steps := Simulation(uids, arrivals, events);
    order := Serialisation.InterleavedEqualsSerial(arrivals, steps);
  }

  /** And no message is lost if and only if the result that decided is acceptable to
      getPersonResult, or no session was told to wait. */
  lemma LossIff(uids: seq<string>, arrivals: seq<Arrival>, events: seq<Event>)
    requires LeaseLock.DistinctUids(uids) && |arrivals| == |uids| && AllTimely(uids, arrivals, events)
    requires LockedRendezvous.WellSent(arrivals) && LockedRendezvous.Finished(View(Run(uids, arrivals, events)))
    requires exists i :: 0 <= i < |arrivals| && arrivals[i].Trace?
    ensures var t := Run(uids, arrivals, events);
            && Decision(t.stored).Some?
            && (|t.out| == |Businesses(arrivals)| <==>
                  Acceptable(Decision(t.stored).value) || forall i :: 0 <= i < |arrivals| ==> !t.pcs[i].Waiting?)
  {
    var steps := Simulation(uids, arrivals, events);
    Serialisation.LossIff(arrivals, steps);
  }
}
