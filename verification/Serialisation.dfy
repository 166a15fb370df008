/**
 The interleaved rendezvous against visits done one after another: whatever the trace results, a
 finished interleaving ends as some serial order of the same arrivals does, and exactly when it
 has lost no message.
 */
module Serialisation {
  import opened Wrappers
  import opened TraceResult
  import opened Rendezvous
  import opened LockedRendezvous

  // ---------- who waits and who goes on ----------

  /** The arrivals of the sessions that wait in the end, or of the others. */
  function Those(arrivals: seq<Arrival>, pcs: seq<Pc>, waiting: bool): seq<Arrival>
    requires |arrivals| == |pcs|
  {
    if pcs == [] then []
    else
      var last := |pcs| - 1;
      Those(arrivals[..last], pcs[..last], waiting) + if pcs[last].Waiting? == waiting then [arrivals[last]] else []
  }

  lemma {:induction false} ThoseSplit(arrivals: seq<Arrival>, pcs: seq<Pc>)
    requires |arrivals| == |pcs|
    ensures multiset(Those(arrivals, pcs, true)) + multiset(Those(arrivals, pcs, false)) == multiset(arrivals)
  {
    if pcs != [] {
      var last := |pcs| - 1;
      ThoseSplit(arrivals[..last], pcs[..last]);
      assert arrivals == arrivals[..last] + [arrivals[last]];
    }
  }

  lemma {:induction false} ThoseAre(arrivals: seq<Arrival>, pcs: seq<Pc>, waiting: bool, a: Arrival)
    requires |arrivals| == |pcs|
    ensures a in Those(arrivals, pcs, waiting) <==>
              exists i :: 0 <= i < |arrivals| && arrivals[i] == a && pcs[i].Waiting? == waiting
  {
    if pcs != [] {
      var last := |pcs| - 1;
      ThoseAre(arrivals[..last], pcs[..last], waiting, a);
      if i :| 0 <= i < last && arrivals[i] == a && pcs[i].Waiting? == waiting {
        assert arrivals[..last][i] == a && pcs[..last][i].Waiting? == waiting;
      }
    }
  }

  /** Messages are distinct, so each is counted where its session is. */
  lemma {:induction false} CountPassed(arrivals: seq<Arrival>, s: System, p: Payload)
    requires WellSent(arrivals) && |s.pcs| == |arrivals| && Finished(s)
    ensures multiset(Businesses(Those(arrivals, s.pcs, false)))[p] == if PassedPayload(arrivals, s, p) then 1 else 0
  {
    var others := Those(arrivals, s.pcs, false);
    CountBusinesses(others);
    CountDistinct(arrivals, p);
    ThoseSplit(arrivals, s.pcs);
    ThoseAre(arrivals, s.pcs, false, Business(p));
    assert multiset(others)[Business(p)] <= multiset(arrivals)[Business(p)];
    assert forall i :: 0 <= i < |s.pcs| ==> s.pcs[i].Waiting? == !s.pcs[i].Passed?;
    assert Business(p) in multiset(others) <==> PassedPayload(arrivals, s, p);
  }

  // ---------- the outcome of an interleaving ----------

  lemma {:induction false} EndLossy(arrivals: seq<Arrival>, s: System)
    requires WellSent(arrivals) && |s.pcs| == |arrivals| && LossyInv(arrivals, s) && Finished(s)
    ensures multiset(Names(s.out)) == multiset(Businesses(Those(arrivals, s.pcs, false)))
  {
    forall p ensures multiset(Names(s.out))[p] == multiset(Businesses(Those(arrivals, s.pcs, false)))[p] {
      CountPassed(arrivals, s, p);
    }
  }

  /** Those whose messages go on, once each: everybody, or only those who do not wait. */
  function GoOn(arrivals: seq<Arrival>, pcs: seq<Pc>, w: TraceBody): seq<Payload>
    requires |arrivals| == |pcs|
  {
    Businesses(if Acceptable(w) then arrivals else Those(arrivals, pcs, false))
  }

  /** The whole outcome of a finished interleaving with a trace result, acceptable or not. */
  lemma {:induction false} InterleavedOutcome(arrivals: seq<Arrival>, events: seq<Event>)
    requires WellSent(arrivals) && LeasesLast(arrivals, Begin(|arrivals|), events)
    requires Finished(RunFrom(arrivals, Begin(|arrivals|), events))
    requires exists i :: 0 <= i < |arrivals| && arrivals[i].Trace?
    ensures var s := RunFrom(arrivals, Begin(|arrivals|), events);
            var w := Decision(s.stored);
            && w.Some? && Trace(w.value) in arrivals && s.stored == Some(Typed(TRACE, [], w))
            && multiset(s.out) == multiset(ContinueAll(GoOn(arrivals, s.pcs, w.value), ReadInto(w)))
  {
    var s := RunFrom(arrivals, Begin(|arrivals|), events);
    EndOfRun(arrivals, events);
    EndDecided(arrivals, s);
    if Lossy(arrivals, s) {
      EndLossy(arrivals, s);
      EndContinued(s.out, Businesses(Those(arrivals, s.pcs, false)), Decision(s.stored));
    } else {
      EndState(arrivals, s);
    }
  }

  lemma {:induction false} BusinessesSplit(arrivals: seq<Arrival>, pcs: seq<Pc>)
    requires |arrivals| == |pcs|
    ensures multiset(Businesses(arrivals)) ==
              multiset(Businesses(Those(arrivals, pcs, true))) + multiset(Businesses(Those(arrivals, pcs, false)))
  {
    var all, a, b := arrivals, Those(arrivals, pcs, true), Those(arrivals, pcs, false);
    ThoseSplit(arrivals, pcs);
    CountBusinesses(all);
    CountBusinesses(a);
    CountBusinesses(b);
    forall p ensures multiset(Businesses(all))[p] == (multiset(Businesses(a)) + multiset(Businesses(b)))[p] {
      assert multiset(all)[Business(p)] == (multiset(a) + multiset(b))[Business(p)];
    }
  }

  lemma {:induction false} OnlyBusinesses(run: seq<Arrival>)
    requires forall a :: a in run ==> a.Business?
    ensures |Businesses(run)| == |run| && Told(run) == Story(Businesses(run), None, [])
  {
    if run != [] {
      var front, last := run[..|run| - 1], run[|run| - 1];
      assert last in run && forall a :: a in front ==> a in run;
      OnlyBusinesses(front);
    }
  }

  /** Only messages wait. */
  lemma {:induction false} WaitersAreMessages(arrivals: seq<Arrival>, s: System)
    requires LockInv(arrivals, s)
    ensures forall a :: a in Those(arrivals, s.pcs, true) ==> a.Business?
  {
    forall a | a in Those(arrivals, s.pcs, true) ensures a.Business? {
      ThoseAre(arrivals, s.pcs, true, a);
      var i: nat :| i < |arrivals| && arrivals[i] == a && s.pcs[i].Waiting?;
      assert Informed(arrivals, s, i);
    }
  }

  /** Exactly when an interleaving loses no message: the result that decided is acceptable to
      getPersonResult, or no session was told to wait. */
  lemma {:induction false} LossIff(arrivals: seq<Arrival>, events: seq<Event>)
    requires WellSent(arrivals) && LeasesLast(arrivals, Begin(|arrivals|), events)
    requires Finished(RunFrom(arrivals, Begin(|arrivals|), events))
    requires exists i :: 0 <= i < |arrivals| && arrivals[i].Trace?
    ensures var s := RunFrom(arrivals, Begin(|arrivals|), events);
            && Decision(s.stored).Some?
            && (|s.out| == |Businesses(arrivals)| <==>
                  Acceptable(Decision(s.stored).value) || forall i :: 0 <= i < |arrivals| ==> !s.pcs[i].Waiting?)
  {
    var s := RunFrom(arrivals, Begin(|arrivals|), events);
    var waiters := Those(arrivals, s.pcs, true);
    InterleavedOutcome(arrivals, events);
    EndOfRun(arrivals, events);
    BusinessesSplit(arrivals, s.pcs);
    WaitersAreMessages(arrivals, s);
    OnlyBusinesses(waiters);
    SameLength(s.out, ContinueAll(GoOn(arrivals, s.pcs, Decision(s.stored).value), ReadInto(Decision(s.stored))));
    Lengths(Businesses(arrivals), Businesses(waiters), Businesses(Those(arrivals, s.pcs, false)));
    NobodyWaits(arrivals, s.pcs);
  }

  lemma SameLength<T>(a: seq<T>, b: seq<T>)
    requires multiset(a) == multiset(b)
    ensures |a| == |b|
  {
    assert |a| == |multiset(a)| && |b| == |multiset(b)|;
  }

  lemma Lengths<T>(a: seq<T>, b: seq<T>, c: seq<T>)
    requires multiset(a) == multiset(b) + multiset(c)
    ensures |a| == |b| + |c|
  {
    assert multiset(b + c) == multiset(b) + multiset(c);
    SameLength(a, b + c);
  }

  lemma {:induction false} NobodyWaits(arrivals: seq<Arrival>, pcs: seq<Pc>)
    requires |arrivals| == |pcs|
    ensures Those(arrivals, pcs, true) == [] <==> forall i :: 0 <= i < |arrivals| ==> !pcs[i].Waiting?
  {
    var waiters := Those(arrivals, pcs, true);
    if i :| 0 <= i < |arrivals| && pcs[i].Waiting? {
      ThoseAre(arrivals, pcs, true, arrivals[i]);
    }
    if waiters != [] {
      assert waiters[0] in waiters;
      ThoseAre(arrivals, pcs, true, waiters[0]);
    }
  }

  // ---------- the serial order ----------

  lemma MoveToFront(arrivals: seq<Arrival>, a: Arrival) returns (order: seq<Arrival>)
    requires a in arrivals
    ensures order != [] && order[0] == a && multiset(order) == multiset(arrivals)
  {
    var k :| 0 <= k < |arrivals| && arrivals[k] == a;
    order := [a] + (arrivals[..k] + arrivals[k + 1..]);
    assert arrivals == arrivals[..k] + [a] + arrivals[k + 1..];
  }

  lemma {:induction false} ToldLater(told: seq<Arrival>, more: seq<Arrival>)
    requires Told(told).first.Some?
    ensures Told(told + more) == Told(told).(late := Told(told).late + Businesses(more))
  {
    if more == [] {
      assert told + more == told && Told(told).late + [] == Told(told).late;
    } else {
      var front, last := more[..|more| - 1], more[|more| - 1];
      ToldLater(told, front);
      ToldSnoc(told + front, last);
      assert told + more == (told + front) + [last];
    }
  }

  /** First the messages of those who wait, then the deciding result, then everything else. */
  lemma {:induction false} SerialOutcome(early: seq<Arrival>, w: TraceBody, late: seq<Arrival>)
    requires (forall a :: a in early ==> a.Business?) && WellFormed(early + [Trace(w)] + late)
    ensures Fold(early + [Trace(w)] + late) == Expected(Story(Businesses(early), Some(w), Businesses(late)))
  {
    OnlyBusinesses(early);
    ToldSnoc(early, Trace(w));
    ToldLater(early + [Trace(w)], late);
    assert [] + Businesses(late) == Businesses(late);
    Outcome(early + [Trace(w)] + late);
  }

  /** What goes on in that order. */
  lemma {:induction false} SerialGoesOn(arrivals: seq<Arrival>, pcs: seq<Pc>, w: TraceBody, late: seq<Arrival>)
    requires |arrivals| == |pcs|
    requires multiset(Businesses(late)) == multiset(Businesses(Those(arrivals, pcs, false)))
    ensures multiset(Expected(Story(Businesses(Those(arrivals, pcs, true)), Some(w), Businesses(late))).out) ==
              multiset(ContinueAll(GoOn(arrivals, pcs, w), ReadInto(Some(w))))
  {
    var ps, qs, r := Businesses(Those(arrivals, pcs, true)), Businesses(late), ReadInto(Some(w));
    if Acceptable(w) {
      BusinessesSplit(arrivals, pcs);
      ContinueAllConcat(ps, qs, r);
      assert multiset(ps + qs) == multiset(ps) + multiset(qs);
      ContinueAllMultiset(ps + qs, Businesses(arrivals), r);
    } else {
      assert [] + ContinueAll(qs, r) == ContinueAll(qs, r);
      ContinueAllMultiset(qs, GoOn(arrivals, pcs, w), r);
    }
  }

  lemma {:induction false} DropFirst(run: seq<Arrival>)
    requires run != [] && run[0].Trace?
    ensures multiset(Businesses(run[1..])) == multiset(Businesses(run))
  {
    CountBusinesses(run);
    CountBusinesses(run[1..]);
    assert run == [run[0]] + run[1..];
    forall p ensures multiset(Businesses(run[1..]))[p] == multiset(Businesses(run))[p] {
      assert multiset(run)[Business(p)] == multiset([run[0]])[Business(p)] + multiset(run[1..])[Business(p)];
    }
  }

  lemma {:induction false} Recombine(early: seq<Arrival>, moved: seq<Arrival>)
    requires moved != []
    ensures multiset(early + [moved[0]] + moved[1..]) == multiset(early) + multiset(moved)
  {
    assert moved == [moved[0]] + moved[1..];
    assert early + [moved[0]] + moved[1..] == early + moved;
  }

  /** The rest behind the deciding result. */
  lemma {:induction false} LateOnes(arrivals: seq<Arrival>, pcs: seq<Pc>, w: TraceBody) returns (late: seq<Arrival>)
    requires |arrivals| == |pcs| && Trace(w) in arrivals
    requires forall a :: a in Those(arrivals, pcs, true) ==> a.Business?
    ensures multiset(Those(arrivals, pcs, true) + [Trace(w)] + late) == multiset(arrivals)
    ensures multiset(Businesses(late)) == multiset(Businesses(Those(arrivals, pcs, false)))
  {
    ThoseSplit(arrivals, pcs);
    assert Trace(w) in multiset(arrivals) && Trace(w) !in Those(arrivals, pcs, true);
    var moved := MoveToFront(Those(arrivals, pcs, false), Trace(w));
    late := moved[1..];
    Recombine(Those(arrivals, pcs, true), moved);
    SameBusinesses(moved, Those(arrivals, pcs, false));
    DropFirst(moved);
  }

  lemma {:induction false} DecidedInOrder(arrivals: seq<Arrival>, s: System, w: TraceBody) returns (order: seq<Arrival>)
    requires WellSent(arrivals) && LockInv(arrivals, s) && Trace(w) in arrivals
    requires multiset(s.out) == multiset(ContinueAll(GoOn(arrivals, s.pcs, w), ReadInto(Some(w))))
    ensures multiset(order) == multiset(arrivals)
    ensures multiset(s.out) == multiset(Fold(order).out)
    ensures Fold(order).stored == Some(Typed(TRACE, [], Some(w)))
  {
    WaitersAreMessages(arrivals, s);
    var late := LateOnes(arrivals, s.pcs, w);
    order := Those(arrivals, s.pcs, true) + [Trace(w)] + late;
    SameArrivals(arrivals, order);
    SerialOutcome(Those(arrivals, s.pcs, true), w, late);
    SerialGoesOn(arrivals, s.pcs, w, late);
  }

  function AsArrivals(ps: seq<Payload>): (run: seq<Arrival>)
    ensures |run| == |ps| && forall i :: 0 <= i < |ps| ==> run[i] == Business(ps[i])
  {
    if ps == [] then [] else AsArrivals(ps[..|ps| - 1]) + [Business(ps[|ps| - 1])]
  }

  lemma {:induction false} AsArrivalsOutcome(ps: seq<Payload>)
    ensures Businesses(AsArrivals(ps)) == ps && Told(AsArrivals(ps)) == Story(ps, None, [])
  {
    if ps != [] {
      var front, last := ps[..|ps| - 1], ps[|ps| - 1];
      AsArrivalsOutcome(front);
      assert ps == front + [last] && AsArrivals(ps)[..|front|] == AsArrivals(front);
      assert Told(AsArrivals(ps)) == TellMore(Told(AsArrivals(front)), Business(last));
    }
  }

  lemma AllWait(ps: seq<Payload>)
    requires forall p :: p in ps ==> Arrives(p)
    ensures Fold(AsArrivals(ps)) == Rendezvous.Waiting(ps)
  {
    AsArrivalsOutcome(ps);
    assert forall i :: 0 <= i < |ps| ==> ps[i] in ps;
    Outcome(AsArrivals(ps));
  }

  lemma {:induction false} WaitingIsStored(stored: Option<Stored>)
    requires Regular(stored) && Decision(stored).None?
    ensures Rendezvous.Waiting(Texts(Parked(stored))).stored == stored
    ensures forall p :: p in Texts(Parked(stored)) ==> Arrives(p)
  {
    var cells := Parked(stored);
    ParkedIsReadable(cells);
    WaitingCells(cells);
  }

  lemma {:induction false} WaitingCells(cells: seq<Cell>)
    requires AsCells(Texts(cells)) == cells
    ensures Rendezvous.Waiting(Texts(cells)).stored == if cells == [] then None else Some(Typed(BUSINESS, cells, None))
  {
    assert |Texts(cells)| == |cells|;
  }

  lemma SameMessagesSameArrivals(run: seq<Arrival>, other: seq<Arrival>)
    requires forall i :: 0 <= i < |run| ==> run[i].Business?
    requires forall i :: 0 <= i < |other| ==> other[i].Business?
    requires multiset(Businesses(run)) == multiset(Businesses(other))
    ensures multiset(run) == multiset(other)
  {
    CountBusinesses(run);
    CountBusinesses(other);
    forall a ensures multiset(run)[a] == multiset(other)[a] {
      if a.Trace? {
        assert a !in run && a !in other;
      } else {
        assert multiset(Businesses(run))[a.payload] == multiset(Businesses(other))[a.payload];
      }
    }
  }

  /** The serial order of parked messages is the one in which they are parked. */
  lemma {:induction false} ParkedInOrder(arrivals: seq<Arrival>, stored: Option<Stored>) returns (order: seq<Arrival>)
    requires Regular(stored) && Decision(stored).None?
    requires forall i :: 0 <= i < |arrivals| ==> arrivals[i].Business?
    requires multiset(Texts(Parked(stored))) == multiset(Businesses(arrivals))
    ensures multiset(order) == multiset(arrivals)
    ensures Fold(order).out == [] && Fold(order).stored == stored
  {
    var ps := Texts(Parked(stored));
    WaitingIsStored(stored);
    order := AsArrivals(ps);
    AsArrivalsOutcome(ps);
    SameMessagesSameArrivals(arrivals, order);
    AllWait(ps);
  }

  /** The interleaved protocol refines the visits done one after another: for every finished run
      there is an order of the same arrivals whose serial execution ends with the same sessions
      and the same value, whatever the trace results say, and without any. */
  lemma {:induction false} InterleavedEqualsSerial(arrivals: seq<Arrival>, events: seq<Event>) returns (order: seq<Arrival>)
    requires WellSent(arrivals) && LeasesLast(arrivals, Begin(|arrivals|), events)
    requires Finished(RunFrom(arrivals, Begin(|arrivals|), events))
    ensures multiset(order) == multiset(arrivals)
    ensures var s := RunFrom(arrivals, Begin(|arrivals|), events);
            && multiset(s.out) == multiset(Fold(order).out)
            && s.stored == Fold(order).stored
  {
    var s := RunFrom(arrivals, Begin(|arrivals|), events);
    EndOfRun(arrivals, events);
    if exists i :: 0 <= i < |arrivals| && arrivals[i].Trace? {
      InterleavedOutcome(arrivals, events);
      order := DecidedInOrder(arrivals, s, Decision(s.stored).value);
    } else {
      EndWithoutTrace(arrivals, s);
      order := ParkedInOrder(arrivals, s.stored);
    }
  }
}
