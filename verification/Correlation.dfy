/**
 Whether a message goes on with the trace result of its pictures, when visits may fail to get the
 lock, to read or to write: visit by visit, and over whole runs.
 */
module Correlation {
  import opened Wrappers
  import opened TraceResult
  import opened Rendezvous
  import opened FaultyRuns

  // ---------- a visit to a decided key ----------

  /** An accepted result differs from no result: it always brings a manual_age. */
  lemma AcceptedIsNotFresh(body: TraceBody)
    requires Acceptable(body)
    ensures ReadInto(Some(body)) != FRESH
  {
    ManualAgeIsSet(body);
  }

  /** On a key that holds an acceptable result, a message goes on with that result if and only if
      its visit got the lock and could read. Otherwise it goes on without any result, or it
      waits, parked or dropped. */
  lemma {:induction false} CorrelatedIff(d: Desk, p: Payload, f: Faults, body: TraceBody)
    requires Regular(d.stored) && Decision(d.stored) == Some(body) && Acceptable(body)
    ensures Visit(d, Business(p), f).out == d.out + [Continue(p, ReadInto(Some(body)))] <==> f.locked && f.read
  {
    AcceptedIsNotFresh(body);
    BusinessVisit(d, p, f);
    assert Release([], Garbled) == ([], []);
    var n := Visit(d, Business(p), f);
    if !f.locked {
      assert n.out[|d.out|] == Continue(p, FRESH);
      assert (d.out + [Continue(p, ReadInto(Some(body)))])[|d.out|] == Continue(p, ReadInto(Some(body)));
    } else if !f.read {
      WaitingVisit(d, p, f);
      assert |n.out| == |d.out|;
    } else {
      assert d.out + [] == d.out;
    }
  }

  // ---------- runs ----------

  /** Everything that has gone on carries the result stored now. */
  predicate Correlated(d: Desk) { AllFrom(d.out, Decision(d.stored)) }

  /** The guard. A business visit needs the lock, unless the stored result says no more than none;
      with the lock but no reading it must not write over a result that messages went on with. A
      trace visit with the lock that releases parked messages must write; one that reads nothing
      must not write another result over one that messages went on with. */
  predicate Informs(d: Desk, a: Arrival, f: Faults) {
    var decision := Decision(d.stored);
    match a
    case Business(_) =>
      if f.locked then f.read || !f.written || d.out == []
      else decision.Some? && ReadInto(decision) == FRESH
    case Trace(body) =>
      f.locked ==>
        if f.read then Parked(d.stored) == [] || f.written || !Acceptable(body)
        else !f.written || d.out == [] || ReadInto(Some(body)) == ReadInto(decision)
  }

  /** Under an acceptable stored result, no message goes on rightly without the lock. */
  lemma LockIsNeeded(d: Desk, p: Payload, f: Faults)
    requires Decision(d.stored).Some? && Acceptable(Decision(d.stored).value) && !f.locked
    ensures !Informs(d, Business(p), f)
  {
    AcceptedIsNotFresh(Decision(d.stored).value);
  }

  lemma OutHasResult(out: seq<Continued>, w: Option<TraceBody>)
    requires AllFrom(out, w)
    ensures out != [] ==> w.Some?
  {
    if out != [] {
      var c := out[0];
      assert w.Some? && c == Continue(c.payload, ReadInto(w));
    }
  }

  /** A change of the stored result keeps the correlation exactly when nothing is out or the
      results say the same. */
  lemma {:induction false} Redecided(out: seq<Continued>, w: Option<TraceBody>, v: Option<TraceBody>)
    requires AllFrom(out, w)
    ensures AllFrom(out, v) <==> out == [] || (v.Some? && ReadInto(v) == ReadInto(w))
  {
    if out != [] {
      var c := out[0];
      assert w.Some? && c == Continue(c.payload, ReadInto(w));
      if AllFrom(out, v) {
        assert out[0] == Continue(out[0].payload, ReadInto(v));
      }
    }
  }

  lemma {:induction false} OneMore(out: seq<Continued>, w: Option<TraceBody>, p: Payload, r: Result)
    requires AllFrom(out, w)
    ensures AllFrom(out + [Continue(p, r)], w) <==> w.Some? && r == ReadInto(w)
  {
    var more := out + [Continue(p, r)];
    assert more[|out|] == Continue(p, r);
    if AllFrom(more, w) {
      assert more[|out|] == Continue(more[|out|].payload, ReadInto(w));
    }
  }

  lemma {:induction false} InformedBusiness(d: Desk, p: Payload, f: Faults)
    requires Regular(d.stored) && Correlated(d) && Arrives(p)
    ensures Correlated(Visit(d, Business(p), f)) <==> Informs(d, Business(p), f)
  {
    var n, decision := Visit(d, Business(p), f), Decision(d.stored);
    assert Release([], Garbled) == ([], []);
    if !f.locked {
      OneMore(d.out, decision, p, FRESH);
    } else if f.read && decision.Some? {
      assert d.out + [] == d.out;
      OneMore(d.out, decision, p, ReadInto(decision));
    } else {
      WaitingVisit(d, p, f);
      Redecided(d.out, decision, Decision(n.stored));
      OutHasResult(d.out, decision);
    }
  }

  /** What a releasing visit puts out carries its own result. */
  lemma ReleasedFrom(d: Desk, body: TraceBody)
    requires Regular(d.stored) && Correlated(d) && Decision(d.stored).None? && Acceptable(body)
    ensures d.out == [] && AllFrom(d.out + Release(Parked(d.stored), body).0, Some(body))
    ensures Parked(d.stored) != [] ==> d.out + Release(Parked(d.stored), body).0 != []
  {
    OutHasResult(d.out, Decision(d.stored));
    var ps := Texts(Parked(d.stored));
    TextsOf(Parked(d.stored));
    ReleaseParked(ps, body);
    AllContinued(ps, Some(body));
    assert [] + ContinueAll(ps, ReadInto(Some(body))) == ContinueAll(ps, ReadInto(Some(body)));
  }

  lemma {:induction false} AllContinued(ps: seq<Payload>, w: Option<TraceBody>)
    requires w.Some?
    ensures AllFrom(ContinueAll(ps, ReadInto(w)), w)
  {
    if ps != [] {
      AllContinued(ps[..|ps| - 1], w);
      AllFromSnoc(ContinueAll(ps[..|ps| - 1], ReadInto(w)), w, ps[|ps| - 1]);
    }
  }

  lemma {:induction false} InformedTrace(d: Desk, body: TraceBody, f: Faults)
    requires Regular(d.stored) && Correlated(d)
    ensures Correlated(Visit(d, Trace(body), f)) <==> Informs(d, Trace(body), f)
  {
    var n, decision := Visit(d, Trace(body), f), Decision(d.stored);
    TraceVisit(d, body, f);
    TraceStores(d, body, f);
    if f.locked && f.read && Parked(d.stored) != [] && Acceptable(body) {
      ReleasedFrom(d, body);
      if AllFrom(n.out, Decision(n.stored)) {
        OutHasResult(n.out, Decision(n.stored));
      }
    } else {
      ReleasesNothing(d, body, f);
      Redecided(d.out, decision, Decision(n.stored));
      OutHasResult(d.out, decision);
    }
  }

  lemma {:induction false} ReleasesNothing(d: Desk, body: TraceBody, f: Faults)
    requires Regular(d.stored) && !(f.locked && f.read && Parked(d.stored) != [] && Acceptable(body))
    ensures Visit(d, Trace(body), f).out == d.out
  {
    TraceVisit(d, body, f);
    if !Acceptable(body) {
      ReleaseRejected(Parked(d.stored), body);
    }
  }

  lemma TraceStores(d: Desk, body: TraceBody, f: Faults)
    requires Regular(d.stored)
    ensures Decision(Visit(d, Trace(body), f).stored) ==
              if f.locked && f.written && (!f.read || Decision(d.stored).None?) then Some(body) else Decision(d.stored)
  {
  }

  /** One visit, exactly: what goes on and what is stored still agree if and only if the guard
      held. */
  lemma {:induction false} InformsIff(d: Desk, e: Event)
    requires Regular(d.stored) && Correlated(d) && Meets(e)
    ensures Correlated(Visit(d, e.arrival, e.faults)) <==> Informs(d, e.arrival, e.faults)
  {
    match e.arrival
    case Business(p) => InformedBusiness(d, p, e.faults);
    case Trace(body) => InformedTrace(d, body, e.faults);
  }

  predicate AlwaysCorrelated(events: seq<Event>) {
    Correlated(Run(events)) && (events != [] ==> AlwaysCorrelated(events[..|events| - 1]))
  }

  predicate AllInform(events: seq<Event>) {
    events != [] ==>
      AllInform(events[..|events| - 1]) &&
      Informs(Run(events[..|events| - 1]), events[|events| - 1].arrival, events[|events| - 1].faults)
  }

  /** Under every pattern of failures: at every moment of a run all messages that have gone on
      carry the stored trace result, if and only if every visit met the guard. */
  lemma {:induction false} AlwaysCorrelatedIff(events: seq<Event>)
    requires FaultyRuns.WellFormed(events)
    ensures AlwaysCorrelated(events) <==> AllInform(events)
  {
    if events != [] {
      var front, e := events[..|events| - 1], events[|events| - 1];
      AlwaysCorrelatedIff(front);
      RunIsRegular(front);
      assert Meets(e);
      if AlwaysCorrelated(front) {
        InformsIff(Run(front), e);
      }
    }
  }

  /** A visit that conserves messages need not inform: with the lock but without reading, a
      message is parked over the result that should have gone with it. */
  lemma {:induction false} CleanButUninformed(d: Desk, p: Payload, body: TraceBody)
    requires Regular(d.stored) && Decision(d.stored) == Some(body) && Acceptable(body) && Arrives(p)
    ensures var f := Faults(true, false, true);
            && Clean(d, Business(p), f)
            && Decision(Visit(d, Business(p), f).stored).None?
            && Parked(Visit(d, Business(p), f).stored) == [Text(p)]
  {
    WaitingVisit(d, p, Faults(true, false, true));
  }
}
