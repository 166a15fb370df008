/**
 Runs of the rendezvous in which any visit may fail to get the lock, to read or to write: the
 books of the messages, and exactly when they balance.
 */
module FaultyRuns {
  import opened Sequences
  import opened Wrappers
  import opened TraceResult
  import opened Rendezvous

  datatype Event = Event(arrival: Arrival, faults: Faults)

  function Run(events: seq<Event>): Desk {
    if events == [] then EMPTY_DESK
    else
      var e := events[|events| - 1];
      Visit(Run(events[..|events| - 1]), e.arrival, e.faults)
  }

  /** The messages that arrived. */
  function Arrived(events: seq<Event>): multiset<Payload> {
    if events == [] then multiset{}
    else Arrived(events[..|events| - 1]) + Brought(events[|events| - 1].arrival)
  }

  function Brought(a: Arrival): multiset<Payload> {
    if a.Business? then multiset{a.payload} else multiset{}
  }

  /** Every entry for a message: gone on, parked, or dropped. */
  function Entries(d: Desk): multiset<Payload> {
    multiset(Names(d.out)) + multiset(Texts(Parked(d.stored))) + multiset(d.dropped)
  }

  /** What a visit enters a second time: released messages that stay parked. */
  function Doubled(d: Desk, a: Arrival, f: Faults): multiset<Payload> {
    if Unduplicated(d, a, f, Visit(d, a, f)) then multiset{} else multiset(Texts(Parked(d.stored)))
  }

  predicate Meets(e: Event) { e.arrival.Business? ==> Arrives(e.arrival.payload) }

  ghost predicate WellFormed(events: seq<Event>) {
    forall i :: 0 <= i < |events| ==> Meets(events[i])
  }

  // ---------- one visit ----------

  lemma {:induction false} NamesConcat(a: seq<Continued>, b: seq<Continued>)
    ensures Names(a + b) == Names(a) + Names(b)
  {
    if b == [] {
      assert a + b == a;
    } else {
      var front, last := b[..|b| - 1], b[|b| - 1];
      NamesConcat(a, front);
      NamesSnoc(a + front, last);
      NamesSnoc(front, last);
      assert b == front + [last] && a + b == (a + front) + [last];
      Assoc(Names(a), Names(front), [last.payload]);
    }
  }

  lemma {:induction false} NamesContinued(ps: seq<Payload>, r: Result)
    ensures Names(ContinueAll(ps, r)) == ps
  {
    if ps != [] {
      NamesContinued(ps[..|ps| - 1], r);
      Snoc(ps[..|ps| - 1], ps[|ps| - 1], r);
      assert ps == ps[..|ps| - 1] + [ps[|ps| - 1]];
      NamesSnoc(ContinueAll(ps[..|ps| - 1], r), Continue(ps[|ps| - 1], r));
    }
  }

  /** A message that passes. */
  lemma PassBooks(d: Desk, p: Payload, r: Result)
    ensures Entries(d.(out := d.out + [Continue(p, r)])) == Entries(d) + multiset{p}
  {
    NamesSnoc(d.out, Continue(p, r));
  }

  lemma DropBooks(d: Desk, ps: seq<Payload>)
    ensures Entries(d.(dropped := d.dropped + ps)) == Entries(d) + multiset(ps)
  {
  }

  lemma StoreBooks(d: Desk, stored: Option<Stored>)
    ensures Entries(d.(stored := stored)) + multiset(Texts(Parked(d.stored))) ==
              Entries(d) + multiset(Texts(Parked(stored)))
  {
  }

  /** All parked messages go on, or all are dropped. */
  lemma ReleaseBooks(d: Desk, cells: seq<Cell>, body: TraceBody)
    requires forall c :: c in cells ==> c.Text? && Arrives(c.payload)
    ensures var (released, rejected) := Release(cells, body);
            Entries(d.(out := d.out + released, dropped := d.dropped + rejected)) == Entries(d) + multiset(Texts(cells))
  {
    var ps := Texts(cells);
    TextsOf(cells);
    ReleaseParked(ps, body);
    if Acceptable(body) {
      var released := ContinueAll(ps, ReadInto(Some(body)));
      NamesConcat(d.out, released);
      NamesContinued(ps, ReadInto(Some(body)));
      assert d.dropped + [] == d.dropped;
    } else {
      assert d.out + [] == d.out;
    }
  }

  /** The cases of a business visit. */
  lemma BusinessVisit(d: Desk, p: Payload, f: Faults)
    requires Regular(d.stored)
    ensures var n, parked := Visit(d, Business(p), f), Parked(d.stored);
            || (exists r :: n == d.(out := d.out + [Continue(p, r)]))
            || n == d.(dropped := d.dropped + [p])
            || (n == d.(stored := n.stored) && Parked(n.stored) == parked + [Text(p)])
            || (n == d.(stored := n.stored, dropped := d.dropped + Texts(parked)) && Parked(n.stored) == [Text(p)])
  {
    var n := Visit(d, Business(p), f);
    assert Release([], Garbled) == ([], []);
    if !f.locked {
      assert n == d.(out := d.out + [Continue(p, FRESH)]);
    } else {
      var seen := if f.read then d.stored else None;
      if seen.Some? && seen.value.ptype == TRACE {
        assert d.out + [] == d.out && d.dropped + [] == d.dropped;
        assert n == d.(out := d.out + [Continue(p, ReadInto(seen.value.trace))]);
      } else {
        WaitingVisit(d, p, f);
      }
    }
  }

  lemma WaitingVisit(d: Desk, p: Payload, f: Faults)
    requires Regular(d.stored) && f.locked
    requires f.read && d.stored.Some? ==> d.stored.value.ptype != TRACE
    ensures var n, parked := Visit(d, Business(p), f), Parked(d.stored);
            if !f.written then n == d.(dropped := d.dropped + [p])
            else if f.read then n == d.(stored := n.stored) && Parked(n.stored) == parked + [Text(p)]
            else n == d.(stored := n.stored, dropped := d.dropped + Texts(parked)) && Parked(n.stored) == [Text(p)]
  {
    assert Release([], Garbled) == ([], []);
    assert d.out + [] + [] == d.out;
    assert d.dropped + [] + [] + [] == d.dropped;
    assert d.dropped + [] + [] + [p] == d.dropped + [p];
    var ps := Texts(Parked(d.stored));
    assert d.dropped + ps + [] + [] == d.dropped + ps;
  }

  lemma ParkBooks(d: Desk, n: Desk, p: Payload)
    requires n == d.(stored := n.stored) && Parked(n.stored) == Parked(d.stored) + [Text(p)]
    ensures Entries(n) == Entries(d) + multiset{p}
  {
    TextsOne(Parked(d.stored), p);
  }

  /** A value written over what was parked. */
  lemma OverwriteBooks(d: Desk, n: Desk, cells: seq<Cell>)
    requires n == d.(stored := n.stored, dropped := d.dropped + Texts(Parked(d.stored)))
    requires Parked(n.stored) == cells
    ensures Entries(n) == Entries(d) + multiset(Texts(cells))
  {
  }

  lemma {:induction false} BusinessBooks(d: Desk, p: Payload, f: Faults)
    requires Regular(d.stored)
    ensures Entries(Visit(d, Business(p), f)) == Entries(d) + multiset{p}
  {
    BusinessVisit(d, p, f);
    var n, parked := Visit(d, Business(p), f), Parked(d.stored);
    if n == d.(dropped := d.dropped + [p]) {
      DropBooks(d, [p]);
    } else if Parked(n.stored) == parked + [Text(p)] && n == d.(stored := n.stored) {
      ParkBooks(d, n, p);
    } else if
      n.dropped == d.dropped + Texts(parked) && n == d.(stored := n.stored, dropped := n.dropped) && Parked(n.stored) == [Text(p)]
    {
      OneText(p);
      OverwriteBooks(d, n, [Text(p)]);
    } else {
      var r :| n == d.(out := d.out + [Continue(p, r)]);
      PassBooks(d, p, r);
    }
  }

  lemma OneText(p: Payload)
    ensures Texts([Text(p)]) == [p]
  {
    TextsOne([], p);
    assert [] + [Text(p)] == [Text(p)];
  }

  /** The cases of a trace visit: it changes nothing, takes the key, or releases. */
  lemma TraceVisit(d: Desk, body: TraceBody, f: Faults)
    requires Regular(d.stored)
    ensures var n, parked := Visit(d, Trace(body), f), Parked(d.stored);
            var released := d.(out := d.out + Release(parked, body).0, dropped := d.dropped + Release(parked, body).1);
            if f.locked && f.read && parked != [] then
              if f.written then n == released.(stored := n.stored) && Parked(n.stored) == [] else n == released
            else
              || n == d
              || (n == d.(stored := n.stored, dropped := d.dropped + Texts(parked)) && Parked(n.stored) == [])
  {
    assert Release([], body) == ([], []);
    assert d.out + [] + [] == d.out;
    assert d.dropped + [] + [] + [] == d.dropped;
    var ps := Texts(Parked(d.stored));
    assert d.dropped + ps + [] + [] == d.dropped + ps;
    var out, rejected := Release(Parked(d.stored), body).0, Release(Parked(d.stored), body).1;
    assert d.out + out + [] == d.out + out;
    assert d.dropped + [] + rejected + [] == d.dropped + rejected;
  }

  /** Parked messages released; those of an unwritten release stay parked as well. */
  lemma ReleasedBooks(d: Desk, n: Desk, body: TraceBody)
    requires Regular(d.stored)
    requires n.out == d.out + Release(Parked(d.stored), body).0
    requires n.dropped == d.dropped + Release(Parked(d.stored), body).1
    ensures Entries(n) == Entries(d) + multiset(Texts(Parked(n.stored)))
  {
    ReleaseBooks(d, Parked(d.stored), body);
    var released := d.(out := n.out, dropped := n.dropped);
    StoreBooks(released, n.stored);
    assert n == released.(stored := n.stored);
    Cancel(Entries(n), Entries(d) + multiset(Texts(Parked(n.stored))), multiset(Texts(Parked(d.stored))));
  }

  lemma Cancel(a: multiset<Payload>, b: multiset<Payload>, c: multiset<Payload>)
    requires a + c == b + c
    ensures a == b
  {
    forall p ensures a[p] == b[p] {
      assert (a + c)[p] == (b + c)[p];
    }
  }

  lemma TraceDoubles(d: Desk, body: TraceBody, f: Faults)
    requires Regular(d.stored)
    ensures var n, parked := Visit(d, Trace(body), f), Parked(d.stored);
            Unduplicated(d, Trace(body), f, n) <==> !(f.locked && f.read && parked != []) || Parked(n.stored) == []
  {
  }

  lemma {:induction false} TraceBooks(d: Desk, body: TraceBody, f: Faults)
    requires Regular(d.stored)
    ensures Entries(Visit(d, Trace(body), f)) == Entries(d) + Doubled(d, Trace(body), f)
  {
    TraceVisit(d, body, f);
    TraceDoubles(d, body, f);
    var n, parked := Visit(d, Trace(body), f), Parked(d.stored);
    if f.locked && f.read && parked != [] {
      ReleasedBooks(d, n, body);
      assert f.written || n.stored == d.stored;
    } else if n != d {
      OverwriteBooks(d, n, []);
    }
    assert Entries(d) + multiset(Texts([])) == Entries(d) + multiset{} == Entries(d);
  }

  lemma BusinessDoubles(d: Desk, p: Payload, f: Faults)
    requires Regular(d.stored)
    ensures Doubled(d, Business(p), f) == multiset{}
  {
  }

  lemma {:induction false} VisitBooks(d: Desk, a: Arrival, f: Faults)
    requires Regular(d.stored)
    ensures Entries(Visit(d, a, f)) == Entries(d) + Brought(a) + Doubled(d, a, f)
  {
    match a
    case Business(p) =>
      BusinessBooks(d, p, f);
      BusinessDoubles(d, p, f);
    case Trace(body) =>
      TraceBooks(d, body, f);
  }

  lemma DroppedGrows(d: Desk, a: Arrival, f: Faults)
    requires Regular(d.stored)
    ensures d.dropped <= Visit(d, a, f).dropped
  {
    match a
    case Business(p) => BusinessVisit(d, p, f);
    case Trace(body) => TraceVisit(d, body, f);
  }

  // ---------- runs ----------

  /** Every visit met the guard of CleanIff. */
  predicate AllClean(events: seq<Event>) {
    events == [] ||
    (AllClean(events[..|events| - 1]) &&
     Clean(Run(events[..|events| - 1]), events[|events| - 1].arrival, events[|events| - 1].faults))
  }

  /** What the visits of a run have entered a second time. */
  function AllDoubled(events: seq<Event>): multiset<Payload> {
    if events == [] then multiset{}
    else
      var e := events[|events| - 1];
      AllDoubled(events[..|events| - 1]) + Doubled(Run(events[..|events| - 1]), e.arrival, e.faults)
  }

  lemma {:induction false} RunIsRegular(events: seq<Event>)
    requires WellFormed(events)
    ensures Regular(Run(events).stored)
  {
    if events != [] {
      RunIsRegular(events[..|events| - 1]);
      var e := events[|events| - 1];
      assert Meets(e);
      RegularVisit(Run(events[..|events| - 1]), e.arrival, e.faults);
    }
  }

  /** The books of every run, with any faults: each message is entered as often as it arrived,
      and once more for every failed write after it was released. */
  lemma {:induction false} RunBooks(events: seq<Event>)
    requires WellFormed(events)
    ensures Entries(Run(events)) == Arrived(events) + AllDoubled(events)
  {
    if events == [] {
    } else {
      var front, e := events[..|events| - 1], events[|events| - 1];
      RunBooks(front);
      RunIsRegular(front);
      VisitBooks(Run(front), e.arrival, e.faults);
    }
  }

  lemma {:induction false} CleanRunIff(events: seq<Event>)
    requires WellFormed(events)
    ensures AllClean(events) <==> Run(events).dropped == [] && AllDoubled(events) == multiset{}
  {
    if events != [] {
      var front, e := events[..|events| - 1], events[|events| - 1];
      CleanRunIff(front);
      RunIsRegular(front);
      assert Meets(e);
      CleanVisit(Run(front), e);
    }
  }

  lemma CleanVisit(d: Desk, e: Event)
    requires Regular(d.stored) && Meets(e)
    ensures d.dropped <= Visit(d, e.arrival, e.faults).dropped
    ensures Clean(d, e.arrival, e.faults) <==>
              Visit(d, e.arrival, e.faults).dropped == d.dropped && Doubled(d, e.arrival, e.faults) == multiset{}
  {
    CleanIff(d, e.arrival, e.faults);
    DroppedGrows(d, e.arrival, e.faults);
    if !Unduplicated(d, e.arrival, e.faults, Visit(d, e.arrival, e.faults)) {
      DoubledIsReal(d, e.arrival, e.faults);
    }
  }

  lemma DoubledIsReal(d: Desk, a: Arrival, f: Faults)
    requires Regular(d.stored) && !Unduplicated(d, a, f, Visit(d, a, f))
    ensures Doubled(d, a, f) != multiset{}
  {
  }

  /** Under every pattern of failures, a run keeps every message exactly once, gone on or parked,
      and drops none, if and only if each of its visits met the guard of CleanIff. */
  lemma {:induction false} ConservedIff(events: seq<Event>)
    requires WellFormed(events)
    ensures var d := Run(events);
            AllClean(events) <==>
              d.dropped == [] && multiset(Names(d.out)) + multiset(Texts(Parked(d.stored))) == Arrived(events)
  {
    RunBooks(events);
    CleanRunIff(events);
    NothingAdded(Arrived(events), AllDoubled(events));
    var d := Run(events);
    if d.dropped == [] {
      NothingDropped(d);
    }
  }

  lemma NothingDropped(d: Desk)
    requires d.dropped == []
    ensures Entries(d) == multiset(Names(d.out)) + multiset(Texts(Parked(d.stored)))
  {
  }

  lemma NothingAdded(a: multiset<Payload>, b: multiset<Payload>)
    ensures a == a + b <==> b == multiset{}
  {
    if a == a + b {
      forall p ensures b[p] == 0 {
        assert a[p] == (a + b)[p];
      }
    }
  }
}
