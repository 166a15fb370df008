/**
 The value at a rendezvous key expires when it has not been written for a while. What a run of
 visits then comes to, and exactly which parked messages are lost.
 */
module ExpiringValue {
  import opened Sequences
  import opened Wrappers
  import opened TraceResult
  import opened Rendezvous

  datatype Event = Visits(arrival: Arrival) | Pass(time: nat)

  /** The arrivals between one expiry of the value and the next. */
  datatype Part = Part(run: seq<Arrival>)

  /** The desk, the clock, when the value expires, and what came before the last expiry and after it. */
  datatype Timed = Timed(desk: Desk, now: int, until: int, closed: seq<Part>, part: Part)

  const INITIAL := Timed(EMPTY_DESK, 0, 0, [], Part([]))

  /** Each SET of the value gives it `timeout` to live. */
  function Step(timeout: nat, s: Timed, e: Event): Timed {
    match e
    case Visits(a) =>
      var writes := ReplyTo(s.desk.stored, a).write.Some?;
      s.(desk := Visit(s.desk, a, NO_FAULTS), until := if writes then s.now + timeout else s.until,
         part := Part(s.part.run + [a]))
    case Pass(t) =>
      if s.desk.stored.Some? && s.now + t >= s.until then
        s.(desk := s.desk.(stored := None), now := s.now + t, closed := s.closed + [s.part], part := Part([]))
      else s.(now := s.now + t)
  }

  function Run(timeout: nat, events: seq<Event>): Timed {
    if events == [] then INITIAL else Step(timeout, Run(timeout, events[..|events| - 1]), events[|events| - 1])
  }

  // ---------- the parts ----------

  function AllOut(parts: seq<Part>): seq<Continued> {
    if parts == [] then [] else AllOut(parts[..|parts| - 1]) + Fold(parts[|parts| - 1].run).out
  }

  function AllDropped(parts: seq<Part>): seq<Payload> {
    if parts == [] then [] else AllDropped(parts[..|parts| - 1]) + Fold(parts[|parts| - 1].run).dropped
  }

  /** What was parked at each expiry. */
  function AllLost(parts: seq<Part>): seq<Payload> {
    if parts == [] then [] else AllLost(parts[..|parts| - 1]) + Texts(Parked(Fold(parts[|parts| - 1].run).stored))
  }

  /** What has gone on and what was dropped before plays no part in a visit. */
  lemma {:induction false} VisitAfter(out: seq<Continued>, dropped: seq<Payload>, d: Desk, a: Arrival)
    ensures var n := Visit(d, a, NO_FAULTS);
            Visit(Desk(d.stored, out + d.out, dropped + d.dropped), a, NO_FAULTS) ==
              Desk(n.stored, out + n.out, dropped + n.dropped)
  {
    var reply := ReplyTo(d.stored, a);
    var (released, rejected) := Release(reply.release, if a.Trace? then a.body else Garbled);
    var own := if a.Business? && !reply.wait then [Continue(a.payload, ReadInto(reply.read))] else [];
    Assoc(out, d.out, released);
    Assoc(out, d.out + released, own);
    Assoc(dropped, d.dropped, rejected);
    assert dropped + d.dropped + [] + rejected + [] == dropped + (d.dropped + [] + rejected + []);
  }

  /** The desk is what the parts come to, one after another, each from an empty value. */
  ghost predicate Sums(s: Timed) {
    var d := Fold(s.part.run);
    s.desk == Desk(d.stored, AllOut(s.closed) + d.out, AllDropped(s.closed) + d.dropped)
  }

  lemma {:induction false} FoldNext(run: seq<Arrival>, a: Arrival)
    ensures Fold(run + [a]) == Visit(Fold(run), a, NO_FAULTS)
  {
    assert (run + [a])[..|run|] == run;
  }

  lemma {:induction false} PartsNext(parts: seq<Part>, part: Part)
    ensures AllOut(parts + [part]) == AllOut(parts) + Fold(part.run).out
    ensures AllDropped(parts + [part]) == AllDropped(parts) + Fold(part.run).dropped
  {
    assert (parts + [part])[..|parts|] == parts;
  }

  lemma {:induction false} StepSums(timeout: nat, s: Timed, e: Event)
    requires Sums(s)
    ensures Sums(Step(timeout, s, e))
  {
    match e
    case Visits(a) =>
      FoldNext(s.part.run, a);
      VisitAfter(AllOut(s.closed), AllDropped(s.closed), Fold(s.part.run), a);
    case Pass(t) =>
      PartsNext(s.closed, s.part);
      var out, dropped := AllOut(s.closed + [s.part]), AllDropped(s.closed + [s.part]);
      assert Fold([]) == EMPTY_DESK && out + [] == out && dropped + [] == dropped;
  }

  lemma {:induction false} RunSums(timeout: nat, events: seq<Event>)
    ensures Sums(Run(timeout, events))
  {
    if events == [] {
      assert [] + EMPTY_DESK.out == [] && [] + EMPTY_DESK.dropped == [];
    } else {
      RunSums(timeout, events[..|events| - 1]);
      StepSums(timeout, Run(timeout, events[..|events| - 1]), events[|events| - 1]);
    }
  }

  predicate Meets(e: Event) { e.Visits? && e.arrival.Business? ==> Arrives(e.arrival.payload) }

  ghost predicate Proper(events: seq<Event>) { forall i :: 0 <= i < |events| ==> Meets(events[i]) }

  ghost predicate PartsProper(s: Timed) {
    WellFormed(s.part.run) && forall i :: 0 <= i < |s.closed| ==> WellFormed(s.closed[i].run)
  }

  lemma {:induction false} RunIsProper(timeout: nat, events: seq<Event>)
    requires Proper(events)
    ensures PartsProper(Run(timeout, events))
  {
    if events != [] {
      RunIsProper(timeout, events[..|events| - 1]);
      assert Meets(events[|events| - 1]);
    }
  }

  // ---------- what is lost ----------

  /** Nothing waits at the end of the part: a trace result came, or no message did. */
  predicate Over(part: Part) { Told(part.run).first.Some? || Told(part.run).early == [] }

  lemma {:induction false} LostOfPart(part: Part)
    requires WellFormed(part.run)
    ensures Texts(Parked(Fold(part.run).stored)) == if Told(part.run).first.None? then Told(part.run).early else []
  {
    var t := Told(part.run);
    Outcome(part.run);
    StoryKeepsMessages(part.run);
    BusinessesArrive(part.run);
    if t.first.None? {
      assert t.early + [] == t.early;
      ReleaseParked(t.early, Garbled);
    }
  }

  lemma {:induction false} LostIff(parts: seq<Part>)
    requires forall i :: 0 <= i < |parts| ==> WellFormed(parts[i].run)
    ensures AllLost(parts) == [] <==> forall i :: 0 <= i < |parts| ==> Over(parts[i])
  {
    if parts != [] {
      LostIff(parts[..|parts| - 1]);
      LostOfPart(parts[|parts| - 1]);
      assert forall i :: 0 <= i < |parts| - 1 ==> parts[..|parts| - 1][i] == parts[i];
    }
  }

  /** The whole outcome when the value may expire: what is out, dropped and stored is what the parts
      between expiries come to, each from an empty value; and no message is lost to an expiry if and
      only if each part that one ended had a trace result or no message. */
  lemma {:induction false} ExpiryOutcome(timeout: nat, events: seq<Event>)
    requires Proper(events)
    ensures var s := Run(timeout, events);
            && s.desk.stored == Fold(s.part.run).stored
            && s.desk.out == AllOut(s.closed + [s.part])
            && s.desk.dropped == AllDropped(s.closed + [s.part])
            && (AllLost(s.closed) == [] <==> forall i :: 0 <= i < |s.closed| ==> Over(s.closed[i]))
  {
    var s := Run(timeout, events);
    RunSums(timeout, events);
    RunIsProper(timeout, events);
    LostIff(s.closed);
    PartsNext(s.closed, s.part);
  }
}
