/**
 The meeting of business messages and the trace result of the same pictures at one Redis key,
 one visit at a time, with the faults a visit can meet. PictureWait.dfy proves the handlers
 against Visit; LockedRendezvous.dfy proves what the lock adds.
 */
module Rendezvous {
  import opened Wrappers
  import opened Stages
  import opened TraceResult

  const TRACE := 8
  const BUSINESS := 32

  /** A business message as parked in Redis and parsed again later. `readable` says whether
      the parser accepts it. */
  datatype Payload = Payload(id: int, msgType: int, readable: bool)

  /** An element of message_list. */
  datatype Cell = Text(payload: Payload) | NotText

  /** The value stored under the key. */
  datatype Stored =
    | Unparsable
    | Untyped
    | Typed(ptype: int, messages: seq<Cell>, trace: Option<TraceBody>)

  /** A business session pushed to the workers: its result and the stages it has left. */
  datatype Continued = Continued(payload: Payload, result: Result, chain: seq<ProcType>)

  // ---------- the two handlers ----------

  /** What a visit decides: whether the session waits, what is written, which result is read
      into the session, and which parked messages are released. */
  datatype Reply = Reply(wait: bool, write: Option<Stored>, read: Option<TraceBody>, release: seq<Cell>)

  const NOTHING := Reply(false, None, None, [])

  function WithoutKey(ptype: int, payload: Payload, body: TraceBody): Reply {
    if ptype == BUSINESS then Reply(true, Some(Typed(ptype, [Text(payload)], None)), None, [])
    else Reply(false, Some(Typed(ptype, [], Some(body))), None, [])
  }

  function WithKey(value: Stored, ptype: int, payload: Payload, body: TraceBody): Reply {
    match value
    case Typed(TRACE, _, trace) =>
      if ptype == BUSINESS then NOTHING.(read := trace) else NOTHING
    case Typed(BUSINESS, messages, trace) =>
      if ptype == BUSINESS then
        Reply(true, Some(Typed(BUSINESS, messages + [Text(payload)], trace)), None, [])
      else if ptype == TRACE then
        Reply(false, Some(Typed(ptype, [], Some(body))), None, messages)
      else NOTHING
    case _ => NOTHING
  }

  function Answer(seen: Option<Stored>, ptype: int, payload: Payload, body: TraceBody): Reply {
    if seen.None? then WithoutKey(ptype, payload, body) else WithKey(seen.value, ptype, payload, body)
  }

  function ReadInto(read: Option<TraceBody>): Result {
    if read.None? then FRESH else Apply(FRESH, read.value, PERSON_CODES).0
  }

  /** handleFromRedis for each parked message: the sessions created and the messages dropped. */
  function Release(cells: seq<Cell>, body: TraceBody): (seq<Continued>, seq<Payload>) {
    if cells == [] then ([], [])
    else
      var (out, dropped) := Release(cells[..|cells| - 1], body);
      match cells[|cells| - 1]
      case NotText => (out, dropped)
      case Text(p) =>
        if p.readable && Acceptable(body)
        then (out + [Continued(p, ReadInto(Some(body)), BusinessChain(p.msgType, true))], dropped)
        else (out, dropped + [p])
  }

  // ---------- one visit at one key ----------

  datatype Arrival = Business(payload: Payload) | Trace(body: TraceBody)

  /** Whether the lock was obtained in time, the value could be read, and the write arrived. */
  datatype Faults = Faults(locked: bool, read: bool, written: bool)

  const NO_FAULTS := Faults(true, true, true)

  datatype Desk = Desk(stored: Option<Stored>, out: seq<Continued>, dropped: seq<Payload>)

  const EMPTY_DESK := Desk(None, [], [])

  const NO_PAYLOAD := Payload(0, 0, false)

  function ReplyTo(seen: Option<Stored>, a: Arrival): Reply {
    match a
    case Business(p) => Answer(seen, BUSINESS, p, Garbled)
    case Trace(body) => Answer(seen, TRACE, NO_PAYLOAD, body)
  }

  /** The session's own continuation with what is left of the chain it came with. */
  function Continue(p: Payload, result: Result): Continued {
    Continued(p, result, BusinessChain(p.msgType, false)[1..])
  }

  function Parked(stored: Option<Stored>): seq<Cell> {
    match stored case Some(Typed(BUSINESS, messages, _)) => messages case _ => []
  }

  function Texts(cells: seq<Cell>): seq<Payload> {
    if cells == [] then []
    else Texts(cells[..|cells| - 1]) + match cells[|cells| - 1] case Text(p) => [p] case NotText => []
  }

  function Names(out: seq<Continued>): seq<Payload> {
    if out == [] then [] else Names(out[..|out| - 1]) + [out[|out| - 1].payload]
  }

  lemma NamesSnoc(out: seq<Continued>, c: Continued)
    ensures Names(out + [c]) == Names(out) + [c.payload]
  {
    assert (out + [c])[..|out|] == out;
  }

  /** A visit without the lock passes without looking. Otherwise the handler answers what it
      reads; a failed write is only logged. `dropped` lists the messages that no later visit
      can find: parked ones overwritten unread, parked ones the release rejects, and a waiting
      one not written. */
  function Visit(d: Desk, a: Arrival, f: Faults): Desk {
    if f.locked then Answered(d, a, f, ReplyTo(if f.read then d.stored else None, a))
    else if a.Business? then d.(out := d.out + [Continue(a.payload, FRESH)])
    else d
  }

  function Answered(d: Desk, a: Arrival, f: Faults, reply: Reply): Desk {
    var wrote := f.written && reply.write.Some?;
    var (released, rejected) := Release(reply.release, if a.Trace? then a.body else Garbled);
    Desk(
      if wrote then reply.write else d.stored,
      d.out + released + (if a.Business? && !reply.wait then [Continue(a.payload, ReadInto(reply.read))] else []),
      d.dropped
      + (if wrote && !f.read then Texts(Parked(d.stored)) else [])
      + rejected
      + if a.Business? && reply.wait && !f.written then [a.payload] else [])
  }

  /** The trace result that the stored value holds. */
  function Decision(stored: Option<Stored>): Option<TraceBody> {
    match stored case Some(Typed(TRACE, _, trace)) => trace case _ => None
  }

  /** What is out was continued with the result `winner`; there is none before there is one. */
  predicate AllFrom(out: seq<Continued>, winner: Option<TraceBody>) {
    forall k :: 0 <= k < |out| ==> winner.Some? && out[k] == Continue(out[k].payload, ReadInto(winner))
  }

  lemma AllFromSnoc(out: seq<Continued>, winner: Option<TraceBody>, p: Payload)
    requires AllFrom(out, winner) && winner.Some?
    ensures AllFrom(out + [Continue(p, ReadInto(winner))], winner)
  {
  }

  // ---------- runs without faults ----------

  function Fold(run: seq<Arrival>): Desk {
    if run == [] then EMPTY_DESK else Visit(Fold(run[..|run| - 1]), run[|run| - 1], NO_FAULTS)
  }

  function Businesses(run: seq<Arrival>): seq<Payload> {
    if run == [] then []
    else
      var last := run[|run| - 1];
      Businesses(run[..|run| - 1]) + if last.Business? then [last.payload] else []
  }

  /** A run told in three parts: the messages before the first trace result, that result, and
      the messages after it. */
  datatype Story = Story(early: seq<Payload>, first: Option<TraceBody>, late: seq<Payload>)

  function Told(run: seq<Arrival>): Story {
    if run == [] then Story([], None, []) else TellMore(Told(run[..|run| - 1]), run[|run| - 1])
  }

  function TellMore(t: Story, a: Arrival): Story {
    match a
    case Business(p) => if t.first.None? then t.(early := t.early + [p]) else t.(late := t.late + [p])
    case Trace(body) => if t.first.None? then t.(first := Some(body)) else t
  }

  function ContinueAll(ps: seq<Payload>, result: Result): (cs: seq<Continued>)
    ensures |cs| == |ps|
  {
    if ps == [] then []
    else ContinueAll(ps[..|ps| - 1], result) + [Continue(ps[|ps| - 1], result)]
  }

  function AsCells(ps: seq<Payload>): (cells: seq<Cell>)
    ensures |cells| == |ps|
  {
    if ps == [] then [] else AsCells(ps[..|ps| - 1]) + [Text(ps[|ps| - 1])]
  }

  lemma {:induction false} ContinueAllConcat(ps: seq<Payload>, qs: seq<Payload>, r: Result)
    ensures ContinueAll(ps + qs, r) == ContinueAll(ps, r) + ContinueAll(qs, r)
  {
    if qs == [] {
      assert ps + qs == ps;
    } else {
      assert (ps + qs)[..|ps + qs| - 1] == ps + qs[..|qs| - 1];
      ContinueAllConcat(ps, qs[..|qs| - 1], r);
    }
  }

  lemma Snoc(ps: seq<Payload>, p: Payload, r: Result)
    ensures ContinueAll(ps + [p], r) == ContinueAll(ps, r) + [Continue(p, r)]
    ensures AsCells(ps + [p]) == AsCells(ps) + [Text(p)]
  {
    assert (ps + [p])[..|ps|] == ps;
  }

  /** Messages reach the rendezvous only if they parse and their chain holds kPicWait. */
  predicate Arrives(p: Payload) { p.readable && p.msgType == BUSINESS_CAPTURE }

  predicate WellFormed(run: seq<Arrival>) {
    forall i :: 0 <= i < |run| && run[i].Business? ==> Arrives(run[i].payload)
  }

  lemma {:induction false} ReleaseParked(ps: seq<Payload>, body: TraceBody)
    requires forall p :: p in ps ==> Arrives(p)
    ensures Release(AsCells(ps), body) ==
              if Acceptable(body) then (ContinueAll(ps, ReadInto(Some(body))), []) else ([], ps)
    ensures Texts(AsCells(ps)) == ps
  {
    if ps != [] {
      var front, last := ps[..|ps| - 1], ps[|ps| - 1];
      ReleaseParked(front, body);
      assert AsCells(ps) == AsCells(front) + [Text(last)];
      assert AsCells(ps)[..|front|] == AsCells(front);
      assert ps == front + [last] && last in ps;
      ChainsAgree(last, ReadInto(Some(body)));
    }
  }

  lemma {:induction false} ReleaseRejected(cells: seq<Cell>, body: TraceBody)
    requires !Acceptable(body)
    ensures Release(cells, body).0 == []
  {
    if cells != [] {
      ReleaseRejected(cells[..|cells| - 1], body);
    }
  }

  /** The chain of a message from Redis is the Kafka chain after kPicWait, so a released
      message is exactly what it would have been had it come after the trace result. */
  lemma ChainsAgree(p: Payload, r: Result)
    requires Arrives(p)
    ensures Continue(p, r) == Continued(p, r, BusinessChain(p.msgType, true))
  {
  }

  lemma {:induction false} BusinessesArrive(run: seq<Arrival>)
    requires WellFormed(run)
    ensures forall p :: p in Businesses(run) ==> Arrives(p)
  {
    if run != [] {
      BusinessesArrive(run[..|run| - 1]);
    }
  }

  /** The early and late messages are all the messages, in order. */
  lemma {:induction false} StoryKeepsMessages(run: seq<Arrival>)
    ensures Businesses(run) == Told(run).early + Told(run).late
    ensures Told(run).first.None? ==> Told(run).late == []
  {
    if run != [] {
      StoryKeepsMessages(run[..|run| - 1]);
    }
  }

  predicate IsFirst(run: seq<Arrival>, i: nat, body: TraceBody) {
    i < |run| && run[i] == Trace(body) && forall j :: 0 <= j < i ==> run[j].Business?
  }

  /** The story's first result is the one that no other precedes, and the early messages are
      those before it. */
  lemma {:induction false} StoryFindsFirst(run: seq<Arrival>)
    ensures Told(run).first.None? ==> forall a :: a in run ==> a.Business?
    ensures Told(run).first.Some? ==>
              exists i: nat :: IsFirst(run, i, Told(run).first.value) && Businesses(run[..i]) == Told(run).early
  {
    if run != [] {
      var prev, last := run[..|run| - 1], run[|run| - 1];
      StoryFindsFirst(prev);
      if Told(prev).first.Some? {
        var i: nat :| IsFirst(prev, i, Told(prev).first.value) && Businesses(prev[..i]) == Told(prev).early;
        assert prev[..i] == run[..i];
        assert IsFirst(run, i, Told(run).first.value);
      } else if last.Trace? {
        StoryKeepsMessages(prev);
        assert IsFirst(run, |run| - 1, last.body);
      }
    }
  }

  // What one faultless visit does to the only three kinds of desk a faultless run meets.

  function Waiting(ps: seq<Payload>): Desk {
    Desk(if ps == [] then None else Some(Typed(BUSINESS, AsCells(ps), None)), [], [])
  }

  function Decided(body: TraceBody, out: seq<Continued>, dropped: seq<Payload>): Desk {
    Desk(Some(Typed(TRACE, [], Some(body))), out, dropped)
  }

  lemma VisitWaiting(ps: seq<Payload>, p: Payload)
    ensures Visit(Waiting(ps), Business(p), NO_FAULTS) == Waiting(ps + [p])
  {
    Snoc(ps, p, FRESH);
    assert AsCells(ps) + [Text(p)] == if ps == [] then [Text(p)] else AsCells(ps) + [Text(p)];
    assert ReplyTo(Waiting(ps).stored, Business(p)) == Reply(true, Waiting(ps + [p]).stored, None, []);
  }

  lemma AnsweredTrace(d: Desk, body: TraceBody, reply: Reply)
    requires reply.write.Some?
    ensures var (released, rejected) := Release(reply.release, body);
            Answered(d, Trace(body), NO_FAULTS, reply) == Desk(reply.write, d.out + released, d.dropped + rejected)
  {
  }

  lemma DecidingReply(ps: seq<Payload>, body: TraceBody)
    ensures ReplyTo(Waiting(ps).stored, Trace(body)) ==
              Reply(false, Some(Typed(TRACE, [], Some(body))), None, AsCells(ps))
  {
  }

  lemma VisitDeciding(ps: seq<Payload>, body: TraceBody)
    requires forall p :: p in ps ==> Arrives(p)
    ensures Visit(Waiting(ps), Trace(body), NO_FAULTS) ==
              Decided(body, if Acceptable(body) then ContinueAll(ps, ReadInto(Some(body))) else [],
                      if Acceptable(body) then [] else ps)
  {
    DecidingReply(ps, body);
    AnsweredTrace(Waiting(ps), body, ReplyTo(Waiting(ps).stored, Trace(body)));
    ReleaseParked(ps, body);
  }

  lemma VisitDecided(body: TraceBody, out: seq<Continued>, dropped: seq<Payload>, a: Arrival)
    ensures Visit(Decided(body, out, dropped), a, NO_FAULTS) ==
              Decided(body, out + (if a.Business? then [Continue(a.payload, ReadInto(Some(body)))] else []), dropped)
  {
    assert Release([], Garbled) == ([], []);
    if a.Trace? { assert Release([], a.body) == ([], []); }
  }

  function Expected(t: Story): Desk {
    if t.first.None? then Waiting(t.early)
    else
      var body := t.first.value;
      var r := ReadInto(Some(body));
      Decided(body,
              (if Acceptable(body) then ContinueAll(t.early, r) else []) + ContinueAll(t.late, r),
              if Acceptable(body) then [] else t.early)
  }

  lemma ExpectedWaiting(t: Story, a: Arrival)
    requires forall p :: p in t.early ==> Arrives(p)
    requires t.first.None? && t.late == []
    ensures Visit(Expected(t), a, NO_FAULTS) == Expected(TellMore(t, a))
  {
    match a
    case Business(p) => VisitWaiting(t.early, p);
    case Trace(body) =>
      VisitDeciding(t.early, body);
      assert ContinueAll([], ReadInto(Some(body))) == [];
  }

  lemma ExpectedDecided(t: Story, a: Arrival)
    requires t.first.Some?
    ensures Visit(Expected(t), a, NO_FAULTS) == Expected(TellMore(t, a))
  {
    var d := Expected(t);
    VisitDecided(t.first.value, d.out, d.dropped, a);
    if a.Business? {
      Snoc(t.late, a.payload, ReadInto(t.first));
    }
  }

  /** The whole outcome of a run without faults. Before any trace result every message is
      parked in arrival order. After the first one nothing is parked: the messages that came
      before it went on, or were dropped, together and in order; those that came after went on
      one by one; each with this first result, whatever later trace results say. */
  lemma {:induction false} Outcome(run: seq<Arrival>)
    requires WellFormed(run)
    ensures Fold(run) == Expected(Told(run))
  {
    if run != [] {
      var prev := run[..|run| - 1];
      Outcome(prev);
      StoryKeepsMessages(prev);
      BusinessesArrive(prev);
      if Told(prev).first.None? {
        ExpectedWaiting(Told(prev), run[|run| - 1]);
      } else {
        ExpectedDecided(Told(prev), run[|run| - 1]);
      }
    }
  }

  /** Conservation: under an acceptable first trace result every business message goes on
      exactly once, in arrival order, with that result, and none is parked or dropped. */
  lemma Conservation(run: seq<Arrival>)
    requires WellFormed(run) && Told(run).first.Some? && Acceptable(Told(run).first.value)
    ensures var d := Fold(run);
            && d.out == ContinueAll(Businesses(run), ReadInto(Told(run).first))
            && d.dropped == [] && Parked(d.stored) == []
  {
    var t := Told(run);
    Outcome(run);
    StoryKeepsMessages(run);
    ContinueAllConcat(t.early, t.late, ReadInto(t.first));
  }

  lemma {:induction false} ContinuedAt(ps: seq<Payload>, r: Result, k: nat)
    requires k < |ps|
    ensures ContinueAll(ps, r)[k] == Continue(ps[k], r)
  {
    if k < |ps| - 1 {
      ContinuedAt(ps[..|ps| - 1], r, k);
    }
  }

  /** The identity of the person goes with every message: each session pushed in a run carries, field
      by field, what the first trace result says of track and person. */
  lemma {:induction false} IdentityGoesOn(run: seq<Arrival>, k: nat)
    requires WellFormed(run) && Told(run).first.Some? && Acceptable(Told(run).first.value) && k < |Fold(run).out|
    ensures Reads(Told(run).first.value, FRESH, Fold(run).out[k].result)
    ensures k < |Businesses(run)| && Fold(run).out[k].payload == Businesses(run)[k]
  {
    Conservation(run);
    ContinuedAt(Businesses(run), ReadInto(Told(run).first), k);
    ApplyReads(FRESH, Told(run).first.value, PERSON_CODES);
  }

  /** Exactly when no message is lost: the first trace result is acceptable to getPersonResult,
      or no message was parked before it. The trace service's code -10041 is the failing case. */
  lemma LossIff(run: seq<Arrival>)
    requires WellFormed(run) && Told(run).first.Some?
    ensures |Fold(run).out| == |Businesses(run)| <==>
              Acceptable(Told(run).first.value) || Told(run).early == []
  {
    Outcome(run);
    StoryKeepsMessages(run);
  }

  lemma {:induction false} CountBusinesses(run: seq<Arrival>)
    ensures forall p :: multiset(Businesses(run))[p] == multiset(run)[Business(p)]
  {
    if run != [] {
      CountBusinesses(run[..|run| - 1]);
      assert run == run[..|run| - 1] + [run[|run| - 1]];
    }
  }

  lemma SplitOut(qs: seq<Payload>, p: Payload) returns (l: seq<Payload>, m: seq<Payload>)
    requires p in multiset(qs)
    ensures qs == l + [p] + m && multiset(l + m) == multiset(qs) - multiset{p}
  {
    var j :| 0 <= j < |qs| && qs[j] == p;
    l, m := qs[..j], qs[j + 1..];
    assert qs == l + [p] + m;
    assert multiset(qs) == multiset(l) + multiset{p} + multiset(m);
  }

  lemma ContinueAround(l: seq<Payload>, p: Payload, m: seq<Payload>, r: Result)
    ensures multiset(ContinueAll(l + [p] + m, r)) == multiset(ContinueAll(l + m, r)) + multiset{Continue(p, r)}
  {
    ContinueAllConcat(l + [p], m, r);
    ContinueAllConcat(l, m, r);
    Snoc(l, p, r);
    var x, y, c := ContinueAll(l, r), ContinueAll(m, r), Continue(p, r);
    assert multiset(x + [c] + y) == multiset(x) + multiset{c} + multiset(y);
    assert multiset(x + y) == multiset(x) + multiset(y);
  }

  lemma {:induction false} ContinueAllMultiset(ps: seq<Payload>, qs: seq<Payload>, r: Result)
    requires multiset(ps) == multiset(qs)
    ensures multiset(ContinueAll(ps, r)) == multiset(ContinueAll(qs, r))
  {
    if ps == [] {
      assert |qs| == |multiset(qs)| == 0;
    } else {
      var p, front := ps[|ps| - 1], ps[..|ps| - 1];
      assert ps == front + [p];
      assert multiset(front) == multiset(ps) - multiset{p};
      var l, m := SplitOut(qs, p);
      ContinueAllMultiset(front, l + m, r);
      ContinueAround(l, p, m, r);
      Snoc(front, p, r);
    }
  }

  lemma SameArrivals(run: seq<Arrival>, other: seq<Arrival>)
    requires WellFormed(run) && multiset(run) == multiset(other)
    ensures WellFormed(other) && forall a :: a in run <==> a in other
  {
    forall a ensures a in run <==> a in other {
      assert a in run <==> a in multiset(run);
      assert a in other <==> a in multiset(other);
    }
    forall i | 0 <= i < |other| && other[i].Business? ensures Arrives(other[i].payload) {
      assert other[i] in other;
    }
  }

  lemma SameBusinesses(run: seq<Arrival>, other: seq<Arrival>)
    requires multiset(run) == multiset(other)
    ensures multiset(Businesses(run)) == multiset(Businesses(other))
  {
    CountBusinesses(run);
    CountBusinesses(other);
  }

  /** A run with one acceptable trace result, whenever it comes. */
  lemma OneResult(run: seq<Arrival>, body: TraceBody)
    requires WellFormed(run) && Trace(body) in run && Acceptable(body)
    requires forall a :: a in run && a.Trace? ==> a.body == body
    ensures Fold(run).out == ContinueAll(Businesses(run), ReadInto(Some(body)))
    ensures Fold(run).stored == Decided(body, [], []).stored && Fold(run).dropped == []
  {
    OnlyResult(run, body);
    Conservation(run);
    Outcome(run);
  }

  /** Confluence: two runs of the same arrivals in any order, with one acceptable trace result,
      end with the same sessions: same payloads, same results, same stages left. */
  lemma {:induction false} Confluence(run: seq<Arrival>, other: seq<Arrival>, body: TraceBody)
    requires WellFormed(run) && multiset(run) == multiset(other)
    requires Trace(body) in run && Acceptable(body)
    requires forall a :: a in run && a.Trace? ==> a.body == body
    ensures multiset(Fold(run).out) == multiset(Fold(other).out)
    ensures Fold(run).stored == Fold(other).stored && Fold(run).dropped == Fold(other).dropped == []
  {
    SameArrivals(run, other);
    OneResult(run, body);
    OneResult(other, body);
    SameBusinesses(run, other);
    ContinueAllMultiset(Businesses(run), Businesses(other), ReadInto(Some(body)));
  }

  lemma OnlyResult(run: seq<Arrival>, body: TraceBody)
    requires Trace(body) in run
    requires forall a :: a in run && a.Trace? ==> a.body == body
    ensures Told(run).first == Some(body)
  {
    StoryFindsFirst(run);
    if Told(run).first.Some? {
      var i: nat :| IsFirst(run, i, Told(run).first.value);
      assert run[i] in run;
    }
  }

  lemma ToldSnoc(run: seq<Arrival>, a: Arrival)
    ensures Told(run + [a]) == TellMore(Told(run), a)
  {
    assert (run + [a])[..|run|] == run;
  }

  /** A message and a trace result in both orders. */
  lemma {:induction false} BothOrders(p: Payload, body: TraceBody)
    requires Arrives(p)
    ensures Fold([Business(p), Trace(body)]).out == if Acceptable(body) then [Continue(p, ReadInto(Some(body)))] else []
    ensures Fold([Trace(body), Business(p)]).out == [Continue(p, ReadInto(Some(body)))]
  {
    var r := ReadInto(Some(body));
    var first, second := [] + [Business(p)] + [Trace(body)], [] + [Trace(body)] + [Business(p)];
    assert first == [Business(p), Trace(body)] && second == [Trace(body), Business(p)];
    ToldSnoc([], Business(p));
    ToldSnoc([] + [Business(p)], Trace(body));
    ToldSnoc([], Trace(body));
    ToldSnoc([] + [Trace(body)], Business(p));
    Snoc([], p, r);
    assert [] + [p] == [p] && [] + [Continue(p, r)] == [Continue(p, r)] && [Continue(p, r)] + [] == [Continue(p, r)];
    Outcome(first);
    Outcome(second);
  }

  /** A concrete case of the loss: code -10041 is kept by the trace session, releases the
      parked message, and the message is gone; arriving after it, the message goes on. */
  lemma LossExample()
    ensures var body := TraceBody(Some(-10041), true, Some(Track(None, None, None)),
                                  Some(Person(None, None, None, None, None, None, None, None)));
            var p := Payload(1, BUSINESS_CAPTURE, true);
            && Kept(body)
            && Fold([Business(p), Trace(body)]).out == []
            && Fold([Trace(body), Business(p)]).out == [Continue(p, FRESH)]
  {
    var body := TraceBody(Some(-10041), true, Some(Track(None, None, None)),
                          Some(Person(None, None, None, None, None, None, None, None)));
    assert body.code.value in TRACE_CODES;
    ReadersDisagree(FRESH, body);
    BothOrders(Payload(1, BUSINESS_CAPTURE, true), body);
  }

  // ---------- faults ----------

  /** The stored values a run of visits can leave. */
  predicate Regular(stored: Option<Stored>) {
    match stored
    case None => true
    case Some(Typed(TRACE, messages, trace)) => messages == [] && trace.Some?
    case Some(Typed(BUSINESS, messages, trace)) =>
      trace.None? && messages != [] && forall c :: c in messages ==> c.Text? && Arrives(c.payload)
    case _ => false
  }

  predicate Undropped(d: Desk, next: Desk) { next.dropped == d.dropped }

  predicate Unduplicated(d: Desk, a: Arrival, f: Faults, next: Desk) {
    f.locked && ReplyTo(if f.read then d.stored else None, a).release != [] ==> Parked(next.stored) == []
  }

  /** The guard under which one visit keeps every message exactly once: the lock was not
      obtained, or nothing parked was unreadable, what had to be written was, and parked
      messages were released by an acceptable result only. */
  predicate Clean(d: Desk, a: Arrival, f: Faults) {
    var parked := Parked(d.stored) != [];
    f.locked ==>
      match a
      case Business(_) =>
        if !parked && d.stored.Some? && f.read then true else f.written && (f.read || !parked)
      case Trace(body) =>
        if !parked then true else if f.read then f.written && Acceptable(body) else !f.written
  }

  lemma RegularVisit(d: Desk, a: Arrival, f: Faults)
    requires Regular(d.stored) && (a.Business? ==> Arrives(a.payload))
    ensures Regular(Visit(d, a, f).stored)
  {
  }

  lemma {:induction false} TextsOne(cells: seq<Cell>, p: Payload)
    ensures Texts(cells + [Text(p)]) == Texts(cells) + [p]
  {
    assert (cells + [Text(p)])[..|cells|] == cells;
  }

  ghost predicate AllParked(cells: seq<Cell>) { forall c :: c in cells ==> c.Text? && Arrives(c.payload) }

  ghost predicate Readable(cells: seq<Cell>) {
    AsCells(Texts(cells)) == cells && forall p :: p in Texts(cells) ==> Arrives(p)
  }

  lemma {:induction false} ReadableSnoc(cells: seq<Cell>, p: Payload)
    requires Readable(cells) && Arrives(p)
    ensures Readable(cells + [Text(p)])
  {
    TextsOne(cells, p);
    Snoc(Texts(cells), p, FRESH);
  }

  lemma ParkedFront(cells: seq<Cell>)
    requires cells != [] && AllParked(cells)
    ensures var front, last := cells[..|cells| - 1], cells[|cells| - 1];
            AllParked(front) && last.Text? && Arrives(last.payload) && cells == front + [Text(last.payload)]
  {
    var front, last := cells[..|cells| - 1], cells[|cells| - 1];
    assert last in cells && forall c :: c in front ==> c in cells;
  }

  lemma {:induction false} ParkedIsReadable(cells: seq<Cell>)
    requires AllParked(cells)
    ensures Readable(cells)
  {
    if cells != [] {
      ParkedFront(cells);
      ParkedIsReadable(cells[..|cells| - 1]);
      ReadableSnoc(cells[..|cells| - 1], cells[|cells| - 1].payload);
    }
  }

  lemma {:induction false} TextsOf(cells: seq<Cell>)
    requires forall c :: c in cells ==> c.Text? && Arrives(c.payload)
    ensures AsCells(Texts(cells)) == cells && forall p :: p in Texts(cells) ==> Arrives(p)
  {
    ParkedIsReadable(cells);
  }

  lemma {:induction false} CleanBusinessIff(d: Desk, p: Payload, f: Faults)
    requires Regular(d.stored) && Arrives(p)
    ensures var a, next := Business(p), Visit(d, Business(p), f);
            Undropped(d, next) && Unduplicated(d, a, f, next) <==> Clean(d, a, f)
  {
    TextsOf(Parked(d.stored));
    assert Release([], Garbled) == ([], []);
    ReleaseParked(Texts(Parked(d.stored)), Garbled);
  }

  lemma {:induction false} CleanTraceIff(d: Desk, body: TraceBody, f: Faults)
    requires Regular(d.stored)
    ensures var a, next := Trace(body), Visit(d, Trace(body), f);
            Undropped(d, next) && Unduplicated(d, a, f, next) <==> Clean(d, a, f)
  {
    TextsOf(Parked(d.stored));
    assert Release([], body) == ([], []);
    ReleaseParked(Texts(Parked(d.stored)), body);
  }

  /** One faulty visit, exactly: it neither drops nor duplicates a message if and only if the
      guard holds. In particular a failed write after WAIT loses the message, a failed read
      loses everything parked, and a failed write after a release duplicates it. */
  lemma {:induction false} CleanIff(d: Desk, a: Arrival, f: Faults)
    requires Regular(d.stored) && (a.Business? ==> Arrives(a.payload))
    ensures var next := Visit(d, a, f);
            Undropped(d, next) && Unduplicated(d, a, f, next) <==> Clean(d, a, f)
  {
    match a
    case Business(p) => CleanBusinessIff(d, p, f);
    case Trace(body) => CleanTraceIff(d, body, f);
  }
}
