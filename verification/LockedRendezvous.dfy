/**
 The rendezvous with its steps interleaved: any number of sessions acquire the lock, read the
 key, release parked messages one at a time, write, unlock and go on, in any order. While no
 lease expires before its holder has written, every message goes on exactly once.
 */
module LockedRendezvous {
  import opened Wrappers
  import opened TraceResult
  import opened Stages
  import opened Rendezvous

  /** Where a session is. `Holding` has read `seen` and released the first `next` cells. After
      the write the session keeps what it decided. */
  datatype Pc =
    | Start
    | Locked
    | Holding(seen: Option<Stored>, next: nat)
    | Written(wait: bool, read: Option<TraceBody>)
    | Unlocked(wait: bool, read: Option<TraceBody>)
    | Waiting
    | Passed

  /** One key: who owns its lock, its value, the sessions pushed, and the sessions themselves. */
  datatype System = System(lock: Option<nat>, stored: Option<Stored>, out: seq<Continued>, pcs: seq<Pc>)

  datatype Event = Run(session: nat) | Expire

  function Begin(n: nat): System {
    System(None, None, [], seq(n, _ => Start))
  }

  function BodyOf(a: Arrival): TraceBody { if a.Trace? then a.body else Garbled }

  /** One atomic step of session `i`, or the lease running out. */
  function Step(arrivals: seq<Arrival>, s: System, e: Event): (t: System)
    requires |s.pcs| == |arrivals|
    ensures |t.pcs| == |arrivals|
  {
    match e
    case Expire => s.(lock := None)
    case Run(i) =>
      if i >= |arrivals| then s
      else
        var a := arrivals[i];
        match s.pcs[i]
        case Start => if s.lock.None? then s.(lock := Some(i), pcs := s.pcs[i := Locked]) else s
        case Locked => s.(pcs := s.pcs[i := Holding(s.stored, 0)])
        case Holding(seen, next) =>
          var reply := ReplyTo(seen, a);
          if next < |reply.release| then
            s.(out := s.out + Release([reply.release[next]], BodyOf(a)).0, pcs := s.pcs[i := Holding(seen, next + 1)])
          else
            s.(stored := if reply.write.Some? then reply.write else s.stored,
               pcs := s.pcs[i := Written(reply.wait, reply.read)])
        case Written(wait, read) =>
          s.(lock := if s.lock == Some(i) then None else s.lock, pcs := s.pcs[i := Unlocked(wait, read)])
        case Unlocked(wait, read) =>
          if wait then s.(pcs := s.pcs[i := Waiting])
          else
            s.(pcs := s.pcs[i := Passed],
               out := if a.Business? then s.out + [Continue(a.payload, ReadInto(read))] else s.out)
        case _ => s
  }

  predicate Inside(pc: Pc) { pc.Locked? || pc.Holding? }

  /** The lease does not run out on a session that has yet to write. */
  predicate LeaseLongEnough(s: System, e: Event) {
    e.Expire? && s.lock.Some? && s.lock.value < |s.pcs| ==> !Inside(s.pcs[s.lock.value])
  }

  // ---------- the invariant ----------

  /** Messages are distinct and reach the rendezvous. */
  predicate WellSent(arrivals: seq<Arrival>) {
    && (forall i :: 0 <= i < |arrivals| && arrivals[i].Business? ==> Arrives(arrivals[i].payload))
    && (forall i, j :: 0 <= i < j < |arrivals| && arrivals[i].Business? && arrivals[j].Business? ==>
          arrivals[i].payload != arrivals[j].payload)
  }

  /** And the trace results are acceptable. */
  predicate Sound(arrivals: seq<Arrival>) {
    && WellSent(arrivals)
    && forall i :: 0 <= i < |arrivals| && arrivals[i].Trace? ==> Acceptable(arrivals[i].body)
  }

  /** How many parked cells the trace session inside has already released. */
  function Released(arrivals: seq<Arrival>, s: System): nat
    requires |s.pcs| == |arrivals|
  {
    if s.lock.Some? && s.lock.value < |s.pcs| && s.pcs[s.lock.value].Holding? then s.pcs[s.lock.value].next else 0
  }

  /** The trace result that decides: the stored one, or that of the session releasing. */
  function Winner(arrivals: seq<Arrival>, s: System): Option<TraceBody>
    requires |s.pcs| == |arrivals|
  {
    if Released(arrivals, s) > 0 then Some(BodyOf(arrivals[s.lock.value])) else Decision(s.stored)
  }

  /** The messages that are out or parked and not released yet. */
  function Accounted(arrivals: seq<Arrival>, s: System): multiset<Payload>
    requires LockInv(arrivals, s)
  {
    multiset(Names(s.out)) + multiset(Texts(Parked(s.stored)[Released(arrivals, s)..]))
  }

  /** The session has decided to wait or has handed its message on. */
  predicate Settled(pc: Pc) {
    pc.Waiting? || pc.Passed? || ((pc.Written? || pc.Unlocked?) && pc.wait)
  }

  predicate SettledPayload(arrivals: seq<Arrival>, s: System, p: Payload)
    requires |s.pcs| == |arrivals|
  {
    exists i :: 0 <= i < |arrivals| && arrivals[i] == Business(p) && Settled(s.pcs[i])
  }

  /** What a session past the lock has seen. */
  predicate Informed(arrivals: seq<Arrival>, s: System, i: nat)
    requires i < |s.pcs| == |arrivals|
  {
    var pc := s.pcs[i];
    && (pc.Waiting? ==> arrivals[i].Business?)
    && ((pc.Written? || pc.Unlocked?) && pc.wait ==> arrivals[i].Business?)
    && ((((pc.Written? || pc.Unlocked?) && !pc.wait) || pc.Passed?) ==>
          Decision(s.stored).Some? &&
          (!pc.Passed? && arrivals[i].Business? ==> pc.read == Decision(s.stored)))
  }

  predicate Excludes(arrivals: seq<Arrival>, s: System, i: nat)
    requires i < |s.pcs| == |arrivals|
  {
    && (Inside(s.pcs[i]) ==> s.lock == Some(i))
    && (s.pcs[i].Holding? ==>
          s.pcs[i].seen == s.stored && s.pcs[i].next <= |ReplyTo(s.stored, arrivals[i]).release|)
  }

  /** At most one session is inside, it owns the lock, and it has read the current value. */
  predicate LockInv(arrivals: seq<Arrival>, s: System) {
    && |s.pcs| == |arrivals|
    && Regular(s.stored)
    && (forall i: nat :: i < |s.pcs| ==> Excludes(arrivals, s, i))
    && Released(arrivals, s) <= |Parked(s.stored)|
    && (forall i: nat :: i < |s.pcs| ==> Informed(arrivals, s, i))
  }

  /** Every message of a settled session is accounted for exactly once, and no other is; what
      is out carries the deciding trace result. */
  ghost predicate PlaceInv(arrivals: seq<Arrival>, s: System)
    requires LockInv(arrivals, s)
  {
    && (forall p :: Accounted(arrivals, s)[p] == if SettledPayload(arrivals, s, p) then 1 else 0)
    && AllFrom(s.out, Winner(arrivals, s))
  }

  ghost predicate Placed(arrivals: seq<Arrival>, s: System) {
    LockInv(arrivals, s) && PlaceInv(arrivals, s)
  }

  /** The result that decides is one that getPersonResult rejects, so what was parked is lost. */
  predicate Lossy(arrivals: seq<Arrival>, s: System)
    requires |s.pcs| == |arrivals|
  {
    Winner(arrivals, s).Some? && !Acceptable(Winner(arrivals, s).value)
  }

  predicate PassedPayload(arrivals: seq<Arrival>, s: System, p: Payload)
    requires |s.pcs| == |arrivals|
  {
    exists i :: 0 <= i < |arrivals| && arrivals[i] == Business(p) && s.pcs[i].Passed?
  }

  /** Then the messages that are out are those that were handed on by their own sessions. */
  ghost predicate LossyInv(arrivals: seq<Arrival>, s: System)
    requires |s.pcs| == |arrivals|
  {
    && (forall p :: multiset(Names(s.out))[p] == if PassedPayload(arrivals, s, p) then 1 else 0)
    && AllFrom(s.out, Winner(arrivals, s))
  }

  ghost predicate Inv(arrivals: seq<Arrival>, s: System) {
    LockInv(arrivals, s) && if Lossy(arrivals, s) then LossyInv(arrivals, s) else PlaceInv(arrivals, s)
  }

  // ---------- the steps ----------

  /** A decision is never taken back: a later trace result finds the key taken. */
  lemma DecisionStays(arrivals: seq<Arrival>, s: System, e: Event)
    requires LockInv(arrivals, s)
    ensures Decision(s.stored).Some? ==> Step(arrivals, s, e).stored == s.stored
  {
    if e.Run? && e.session < |arrivals| {
      assert Excludes(arrivals, s, e.session);
    }
  }

  lemma {:induction false} StepKeepsInformed(arrivals: seq<Arrival>, s: System, e: Event, j: nat)
    requires WellSent(arrivals) && LockInv(arrivals, s) && LeaseLongEnough(s, e) && j < |arrivals|
    ensures Informed(arrivals, Step(arrivals, s, e), j)
  {
    DecisionStays(arrivals, s, e);
    assert Informed(arrivals, s, j) && Excludes(arrivals, s, j);
  }

  lemma {:induction false} OwnStepExcludes(arrivals: seq<Arrival>, s: System, i: nat)
    requires LockInv(arrivals, s) && i < |arrivals|
    ensures Excludes(arrivals, Step(arrivals, s, Run(i)), i)
  {
    assert Excludes(arrivals, s, i);
  }

  /** A session inside keeps the others from changing lock and value. */
  lemma {:induction false} OtherStepExcludes(arrivals: seq<Arrival>, s: System, i: nat, j: nat)
    requires LockInv(arrivals, s) && i < |arrivals| && j < |arrivals| && i != j
    ensures Excludes(arrivals, Step(arrivals, s, Run(i)), j)
  {
    assert Excludes(arrivals, s, i) && Excludes(arrivals, s, j);
    assert Step(arrivals, s, Run(i)).pcs[j] == s.pcs[j];
  }

  lemma {:induction false} StepKeepsExcludes(arrivals: seq<Arrival>, s: System, e: Event, j: nat)
    requires WellSent(arrivals) && LockInv(arrivals, s) && LeaseLongEnough(s, e) && j < |arrivals|
    ensures Excludes(arrivals, Step(arrivals, s, e), j)
  {
    assert Excludes(arrivals, s, j);
    if e == Run(j) {
      OwnStepExcludes(arrivals, s, j);
    } else if e.Run? && e.session < |arrivals| {
      OtherStepExcludes(arrivals, s, e.session, j);
    }
  }

  lemma StepKeepsRegular(arrivals: seq<Arrival>, s: System, e: Event)
    requires WellSent(arrivals) && LockInv(arrivals, s) && LeaseLongEnough(s, e)
    ensures var t := Step(arrivals, s, e);
            Regular(t.stored) && |t.pcs| == |arrivals| && Released(arrivals, t) <= |Parked(t.stored)|
  {
    if e.Run? && e.session < |arrivals| {
      assert Excludes(arrivals, s, e.session);
    }
  }

  lemma StepKeepsLockInv(arrivals: seq<Arrival>, s: System, e: Event)
    requires WellSent(arrivals) && LockInv(arrivals, s) && LeaseLongEnough(s, e)
    ensures LockInv(arrivals, Step(arrivals, s, e))
  {
    StepKeepsRegular(arrivals, s, e);
    forall j: nat | j < |arrivals|
      ensures Informed(arrivals, Step(arrivals, s, e), j) && Excludes(arrivals, Step(arrivals, s, e), j)
    {
      StepKeepsInformed(arrivals, s, e, j);
      StepKeepsExcludes(arrivals, s, e, j);
    }
  }

  /** A step that changes neither what is out, nor what is parked and unreleased, nor who is
      settled. */
  predicate Quiet(arrivals: seq<Arrival>, s: System, t: System)
    requires LockInv(arrivals, s) && LockInv(arrivals, t)
  {
    && t.out == s.out
    && Texts(Parked(t.stored)[Released(arrivals, t)..]) == Texts(Parked(s.stored)[Released(arrivals, s)..])
    && (forall j :: 0 <= j < |s.pcs| ==> (Settled(t.pcs[j]) <==> Settled(s.pcs[j])))
    && (s.out != [] ==> Winner(arrivals, t) == Winner(arrivals, s))
  }

  /** The books balance as long as messages and settled sessions change together. */
  lemma BooksBalance(arrivals: seq<Arrival>, s: System, t: System)
    requires Placed(arrivals, s) && LockInv(arrivals, t)
    requires Accounted(arrivals, t) == Accounted(arrivals, s)
    requires forall p :: SettledPayload(arrivals, t, p) <==> SettledPayload(arrivals, s, p)
    requires AllFrom(t.out, Winner(arrivals, t))
    ensures PlaceInv(arrivals, t)
  {
  }

  lemma QuietKeepsPlace(arrivals: seq<Arrival>, s: System, t: System)
    requires Placed(arrivals, s) && LockInv(arrivals, t) && Quiet(arrivals, s, t)
    ensures PlaceInv(arrivals, t)
  {
    SameSettled(arrivals, s, t);
    BooksBalance(arrivals, s, t);
  }

  /** A step that settles session `i`: its message is added to what is out or parked. */
  lemma {:induction false} SettlingKeepsPlace(arrivals: seq<Arrival>, s: System, t: System, i: nat)
    requires WellSent(arrivals) && Placed(arrivals, s) && LockInv(arrivals, t)
    requires i < |arrivals| && arrivals[i].Business? && !Settled(s.pcs[i]) && Settled(t.pcs[i])
    requires forall j :: 0 <= j < |s.pcs| && j != i ==> t.pcs[j] == s.pcs[j]
    requires Accounted(arrivals, t) == Accounted(arrivals, s) + multiset{arrivals[i].payload}
    ensures forall p :: Accounted(arrivals, t)[p] == if SettledPayload(arrivals, t, p) then 1 else 0
  {
    var q := arrivals[i].payload;
    forall p ensures Accounted(arrivals, t)[p] == if SettledPayload(arrivals, t, p) then 1 else 0 {
      if p == q {
        assert arrivals[i] == Business(p) && Settled(t.pcs[i]);
        assert !SettledPayload(arrivals, s, p);
      } else {
        if SettledPayload(arrivals, s, p) {
          var j :| 0 <= j < |arrivals| && arrivals[j] == Business(p) && Settled(s.pcs[j]);
          assert Settled(t.pcs[j]);
        }
        if SettledPayload(arrivals, t, p) {
          var j :| 0 <= j < |arrivals| && arrivals[j] == Business(p) && Settled(t.pcs[j]);
          assert Settled(s.pcs[j]);
        }
      }
    }
  }

  lemma {:induction false} TextsConcat(a: seq<Cell>, b: seq<Cell>)
    ensures Texts(a + b) == Texts(a) + Texts(b)
  {
    if b == [] {
      assert a + b == a;
    } else {
      assert (a + b)[..|a + b| - 1] == a + b[..|b| - 1];
      TextsConcat(a, b[..|b| - 1]);
    }
  }

  lemma ReleaseOne(p: Payload, body: TraceBody)
    requires Arrives(p) && Acceptable(body)
    ensures Release([Text(p)], body).0 == [Continue(p, ReadInto(Some(body)))]
  {
    var r := ReadInto(Some(body));
    Snoc([], p, r);
    assert [] + [Text(p)] == [Text(p)] && [] + [Continue(p, r)] == [Continue(p, r)] && [] + [p] == [p];
    ReleaseParked([p], body);
  }

  lemma MoveOne(out: seq<Continued>, cells: seq<Cell>, n: nat, c: Continued)
    requires n < |cells| && cells[n] == Text(c.payload)
    ensures multiset(Names(out + [c])) + multiset(Texts(cells[n + 1..])) ==
            multiset(Names(out)) + multiset(Texts(cells[n..]))
  {
    NamesSnoc(out, c);
    assert cells[n..] == [cells[n]] + cells[n + 1..];
    TextsConcat([cells[n]], cells[n + 1..]);
    assert Texts([cells[n]]) == [c.payload];
    assert multiset(Texts(cells[n..])) == multiset{c.payload} + multiset(Texts(cells[n + 1..]));
  }

  /** Nothing is out before there is a deciding result. */
  lemma OutNeedsWinner(arrivals: seq<Arrival>, s: System)
    requires Placed(arrivals, s)
    ensures s.out != [] ==> Winner(arrivals, s).Some?
  {
    assert s.out != [] ==> s.out[0] == s.out[0];
  }

  /** Releasing a parked message takes it from the parked side and puts it on the other. */
  lemma DispatchKeepsPlace(arrivals: seq<Arrival>, s: System, i: nat)
    requires WellSent(arrivals) && Placed(arrivals, s)
    requires i < |arrivals| && s.pcs[i].Holding? && s.pcs[i].next < |ReplyTo(s.pcs[i].seen, arrivals[i]).release|
    requires LockInv(arrivals, Step(arrivals, s, Run(i))) && !Lossy(arrivals, Step(arrivals, s, Run(i)))
    ensures PlaceInv(arrivals, Step(arrivals, s, Run(i)))
  {
    assert Excludes(arrivals, s, i);
    var t := Step(arrivals, s, Run(i));
    var n := s.pcs[i].next;
    var p := Parked(s.stored)[n].payload;
    assert Parked(s.stored)[n] in Parked(s.stored);
    ReleaseOne(p, arrivals[i].body);
    DispatchBooks(arrivals, s, t, i, p);
  }

  lemma {:induction false} DispatchBooks(arrivals: seq<Arrival>, s: System, t: System, i: nat, p: Payload)
    requires Placed(arrivals, s) && LockInv(arrivals, t)
    requires i < |arrivals| && arrivals[i].Trace? && s.lock == Some(i) && s.pcs[i].Holding?
    requires s.pcs[i].next < |Parked(s.stored)| && Parked(s.stored)[s.pcs[i].next] == Text(p)
    requires t == s.(pcs := s.pcs[i := s.pcs[i].(next := s.pcs[i].next + 1)],
                     out := s.out + [Continue(p, ReadInto(Some(arrivals[i].body)))])
    ensures PlaceInv(arrivals, t)
  {
    var winner := Some(arrivals[i].body);
    OutNeedsWinner(arrivals, s);
    AllFromSnoc(s.out, winner, p);
    DispatchAccounted(arrivals, s, t, i, p);
    SameSettled(arrivals, s, t);
    BooksBalance(arrivals, s, t);
  }

  lemma DispatchAccounted(arrivals: seq<Arrival>, s: System, t: System, i: nat, p: Payload)
    requires LockInv(arrivals, s) && LockInv(arrivals, t)
    requires i < |arrivals| && s.lock == t.lock == Some(i) && s.pcs[i].Holding? && t.pcs[i].Holding?
    requires t.pcs[i].next == s.pcs[i].next + 1 <= |Parked(s.stored)| && t.stored == s.stored
    requires Parked(s.stored)[s.pcs[i].next] == Text(p)
    requires t.out == s.out + [Continue(p, ReadInto(Some(BodyOf(arrivals[i]))))]
    ensures Accounted(arrivals, t) == Accounted(arrivals, s)
  {
    MoveOne(s.out, Parked(s.stored), s.pcs[i].next, Continue(p, ReadInto(Some(BodyOf(arrivals[i])))));
  }

  lemma SameSettled(arrivals: seq<Arrival>, s: System, t: System)
    requires |s.pcs| == |t.pcs| == |arrivals|
    requires forall j :: 0 <= j < |s.pcs| ==> (Settled(t.pcs[j]) <==> Settled(s.pcs[j]))
    ensures forall p :: SettledPayload(arrivals, t, p) <==> SettledPayload(arrivals, s, p)
  {
  }

  lemma ParkOne(cells: seq<Cell>, p: Payload)
    ensures multiset(Texts(cells + [Text(p)])) == multiset(Texts(cells)) + multiset{p}
  {
    assert (cells + [Text(p)])[..|cells|] == cells;
    assert Texts(cells + [Text(p)]) == Texts(cells) + [p];
  }

  /** A message that finds no decision is parked by the write. */
  lemma ParkKeepsPlace(arrivals: seq<Arrival>, s: System, t: System, i: nat)
    requires WellSent(arrivals) && Placed(arrivals, s) && LockInv(arrivals, t)
    requires i < |arrivals| && arrivals[i].Business? && !Settled(s.pcs[i])
    requires Decision(s.stored).None? && Released(arrivals, s) == 0 == Released(arrivals, t)
    requires t == s.(pcs := s.pcs[i := Written(true, None)], stored := t.stored)
    requires Parked(t.stored) == Parked(s.stored) + [Text(arrivals[i].payload)]
    ensures PlaceInv(arrivals, t)
  {
    ParkOne(Parked(s.stored), arrivals[i].payload);
    assert Parked(s.stored)[0..] == Parked(s.stored) && Parked(t.stored)[0..] == Parked(t.stored);
    SettlingKeepsPlace(arrivals, s, t, i);
    OutNeedsWinner(arrivals, s);
  }

  /** Any other write leaves nothing parked that was not released. */
  lemma DecideKeepsPlace(arrivals: seq<Arrival>, s: System, t: System, i: nat)
    requires WellSent(arrivals) && Placed(arrivals, s) && LockInv(arrivals, t)
    requires i < |arrivals| && !Settled(s.pcs[i]) && !Settled(t.pcs[i]) && t.out == s.out
    requires forall j :: 0 <= j < |s.pcs| && j != i ==> t.pcs[j] == s.pcs[j]
    requires Released(arrivals, s) == |Parked(s.stored)| && Parked(t.stored) == []
    requires Winner(arrivals, s).Some? ==> Winner(arrivals, t) == Winner(arrivals, s)
    ensures PlaceInv(arrivals, t)
  {
    OutNeedsWinner(arrivals, s);
    assert Parked(s.stored)[Released(arrivals, s)..] == [];
    QuietKeepsPlace(arrivals, s, t);
  }

  lemma PutKeepsPlace(arrivals: seq<Arrival>, s: System, i: nat)
    requires WellSent(arrivals) && Placed(arrivals, s)
    requires i < |arrivals| && s.pcs[i].Holding? && s.pcs[i].next >= |ReplyTo(s.pcs[i].seen, arrivals[i]).release|
    requires LockInv(arrivals, Step(arrivals, s, Run(i)))
    ensures PlaceInv(arrivals, Step(arrivals, s, Run(i)))
  {
    assert Excludes(arrivals, s, i);
    var t := Step(arrivals, s, Run(i));
    assert t.pcs[i].Written? && Released(arrivals, t) == 0;
    if arrivals[i].Business? && Decision(s.stored).None? {
      ParkKeepsPlace(arrivals, s, t, i);
    } else {
      DecideKeepsPlace(arrivals, s, t, i);
    }
  }

  lemma ForwardKeepsPlace(arrivals: seq<Arrival>, s: System, i: nat)
    requires WellSent(arrivals) && Placed(arrivals, s)
    requires i < |arrivals| && s.pcs[i].Unlocked? && !s.pcs[i].wait
    requires LockInv(arrivals, Step(arrivals, s, Run(i)))
    ensures PlaceInv(arrivals, Step(arrivals, s, Run(i)))
  {
    var t := Step(arrivals, s, Run(i));
    assert Informed(arrivals, s, i);
    assert Released(arrivals, s) == Released(arrivals, t);
    if arrivals[i].Business? {
      ForwardBusiness(arrivals, s, t, i, s.pcs[i].read);
    } else {
      TraceSettlesNothing(arrivals, s, t, i);
      BooksBalance(arrivals, s, t);
    }
  }

  lemma ForwardBusiness(arrivals: seq<Arrival>, s: System, t: System, i: nat, read: Option<TraceBody>)
    requires WellSent(arrivals) && Placed(arrivals, s) && LockInv(arrivals, t)
    requires i < |arrivals| && arrivals[i].Business? && !Settled(s.pcs[i]) && read.Some?
    requires t == s.(pcs := s.pcs[i := Passed], out := s.out + [Continue(arrivals[i].payload, ReadInto(read))])
    requires Released(arrivals, s) == Released(arrivals, t)
    requires Winner(arrivals, s) == Winner(arrivals, t) == read
    ensures PlaceInv(arrivals, t)
  {
    var p := arrivals[i].payload;
    NamesSnoc(s.out, Continue(p, ReadInto(read)));
    AllFromSnoc(s.out, read, p);
    assert Accounted(arrivals, t) == Accounted(arrivals, s) + multiset{p};
    SettlingKeepsPlace(arrivals, s, t, i);
  }

  lemma TraceSettlesNothing(arrivals: seq<Arrival>, s: System, t: System, i: nat)
    requires |s.pcs| == |t.pcs| == |arrivals| && i < |arrivals| && arrivals[i].Trace?
    requires forall j :: 0 <= j < |s.pcs| && j != i ==> t.pcs[j] == s.pcs[j]
    ensures forall p :: SettledPayload(arrivals, t, p) <==> SettledPayload(arrivals, s, p)
  {
  }

  lemma {:induction false} StepKeepsInv(arrivals: seq<Arrival>, s: System, e: Event)
    requires WellSent(arrivals) && Inv(arrivals, s) && LeaseLongEnough(s, e)
    ensures Inv(arrivals, Step(arrivals, s, e))
  {
    StepKeepsLockInv(arrivals, s, e);
    if Lossy(arrivals, s) {
      LossyStep(arrivals, s, e);
    } else if Lossy(arrivals, Step(arrivals, s, e)) {
      TurnsLossy(arrivals, s, e);
    } else if !e.Run? || e.session >= |arrivals| {
      QuietKeepsPlace(arrivals, s, Step(arrivals, s, e));
    } else {
      RunKeepsPlace(arrivals, s, e.session);
    }
  }

  lemma RunKeepsPlace(arrivals: seq<Arrival>, s: System, i: nat)
    requires WellSent(arrivals) && Placed(arrivals, s) && i < |arrivals|
    requires LockInv(arrivals, Step(arrivals, s, Run(i))) && !Lossy(arrivals, Step(arrivals, s, Run(i)))
    ensures PlaceInv(arrivals, Step(arrivals, s, Run(i)))
  {
    var pc := s.pcs[i];
    if pc.Holding? {
      if pc.next < |ReplyTo(pc.seen, arrivals[i]).release| {
        DispatchKeepsPlace(arrivals, s, i);
      } else {
        PutKeepsPlace(arrivals, s, i);
      }
    } else if pc.Unlocked? && !pc.wait {
      ForwardKeepsPlace(arrivals, s, i);
    } else {
      QuietRun(arrivals, s, i);
    }
  }

  lemma ReleasedStays(arrivals: seq<Arrival>, s: System, i: nat)
    requires LockInv(arrivals, s) && i < |arrivals|
    requires !s.pcs[i].Holding? && !(s.pcs[i].Unlocked? && !s.pcs[i].wait)
    ensures var t := Step(arrivals, s, Run(i));
            && t.out == s.out && t.stored == s.stored
            && Released(arrivals, t) == Released(arrivals, s)
            && (Released(arrivals, s) > 0 ==> t.lock == s.lock)
            && (forall j :: 0 <= j < |s.pcs| ==> (Settled(t.pcs[j]) <==> Settled(s.pcs[j])))
  {
    assert Excludes(arrivals, s, i);
  }

  lemma SameIsQuiet(arrivals: seq<Arrival>, s: System, t: System)
    requires LockInv(arrivals, s) && LockInv(arrivals, t)
    requires t.out == s.out && t.stored == s.stored
    requires Released(arrivals, t) == Released(arrivals, s)
    requires Released(arrivals, s) > 0 ==> t.lock == s.lock
    requires forall j :: 0 <= j < |s.pcs| ==> (Settled(t.pcs[j]) <==> Settled(s.pcs[j]))
    ensures Quiet(arrivals, s, t)
  {
  }

  lemma QuietRun(arrivals: seq<Arrival>, s: System, i: nat)
    requires Placed(arrivals, s) && i < |arrivals|
    requires !s.pcs[i].Holding? && !(s.pcs[i].Unlocked? && !s.pcs[i].wait)
    requires LockInv(arrivals, Step(arrivals, s, Run(i)))
    ensures PlaceInv(arrivals, Step(arrivals, s, Run(i)))
  {
    ReleasedStays(arrivals, s, i);
    SameIsQuiet(arrivals, s, Step(arrivals, s, Run(i)));
    QuietKeepsPlace(arrivals, s, Step(arrivals, s, Run(i)));
  }

  // ---------- a rejected result ----------

  /** Once a result decides, no other does. */
  lemma {:induction false} WinnerStays(arrivals: seq<Arrival>, s: System, e: Event)
    requires LockInv(arrivals, s) && LeaseLongEnough(s, e)
    ensures Winner(arrivals, s).Some? ==> Winner(arrivals, Step(arrivals, s, e)) == Winner(arrivals, s)
  {
    if e.Run? && e.session < |arrivals| {
      assert Excludes(arrivals, s, e.session);
    }
  }

  /** What a step puts out: a parked message released, or the session's own. */
  lemma {:induction false} StepOut(arrivals: seq<Arrival>, s: System, e: Event)
    requires LockInv(arrivals, s)
    ensures var t := Step(arrivals, s, e);
            || t.out == s.out
            || (e.Run? && e.session < |arrivals| && s.pcs[e.session].Holding? && t.pcs[e.session].Holding?
                && s.lock == Some(e.session) == t.lock
                && exists cells :: t.out == s.out + Release(cells, BodyOf(arrivals[e.session])).0)
            || (e.Run? && e.session < |arrivals| && s.pcs[e.session].Unlocked? && !s.pcs[e.session].wait
                && arrivals[e.session].Business? && t.stored == s.stored
                && t.out == s.out + [Continue(arrivals[e.session].payload, ReadInto(s.pcs[e.session].read))])
  {
    if e.Run? && e.session < |arrivals| {
      assert Excludes(arrivals, s, e.session);
      var pc := s.pcs[e.session];
      if pc.Holding? {
        var release := ReplyTo(pc.seen, arrivals[e.session]).release;
        if pc.next < |release| {
          assert Step(arrivals, s, e).out == s.out + Release([release[pc.next]], BodyOf(arrivals[e.session])).0;
        }
      }
    }
  }

  /** Only the session that runs can pass. */
  lemma {:induction false} StepPassed(arrivals: seq<Arrival>, s: System, e: Event, j: nat)
    requires |s.pcs| == |arrivals| && j < |arrivals|
    ensures Step(arrivals, s, e).pcs[j].Passed? <==>
              s.pcs[j].Passed? || (e == Run(j) && s.pcs[j].Unlocked? && !s.pcs[j].wait)
  {
  }

  lemma {:induction false} SamePassed(arrivals: seq<Arrival>, s: System, t: System)
    requires |s.pcs| == |t.pcs| == |arrivals|
    requires forall j :: 0 <= j < |arrivals| && arrivals[j].Business? ==> (t.pcs[j].Passed? <==> s.pcs[j].Passed?)
    ensures forall p :: PassedPayload(arrivals, t, p) <==> PassedPayload(arrivals, s, p)
  {
  }

  lemma {:induction false} LossyForward(arrivals: seq<Arrival>, s: System, t: System, i: nat, p: Payload, w: Option<TraceBody>)
    requires WellSent(arrivals) && |s.pcs| == |t.pcs| == |arrivals| && LossyInv(arrivals, s)
    requires i < |arrivals| && arrivals[i] == Business(p) && !s.pcs[i].Passed? && t.pcs == s.pcs[i := Passed]
    requires t.out == s.out + [Continue(p, ReadInto(w))] && w.Some?
    requires Winner(arrivals, s) == Winner(arrivals, t) == w
    ensures LossyInv(arrivals, t)
  {
    NamesSnoc(s.out, Continue(p, ReadInto(w)));
    AllFromSnoc(s.out, w, p);
    forall q ensures multiset(Names(t.out))[q] == if PassedPayload(arrivals, t, q) then 1 else 0 {
      if q == p {
        assert arrivals[i] == Business(q) && t.pcs[i].Passed?;
        assert !PassedPayload(arrivals, s, q);
      } else {
        assert PassedPayload(arrivals, t, q) <==> PassedPayload(arrivals, s, q) by {
          if PassedPayload(arrivals, s, q) {
            var j :| 0 <= j < |arrivals| && arrivals[j] == Business(q) && s.pcs[j].Passed?;
            assert t.pcs[j].Passed?;
          }
        }
      }
    }
  }

  lemma {:induction false} LossyQuiet(arrivals: seq<Arrival>, s: System, t: System)
    requires |s.pcs| == |t.pcs| == |arrivals| && LossyInv(arrivals, s)
    requires t.out == s.out && Winner(arrivals, t) == Winner(arrivals, s)
    requires forall j :: 0 <= j < |arrivals| && arrivals[j].Business? ==> (t.pcs[j].Passed? <==> s.pcs[j].Passed?)
    ensures LossyInv(arrivals, t)
  {
    SamePassed(arrivals, s, t);
  }

  lemma {:induction false} LossyStep(arrivals: seq<Arrival>, s: System, e: Event)
    requires WellSent(arrivals) && Inv(arrivals, s) && Lossy(arrivals, s) && LeaseLongEnough(s, e)
    ensures Lossy(arrivals, Step(arrivals, s, e)) && LossyInv(arrivals, Step(arrivals, s, e))
  {
    var t := Step(arrivals, s, e);
    WinnerStays(arrivals, s, e);
    forall j: nat | j < |arrivals|
      ensures t.pcs[j].Passed? <==> s.pcs[j].Passed? || (e == Run(j) && s.pcs[j].Unlocked? && !s.pcs[j].wait)
    {
      StepPassed(arrivals, s, e, j);
    }
    if Forwards(arrivals, s, e) {
      var i := e.session;
      assert Informed(arrivals, s, i) && Excludes(arrivals, s, i);
      ForwardWinner(arrivals, s, i);
      LossyForward(arrivals, s, t, i, arrivals[i].payload, s.pcs[i].read);
    } else {
      LossyOut(arrivals, s, e);
      LossyQuiet(arrivals, s, t);
    }
  }

  predicate Forwards(arrivals: seq<Arrival>, s: System, e: Event)
    requires |s.pcs| == |arrivals|
  {
    && e.Run? && e.session < |arrivals| && arrivals[e.session].Business?
    && s.pcs[e.session].Unlocked? && !s.pcs[e.session].wait
  }

  /** A session that hands its message on has read the result that decides. */
  lemma {:induction false} ForwardWinner(arrivals: seq<Arrival>, s: System, i: nat)
    requires LockInv(arrivals, s) && Forwards(arrivals, s, Run(i))
    ensures s.pcs[i].read.Some? && Winner(arrivals, s) == s.pcs[i].read
    ensures Step(arrivals, s, Run(i)) ==
              s.(pcs := s.pcs[i := Passed], out := s.out + [Continue(arrivals[i].payload, ReadInto(s.pcs[i].read))])
  {
    assert Informed(arrivals, s, i);
    if s.lock.Some? && s.lock.value < |s.pcs| {
      assert Excludes(arrivals, s, s.lock.value);
    }
  }

  /** A rejected result releases nothing. */
  lemma {:induction false} LossyOut(arrivals: seq<Arrival>, s: System, e: Event)
    requires LockInv(arrivals, s) && !Forwards(arrivals, s, e) && LeaseLongEnough(s, e)
    requires Lossy(arrivals, Step(arrivals, s, e))
    ensures Step(arrivals, s, e).out == s.out
  {
    StepOut(arrivals, s, e);
    var t := Step(arrivals, s, e);
    if t.out != s.out {
      var cells :| t.out == s.out + Release(cells, BodyOf(arrivals[e.session])).0;
      ReleasedBy(arrivals, s, e.session);
      ReleaseRejected(cells, BodyOf(arrivals[e.session]));
    }
  }

  lemma {:induction false} ReleasedBy(arrivals: seq<Arrival>, s: System, i: nat)
    requires LockInv(arrivals, s) && i < |arrivals| && s.pcs[i].Holding?
    requires Step(arrivals, s, Run(i)).pcs[i].Holding?
    ensures Winner(arrivals, Step(arrivals, s, Run(i))) == Some(BodyOf(arrivals[i]))
  {
    assert Excludes(arrivals, s, i);
  }

  /** A rejected result comes to decide: nothing has gone on before it. */
  lemma {:induction false} TurnsLossy(arrivals: seq<Arrival>, s: System, e: Event)
    requires Placed(arrivals, s) && !Lossy(arrivals, s) && LeaseLongEnough(s, e)
    requires Lossy(arrivals, Step(arrivals, s, e))
    ensures LossyInv(arrivals, Step(arrivals, s, e))
  {
    var t := Step(arrivals, s, e);
    WinnerStays(arrivals, s, e);
    OutNeedsWinner(arrivals, s);
    if Forwards(arrivals, s, e) {
      ForwardWinner(arrivals, s, e.session);
    }
    LossyOut(arrivals, s, e);
    forall i: nat | i < |arrivals| && arrivals[i].Business? ensures !t.pcs[i].Passed? {
      StepPassed(arrivals, s, e, i);
      assert Informed(arrivals, s, i);
    }
  }

  // ---------- runs ----------

  function RunFrom(arrivals: seq<Arrival>, s: System, events: seq<Event>): (t: System)
    requires |s.pcs| == |arrivals|
    ensures |t.pcs| == |arrivals|
    decreases |events|
  {
    if events == [] then s else RunFrom(arrivals, Step(arrivals, s, events[0]), events[1..])
  }

  predicate LeasesLast(arrivals: seq<Arrival>, s: System, events: seq<Event>)
    requires |s.pcs| == |arrivals|
    decreases |events|
  {
    events != [] ==>
      LeaseLongEnough(s, events[0]) && LeasesLast(arrivals, Step(arrivals, s, events[0]), events[1..])
  }

  predicate DecisionArrived(arrivals: seq<Arrival>, s: System) {
    Decision(s.stored).Some? ==> Trace(Decision(s.stored).value) in arrivals
  }

  lemma {:induction false} RunKeepsInv(arrivals: seq<Arrival>, s: System, events: seq<Event>)
    requires WellSent(arrivals) && Inv(arrivals, s) && DecisionArrived(arrivals, s)
    requires LeasesLast(arrivals, s, events)
    ensures var t := RunFrom(arrivals, s, events);
            Inv(arrivals, t) && DecisionArrived(arrivals, t)
    decreases |events|
  {
    if events != [] {
      StepKeepsInv(arrivals, s, events[0]);
      StepKeepsDecision(arrivals, s, events[0]);
      RunKeepsInv(arrivals, Step(arrivals, s, events[0]), events[1..]);
    }
  }

  lemma StepKeepsDecision(arrivals: seq<Arrival>, s: System, e: Event)
    requires LockInv(arrivals, s) && DecisionArrived(arrivals, s)
    ensures DecisionArrived(arrivals, Step(arrivals, s, e))
  {
    if e.Run? && e.session < |arrivals| {
      assert Excludes(arrivals, s, e.session);
      assert arrivals[e.session] in arrivals;
    }
  }

  lemma BeginIsInv(arrivals: seq<Arrival>)
    ensures Inv(arrivals, Begin(|arrivals|)) && DecisionArrived(arrivals, Begin(|arrivals|))
  {
    var s := Begin(|arrivals|);
    assert LockInv(arrivals, s);
    assert forall p :: !SettledPayload(arrivals, s, p);
  }

  predicate Finished(s: System) {
    forall i :: 0 <= i < |s.pcs| ==> s.pcs[i].Waiting? || s.pcs[i].Passed?
  }

  lemma {:induction false} CountDistinct(arrivals: seq<Arrival>, p: Payload)
    requires WellSent(arrivals)
    ensures multiset(arrivals)[Business(p)] == if Business(p) in arrivals then 1 else 0
  {
    if arrivals != [] {
      var front, last := arrivals[..|arrivals| - 1], arrivals[|arrivals| - 1];
      CountDistinct(front, p);
      assert arrivals == front + [last];
    }
  }

  lemma AllFromFront(out: seq<Continued>, winner: Option<TraceBody>)
    requires out != [] && AllFrom(out, winner)
    ensures AllFrom(out[..|out| - 1], winner)
    ensures out[|out| - 1] == Continue(out[|out| - 1].payload, ReadInto(winner))
  {
  }

  lemma {:induction false} OutIsContinued(out: seq<Continued>, winner: Option<TraceBody>)
    requires AllFrom(out, winner)
    ensures out == ContinueAll(Names(out), ReadInto(winner))
  {
    if out != [] {
      var front, last := out[..|out| - 1], out[|out| - 1];
      AllFromFront(out, winner);
      OutIsContinued(front, winner);
      Snoc(Names(front), last.payload, ReadInto(winner));
      assert out == front + [last];
    }
  }

  /** The end of a run: a trace session is done, so its result or an earlier one decided. */
  lemma {:induction false} EndDecided(arrivals: seq<Arrival>, s: System)
    requires LockInv(arrivals, s) && Finished(s)
    requires exists i :: 0 <= i < |arrivals| && arrivals[i].Trace?
    ensures s.stored == Some(Typed(TRACE, [], Decision(s.stored))) && Decision(s.stored).Some?
    ensures Released(arrivals, s) == 0 && Parked(s.stored) == []
  {
    var i :| 0 <= i < |arrivals| && arrivals[i].Trace?;
    assert Informed(arrivals, s, i);
  }

  lemma {:induction false} EndSettled(arrivals: seq<Arrival>, s: System, p: Payload)
    requires WellSent(arrivals) && LockInv(arrivals, s) && Finished(s)
    ensures multiset(Businesses(arrivals))[p] == if SettledPayload(arrivals, s, p) then 1 else 0
  {
    CountBusinesses(arrivals);
    CountDistinct(arrivals, p);
    if Business(p) in arrivals {
      var j :| 0 <= j < |arrivals| && arrivals[j] == Business(p);
      assert Settled(s.pcs[j]);
    }
  }

  lemma {:induction false} EndAccounted(arrivals: seq<Arrival>, s: System)
    requires WellSent(arrivals) && Placed(arrivals, s) && Finished(s)
    requires Released(arrivals, s) == 0 && Parked(s.stored) == []
    ensures multiset(Names(s.out)) == multiset(Businesses(arrivals))
  {
    assert Accounted(arrivals, s) == multiset(Names(s.out));
    forall p ensures multiset(Names(s.out))[p] == multiset(Businesses(arrivals))[p] {
      EndSettled(arrivals, s, p);
    }
  }

  lemma {:induction false} EndContinued(out: seq<Continued>, ps: seq<Payload>, w: Option<TraceBody>)
    requires AllFrom(out, w) && multiset(Names(out)) == multiset(ps)
    ensures multiset(out) == multiset(ContinueAll(ps, ReadInto(w)))
  {
    OutIsContinued(out, w);
    ContinueAllMultiset(Names(out), ps, ReadInto(w));
  }

  lemma {:induction false} EndState(arrivals: seq<Arrival>, s: System)
    requires WellSent(arrivals) && Placed(arrivals, s) && Finished(s)
    requires exists i :: 0 <= i < |arrivals| && arrivals[i].Trace?
    ensures var w := Decision(s.stored);
            && w.Some? && s.stored == Some(Typed(TRACE, [], w))
            && multiset(s.out) == multiset(ContinueAll(Businesses(arrivals), ReadInto(w)))
  {
    EndDecided(arrivals, s);
    EndAccounted(arrivals, s);
    EndContinued(s.out, Businesses(arrivals), Decision(s.stored));
  }

  /** In every lease-lasting run the deciding result is one that arrived, and nothing else is out
      than what carries it. */
  lemma EndOfRun(arrivals: seq<Arrival>, events: seq<Event>)
    requires WellSent(arrivals) && LeasesLast(arrivals, Begin(|arrivals|), events)
    ensures var s := RunFrom(arrivals, Begin(|arrivals|), events);
            Inv(arrivals, s) && DecisionArrived(arrivals, s)
  {
    BeginIsInv(arrivals);
    RunKeepsInv(arrivals, Begin(|arrivals|), events);
  }

  /** Under every interleaving in which leases last: once all sessions are done and at least
      one of them brought a trace result, one of these results decided, nothing is parked, and
      the sessions pushed are exactly the messages, each once, each with that result. */
  lemma EveryMessageGoesOnOnce(arrivals: seq<Arrival>, events: seq<Event>)
    requires Sound(arrivals) && LeasesLast(arrivals, Begin(|arrivals|), events)
    requires Finished(RunFrom(arrivals, Begin(|arrivals|), events))
    requires exists i :: 0 <= i < |arrivals| && arrivals[i].Trace?
    ensures var s := RunFrom(arrivals, Begin(|arrivals|), events);
            var w := Decision(s.stored);
            && w.Some? && Trace(w.value) in arrivals && s.stored == Some(Typed(TRACE, [], w))
            && multiset(s.out) == multiset(ContinueAll(Businesses(arrivals), ReadInto(w)))
  {
    var s := RunFrom(arrivals, Begin(|arrivals|), events);
    EndOfRun(arrivals, events);
    EndDecided(arrivals, s);
    var i :| 0 <= i < |arrivals| && arrivals[i] == Trace(Decision(s.stored).value);
    EndState(arrivals, s);
  }

  lemma {:induction false} NothingReleased(arrivals: seq<Arrival>, s: System)
    requires LockInv(arrivals, s) && Released(arrivals, s) == 0 && s.out == []
    ensures Accounted(arrivals, s) == multiset(Texts(Parked(s.stored)))
  {
    assert Parked(s.stored)[0..] == Parked(s.stored);
  }

  /** Without a trace result everybody waits, and what is parked are all the messages. */
  lemma {:induction false} EndWithoutTrace(arrivals: seq<Arrival>, s: System)
    requires WellSent(arrivals) && Inv(arrivals, s) && DecisionArrived(arrivals, s) && Finished(s)
    requires forall i :: 0 <= i < |arrivals| ==> arrivals[i].Business?
    ensures s.out == [] && Decision(s.stored).None?
    ensures multiset(Texts(Parked(s.stored))) == multiset(Businesses(arrivals))
  {
    assert forall a :: a in arrivals ==> a.Business?;
    OutNeedsWinner(arrivals, s);
    assert Released(arrivals, s) == 0;
    NothingReleased(arrivals, s);
    forall p ensures Accounted(arrivals, s)[p] == multiset(Businesses(arrivals))[p] {
      EndSettled(arrivals, s, p);
    }
  }

  /** Without the lease condition a message is lost: the first session's lease expires between
      its read and its write, and its write removes what the second session parked. */
  lemma {:induction false} ExpiredLeaseLosesMessage()
    ensures var p, q := Payload(1, BUSINESS_CAPTURE, true), Payload(2, BUSINESS_CAPTURE, true);
            var s := RunFrom([Business(p), Business(q)], Begin(2),
                             [Run(0), Run(0), Expire, Run(1), Run(1), Run(1), Run(0)]);
            && s.pcs[1] == Written(true, None)
            && s.out == [] && Parked(s.stored) == [Text(p)]
  {
    var p, q := Payload(1, BUSINESS_CAPTURE, true), Payload(2, BUSINESS_CAPTURE, true);
    var a := [Business(p), Business(q)];
    var end := [Run(1), Run(1), Run(1), Run(0)];
    assert [Run(0), Run(0), Expire, Run(1), Run(1), Run(1), Run(0)] == [Run(0), Run(0), Expire] + end;
    ReadAndExpire(p, q, end);
    StaleWrite(p, q);
  }

  const STALE := System(None, None, [], [Holding(None, 0), Start])

  /** The first session reads, and its lease runs out. */
  lemma {:induction false} ReadAndExpire(p: Payload, q: Payload, rest: seq<Event>)
    ensures RunFrom([Business(p), Business(q)], Begin(2), [Run(0), Run(0), Expire] + rest) ==
              RunFrom([Business(p), Business(q)], STALE, rest)
  {
    var a, s0 := [Business(p), Business(q)], Begin(2);
    var s1 := System(Some(0), None, [], [Locked, Start]);
    var s2 := s1.(pcs := [Holding(None, 0), Start]);
    assert Step(a, s0, Run(0)) == s1 && Step(a, s1, Run(0)) == s2 && Step(a, s2, Expire) == STALE;
    assert [Run(0), Run(0), Expire] + rest == [Run(0)] + ([Run(0)] + ([Expire] + rest));
    Unfold(a, s2, Expire, rest);
    Unfold(a, s1, Run(0), [Expire] + rest);
    Unfold(a, s0, Run(0), [Run(0)] + ([Expire] + rest));
  }

  /** The second session parks its message, and the first writes over it. */
  lemma {:induction false} StaleWrite(p: Payload, q: Payload)
    ensures RunFrom([Business(p), Business(q)], STALE, [Run(1), Run(1), Run(1), Run(0)]) ==
              System(Some(1), Some(Typed(BUSINESS, [Text(p)], None)), [], [Written(true, None), Written(true, None)])
  {
    var a := [Business(p), Business(q)];
    var s4 := System(Some(1), None, [], [Holding(None, 0), Locked]);
    var s5 := s4.(pcs := [Holding(None, 0), Holding(None, 0)]);
    var s6 := s5.(stored := Some(Typed(BUSINESS, [Text(q)], None)), pcs := [Holding(None, 0), Written(true, None)]);
    var s7 := s6.(stored := Some(Typed(BUSINESS, [Text(p)], None)), pcs := [Written(true, None), Written(true, None)]);
    assert Step(a, STALE, Run(1)) == s4 && Step(a, s4, Run(1)) == s5;
    assert Step(a, s5, Run(1)) == s6 && Step(a, s6, Run(0)) == s7;
    assert [Run(1)] + [Run(1), Run(1), Run(0)] == [Run(1), Run(1), Run(1), Run(0)];
    assert RunFrom(a, s6, [Run(0)]) == s7;
    Unfold(a, s5, Run(1), [Run(0)]);
    Unfold(a, s4, Run(1), [Run(1), Run(0)]);
    Unfold(a, STALE, Run(1), [Run(1), Run(1), Run(0)]);
  }

  lemma Unfold(a: seq<Arrival>, s: System, e: Event, rest: seq<Event>)
    requires |s.pcs| == |a|
    ensures RunFrom(a, s, [e] + rest) == RunFrom(a, Step(a, s, e), rest)
  {
    assert ([e] + rest)[1..] == rest;
  }
}
