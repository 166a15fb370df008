/**
 The interleaved rendezvous when leases may run out at any moment: a session may then write over
 a value that is no longer the one it read. The books of the messages under every such run: what
 stale writes remove and what they enter again.
 */
module ExpiredLeases {
  import opened Wrappers
  import opened Stages
  import opened TraceResult
  import opened Rendezvous
  import opened LockedRendezvous

  /** Messages reach the rendezvous. */
  predicate Messages(arrivals: seq<Arrival>) {
    forall i :: 0 <= i < |arrivals| && arrivals[i].Business? ==> Arrives(arrivals[i].payload)
  }

  /** And the trace results are acceptable. */
  predicate Proper(arrivals: seq<Arrival>) {
    forall i :: 0 <= i < |arrivals| ==>
      if arrivals[i].Business? then Arrives(arrivals[i].payload) else Acceptable(arrivals[i].body)
  }

  // ---------- the books ----------

  function Cells(stored: Option<Stored>): multiset<Payload> { multiset(Texts(Parked(stored))) }

  /** Every entry for a message: gone on, or parked. */
  function Entries(s: System): multiset<Payload> {
    multiset(Names(s.out)) + Cells(s.stored)
  }

  /** What one session stands for in the books: its message once it has decided to wait or handed
      it on, and what it has released but not yet taken from the value. */
  function Due(a: Arrival, pc: Pc): multiset<Payload> {
    if a.Business? then (if Settled(pc) then multiset{a.payload} else multiset{})
    else if pc.Holding? && pc.next <= |ReplyTo(pc.seen, a).release| then
      multiset(Texts(ReplyTo(pc.seen, a).release[..pc.next]))
    else multiset{}
  }

  function AllDue(arrivals: seq<Arrival>, pcs: seq<Pc>): multiset<Payload>
    requires |arrivals| == |pcs|
  {
    if pcs == [] then multiset{}
    else
      var last := |pcs| - 1;
      AllDue(arrivals[..last], pcs[..last]) + Due(arrivals[last], pcs[last])
  }

  // ---------- stale writes ----------

  /** Session `i` is about to write. */
  predicate Writes(arrivals: seq<Arrival>, s: System, e: Event)
    requires |s.pcs| == |arrivals|
  {
    && e.Run? && e.session < |arrivals| && s.pcs[e.session].Holding?
    && var reply := ReplyTo(s.pcs[e.session].seen, arrivals[e.session]);
       s.pcs[e.session].next >= |reply.release| && reply.write.Some?
  }

  /** The guard: what is parked when a session writes is what was parked when it read. */
  predicate Current(arrivals: seq<Arrival>, s: System, e: Event)
    requires |s.pcs| == |arrivals|
  {
    Writes(arrivals, s, e) ==> Cells(s.stored) == Cells(s.pcs[e.session].seen)
  }

  /** What a stale write removes unseen. */
  function Lost(arrivals: seq<Arrival>, s: System, e: Event): multiset<Payload>
    requires |s.pcs| == |arrivals|
  {
    if Writes(arrivals, s, e) then Cells(s.stored) - Cells(s.pcs[e.session].seen) else multiset{}
  }

  /** What a stale write enters again: a message put back, or released although it had gone. */
  function Revived(arrivals: seq<Arrival>, s: System, e: Event): multiset<Payload>
    requires |s.pcs| == |arrivals|
  {
    if Writes(arrivals, s, e) then Cells(s.pcs[e.session].seen) - Cells(s.stored) else multiset{}
  }

  lemma CurrentIff(arrivals: seq<Arrival>, s: System, e: Event)
    requires |s.pcs| == |arrivals|
    ensures Current(arrivals, s, e) <==>
              Lost(arrivals, s, e) == multiset{} && Revived(arrivals, s, e) == multiset{}
  {
    if Writes(arrivals, s, e) && Lost(arrivals, s, e) == multiset{} == Revived(arrivals, s, e) {
      var a, b := Cells(s.stored), Cells(s.pcs[e.session].seen);
      forall p ensures a[p] == b[p] {
        assert (a - b)[p] == 0 && (b - a)[p] == 0;
      }
    }
  }

  // ---------- one step ----------

  /** Values stay regular without any lease. */
  predicate Usable(a: Arrival, pc: Pc) {
    pc.Holding? ==> Regular(pc.seen) && pc.next <= |ReplyTo(pc.seen, a).release|
  }

  ghost predicate Safe(arrivals: seq<Arrival>, s: System) {
    && |s.pcs| == |arrivals|
    && Regular(s.stored)
    && forall i :: 0 <= i < |s.pcs| ==> Usable(arrivals[i], s.pcs[i])
  }

  lemma {:induction false} StepKeepsSafe(arrivals: seq<Arrival>, s: System, e: Event)
    requires Messages(arrivals) && Safe(arrivals, s)
    ensures Safe(arrivals, Step(arrivals, s, e))
  {
    if e.Run? && e.session < |arrivals| {
      assert Usable(arrivals[e.session], s.pcs[e.session]);
    }
  }

  lemma Swap(x: multiset<Payload>, y: multiset<Payload>, z: multiset<Payload>)
    ensures x + y + z == x + z + y
  {
  }

  lemma CarryOver(x: multiset<Payload>, y: multiset<Payload>, d: multiset<Payload>, a: multiset<Payload>, b: multiset<Payload>)
    requires x + a == y + b
    ensures x + d + a == y + d + b
  {
    Swap(x, d, a);
    Swap(y, d, b);
  }

  lemma {:induction false} DueAtLast(arrivals: seq<Arrival>, pcs: seq<Pc>, pc: Pc)
    requires |arrivals| == |pcs| > 0
    ensures var last := |pcs| - 1;
            AllDue(arrivals, pcs[last := pc]) == AllDue(arrivals[..last], pcs[..last]) + Due(arrivals[last], pc)
  {
    var last := |pcs| - 1;
    assert pcs[last := pc][..last] == pcs[..last];
  }

  lemma {:induction false} DueBefore(arrivals: seq<Arrival>, pcs: seq<Pc>, i: nat, pc: Pc)
    requires |arrivals| == |pcs| && i < |pcs| - 1
    ensures var last := |pcs| - 1;
            AllDue(arrivals, pcs[i := pc]) ==
              AllDue(arrivals[..last], pcs[..last][i := pc]) + Due(arrivals[last], pcs[last])
  {
    var last := |pcs| - 1;
    assert pcs[i := pc][..last] == pcs[..last][i := pc];
  }

  /** Only the session that runs changes what it stands for. */
  lemma {:induction false} DueAt(arrivals: seq<Arrival>, pcs: seq<Pc>, i: nat, pc: Pc)
    requires |arrivals| == |pcs| && i < |pcs|
    ensures AllDue(arrivals, pcs[i := pc]) + Due(arrivals[i], pcs[i]) ==
              AllDue(arrivals, pcs) + Due(arrivals[i], pc)
  {
    var last := |pcs| - 1;
    var front := AllDue(arrivals[..last], pcs[..last]);
    if i == last {
      DueAtLast(arrivals, pcs, pc);
      Swap(front, Due(arrivals[i], pc), Due(arrivals[i], pcs[i]));
    } else {
      DueAt(arrivals[..last], pcs[..last], i, pc);
      DueBefore(arrivals, pcs, i, pc);
      CarryOver(AllDue(arrivals[..last], pcs[..last][i := pc]), front, Due(arrivals[last], pcs[last]),
                Due(arrivals[i], pcs[i]), Due(arrivals[i], pc));
    }
  }

  /** The books of the session that runs. */
  predicate Booked(a: Arrival, s: System, t: System, before: Pc, after: Pc,
                   lost: multiset<Payload>, revived: multiset<Payload>)
  {
    Entries(t) + lost + Due(a, before) == Entries(s) + revived + Due(a, after)
  }

  lemma TextsNext(cells: seq<Cell>, n: nat, p: Payload)
    requires n < |cells| && cells[n] == Text(p)
    ensures multiset(Texts(cells[..n + 1])) == multiset(Texts(cells[..n])) + multiset{p}
  {
    assert cells[..n + 1][..n] == cells[..n];
  }

  /** The next cell of a releasing session goes on. */
  lemma DispatchOut(arrivals: seq<Arrival>, s: System, i: nat) returns (p: Payload)
    requires Proper(arrivals) && Safe(arrivals, s) && i < |arrivals| && s.pcs[i].Holding?
    requires s.pcs[i].next < |ReplyTo(s.pcs[i].seen, arrivals[i]).release|
    ensures arrivals[i].Trace? && ReplyTo(s.pcs[i].seen, arrivals[i]).release[s.pcs[i].next] == Text(p)
    ensures Step(arrivals, s, Run(i)) ==
              s.(out := s.out + [Continue(p, ReadInto(Some(arrivals[i].body)))],
                 pcs := s.pcs[i := s.pcs[i].(next := s.pcs[i].next + 1)])
  {
    var a, pc := arrivals[i], s.pcs[i];
    assert Usable(a, pc);
    var cells := ReplyTo(pc.seen, a).release;
    assert cells == Parked(pc.seen) && cells[pc.next] in cells;
    p := cells[pc.next].payload;
    ReleaseOne(p, a.body);
  }

  lemma {:induction false} DispatchBooked(arrivals: seq<Arrival>, s: System, i: nat)
    requires Proper(arrivals) && Safe(arrivals, s) && i < |arrivals| && s.pcs[i].Holding?
    requires s.pcs[i].next < |ReplyTo(s.pcs[i].seen, arrivals[i]).release|
    ensures var t := Step(arrivals, s, Run(i));
            Booked(arrivals[i], s, t, s.pcs[i], t.pcs[i], multiset{}, multiset{})
  {
    var p := DispatchOut(arrivals, s, i);
    var cells := ReplyTo(s.pcs[i].seen, arrivals[i]).release;
    var c := Continue(p, ReadInto(Some(arrivals[i].body)));
    TextsNext(cells, s.pcs[i].next, p);
    OneMoreOut(s, Step(arrivals, s, Run(i)), c);
    Passing(Entries(s), multiset{p}, multiset(Texts(cells[..s.pcs[i].next])));
  }

  lemma {:induction false} OneMoreOut(s: System, t: System, c: Continued)
    requires t.out == s.out + [c] && t.stored == s.stored
    ensures Entries(t) == Entries(s) + multiset{c.payload}
  {
    NamesSnoc(s.out, c);
  }

  lemma Passing(entries: multiset<Payload>, p: multiset<Payload>, due: multiset<Payload>)
    ensures entries + p + multiset{} + due == entries + multiset{} + (due + p)
  {
  }

  lemma ParkSum(out: multiset<Payload>, now: multiset<Payload>, seen: multiset<Payload>, p: multiset<Payload>)
    ensures out + (seen + p) + (now - seen) + multiset{} == out + now + (seen - now) + p
  {
  }

  lemma ReleaseSum(out: multiset<Payload>, now: multiset<Payload>, seen: multiset<Payload>)
    ensures out + multiset{} + (now - seen) + seen == out + now + (seen - now) + multiset{}
  {
  }

  lemma WriteStep(arrivals: seq<Arrival>, s: System, i: nat)
    requires |s.pcs| == |arrivals| && i < |arrivals| && Writes(arrivals, s, Run(i))
    ensures var reply := ReplyTo(s.pcs[i].seen, arrivals[i]);
            Step(arrivals, s, Run(i)) == s.(stored := reply.write, pcs := s.pcs[i := Written(reply.wait, reply.read)])
  {
  }

  lemma ParkBooked(p: Payload, s: System, t: System, pc: Pc, after: Pc)
    requires pc.Holding? && Regular(pc.seen) && ReplyTo(pc.seen, Business(p)).write.Some?
    requires t.out == s.out && t.stored == ReplyTo(pc.seen, Business(p)).write
    requires after.Written? && after.wait == ReplyTo(pc.seen, Business(p)).wait
    ensures Booked(Business(p), s, t, pc, after, Cells(s.stored) - Cells(pc.seen), Cells(pc.seen) - Cells(s.stored))
  {
    ParkedAfter(pc.seen, p);
    ParkSum(multiset(Names(s.out)), Cells(s.stored), Cells(pc.seen), multiset{p});
  }

  lemma TakeBooked(body: TraceBody, s: System, t: System, pc: Pc, after: Pc)
    requires pc.Holding? && Regular(pc.seen) && ReplyTo(pc.seen, Trace(body)).write.Some?
    requires pc.next == |ReplyTo(pc.seen, Trace(body)).release|
    requires t.out == s.out && t.stored == ReplyTo(pc.seen, Trace(body)).write && after.Written?
    ensures Booked(Trace(body), s, t, pc, after, Cells(s.stored) - Cells(pc.seen), Cells(pc.seen) - Cells(s.stored))
  {
    ReleasedAfter(pc.seen, body);
    DueAtWrite(pc.seen, body, pc);
    ReleaseSum(multiset(Names(s.out)), Cells(s.stored), Cells(pc.seen));
  }

  /** The write of a session that has released all it saw. */
  lemma WriteBooked(arrivals: seq<Arrival>, s: System, i: nat)
    requires Proper(arrivals) && Safe(arrivals, s) && i < |arrivals| && Writes(arrivals, s, Run(i))
    ensures var t := Step(arrivals, s, Run(i));
            Booked(arrivals[i], s, t, s.pcs[i], t.pcs[i], Lost(arrivals, s, Run(i)), Revived(arrivals, s, Run(i)))
  {
    assert Usable(arrivals[i], s.pcs[i]);
    WriteStep(arrivals, s, i);
    var t := Step(arrivals, s, Run(i));
    match arrivals[i]
    case Business(p) => ParkBooked(p, s, t, s.pcs[i], t.pcs[i]);
    case Trace(body) => TakeBooked(body, s, t, s.pcs[i], t.pcs[i]);
  }

  lemma DueAtWrite(seen: Option<Stored>, body: TraceBody, pc: Pc)
    requires Regular(seen) && ReplyTo(seen, Trace(body)).write.Some?
    requires pc.Holding? && pc.seen == seen && pc.next == |ReplyTo(seen, Trace(body)).release|
    ensures Due(Trace(body), pc) == Cells(seen)
  {
    ReleasedAfter(seen, body);
    assert Parked(seen)[..pc.next] == Parked(seen);
  }

  lemma OneMoreCell(messages: seq<Cell>, p: Payload)
    ensures multiset(Texts(messages + [Text(p)])) == multiset(Texts(messages)) + multiset{p}
  {
    assert (messages + [Text(p)])[..|messages|] == messages;
  }

  lemma {:induction false} ParkedAfter(seen: Option<Stored>, p: Payload)
    requires Regular(seen) && ReplyTo(seen, Business(p)).write.Some?
    ensures var reply := ReplyTo(seen, Business(p));
            reply.wait && reply.release == [] && Cells(reply.write) == Cells(seen) + multiset{p}
  {
    OneMoreCell(Parked(seen), p);
    assert seen.None? ==> Parked(seen) + [Text(p)] == [Text(p)];
  }

  lemma ReleasedAfter(seen: Option<Stored>, body: TraceBody)
    requires Regular(seen) && ReplyTo(seen, Trace(body)).write.Some?
    ensures var reply := ReplyTo(seen, Trace(body));
            reply.release == Parked(seen) && Cells(reply.write) == multiset{}
  {
  }

  predicate HandsOn(a: Arrival, pc: Pc) { pc.Unlocked? && !pc.wait && a.Business? }

  /** Any other step of a session leaves the value alone; only a message handed on goes out. */
  lemma OtherStep(arrivals: seq<Arrival>, s: System, i: nat)
    requires |s.pcs| == |arrivals| && i < |arrivals| && !Writes(arrivals, s, Run(i))
    requires s.pcs[i].Holding? ==> s.pcs[i].next >= |ReplyTo(s.pcs[i].seen, arrivals[i]).release|
    ensures var a, pc, t := arrivals[i], s.pcs[i], Step(arrivals, s, Run(i));
            && t.stored == s.stored
            && t.out == s.out + (if HandsOn(a, pc) then [Continue(a.payload, ReadInto(pc.read))] else [])
            && (t.pcs[i] == pc
                || (pc.Start? && t.pcs[i] == Locked)
                || (pc.Locked? && t.pcs[i] == Holding(s.stored, 0))
                || (pc.Holding? && t.pcs[i] == Written(ReplyTo(pc.seen, a).wait, ReplyTo(pc.seen, a).read))
                || (pc.Written? && t.pcs[i] == Unlocked(pc.wait, pc.read))
                || (pc.Unlocked? && t.pcs[i] == if pc.wait then Waiting else Passed))
  {
  }

  lemma {:induction false} SameDue(a: Arrival, pc: Pc, after: Pc, stored: Option<Stored>)
    requires Usable(a, pc) && !HandsOn(a, pc)
    requires pc.Holding? ==> ReplyTo(pc.seen, a).write.None?
    requires || after == pc
             || (pc.Start? && after == Locked)
             || (pc.Locked? && after == Holding(stored, 0))
             || (pc.Holding? && after == Written(ReplyTo(pc.seen, a).wait, ReplyTo(pc.seen, a).read))
             || (pc.Written? && after == Unlocked(pc.wait, pc.read))
             || (pc.Unlocked? && after == if pc.wait then Waiting else Passed)
    ensures Due(a, after) == Due(a, pc)
  {
    if pc.Holding? {
      QuietHolding(a, pc);
    } else if pc.Locked? {
      NothingReleasedYet(a, stored);
    }
  }

  lemma {:induction false} NothingReleasedYet(a: Arrival, seen: Option<Stored>)
    ensures Due(a, Holding(seen, 0)) == multiset{} == Due(a, Locked)
  {
    assert ReplyTo(seen, a).release[..0] == [];
  }

  /** A session that found the key decided has nothing to release and nothing to write. */
  lemma QuietHolding(a: Arrival, pc: Pc)
    requires pc.Holding? && Usable(a, pc) && ReplyTo(pc.seen, a).write.None?
    ensures !ReplyTo(pc.seen, a).wait && ReplyTo(pc.seen, a).release == [] && Due(a, pc) == multiset{}
  {
  }

  lemma HandedOn(entries: multiset<Payload>, p: multiset<Payload>)
    ensures entries + p + multiset{} + multiset{} == entries + multiset{} + p
  {
  }

  lemma {:induction false} HandsOnBooked(arrivals: seq<Arrival>, s: System, i: nat)
    requires Safe(arrivals, s) && i < |arrivals| && HandsOn(arrivals[i], s.pcs[i])
    ensures var t := Step(arrivals, s, Run(i));
            Booked(arrivals[i], s, t, s.pcs[i], t.pcs[i], multiset{}, multiset{})
  {
    var a := arrivals[i];
    var c := Continue(a.payload, ReadInto(s.pcs[i].read));
    OtherStep(arrivals, s, i);
    OneMoreOut(s, Step(arrivals, s, Run(i)), c);
    HandedOn(Entries(s), multiset{a.payload});
  }

  lemma {:induction false} OtherBooked(arrivals: seq<Arrival>, s: System, i: nat)
    requires Safe(arrivals, s) && i < |arrivals| && !Writes(arrivals, s, Run(i))
    requires s.pcs[i].Holding? ==> s.pcs[i].next >= |ReplyTo(s.pcs[i].seen, arrivals[i]).release|
    ensures var t := Step(arrivals, s, Run(i));
            Booked(arrivals[i], s, t, s.pcs[i], t.pcs[i], multiset{}, multiset{})
  {
    if HandsOn(arrivals[i], s.pcs[i]) {
      HandsOnBooked(arrivals, s, i);
    } else {
      var t := Step(arrivals, s, Run(i));
      OtherStep(arrivals, s, i);
      assert t.out == s.out;
      assert Usable(arrivals[i], s.pcs[i]);
      SameDue(arrivals[i], s.pcs[i], t.pcs[i], s.stored);
    }
  }

  lemma OnlyOneMoves(arrivals: seq<Arrival>, s: System, i: nat)
    requires |s.pcs| == |arrivals| && i < |arrivals|
    ensures var t := Step(arrivals, s, Run(i)); |t.pcs| == |s.pcs| && t.pcs == s.pcs[i := t.pcs[i]]
  {
  }

  lemma MoveBooks(et: multiset<Payload>, es: multiset<Payload>, l: multiset<Payload>, r: multiset<Payload>,
                  before: multiset<Payload>, after: multiset<Payload>, ds: multiset<Payload>, dt: multiset<Payload>)
    requires et + l + before == es + r + after
    requires dt + before == ds + after
    ensures et + l + ds == es + r + dt
  {
    forall p ensures (et + l + ds)[p] == (es + r + dt)[p] {
      assert (et + l + before)[p] == (es + r + after)[p];
      assert (dt + before)[p] == (ds + after)[p];
    }
  }

  /** One step of any session, or a lease running out: what is in the books and what should be
      there change alike, but for what a stale write loses and revives. */
  lemma StepBooks(arrivals: seq<Arrival>, s: System, e: Event)
    requires Proper(arrivals) && Safe(arrivals, s)
    ensures var t := Step(arrivals, s, e);
            && |t.pcs| == |arrivals|
            && Entries(t) + Lost(arrivals, s, e) + AllDue(arrivals, s.pcs) ==
                 Entries(s) + Revived(arrivals, s, e) + AllDue(arrivals, t.pcs)
  {
    if e.Run? && e.session < |arrivals| {
      var i, t := e.session, Step(arrivals, s, e);
      if Writes(arrivals, s, e) {
        WriteBooked(arrivals, s, i);
      } else if s.pcs[i].Holding? && s.pcs[i].next < |ReplyTo(s.pcs[i].seen, arrivals[i]).release| {
        DispatchBooked(arrivals, s, i);
      } else {
        OtherBooked(arrivals, s, i);
      }
      OnlyOneMoves(arrivals, s, i);
      DueAt(arrivals, s.pcs, i, t.pcs[i]);
      MoveBooks(Entries(t), Entries(s), Lost(arrivals, s, e), Revived(arrivals, s, e),
                Due(arrivals[i], s.pcs[i]), Due(arrivals[i], t.pcs[i]), AllDue(arrivals, s.pcs), AllDue(arrivals, t.pcs));
    }
  }

  // ---------- runs ----------

  function LostFrom(arrivals: seq<Arrival>, s: System, events: seq<Event>): multiset<Payload>
    requires |s.pcs| == |arrivals|
    decreases |events|
  {
    if events == [] then multiset{}
    else Lost(arrivals, s, events[0]) + LostFrom(arrivals, Step(arrivals, s, events[0]), events[1..])
  }

  function RevivedFrom(arrivals: seq<Arrival>, s: System, events: seq<Event>): multiset<Payload>
    requires |s.pcs| == |arrivals|
    decreases |events|
  {
    if events == [] then multiset{}
    else Revived(arrivals, s, events[0]) + RevivedFrom(arrivals, Step(arrivals, s, events[0]), events[1..])
  }

  /** Every write of the run is over what its session read. */
  predicate AllCurrent(arrivals: seq<Arrival>, s: System, events: seq<Event>)
    requires |s.pcs| == |arrivals|
    decreases |events|
  {
    events != [] ==>
      Current(arrivals, s, events[0]) && AllCurrent(arrivals, Step(arrivals, s, events[0]), events[1..])
  }

  lemma AddBooks(e0: multiset<Payload>, e1: multiset<Payload>, e2: multiset<Payload>,
                 d0: multiset<Payload>, d1: multiset<Payload>, d2: multiset<Payload>,
                 l0: multiset<Payload>, l1: multiset<Payload>, r0: multiset<Payload>, r1: multiset<Payload>)
    requires e1 + l0 + d0 == e0 + r0 + d1
    requires e2 + l1 + d1 == e1 + r1 + d2
    ensures e2 + (l0 + l1) + d0 == e0 + (r0 + r1) + d2
  {
    forall p ensures (e2 + (l0 + l1) + d0)[p] == (e0 + (r0 + r1) + d2)[p] {
      assert (e1 + l0 + d0)[p] == (e0 + r0 + d1)[p];
      assert (e2 + l1 + d1)[p] == (e1 + r1 + d2)[p];
    }
  }

  lemma {:induction false} RunBooks(arrivals: seq<Arrival>, s: System, events: seq<Event>)
    requires Proper(arrivals) && Safe(arrivals, s)
    ensures var t := RunFrom(arrivals, s, events);
            && Safe(arrivals, t)
            && Entries(t) + LostFrom(arrivals, s, events) + AllDue(arrivals, s.pcs) ==
                 Entries(s) + RevivedFrom(arrivals, s, events) + AllDue(arrivals, t.pcs)
    decreases |events|
  {
    if events != [] {
      var e, rest := events[0], events[1..];
      var m := Step(arrivals, s, e);
      StepKeepsSafe(arrivals, s, e);
      StepBooks(arrivals, s, e);
      RunBooks(arrivals, m, rest);
      var t := RunFrom(arrivals, m, rest);
      AddBooks(Entries(s), Entries(m), Entries(t), AllDue(arrivals, s.pcs), AllDue(arrivals, m.pcs), AllDue(arrivals, t.pcs),
               Lost(arrivals, s, e), LostFrom(arrivals, m, rest), Revived(arrivals, s, e), RevivedFrom(arrivals, m, rest));
    }
  }

  lemma {:induction false} NothingDue(arrivals: seq<Arrival>, pcs: seq<Pc>)
    requires |arrivals| == |pcs| && forall i :: 0 <= i < |pcs| ==> pcs[i] == Start
    ensures AllDue(arrivals, pcs) == multiset{}
  {
    if pcs != [] {
      NothingDue(arrivals[..|pcs| - 1], pcs[..|pcs| - 1]);
    }
  }

  lemma {:induction false} AllMessagesDue(arrivals: seq<Arrival>, pcs: seq<Pc>)
    requires |arrivals| == |pcs| && forall i :: 0 <= i < |pcs| ==> pcs[i].Waiting? || pcs[i].Passed?
    ensures AllDue(arrivals, pcs) == multiset(Businesses(arrivals))
  {
    if pcs != [] {
      AllMessagesDue(arrivals[..|pcs| - 1], pcs[..|pcs| - 1]);
    }
  }

  lemma BeginBooks(arrivals: seq<Arrival>)
    ensures var s := Begin(|arrivals|);
            && Safe(arrivals, s)
            && Entries(s) == multiset{} == AllDue(arrivals, s.pcs)
  {
    NothingDue(arrivals, Begin(|arrivals|).pcs);
  }

  /** The books of every finished run, whenever leases run out: each message has gone on or is
      parked as often as it arrived, less what stale writes removed, and more by what they
      entered again. */
  lemma {:induction false} FinishedBooks(arrivals: seq<Arrival>, events: seq<Event>)
    requires Proper(arrivals) && Finished(RunFrom(arrivals, Begin(|arrivals|), events))
    ensures var s := Begin(|arrivals|);
            Entries(RunFrom(arrivals, s, events)) + LostFrom(arrivals, s, events) ==
              multiset(Businesses(arrivals)) + RevivedFrom(arrivals, s, events)
  {
    var s := Begin(|arrivals|);
    BeginBooks(arrivals);
    RunBooks(arrivals, s, events);
    var t := RunFrom(arrivals, s, events);
    AllMessagesDue(arrivals, t.pcs);
    FromNothing(Entries(t), LostFrom(arrivals, s, events), RevivedFrom(arrivals, s, events),
                multiset(Businesses(arrivals)), Entries(s), AllDue(arrivals, s.pcs));
  }

  lemma FromNothing(e: multiset<Payload>, l: multiset<Payload>, r: multiset<Payload>, d: multiset<Payload>,
                    e0: multiset<Payload>, d0: multiset<Payload>)
    requires e0 == multiset{} == d0 && e + l + d0 == e0 + r + d
    ensures e + l == d + r
  {
    forall p ensures (e + l)[p] == (d + r)[p] {
      assert (e + l + d0)[p] == (e0 + r + d)[p];
    }
  }

  /** In the end every message has gone on or is parked exactly once if and only if what stale
      writes removed is what they entered again. */
  lemma {:induction false} FinishedConservedIff(arrivals: seq<Arrival>, events: seq<Event>)
    requires Proper(arrivals) && Finished(RunFrom(arrivals, Begin(|arrivals|), events))
    ensures var s := Begin(|arrivals|);
            Entries(RunFrom(arrivals, s, events)) == multiset(Businesses(arrivals)) <==>
              LostFrom(arrivals, s, events) == RevivedFrom(arrivals, s, events)
  {
    var s := Begin(|arrivals|);
    FinishedBooks(arrivals, events);
    SameIff(Entries(RunFrom(arrivals, s, events)), multiset(Businesses(arrivals)),
            LostFrom(arrivals, s, events), RevivedFrom(arrivals, s, events));
  }

  lemma SameIff(e: multiset<Payload>, d: multiset<Payload>, l: multiset<Payload>, r: multiset<Payload>)
    requires e + l == d + r
    ensures e == d <==> l == r
  {
    forall p ensures e[p] + l[p] == d[p] + r[p] {
      assert (e + l)[p] == (d + r)[p];
    }
    if l == r {
      assert forall p :: e[p] == d[p];
    }
    if e == d {
      assert forall p :: l[p] == r[p];
    }
  }

  lemma {:induction false} CurrentRunIsConserved(arrivals: seq<Arrival>, s: System, events: seq<Event>)
    requires |s.pcs| == |arrivals| && AllCurrent(arrivals, s, events)
    ensures LostFrom(arrivals, s, events) == RevivedFrom(arrivals, s, events) == multiset{}
    decreases |events|
  {
    if events != [] {
      CurrentIff(arrivals, s, events[0]);
      CurrentRunIsConserved(arrivals, Step(arrivals, s, events[0]), events[1..]);
    }
  }

  /** Leases that last are enough for that. */
  lemma {:induction false} LastingIsCurrent(arrivals: seq<Arrival>, s: System, events: seq<Event>)
    requires Sound(arrivals) && LockInv(arrivals, s) && LeasesLast(arrivals, s, events)
    ensures AllCurrent(arrivals, s, events)
    decreases |events|
  {
    if events != [] {
      if Writes(arrivals, s, events[0]) {
        assert Excludes(arrivals, s, events[0].session);
      }
      StepKeepsLockInv(arrivals, s, events[0]);
      LastingIsCurrent(arrivals, Step(arrivals, s, events[0]), events[1..]);
    }
  }

  /** They are not needed: the lease of a lone session may run out without harm. */
  lemma {:induction false} LastingIsNotNeeded()
    ensures var a := [Business(Payload(1, BUSINESS_CAPTURE, true))];
            var events := [Run(0), Expire, Run(0), Run(0)];
            !LeasesLast(a, Begin(1), events) && AllCurrent(a, Begin(1), events)
  {
    var a := [Business(Payload(1, BUSINESS_CAPTURE, true))];
    var s := Begin(1);
    var s1, s2 := System(Some(0), None, [], [Locked]), System(None, None, [], [Locked]);
    var s3 := System(None, None, [], [Holding(None, 0)]);
    assert Step(a, s, Run(0)) == s1 && Step(a, s1, Expire) == s2 && Step(a, s2, Run(0)) == s3;
    var e := [Run(0), Expire, Run(0), Run(0)];
    assert e[1..] == [Expire, Run(0), Run(0)] && e[1..][1..] == [Run(0), Run(0)] && e[1..][1..][1..] == [Run(0)];
    assert !LeaseLongEnough(s1, Expire);
    assert !LeasesLast(a, s1, e[1..]);
    assert AllCurrent(a, Step(a, s3, Run(0)), []);
    assert AllCurrent(a, s3, [Run(0)]);
    assert AllCurrent(a, s2, [Run(0), Run(0)]);
    assert AllCurrent(a, s1, [Expire, Run(0), Run(0)]);
  }
}
