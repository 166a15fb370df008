/**
 Exactly when no message goes on twice and none is lost, with sessions interleaved step by step,
 while leases may run out at any moment and locks, reads and writes may fail: the guards on
 releasing a parked message and on writing the value, for one step and over whole runs.
 */
module LeaseGuards {
  import opened Wrappers
  import opened TraceResult
  import opened Rendezvous
  import opened LockedRendezvous
  import opened ExpiredLeases

  // ---------- what is to be kept ----------

  /** No message has gone on twice. */
  ghost predicate Once(s: System) {
    forall p :: multiset(Names(s.out))[p] <= 1
  }

  predicate Somewhere(s: System, p: Payload) { p in Names(s.out) || p in Texts(Parked(s.stored)) }

  /** Every message whose session was told to wait or handed it on has gone on or is parked. */
  predicate NoneLost(arrivals: seq<Arrival>, s: System)
    requires |s.pcs| == |arrivals|
  {
    forall i :: 0 <= i < |arrivals| && arrivals[i].Business? && Settled(s.pcs[i]) ==> Somewhere(s, arrivals[i].payload)
  }

  ghost predicate Conserved(arrivals: seq<Arrival>, s: System)
    requires |s.pcs| == |arrivals|
  {
    Once(s) && NoneLost(arrivals, s)
  }

  // ---------- the guards ----------

  /** Session `i` is about to hand on a parked message. */
  predicate Dispatches(arrivals: seq<Arrival>, s: System, i: nat)
    requires |s.pcs| == |arrivals|
  {
    && i < |arrivals| && s.pcs[i].Holding?
    && s.pcs[i].next < |ReplyTo(s.pcs[i].seen, arrivals[i]).release|
  }

  /** The message in the cell has not gone on: no other session has released it, and it was not
      put back after it had gone. */
  predicate Unsent(s: System, cell: Cell) {
    cell.Text? ==> cell.payload !in Names(s.out)
  }

  /** What is parked when a session writes has gone on, or was among what the session read, which a
      message puts back and an acceptable trace result has released. */
  predicate Covered(arrivals: seq<Arrival>, s: System, i: nat, p: Payload)
    requires |s.pcs| == |arrivals| && i < |arrivals| && s.pcs[i].Holding?
  {
    || p in Names(s.out)
    || (p in Texts(Parked(s.pcs[i].seen)) && (arrivals[i].Business? || Acceptable(arrivals[i].body)))
  }

  predicate Guarded(arrivals: seq<Arrival>, s: System, e: Event)
    requires |s.pcs| == |arrivals|
  {
    e.Run? ==>
      var i := e.session;
      if Dispatches(arrivals, s, i) then
        Acceptable(BodyOf(arrivals[i])) ==> Unsent(s, ReplyTo(s.pcs[i].seen, arrivals[i]).release[s.pcs[i].next])
      else
        Writes(arrivals, s, e) ==> forall p :: p in Texts(Parked(s.stored)) ==> Covered(arrivals, s, i, p)
  }

  // ---------- where messages come from ----------

  /** What a session inside has read are messages of settled sessions; those it has released have
      gone on, if its result is acceptable. */
  predicate Traced(arrivals: seq<Arrival>, s: System, i: nat)
    requires i < |s.pcs| == |arrivals|
  {
    s.pcs[i].Holding? ==>
      && (forall p :: p in Texts(Parked(s.pcs[i].seen)) ==> SettledPayload(arrivals, s, p))
      && (arrivals[i].Trace? && Acceptable(arrivals[i].body) && s.pcs[i].next <= |Parked(s.pcs[i].seen)| ==>
            forall p :: p in Texts(Parked(s.pcs[i].seen)[..s.pcs[i].next]) ==> p in Names(s.out))
  }

  ghost predicate Known(arrivals: seq<Arrival>, s: System) {
    && Safe(arrivals, s)
    && (forall p :: Somewhere(s, p) ==> SettledPayload(arrivals, s, p))
    && (forall i :: 0 <= i < |arrivals| ==> Traced(arrivals, s, i))
  }

  /** A message is settled by its own session alone. */
  lemma OwnSession(arrivals: seq<Arrival>, s: System, i: nat)
    requires WellSent(arrivals) && |s.pcs| == |arrivals| && i < |arrivals| && arrivals[i].Business?
    ensures SettledPayload(arrivals, s, arrivals[i].payload) <==> Settled(s.pcs[i])
  {
  }

  // ---------- the four kinds of steps ----------

  lemma {:induction false} ReleaseIsParked(seen: Option<Stored>, a: Arrival)
    requires Regular(seen)
    ensures ReplyTo(seen, a).release == if a.Trace? then Parked(seen) else []
  {
  }

  lemma {:induction false} DispatchStep(arrivals: seq<Arrival>, s: System, i: nat) returns (p: Payload)
    requires WellSent(arrivals) && Safe(arrivals, s) && Dispatches(arrivals, s, i)
    ensures arrivals[i].Trace? && s.pcs[i].next < |Parked(s.pcs[i].seen)| && Parked(s.pcs[i].seen)[s.pcs[i].next] == Text(p)
    ensures ReplyTo(s.pcs[i].seen, arrivals[i]).release == Parked(s.pcs[i].seen)
    ensures Step(arrivals, s, Run(i)) ==
              s.(out := s.out + (if Acceptable(arrivals[i].body) then [Continue(p, ReadInto(Some(arrivals[i].body)))] else []),
                 pcs := s.pcs[i := s.pcs[i].(next := s.pcs[i].next + 1)])
  {
    var pc := s.pcs[i];
    assert Usable(arrivals[i], pc);
    ReleaseIsParked(pc.seen, arrivals[i]);
    var cell := Parked(pc.seen)[pc.next];
    assert cell in Parked(pc.seen);
    p := cell.payload;
    if Acceptable(arrivals[i].body) {
      ReleaseOne(p, arrivals[i].body);
    } else {
      ReleaseRejected([cell], arrivals[i].body);
    }
  }

  /** Any step settles no session but the one that runs, and unsettles none. */
  lemma {:induction false} SettledGrows(arrivals: seq<Arrival>, s: System, e: Event)
    requires |s.pcs| == |arrivals|
    ensures var t := Step(arrivals, s, e);
            && (forall j :: 0 <= j < |arrivals| ==> Settled(s.pcs[j]) ==> Settled(t.pcs[j]))
            && (forall j :: 0 <= j < |arrivals| && e != Run(j) ==> t.pcs[j] == s.pcs[j])
            && (forall p :: SettledPayload(arrivals, s, p) ==> SettledPayload(arrivals, t, p))
  {
    var t := Step(arrivals, s, e);
    forall p | SettledPayload(arrivals, s, p) ensures SettledPayload(arrivals, t, p) {
      var j :| 0 <= j < |arrivals| && arrivals[j] == Business(p) && Settled(s.pcs[j]);
      assert Settled(t.pcs[j]);
    }
  }

  lemma {:induction false} TextsTake(cells: seq<Cell>, n: nat, p: Payload)
    requires n < |cells| && cells[n] == Text(p)
    ensures Texts(cells[..n + 1]) == Texts(cells[..n]) + [p]
  {
    assert cells[..n + 1] == cells[..n] + [Text(p)];
    TextsOne(cells[..n], p);
  }

  lemma {:induction false} TextsMember(cells: seq<Cell>, n: nat)
    requires n < |cells| && cells[n].Text?
    ensures cells[n].payload in Texts(cells)
  {
    var p := cells[n].payload;
    TextsTake(cells, n, p);
    assert cells == cells[..n + 1] + cells[n + 1..];
    TextsConcat(cells[..n + 1], cells[n + 1..]);
    assert Texts(cells)[|Texts(cells[..n])|] == p;
  }

  // ---------- where messages come from, step by step ----------

  lemma {:induction false} KnownDispatch(arrivals: seq<Arrival>, s: System, i: nat)
    requires WellSent(arrivals) && Known(arrivals, s) && Dispatches(arrivals, s, i)
    requires Safe(arrivals, Step(arrivals, s, Run(i)))
    ensures Known(arrivals, Step(arrivals, s, Run(i)))
  {
    var t := Step(arrivals, s, Run(i));
    var p := DispatchStep(arrivals, s, i);
    var cells, n, c := Parked(s.pcs[i].seen), s.pcs[i].next, Continue(p, ReadInto(Some(arrivals[i].body)));
    SettledGrows(arrivals, s, Run(i));
    assert Traced(arrivals, s, i);
    TextsMember(cells, n);
    TextsTake(cells, n, p);
    NamesSnoc(s.out, c);
    assert t.out == s.out || t.out == s.out + [c];
    forall q | Somewhere(t, q) ensures SettledPayload(arrivals, t, q) {
      assert q == p || Somewhere(s, q);
    }
    forall j | 0 <= j < |arrivals| ensures Traced(arrivals, t, j) {
      assert Traced(arrivals, s, j);
    }
  }

  lemma {:induction false} WrittenTexts(seen: Option<Stored>, a: Arrival, q: Payload)
    requires Regular(seen) && ReplyTo(seen, a).write.Some?
    ensures q in Texts(Parked(ReplyTo(seen, a).write)) <==>
              a.Business? && (q in Texts(Parked(seen)) || q == a.payload)
  {
    match a
    case Business(p) =>
      ParkedAfter(seen, p);
      assert q in Cells(ReplyTo(seen, a).write) <==> q in Cells(seen) + multiset{p};
    case Trace(body) =>
      ReleasedAfter(seen, body);
      assert q !in Cells(ReplyTo(seen, a).write);
  }

  lemma {:induction false} KnownWrite(arrivals: seq<Arrival>, s: System, i: nat)
    requires WellSent(arrivals) && Known(arrivals, s) && Writes(arrivals, s, Run(i))
    requires Safe(arrivals, Step(arrivals, s, Run(i)))
    ensures Known(arrivals, Step(arrivals, s, Run(i)))
  {
    var t := Step(arrivals, s, Run(i));
    SettledGrows(arrivals, s, Run(i));
    WriteStep(arrivals, s, i);
    assert Usable(arrivals[i], s.pcs[i]) && Traced(arrivals, s, i);
    forall q | Somewhere(t, q) ensures SettledPayload(arrivals, t, q) {
      WrittenTexts(s.pcs[i].seen, arrivals[i], q);
      if q in Names(s.out) {
        assert Somewhere(s, q);
      } else if arrivals[i] == Business(q) {
        ParkedAfter(s.pcs[i].seen, q);
        assert Settled(t.pcs[i]);
      }
    }
    forall j | 0 <= j < |arrivals| ensures Traced(arrivals, t, j) {
      assert Traced(arrivals, s, j);
    }
  }

  lemma {:induction false} KnownOther(arrivals: seq<Arrival>, s: System, i: nat)
    requires WellSent(arrivals) && Known(arrivals, s) && i < |arrivals|
    requires !Dispatches(arrivals, s, i) && !Writes(arrivals, s, Run(i))
    requires Safe(arrivals, Step(arrivals, s, Run(i)))
    ensures Known(arrivals, Step(arrivals, s, Run(i)))
  {
    var t := Step(arrivals, s, Run(i));
    SettledGrows(arrivals, s, Run(i));
    OtherStep(arrivals, s, i);
    if HandsOn(arrivals[i], s.pcs[i]) {
      NamesSnoc(s.out, Continue(arrivals[i].payload, ReadInto(s.pcs[i].read)));
      assert arrivals[i] == Business(arrivals[i].payload) && Settled(t.pcs[i]);
    }
    forall q | Somewhere(t, q) ensures SettledPayload(arrivals, t, q) {
      assert Somewhere(s, q) || (HandsOn(arrivals[i], s.pcs[i]) && q == arrivals[i].payload);
    }
    forall j | 0 <= j < |arrivals| ensures Traced(arrivals, t, j) {
      assert Traced(arrivals, s, j);
      if j == i && s.pcs[i].Locked? {
        assert Parked(s.stored)[..0] == [];
        forall p | p in Texts(Parked(s.stored)) ensures SettledPayload(arrivals, t, p) {
          assert Somewhere(s, p);
        }
      }
    }
  }

  lemma {:induction false} StepKeepsKnown(arrivals: seq<Arrival>, s: System, e: Event)
    requires WellSent(arrivals) && Known(arrivals, s)
    ensures Known(arrivals, Step(arrivals, s, e))
  {
    StepKeepsSafe(arrivals, s, e);
    if e.Run? && e.session < |arrivals| {
      if Dispatches(arrivals, s, e.session) {
        KnownDispatch(arrivals, s, e.session);
      } else if Writes(arrivals, s, e) {
        KnownWrite(arrivals, s, e.session);
      } else {
        KnownOther(arrivals, s, e.session);
      }
    } else {
      KnownStill(arrivals, s, Step(arrivals, s, e));
    }
  }

  lemma {:induction false} KnownStill(arrivals: seq<Arrival>, s: System, t: System)
    requires Known(arrivals, s) && t == s.(lock := t.lock)
    ensures Known(arrivals, t)
  {
    forall p | Somewhere(t, p) ensures SettledPayload(arrivals, t, p) {
      assert Somewhere(s, p) && SettledPayload(arrivals, s, p);
    }
    forall j | 0 <= j < |arrivals| ensures Traced(arrivals, t, j) {
      assert Traced(arrivals, s, j);
    }
  }

  // ---------- conservation, step by step ----------

  lemma {:induction false} OnceMore(s: System, t: System, c: Continued)
    requires Once(s) && t.out == s.out + [c]
    ensures Once(t) <==> c.payload !in Names(s.out)
  {
    NamesSnoc(s.out, c);
    var p := c.payload;
    assert multiset(Names(t.out)) == multiset(Names(s.out)) + multiset{p};
    assert p in Names(s.out) <==> multiset(Names(s.out))[p] > 0;
    if p !in Names(s.out) {
      forall q ensures multiset(Names(t.out))[q] <= 1 {
        assert multiset(Names(s.out))[q] <= 1;
      }
    } else {
      assert multiset(Names(t.out))[p] > 1;
    }
  }

  lemma {:induction false} DispatchIff(arrivals: seq<Arrival>, s: System, i: nat)
    requires WellSent(arrivals) && Safe(arrivals, s) && Conserved(arrivals, s) && Dispatches(arrivals, s, i)
    ensures Conserved(arrivals, Step(arrivals, s, Run(i))) <==> Guarded(arrivals, s, Run(i))
  {
    var t := Step(arrivals, s, Run(i));
    var p := DispatchStep(arrivals, s, i);
    var c := Continue(p, ReadInto(Some(arrivals[i].body)));
    NamesSnoc(s.out, c);
    assert t.out == s.out || t.out == s.out + [c];
    forall j | 0 <= j < |arrivals| && arrivals[j].Business? && Settled(t.pcs[j])
      ensures Somewhere(t, arrivals[j].payload)
    {
      assert Settled(s.pcs[j]) && Somewhere(s, arrivals[j].payload);
    }
    if Acceptable(arrivals[i].body) {
      OnceMore(s, t, c);
    } else {
      assert t.out == s.out;
    }
  }

  lemma {:induction false} WriteKeeps(arrivals: seq<Arrival>, s: System, i: nat)
    requires WellSent(arrivals) && Known(arrivals, s) && Conserved(arrivals, s) && Writes(arrivals, s, Run(i))
    requires Guarded(arrivals, s, Run(i))
    ensures Conserved(arrivals, Step(arrivals, s, Run(i)))
  {
    var t := Step(arrivals, s, Run(i));
    WriteStep(arrivals, s, i);
    assert Usable(arrivals[i], s.pcs[i]) && Traced(arrivals, s, i);
    var seen := s.pcs[i].seen;
    ReleaseIsParked(seen, arrivals[i]);
    assert Parked(seen)[..|Parked(seen)|] == Parked(seen);
    forall j | 0 <= j < |arrivals| && arrivals[j].Business? && Settled(t.pcs[j])
      ensures Somewhere(t, arrivals[j].payload)
    {
      var p := arrivals[j].payload;
      WrittenTexts(seen, arrivals[i], p);
      if j != i {
        assert Somewhere(s, p);
        assert p in Texts(Parked(s.stored)) ==> Covered(arrivals, s, i, p);
      }
    }
  }

  lemma {:induction false} WriteNeeds(arrivals: seq<Arrival>, s: System, i: nat, p: Payload)
    requires WellSent(arrivals) && Known(arrivals, s) && Writes(arrivals, s, Run(i))
    requires Conserved(arrivals, Step(arrivals, s, Run(i))) && p in Texts(Parked(s.stored))
    ensures Covered(arrivals, s, i, p)
  {
    var t := Step(arrivals, s, Run(i));
    WriteStep(arrivals, s, i);
    SettledGrows(arrivals, s, Run(i));
    assert Usable(arrivals[i], s.pcs[i]);
    assert Somewhere(s, p) && SettledPayload(arrivals, s, p);
    var j :| 0 <= j < |arrivals| && arrivals[j] == Business(p) && Settled(s.pcs[j]);
    assert Settled(t.pcs[j]) && Somewhere(t, p);
    WrittenTexts(s.pcs[i].seen, arrivals[i], p);
  }

  lemma {:induction false} WriteIff(arrivals: seq<Arrival>, s: System, i: nat)
    requires WellSent(arrivals) && Known(arrivals, s) && Conserved(arrivals, s) && Writes(arrivals, s, Run(i))
    ensures Conserved(arrivals, Step(arrivals, s, Run(i))) <==> Guarded(arrivals, s, Run(i))
  {
    if Guarded(arrivals, s, Run(i)) {
      WriteKeeps(arrivals, s, i);
    }
    if Conserved(arrivals, Step(arrivals, s, Run(i))) {
      forall p | p in Texts(Parked(s.stored)) ensures Covered(arrivals, s, i, p) {
        WriteNeeds(arrivals, s, i, p);
      }
    }
  }

  /** A session that hands its own message on, or does nothing to messages, is never at fault. */
  lemma {:induction false} OtherKeeps(arrivals: seq<Arrival>, s: System, i: nat)
    requires WellSent(arrivals) && Known(arrivals, s) && Conserved(arrivals, s) && i < |arrivals|
    requires !Dispatches(arrivals, s, i) && !Writes(arrivals, s, Run(i))
    ensures Conserved(arrivals, Step(arrivals, s, Run(i)))
  {
    var t := Step(arrivals, s, Run(i));
    OtherStep(arrivals, s, i);
    assert Usable(arrivals[i], s.pcs[i]);
    if HandsOn(arrivals[i], s.pcs[i]) {
      var c := Continue(arrivals[i].payload, ReadInto(s.pcs[i].read));
      OwnSession(arrivals, s, i);
      assert !Somewhere(s, c.payload);
      OnceMore(s, t, c);
      NamesSnoc(s.out, c);
    } else {
      assert t.out == s.out;
    }
    OtherSettles(arrivals, s, i);
    forall j | 0 <= j < |arrivals| && arrivals[j].Business? && Settled(t.pcs[j])
      ensures Somewhere(t, arrivals[j].payload)
    {
      assert Settled(s.pcs[j]) ==> Somewhere(s, arrivals[j].payload);
    }
  }

  lemma {:induction false} OtherSettles(arrivals: seq<Arrival>, s: System, i: nat)
    requires Safe(arrivals, s) && i < |arrivals| && !Dispatches(arrivals, s, i) && !Writes(arrivals, s, Run(i))
    ensures forall j :: 0 <= j < |arrivals| && arrivals[j].Business? ==>
              (Settled(Step(arrivals, s, Run(i)).pcs[j]) <==>
                 Settled(s.pcs[j]) || (j == i && HandsOn(arrivals[i], s.pcs[i])))
  {
    assert Usable(arrivals[i], s.pcs[i]);
    if s.pcs[i].Holding? {
      QuietHolding(arrivals[i], s.pcs[i]);
    }
  }

  /** One step, exactly: it keeps every message from going on twice or being lost if and only if it
      is not the release of a message that has gone on, and no write over parked messages that
      have neither gone on nor were put back. */
  lemma {:induction false} StepConservedIff(arrivals: seq<Arrival>, s: System, e: Event)
    requires WellSent(arrivals) && Known(arrivals, s) && Conserved(arrivals, s)
    ensures Conserved(arrivals, Step(arrivals, s, e)) <==> Guarded(arrivals, s, e)
  {
    if e.Run? && e.session < |arrivals| {
      if Dispatches(arrivals, s, e.session) {
        DispatchIff(arrivals, s, e.session);
      } else if Writes(arrivals, s, e) {
        WriteIff(arrivals, s, e.session);
      } else {
        OtherKeeps(arrivals, s, e.session);
      }
    } else {
      StillConserved(arrivals, s, Step(arrivals, s, e));
    }
  }

  lemma {:induction false} StillConserved(arrivals: seq<Arrival>, s: System, t: System)
    requires |s.pcs| == |arrivals| && Conserved(arrivals, s) && t == s.(lock := t.lock)
    ensures Conserved(arrivals, t)
  {
    forall j | 0 <= j < |arrivals| && arrivals[j].Business? && Settled(t.pcs[j])
      ensures Somewhere(t, arrivals[j].payload)
    {
      assert Somewhere(s, arrivals[j].payload);
    }
  }

  // ---------- failures ----------

  /** A step of the interleaved rendezvous; or a session does not get the lock in time, or does not
      get the value, or its SET does not arrive. */
  datatype Happening = Does(event: Event) | NoLock(session: nat) | ReadFails(session: nat) | WriteFails(session: nat)

  function Next(arrivals: seq<Arrival>, s: System, h: Happening): (t: System)
    requires |s.pcs| == |arrivals|
    ensures |t.pcs| == |arrivals|
  {
    match h
    case Does(e) => Step(arrivals, s, e)
    case NoLock(i) =>
      if i < |arrivals| && s.pcs[i].Start? then s.(pcs := s.pcs[i := Unlocked(false, None)]) else s
    case ReadFails(i) =>
      if i < |arrivals| && s.pcs[i].Locked? then s.(pcs := s.pcs[i := Holding(None, 0)]) else s
    case WriteFails(i) =>
      if Writes(arrivals, s, Run(i)) then
        var reply := ReplyTo(s.pcs[i].seen, arrivals[i]);
        s.(pcs := s.pcs[i := Written(reply.wait, reply.read)])
      else s
  }

  /** Of the failures, only a SET that does not park a message is at fault at once. */
  predicate Harmless(arrivals: seq<Arrival>, s: System, h: Happening)
    requires |s.pcs| == |arrivals|
  {
    match h
    case Does(e) => Guarded(arrivals, s, e)
    case WriteFails(i) => Writes(arrivals, s, Run(i)) ==> arrivals[i].Trace?
    case _ => true
  }

  /** A failure changes one session only. */
  lemma {:induction false} FailureOf(arrivals: seq<Arrival>, s: System, h: Happening, i: nat) returns (pc: Pc)
    requires Safe(arrivals, s) && !h.Does? && h.session == i < |arrivals|
    ensures Next(arrivals, s, h) == s.(pcs := s.pcs[i := pc]) && Usable(arrivals[i], pc)
    ensures pc.Holding? ==> pc == s.pcs[i] || pc == Holding(None, 0)
    ensures Settled(pc) && arrivals[i].Business? <==>
              arrivals[i].Business? && (Settled(s.pcs[i]) || (h.WriteFails? && Writes(arrivals, s, Run(i))))
  {
    pc := Next(arrivals, s, h).pcs[i];
    assert Usable(arrivals[i], s.pcs[i]);
    if h.WriteFails? && Writes(arrivals, s, Run(i)) && arrivals[i].Business? {
      ParkedAfter(s.pcs[i].seen, arrivals[i].payload);
    }
  }

  lemma {:induction false} FailureKeepsKnown(arrivals: seq<Arrival>, s: System, t: System, i: nat, pc: Pc)
    requires Known(arrivals, s) && i < |arrivals| && t == s.(pcs := s.pcs[i := pc]) && Usable(arrivals[i], pc)
    requires pc.Holding? ==> pc == s.pcs[i] || pc == Holding(None, 0)
    requires arrivals[i].Business? && Settled(s.pcs[i]) ==> Settled(pc)
    ensures Known(arrivals, t)
  {
    forall p | SettledPayload(arrivals, s, p) ensures SettledPayload(arrivals, t, p) {
      var j :| 0 <= j < |arrivals| && arrivals[j] == Business(p) && Settled(s.pcs[j]);
      assert Settled(t.pcs[j]);
    }
    forall p | Somewhere(t, p) ensures SettledPayload(arrivals, t, p) {
      assert Somewhere(s, p);
    }
    forall j | 0 <= j < |arrivals| ensures Traced(arrivals, t, j) {
      assert Traced(arrivals, s, j);
      assert Parked(None) == [] && Parked(None)[..0] == [];
    }
  }

  lemma {:induction false} NextKeepsKnown(arrivals: seq<Arrival>, s: System, h: Happening)
    requires WellSent(arrivals) && Known(arrivals, s)
    ensures Known(arrivals, Next(arrivals, s, h))
  {
    if h.Does? {
      StepKeepsKnown(arrivals, s, h.event);
    } else if h.session < |arrivals| {
      var pc := FailureOf(arrivals, s, h, h.session);
      FailureKeepsKnown(arrivals, s, Next(arrivals, s, h), h.session, pc);
    }
  }

  lemma {:induction false} FailureConserves(arrivals: seq<Arrival>, s: System, t: System, i: nat, pc: Pc)
    requires WellSent(arrivals) && Known(arrivals, s) && Conserved(arrivals, s)
    requires i < |arrivals| && t == s.(pcs := s.pcs[i := pc])
    requires arrivals[i].Business? && Settled(s.pcs[i]) ==> Settled(pc)
    ensures Conserved(arrivals, t) <==> !(arrivals[i].Business? && Settled(pc) && !Settled(s.pcs[i]))
  {
    forall j | 0 <= j < |arrivals| && arrivals[j].Business? && Settled(s.pcs[j])
      ensures Somewhere(t, arrivals[j].payload)
    {
      assert Somewhere(s, arrivals[j].payload);
    }
    if arrivals[i].Business? && Settled(pc) && !Settled(s.pcs[i]) {
      OwnSession(arrivals, s, i);
      assert !Somewhere(s, arrivals[i].payload) && !Somewhere(t, arrivals[i].payload);
      assert Settled(t.pcs[i]);
    }
  }

  /** One step or failure, exactly. */
  lemma {:induction false} NextConservedIff(arrivals: seq<Arrival>, s: System, h: Happening)
    requires WellSent(arrivals) && Known(arrivals, s) && Conserved(arrivals, s)
    ensures Conserved(arrivals, Next(arrivals, s, h)) <==> Harmless(arrivals, s, h)
  {
    if h.Does? {
      StepConservedIff(arrivals, s, h.event);
    } else if h.session < |arrivals| {
      var pc := FailureOf(arrivals, s, h, h.session);
      FailureConserves(arrivals, s, Next(arrivals, s, h), h.session, pc);
    }
  }

  // ---------- runs ----------

  predicate AllHarmless(arrivals: seq<Arrival>, s: System, run: seq<Happening>)
    requires |s.pcs| == |arrivals|
    decreases |run|
  {
    run != [] ==>
      Harmless(arrivals, s, run[0]) && AllHarmless(arrivals, Next(arrivals, s, run[0]), run[1..])
  }

  ghost predicate AlwaysConserved(arrivals: seq<Arrival>, s: System, run: seq<Happening>)
    requires |s.pcs| == |arrivals|
    decreases |run|
  {
    && Conserved(arrivals, s)
    && (run != [] ==> AlwaysConserved(arrivals, Next(arrivals, s, run[0]), run[1..]))
  }

  lemma {:induction false} ConservedFrom(arrivals: seq<Arrival>, s: System, run: seq<Happening>)
    requires WellSent(arrivals) && Known(arrivals, s) && Conserved(arrivals, s)
    ensures AlwaysConserved(arrivals, s, run) <==> AllHarmless(arrivals, s, run)
    decreases |run|
  {
    if run != [] {
      NextKeepsKnown(arrivals, s, run[0]);
      NextConservedIff(arrivals, s, run[0]);
      var t := Next(arrivals, s, run[0]);
      if Conserved(arrivals, t) {
        ConservedFrom(arrivals, t, run[1..]);
      }
    }
  }

  lemma {:induction false} BeginIsConserved(arrivals: seq<Arrival>)
    ensures Known(arrivals, Begin(|arrivals|)) && Conserved(arrivals, Begin(|arrivals|))
  {
  }

  /** However leases run out, whatever fails and whatever the trace results say: at every moment of a
      run no message has gone on twice and none is lost, if and only if each step met its guard. */
  lemma {:induction false} ConservedIff(arrivals: seq<Arrival>, run: seq<Happening>)
    requires WellSent(arrivals)
    ensures AlwaysConserved(arrivals, Begin(|arrivals|), run) <==> AllHarmless(arrivals, Begin(|arrivals|), run)
  {
    BeginIsConserved(arrivals);
    ConservedFrom(arrivals, Begin(|arrivals|), run);
  }

  // ---------- leases that last ----------

  lemma {:induction false} AccountedSplits(arrivals: seq<Arrival>, s: System, n: nat, p: Payload)
    requires LockInv(arrivals, s) && PlaceInv(arrivals, s)
    requires Released(arrivals, s) <= n < |Parked(s.stored)| && Parked(s.stored)[n] == Text(p)
    ensures p !in Names(s.out)
  {
    var rest := Parked(s.stored)[Released(arrivals, s)..];
    TextsMember(rest, n - Released(arrivals, s));
    assert Accounted(arrivals, s)[p] <= 1;
    assert multiset(Texts(rest))[p] >= 1;
    assert p in Names(s.out) ==> multiset(Names(s.out))[p] >= 1;
  }

  /** With acceptable trace results no rejected one decides. */
  lemma {:induction false} SoundIsNotLossy(arrivals: seq<Arrival>, s: System)
    requires Sound(arrivals) && LockInv(arrivals, s) && DecisionArrived(arrivals, s)
    ensures !Lossy(arrivals, s)
  {
    if Released(arrivals, s) > 0 {
      var i := s.lock.value;
      assert Excludes(arrivals, s, i);
    }
  }

  lemma {:induction false} LastingStep(arrivals: seq<Arrival>, s: System, e: Event)
    requires Sound(arrivals) && Inv(arrivals, s) && DecisionArrived(arrivals, s)
    ensures Guarded(arrivals, s, e)
  {
    SoundIsNotLossy(arrivals, s);
    if e.Run? && e.session < |arrivals| && s.pcs[e.session].Holding? {
      var i := e.session;
      assert Excludes(arrivals, s, i);
      ReleaseIsParked(s.stored, arrivals[i]);
      if Dispatches(arrivals, s, i) {
        assert Parked(s.stored)[s.pcs[i].next] in Parked(s.stored);
        AccountedSplits(arrivals, s, s.pcs[i].next, Parked(s.stored)[s.pcs[i].next].payload);
      }
    }
  }

  function Undisturbed(events: seq<Event>): (run: seq<Happening>)
    ensures |run| == |events|
  {
    seq(|events|, i requires 0 <= i < |events| => Does(events[i]))
  }

  /** Leases that last are enough for the guards, with acceptable trace results and no failure. */
  lemma {:induction false} LastingIsHarmless(arrivals: seq<Arrival>, s: System, events: seq<Event>)
    requires Sound(arrivals) && Inv(arrivals, s) && DecisionArrived(arrivals, s) && LeasesLast(arrivals, s, events)
    ensures AllHarmless(arrivals, s, Undisturbed(events))
    decreases |events|
  {
    if events != [] {
      LastingStep(arrivals, s, events[0]);
      StepKeepsInv(arrivals, s, events[0]);
      StepKeepsDecision(arrivals, s, events[0]);
      LastingIsHarmless(arrivals, Step(arrivals, s, events[0]), events[1..]);
      assert Undisturbed(events)[0] == Does(events[0]) && Undisturbed(events)[1..] == Undisturbed(events[1..]);
    }
  }

  // ---------- a message that goes on twice ----------

  function Two(p: Payload, b: TraceBody): seq<Arrival> { [Business(p), Trace(b), Trace(b)] }

  function Wrote(p: Payload, lock: Option<nat>, out: seq<Continued>, one: Pc, two: Pc): System {
    System(lock, Some(Typed(BUSINESS, [Text(p)], None)), out, [Unlocked(true, None), one, two])
  }

  function Inside(p: Payload, next: nat): Pc { Holding(Some(Typed(BUSINESS, [Text(p)], None)), next) }

  lemma {:induction false} Parks(p: Payload, b: TraceBody, rest: seq<Event>)
    ensures RunFrom(Two(p, b), Begin(3), [Run(0), Run(0), Run(0), Run(0)] + rest) ==
              RunFrom(Two(p, b), Wrote(p, None, [], Start, Start), rest)
  {
    var a, s0 := Two(p, b), Begin(3);
    var s1 := System(Some(0), None, [], [Locked, Start, Start]);
    var s2 := s1.(pcs := [Holding(None, 0), Start, Start]);
    var s3 := s1.(stored := Some(Typed(BUSINESS, [Text(p)], None)), pcs := [Written(true, None), Start, Start]);
    assert Step(a, s0, Run(0)) == s1 && Step(a, s1, Run(0)) == s2;
    assert Step(a, s2, Run(0)) == s3 && Step(a, s3, Run(0)) == Wrote(p, None, [], Start, Start);
    var r := [Run(0)] + rest;
    assert [Run(0), Run(0), Run(0), Run(0)] + rest == [Run(0)] + ([Run(0)] + ([Run(0)] + r));
    Unfold(a, s3, Run(0), rest);
    Unfold(a, s2, Run(0), r);
    Unfold(a, s1, Run(0), [Run(0)] + r);
    Unfold(a, s0, Run(0), [Run(0)] + ([Run(0)] + r));
  }

  /** Both trace sessions read the parked message, since the first one's lease runs out. */
  lemma {:induction false} BothRead(p: Payload, b: TraceBody, rest: seq<Event>)
    ensures RunFrom(Two(p, b), Wrote(p, None, [], Start, Start), [Run(1), Run(1), Expire, Run(2), Run(2)] + rest) ==
              RunFrom(Two(p, b), Wrote(p, Some(2), [], Inside(p, 0), Inside(p, 0)), rest)
  {
    var a, s0 := Two(p, b), Wrote(p, None, [], Start, Start);
    var s1, s2 := Wrote(p, Some(1), [], Locked, Start), Wrote(p, Some(1), [], Inside(p, 0), Start);
    var s3, s4 := Wrote(p, None, [], Inside(p, 0), Start), Wrote(p, Some(2), [], Inside(p, 0), Locked);
    assert Step(a, s0, Run(1)) == s1 && Step(a, s1, Run(1)) == s2 && Step(a, s2, Expire) == s3;
    assert Step(a, s3, Run(2)) == s4 && Step(a, s4, Run(2)) == Wrote(p, Some(2), [], Inside(p, 0), Inside(p, 0));
    var r2 := [Run(2)] + rest;
    var r3 := [Run(2)] + r2;
    var r4 := [Expire] + r3;
    var r5 := [Run(1)] + r4;
    assert [Run(1), Run(1), Expire, Run(2), Run(2)] + rest == [Run(1)] + r5;
    Unfold(a, s4, Run(2), rest);
    Unfold(a, s3, Run(2), r2);
    Unfold(a, s2, Expire, r3);
    Unfold(a, s1, Run(1), r4);
    Unfold(a, s0, Run(1), r5);
  }

  lemma {:induction false} FirstReleases(p: Payload, b: TraceBody, next: nat)
    requires Arrives(p) && Acceptable(b)
    ensures Step(Two(p, b), Wrote(p, Some(2), [], Inside(p, 0), Inside(p, next)), Run(1)) ==
              Wrote(p, Some(2), [Continue(p, ReadInto(Some(b)))], Inside(p, 1), Inside(p, next))
  {
    var c := Continue(p, ReadInto(Some(b)));
    ReleaseOne(p, b);
    assert [] + [c] == [c];
  }

  lemma {:induction false} SecondReleases(p: Payload, b: TraceBody, out: seq<Continued>)
    requires Arrives(p) && Acceptable(b)
    ensures Step(Two(p, b), Wrote(p, Some(2), out, Inside(p, 1), Inside(p, 0)), Run(2)) ==
              Wrote(p, Some(2), out + [Continue(p, ReadInto(Some(b)))], Inside(p, 1), Inside(p, 1))
  {
    ReleaseOne(p, b);
  }

  lemma {:induction false} BothRelease(p: Payload, b: TraceBody)
    requires Arrives(p) && Acceptable(b)
    ensures var c := Continue(p, ReadInto(Some(b)));
            RunFrom(Two(p, b), Wrote(p, Some(2), [], Inside(p, 0), Inside(p, 0)), [Run(1), Run(2)]) ==
              Wrote(p, Some(2), [c, c], Inside(p, 1), Inside(p, 1))
  {
    var a, c := Two(p, b), Continue(p, ReadInto(Some(b)));
    var s0, s1 := Wrote(p, Some(2), [], Inside(p, 0), Inside(p, 0)), Wrote(p, Some(2), [c], Inside(p, 1), Inside(p, 0));
    FirstReleases(p, b, 0);
    SecondReleases(p, b, [c]);
    assert [c] + [c] == [c, c];
    RunOfTwo(a, s0, Run(1), Run(2));
  }

  lemma {:induction false} RunOfTwo(a: seq<Arrival>, s: System, e: Event, f: Event)
    requires |s.pcs| == |a|
    ensures RunFrom(a, s, [e, f]) == Step(a, Step(a, s, e), f)
  {
    assert [e] + [f] == [e, f] && [f] + [] == [f];
    Unfold(a, s, e, [f]);
    Unfold(a, Step(a, s, e), f, []);
  }

  /** Although nothing has been written yet but the message itself, it has gone on twice: two trace
      sessions, one of them past its lease, have both released it. */
  lemma {:induction false} DoubleRelease(p: Payload, b: TraceBody)
    requires Arrives(p) && Acceptable(b)
    ensures var events := [Run(0), Run(0), Run(0), Run(0), Run(1), Run(1), Expire, Run(2), Run(2), Run(1), Run(2)];
            var s := RunFrom(Two(p, b), Begin(3), events);
            var c := Continue(p, ReadInto(Some(b)));
            && s.out == [c, c] && !Once(s)
            && s.stored == Some(Typed(BUSINESS, [Text(p)], None))
  {
    var c, end := Continue(p, ReadInto(Some(b))), [Run(1), Run(2)];
    var read := [Run(1), Run(1), Expire, Run(2), Run(2)] + end;
    assert [Run(0), Run(0), Run(0), Run(0), Run(1), Run(1), Expire, Run(2), Run(2), Run(1), Run(2)] ==
      [Run(0), Run(0), Run(0), Run(0)] + read;
    Parks(p, b, read);
    BothRead(p, b, end);
    BothRelease(p, b);
    TwiceIsNotOnce(c);
  }

  lemma {:induction false} TwiceIsNotOnce(c: Continued)
    ensures forall s: System :: s.out == [c, c] ==> !Once(s)
  {
    NamesSnoc([], c);
    NamesSnoc([c], c);
    assert [] + [c] == [c] && [c] + [c] == [c, c];
    assert Names([c, c]) == [c.payload, c.payload];
    assert multiset(Names([c, c]))[c.payload] == 2;
  }
}
