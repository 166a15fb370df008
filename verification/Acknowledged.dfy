/**
 The Kafka commit against the rendezvous: a session that is told to wait is finished, so its message
 can be committed while it is only parked, or lost.
 */
module Acknowledged {
  import opened Wrappers
  import opened Rendezvous
  import opened LockedRendezvous
  import opened LeaseGuards
  import opened PartitionSpec

  function RunAll(arrivals: seq<Arrival>, s: System, run: seq<Happening>): (t: System)
    requires |s.pcs| == |arrivals|
    ensures |t.pcs| == |arrivals|
    decreases |run|
  {
    if run == [] then s else RunAll(arrivals, Next(arrivals, s, run[0]), run[1..])
  }

  /** The session has been finished: told to wait, or handed on. */
  predicate Ended(pc: Pc) { pc.Waiting? || pc.Passed? }

  /** Message `k` of the partition belongs to session `sessions[k]`, and is DONE only when that has
      ended. */
  predicate Agrees(p: Partition, s: System, sessions: seq<nat>) {
    && |sessions| == |p.states|
    && forall k :: 0 <= k < |sessions| ==>
         sessions[k] < |s.pcs| && (p.states[k] == Done ==> Ended(s.pcs[sessions[k]]))
  }

  /** Kafka will not deliver message `k` again. */
  predicate Covers(p: Partition, k: nat) { k < Watermark(p) && k < |p.states| }

  /** The message of session `i` has gone on or is parked. */
  predicate Held(arrivals: seq<Arrival>, s: System, i: nat)
    requires i < |arrivals|
  {
    arrivals[i].Business? ==> Somewhere(s, arrivals[i].payload)
  }

  ghost predicate CommitsAreHeld(arrivals: seq<Arrival>, s: System)
    requires |s.pcs| == |arrivals|
  {
    forall h: seq<Partition>, n: nat, sessions: seq<nat>, k: nat ::
      IsRun(h) && n < |h| && Agrees(h[n], s, sessions) && Covers(h[n], k) ==> Held(arrivals, s, sessions[k])
  }

  predicate EndedAreHeld(arrivals: seq<Arrival>, s: System)
    requires |s.pcs| == |arrivals|
  {
    forall i: nat :: i < |arrivals| && Ended(s.pcs[i]) ==> Held(arrivals, s, i)
  }

  // ---------- a partition with one message ----------

  function Alone(st: NodeState, commits: seq<nat>): Partition { Partition([0], [st], 0, commits) }

  function AloneRun(): seq<Partition> {
    [EMPTY, Alone(Todo, []), Alone(Doing, []), Alone(Done, []), Alone(Done, [0])]
  }

  lemma {:induction false} AloneSteps()
    ensures Append(EMPTY, Alone(Todo, [])) && Advance(Alone(Todo, []), Alone(Doing, []))
    ensures Advance(Alone(Doing, []), Alone(Done, [])) && Commit(Alone(Done, []), Alone(Done, [0]))
  {
    assert Alone(Todo, []) == EMPTY.(offsets := EMPTY.offsets + [0], states := EMPTY.states + [Todo]);
    var todo, doing, done := Alone(Todo, []), Alone(Doing, []), Alone(Done, []);
    assert todo.states[0] == Todo && doing.states[0] == Doing;
    assert doing == todo.(states := todo.states[0 := Doing]) && done == doing.(states := doing.states[0 := Done]);
    assert Alone(Done, [0]) == done.(commits := done.commits + [0]);
    assert DoneUpTo(done.states, 0 + 1);
  }

  lemma {:induction false} AloneIsRun()
    ensures IsRun(AloneRun()) && Covers(AloneRun()[4], 0)
  {
    AloneSteps();
    var h := AloneRun();
    forall i | 0 <= i < |h| - 1 ensures PartitionSpec.Step(h[i], h[i + 1]) {
      if i == 0 {
        assert PartitionSpec.Step(h[0], h[1]);
      } else if i == 1 {
        assert PartitionSpec.Step(h[1], h[2]);
      } else if i == 2 {
        assert PartitionSpec.Step(h[2], h[3]);
      } else {
        assert PartitionSpec.Step(h[3], h[4]);
      }
    }
  }

  // ---------- commits ----------

  /** Whatever the rendezvous and the partitions have come to: no committed message is lost if and
      only if none is whose session has ended. */
  lemma {:induction false} CommitsAreHeldIff(arrivals: seq<Arrival>, s: System)
    requires |s.pcs| == |arrivals|
    ensures CommitsAreHeld(arrivals, s) <==> EndedAreHeld(arrivals, s)
  {
    if EndedAreHeld(arrivals, s) {
      forall h: seq<Partition>, n: nat, sessions: seq<nat>, k: nat
        | IsRun(h) && n < |h| && Agrees(h[n], s, sessions) && Covers(h[n], k)
        ensures Held(arrivals, s, sessions[k])
      {
        RunIsSafe(h, n);
        assert h[n].states[k] == Done;
      }
    }
    if CommitsAreHeld(arrivals, s) {
      forall i: nat | i < |arrivals| && Ended(s.pcs[i]) ensures Held(arrivals, s, i) {
        AloneIsRun();
        var h := AloneRun();
        assert Agrees(h[4], s, [i]) && Covers(h[4], 0);
      }
    }
  }

  lemma {:induction false} ConservedAtEnd(arrivals: seq<Arrival>, s: System, run: seq<Happening>)
    requires |s.pcs| == |arrivals| && AlwaysConserved(arrivals, s, run)
    ensures Conserved(arrivals, RunAll(arrivals, s, run))
    decreases |run|
  {
    if run != [] {
      ConservedAtEnd(arrivals, Next(arrivals, s, run[0]), run[1..]);
    }
  }

  /** While every step and failure meets its guard, each committed message has gone on once or is
      parked; what is parked and committed is only in Redis. */
  lemma {:induction false} HarmlessCommits(arrivals: seq<Arrival>, run: seq<Happening>)
    requires WellSent(arrivals) && AllHarmless(arrivals, Begin(|arrivals|), run)
    ensures var s := RunAll(arrivals, Begin(|arrivals|), run);
            CommitsAreHeld(arrivals, s) && Once(s)
  {
    var s := RunAll(arrivals, Begin(|arrivals|), run);
    ConservedIff(arrivals, run);
    ConservedAtEnd(arrivals, Begin(|arrivals|), run);
    CommitsAreHeldIff(arrivals, s);
  }

  /** A failed SET is enough to lose a committed message: the session is told to wait all the same. */
  lemma {:induction false} LostAfterCommit(p: Payload)
    ensures var run := [Does(Run(0)), Does(Run(0)), WriteFails(0), Does(Run(0)), Does(Run(0))];
            !CommitsAreHeld([Business(p)], RunAll([Business(p)], Begin(1), run))
  {
    var a, s0 := [Business(p)], Begin(1);
    var s1, s2 := System(Some(0), None, [], [Locked]), System(Some(0), None, [], [Holding(None, 0)]);
    var s3, s4 := System(Some(0), None, [], [Written(true, None)]), System(None, None, [], [Unlocked(true, None)]);
    var s5 := System(None, None, [], [Waiting]);
    assert Next(a, s0, Does(Run(0))) == s1 && Next(a, s1, Does(Run(0))) == s2 && Next(a, s2, WriteFails(0)) == s3;
    assert Next(a, s3, Does(Run(0))) == s4 && Next(a, s4, Does(Run(0))) == s5;
    UnfoldAll(a, s4, Does(Run(0)), []);
    UnfoldAll(a, s3, Does(Run(0)), [Does(Run(0))]);
    UnfoldAll(a, s2, WriteFails(0), [Does(Run(0)), Does(Run(0))]);
    UnfoldAll(a, s1, Does(Run(0)), [WriteFails(0), Does(Run(0)), Does(Run(0))]);
    UnfoldAll(a, s0, Does(Run(0)), [Does(Run(0)), WriteFails(0), Does(Run(0)), Does(Run(0))]);
    assert !Somewhere(s5, p) && Ended(s5.pcs[0]) && !Held(a, s5, 0);
    CommitsAreHeldIff(a, s5);
  }

  lemma {:induction false} UnfoldAll(a: seq<Arrival>, s: System, h: Happening, rest: seq<Happening>)
    requires |s.pcs| == |a|
    ensures RunAll(a, s, [h] + rest) == RunAll(a, Next(a, s, h), rest)
  {
    assert ([h] + rest)[1..] == rest;
  }
}
