/**
 The distributed lock of the picture-wait module: SET NX with a lease to acquire, compare and
 delete to release. Session `i` uses the token `uids[i]`.
 */
module LeaseLock {
  import opened Wrappers

  datatype Lease = Lease(uid: string, until: int)

  /** Server state, server clock, and for every session between its acquisition and its release
      the end of the lease it was granted. */
  datatype World = World(now: int, key: Option<Lease>, granted: map<nat, int>)

  const INITIAL := World(0, None, map[])

  /** `lost`: the reply to a SET that took effect did not reach the session in time. */
  datatype Event = Acquire(session: nat, lease: int, lost: bool) | Release(session: nat) | Tick(time: nat)

  function Live(w: World): Option<string> {
    if w.key.Some? && w.now < w.key.value.until then Some(w.key.value.uid) else None
  }

  /** SET key uid PX lease NX */
  function SetNx(w: World, uid: string, lease: int): (World, bool) {
    if Live(w).None? then (w.(key := Some(Lease(uid, w.now + lease))), true) else (w, false)
  }

  /** The unlock script. */
  function CompareAndDelete(w: World, uid: string): (World, bool) {
    if Live(w) == Some(uid) then (w.(key := None), true) else (w, false)
  }

  function Step(uids: seq<string>, w: World, e: Event): World {
    match e
    case Acquire(i, lease, lost) =>
      if i < |uids| && i !in w.granted then
        var (w', ok) := SetNx(w, uids[i], lease);
        if ok && !lost then w'.(granted := w.granted[i := w.now + lease]) else w'
      else w
    case Release(i) =>
      if i < |uids| && i in w.granted then
        CompareAndDelete(w, uids[i]).0.(granted := w.granted - {i})
      else w
    case Tick(t) => w.(now := w.now + t)
  }

  function Run(uids: seq<string>, events: seq<Event>): World {
    if events == [] then INITIAL
    else Step(uids, Run(uids, events[..|events| - 1]), events[|events| - 1])
  }

  /** Session `i` acquired the lock, has not released it, and its lease has not expired. */
  predicate Holds(w: World, i: nat) {
    i in w.granted && w.now < w.granted[i]
  }

  predicate DistinctUids(uids: seq<string>) {
    forall i, j :: 0 <= i < j < |uids| ==> uids[i] != uids[j]
  }

  /** Every holder's lease is the one on the server. */
  ghost predicate Consistent(uids: seq<string>, w: World) {
    forall i: nat :: Holds(w, i) ==> i < |uids| && w.key == Some(Lease(uids[i], w.granted[i]))
  }

  lemma StepConsistent(uids: seq<string>, w: World, e: Event)
    requires DistinctUids(uids) && Consistent(uids, w)
    ensures Consistent(uids, Step(uids, w, e))
  {
    var w' := Step(uids, w, e);
    forall i: nat | Holds(w', i) ensures i < |uids| && w'.key == Some(Lease(uids[i], w'.granted[i])) {
      if i in w.granted && w.granted[i] == w'.granted[i] {
        assert Holds(w, i);
      }
    }
  }

  ghost predicate AtMostOne(w: World) {
    forall i: nat, j: nat :: Holds(w, i) && Holds(w, j) ==> i == j
  }

  /** Mutual exclusion: in every run with distinct uids at most one session holds the lock. */
  lemma {:induction false} AtMostOneHolder(uids: seq<string>, events: seq<Event>)
    requires DistinctUids(uids)
    ensures Consistent(uids, Run(uids, events)) && AtMostOne(Run(uids, events))
  {
    if events != [] {
      AtMostOneHolder(uids, events[..|events| - 1]);
      StepConsistent(uids, Run(uids, events[..|events| - 1]), events[|events| - 1]);
    }
  }

  /** Exactly when a late release takes the lock away from the session that holds it now: when
      the two use the same token. */
  lemma LateReleaseIff(uids: seq<string>, w: World, i: nat, j: nat)
    requires Consistent(uids, w) && Holds(w, j)
    requires i != j && i < |uids| && i in w.granted
    ensures Live(Step(uids, w, Release(i))) == Some(uids[j]) <==> uids[i] != uids[j]
  {
  }

  lemma RunSnoc(uids: seq<string>, events: seq<Event>, e: Event)
    ensures Run(uids, events + [e]) == Step(uids, Run(uids, events), e)
  {
    assert (events + [e])[..|events|] == events;
  }

  /** Any two sessions with one uid can hold the lock together: the late release of the first
      unlocks the second, and the first gets in beside it. */
  lemma SharedUidBreaks(uids: seq<string>, i: nat, j: nat) returns (events: seq<Event>)
    requires i < |uids| && j < |uids| && i != j && uids[i] == uids[j]
    ensures Holds(Run(uids, events), i) && Holds(Run(uids, events), j)
  {
    events := [];
    RunSnoc(uids, events, Acquire(i, 5, false));
    events := events + [Acquire(i, 5, false)];
    RunSnoc(uids, events, Tick(6));
    events := events + [Tick(6)];
    assert Run(uids, events) == World(6, Some(Lease(uids[i], 5)), map[i := 5]);
    RunSnoc(uids, events, Acquire(j, 5, false));
    events := events + [Acquire(j, 5, false)];
    assert Run(uids, events) == World(6, Some(Lease(uids[j], 11)), map[i := 5, j := 11]);
    RunSnoc(uids, events, Release(i));
    events := events + [Release(i)];
    assert Run(uids, events) == World(6, None, map[j := 11]);
    RunSnoc(uids, events, Acquire(i, 5, false));
    events := events + [Acquire(i, 5, false)];
  }

  ghost predicate Exclusive(uids: seq<string>, events: seq<Event>) { AtMostOne(Run(uids, events)) }

  /** The lock excludes over every schedule if and only if no two sessions share a uid. */
  lemma {:induction false} ExclusiveIff(uids: seq<string>)
    ensures (forall events :: Exclusive(uids, events)) <==> DistinctUids(uids)
  {
    if DistinctUids(uids) {
      forall events ensures Exclusive(uids, events) {
        AtMostOneHolder(uids, events);
      }
    } else {
      var i, j :| 0 <= i < j < |uids| && uids[i] == uids[j];
      var events := SharedUidBreaks(uids, i, j);
      assert !Exclusive(uids, events);
    }
  }

  /** A live token on the server of a session that was told of its lock is that session's lease. */
  lemma {:induction false} TokensAreGranted(uids: seq<string>, events: seq<Event>, i: nat)
    requires DistinctUids(uids) && i < |uids|
    ensures var w := Run(uids, events);
            i in w.granted && w.key.Some? && w.key.value.uid == uids[i] ==> w.key.value.until == w.granted[i]
  {
    if events != [] {
      TokensAreGranted(uids, events[..|events| - 1], i);
    }
  }

  const LOCK_CHECK_PERIOD := 10

  /** A refused attempt: where it stands among the events, and where the end of the pause after it. */
  datatype Try = Try(at: nat, pause: nat)

  /** Where a caller with these refused attempts goes on. */
  function Resumes(start: nat, tries: seq<Try>): nat {
    if tries == [] then start else tries[|tries| - 1].pause + 1
  }

  predicate Own(e: Event, i: nat) { (e.Acquire? || e.Release?) && e.session == i }

  /** The session neither acquires nor releases in between. */
  predicate Quiet(events: seq<Event>, from: nat, end: nat, i: nat) {
    end <= |events| && forall k :: from <= k < end ==> !Own(events[k], i)
  }

  lemma QuietLonger(events: seq<Event>, longer: seq<Event>, from: nat, end: nat, i: nat)
    requires events <= longer && Quiet(events, from, end, i)
    ensures Quiet(longer, from, end, i)
  {
    forall k | from <= k < end ensures !Own(longer[k], i) {
      assert longer[k] == events[k];
    }
  }

  lemma RefusedLonger(uids: seq<string>, events: seq<Event>, longer: seq<Event>, i: nat, lease: int, at: nat)
    requires events <= longer && Refused(uids, events, i, lease, at)
    ensures Refused(uids, longer, i, lease, at)
  {
    assert longer[..at] == events[..at] && longer[at] == events[at];
  }

  /** The attempt met a live token, or its reply was lost. */
  predicate Refused(uids: seq<string>, events: seq<Event>, i: nat, lease: int, at: nat) {
    && at < |events| && events[at].Acquire? && events[at].session == i && events[at].lease == lease
    && (Live(Run(uids, events[..at])).Some? || events[at].lost)
  }

  /** Attempts of one call that began after `start` events: each refused, made in time, with nothing of
      the session but one pause of the checking period before the next, which follows at once. */
  predicate Polls(uids: seq<string>, events: seq<Event>, start: nat, i: nat, lease: int, timeout: int, tries: seq<Try>) {
    && start <= |events|
    && forall j :: 0 <= j < |tries| ==>
         tries[j].at == Resumes(start, tries[..j]) && Tried(uids, events, start, i, lease, timeout, tries[j])
  }

  predicate Tried(uids: seq<string>, events: seq<Event>, start: nat, i: nat, lease: int, timeout: int, t: Try)
    requires start <= |events|
  {
    && t.at < t.pause < |events|
    && Refused(uids, events, i, lease, t.at)
    && Run(uids, events[..t.at]).now - Run(uids, events[..start]).now < timeout
    && Quiet(events, t.at + 1, t.pause, i)
    && events[t.pause] == Tick(LOCK_CHECK_PERIOD)
  }

  lemma TriedLonger(uids: seq<string>, events: seq<Event>, longer: seq<Event>, start: nat, i: nat, lease: int,
                    timeout: int, t: Try)
    requires events <= longer && start <= |events| && Tried(uids, events, start, i, lease, timeout, t)
    ensures Tried(uids, longer, start, i, lease, timeout, t)
  {
    RefusedLonger(uids, events, longer, i, lease, t.at);
    QuietLonger(events, longer, t.at + 1, t.pause, i);
    assert longer[..t.at] == events[..t.at] && longer[..start] == events[..start];
  }

  lemma {:induction false} PollsLonger(uids: seq<string>, events: seq<Event>, longer: seq<Event>, start: nat, i: nat,
                                       lease: int, timeout: int, tries: seq<Try>)
    requires events <= longer && Polls(uids, events, start, i, lease, timeout, tries)
    ensures Polls(uids, longer, start, i, lease, timeout, tries)
  {
    forall j | 0 <= j < |tries| ensures Tried(uids, longer, start, i, lease, timeout, tries[j]) {
      TriedLonger(uids, events, longer, start, i, lease, timeout, tries[j]);
    }
  }

  /** The attempt that began after `before` and ends with the pause. */
  lemma {:induction false} TriedAndPaused(uids: seq<string>, before: seq<Event>, events: seq<Event>, start: nat, i: nat,
                                          lease: int, timeout: int, paused: seq<Event>)
    requires before < events && start <= |before| && paused == events + [Tick(LOCK_CHECK_PERIOD)]
    requires Refused(uids, events, i, lease, |before|) && Quiet(events, |before| + 1, |events|, i)
    requires Run(uids, before).now - Run(uids, before[..start]).now < timeout
    ensures Tried(uids, paused, start, i, lease, timeout, Try(|before|, |paused| - 1))
  {
    QuietLonger(events, paused, |before| + 1, |events|, i);
    RefusedLonger(uids, events, paused, i, lease, |before|);
    assert paused[..|before|] == before && paused[..start] == before[..start];
  }

  lemma {:induction false} PollsPaused(uids: seq<string>, before: seq<Event>, events: seq<Event>, start: nat, i: nat,
                                       lease: int, timeout: int, tries: seq<Try>, paused: seq<Event>)
    requires before < events && start <= |before| && paused == events + [Tick(LOCK_CHECK_PERIOD)]
    requires Polls(uids, before, start, i, lease, timeout, tries) && Resumes(start, tries) == |before|
    requires Refused(uids, events, i, lease, |before|) && Quiet(events, |before| + 1, |events|, i)
    requires Run(uids, before).now - Run(uids, before[..start]).now < timeout
    ensures Polls(uids, paused, start, i, lease, timeout, tries + [Try(|before|, |paused| - 1)])
  {
    PollsLonger(uids, before, paused, start, i, lease, timeout, tries);
    TriedAndPaused(uids, before, events, start, i, lease, timeout, paused);
    PollsOneMore(uids, paused, start, i, lease, timeout, tries, Try(|before|, |paused| - 1));
  }

  lemma {:induction false} PollsOneMore(uids: seq<string>, events: seq<Event>, start: nat, i: nat, lease: int,
                                        timeout: int, tries: seq<Try>, t: Try)
    requires Polls(uids, events, start, i, lease, timeout, tries)
    requires t.at == Resumes(start, tries) && Tried(uids, events, start, i, lease, timeout, t)
    ensures Polls(uids, events, start, i, lease, timeout, tries + [t])
  {
    var more := tries + [t];
    forall j | 0 <= j < |more|
      ensures more[j].at == Resumes(start, more[..j]) && Tried(uids, events, start, i, lease, timeout, more[j])
    {
      assert more[..j] == tries[..j];
      assert tries[..|tries|] == tries;
    }
  }

  class RedisClient {
    const uids: seq<string>
    var world: World
    /** The events so far, as a witness that `world` is the end of a run. */
    ghost var events: seq<Event>

    ghost predicate Valid()
      reads this
    {
      world == Run(uids, events)
    }

    method Do(e: Event)
      requires Valid()
      modifies this
      ensures Valid() && events == old(events) + [e] && world == Step(uids, old(world), e)
    {
      world := Step(uids, world, e);
      events := events + [e];
      assert events[..|events| - 1] == old(events);
    }

    /** Other sessions, and time. */
    method Others(i: nat)
      requires Valid()
      modifies this
      ensures Valid() && old(events) <= events
      ensures i in world.granted <==> i in old(world).granted
      ensures i in world.granted ==> world.granted[i] == old(world).granted[i]
      ensures world.now >= old(world).now
      ensures Quiet(events, |old(events)|, |events|, i)
    {
      var steps: nat := *;
      while steps > 0
        invariant Valid() && old(events) <= events
        invariant Quiet(events, |old(events)|, |events|, i)
        invariant i in world.granted <==> i in old(world).granted
        invariant i in world.granted ==> world.granted[i] == old(world).granted[i]
        invariant world.now >= old(world).now
      {
        var e: Event := *;
        match e {
          case Acquire(j, _, _) => if j != i { Do(e); }
          case Release(j) => if j != i { Do(e); }
          case Tick(_) => Do(e);
        }
        steps := steps - 1;
      }
    }

    /** Polls until the key is set with the session's token or the time is over. It reports
        success exactly when it acquired and was told so; the lease runs from the moment of the
        SET, which lies between call and return, and may be over when the reply comes. It gives up
        only when the time is over: `tries` are its refused attempts, each of them made while there
        was time and followed by one pause, and after each pause by another attempt if time is
        left. With no time to spend it does not even try. */
    method RedLock(i: nat, acquireTimeout: int, lease: int) returns (ok: bool, ghost at: int, ghost tries: seq<Try>)
      requires Valid() && i < |uids| && i !in world.granted
      modifies this
      ensures Valid() && old(events) <= events
      ensures ok <==> i in world.granted
      ensures ok ==> old(world).now <= at <= world.now && at - old(world).now < acquireTimeout
      ensures ok ==> Granted(i, lease, Resumes(|old(events)|, tries), at)
      ensures Polls(uids, events, |old(events)|, i, lease, acquireTimeout, tries)
      ensures !ok ==> world.now - old(world).now >= acquireTimeout && Resumes(|old(events)|, tries) == |events|
      ensures acquireTimeout > 0 && !ok ==> tries != []
      ensures acquireTimeout <= 0 ==> !ok && events == old(events)
    {
      var begin := world.now;
      ghost var start := |events|;
      var elapsed := 0;
      ok, at, tries := false, begin, [];
      assert events[..start] == events;
      while elapsed < acquireTimeout
        invariant Valid() && old(events) <= events && i !in world.granted
        invariant elapsed == world.now - begin >= 0
        invariant Polls(uids, events, start, i, lease, acquireTimeout, tries) && Resumes(start, tries) == |events|
        invariant Run(uids, events[..start]).now == begin
        invariant tries == [] ==> elapsed == 0
        invariant acquireTimeout <= 0 ==> events == old(events)
        decreases acquireTimeout - elapsed
      {
        ghost var before := events;
        ok, at, tries := Turn(i, acquireTimeout, lease, begin, start, tries);
        assert events[..start] == before[..start];
        if ok {
          return;
        }
        elapsed := world.now - begin;
      }
    }

    /** One turn of the polling loop. */
    method Turn(i: nat, timeout: int, lease: int, ghost begin: int, ghost start: nat, ghost tries: seq<Try>)
      returns (ok: bool, ghost at: int, ghost tries': seq<Try>)
      requires Valid() && i < |uids| && i !in world.granted && start <= |events|
      requires Polls(uids, events, start, i, lease, timeout, tries) && Resumes(start, tries) == |events|
      requires Run(uids, events[..start]).now == begin && world.now - begin < timeout
      modifies this
      ensures Valid() && old(events) < events
      ensures Polls(uids, events, start, i, lease, timeout, tries')
      ensures ok <==> i in world.granted
      ensures ok ==> Granted(i, lease, |old(events)|, at) && tries' == tries && at == old(world).now <= world.now
      ensures !ok ==> tries' != [] && Resumes(start, tries') == |events| && world.now >= old(world).now + LOCK_CHECK_PERIOD
    {
      ghost var before := events;
      assert events[..|events|] == events;
      ok, at := Attempt(i, lease);
      assert events[..|before|] == before;
      tries' := tries;
      if ok {
        PollsLonger(uids, before, events, start, i, lease, timeout, tries);
        OwnLease(i);
      } else {
        Pause(i, before, start, lease, timeout, tries);
        tries' := tries + [Try(|before|, |events| - 1)];
      }
    }

    /** The attempt at event `k` was granted, and the session told so. */
    ghost predicate Granted(i: nat, lease: int, k: nat, at: int)
      reads this
    {
      && i < |uids| && i in world.granted && world.granted[i] == at + lease
      && (DistinctUids(uids) ==> (Live(world) == Some(uids[i]) <==> world.now - at < lease))
      && k < |events| && events[k] == Acquire(i, lease, false)
      && Live(Run(uids, events[..k])).None? && Run(uids, events[..k]).now == at
    }

    /** One attempt, and the wait for its reply. */
    method Attempt(i: nat, lease: int) returns (acquired: bool, ghost at: int)
      requires Valid() && i < |uids| && i !in world.granted
      modifies this
      ensures Valid() && old(events) < events && world.now >= at == old(world).now
      ensures events[|old(events)|].Acquire? && events[|old(events)|].session == i && events[|old(events)|].lease == lease
      ensures acquired <==> Live(old(world)).None? && !events[|old(events)|].lost
      ensures acquired <==> i in world.granted
      ensures acquired ==> world.granted[i] == at + lease
      ensures Quiet(events, |old(events)| + 1, |events|, i)
    {
      var lost: bool := *;
      acquired := SetNx(world, uids[i], lease).1 && !lost;
      at := world.now;
      Do(Acquire(i, lease, lost));
      Others(i);
    }

    method Pause(i: nat, ghost before: seq<Event>, ghost start: nat, ghost lease: int, ghost timeout: int, ghost tries: seq<Try>)
      requires Valid() && before < events && start <= |before|
      requires Polls(uids, before, start, i, lease, timeout, tries) && Resumes(start, tries) == |before|
      requires Refused(uids, events, i, lease, |before|) && Quiet(events, |before| + 1, |events|, i)
      requires Run(uids, before).now - Run(uids, before[..start]).now < timeout
      modifies this
      ensures Valid() && events == old(events) + [Tick(LOCK_CHECK_PERIOD)]
      ensures world == old(world).(now := old(world).now + LOCK_CHECK_PERIOD)
      ensures Polls(uids, events, start, i, lease, timeout, tries + [Try(|before|, |events| - 1)])
    {
      PollsPaused(uids, before, events, start, i, lease, timeout, tries, events + [Tick(LOCK_CHECK_PERIOD)]);
      Do(Tick(LOCK_CHECK_PERIOD));
    }

    /** With distinct uids, the token on the server is a session's exactly while its lease runs. */
    lemma OwnLease(i: nat)
      requires Valid() && i < |uids| && i in world.granted
      ensures DistinctUids(uids) ==> (Live(world) == Some(uids[i]) <==> Holds(world, i))
    {
      if DistinctUids(uids) {
        AtMostOneHolder(uids, events);
        TokensAreGranted(uids, events, i);
      }
    }

    /** The key is deleted exactly when it has the session's token; success is only reported for
        a deletion. Afterwards the session holds nothing. */
    method RedUnlock(i: nat) returns (ok: bool)
      requires Valid() && i < |uids| && i in world.granted
      modifies this
      ensures Valid() && i !in world.granted
      ensures ok ==> Live(old(world)) == Some(uids[i])
      ensures world.key == if Live(old(world)) == Some(uids[i]) then None else old(world).key
    {
      var lost: bool := *;
      ok := CompareAndDelete(world, uids[i]).1 && !lost;
      Do(Release(i));
    }
  }
}
