/**
 All sessions at once: worker threads, the threads that complete requests, and the threads
 that create sessions, in any interleaving. A session travels by its number between the
 workers' queue, the hands of threads and the outstanding requests.
 */
module Ownership {
  import opened Wrappers
  import opened Stages
  import opened SessionSpec

  /** `working`: taken from the queue by a worker that has not called Process yet. `pushing`:
      in a thread that is about to put the session into the queue, and may be blocked there.
      `current` is the stage whose request a session made last, `starts` counts its stages. */
  datatype System = System(sessions: map<nat, State>, queue: seq<nat>, working: multiset<nat>,
    pushing: multiset<nat>, requests: multiset<nat>, current: map<nat, ProcType>,
    starts: map<nat, nat>, bounds: map<nat, nat>)

  const IDLE := System(map[], [], multiset{}, multiset{}, multiset{}, map[], map[], map[])

  datatype Event =
    | Create(i: nat, chain: seq<ProcType>, retries: nat, urls: seq<string>)
    | Put(i: nat)
    | Get
    | Process(i: nat, outcome: Outcome)
    | Callback(i: nat, http: Http)

  /** The thread that carried session `i` lets go of it. */
  function Place(s: System, i: nat, t: State, next: Next): System {
    var u := s.(sessions := s.sessions[i := t]);
    match next
    case Requeued => u.(pushing := s.pushing + multiset{i})
    case Awaiting(stage) => u.(requests := s.requests + multiset{i}, current := s.current[i := stage])
    case Ended => u
  }

  /** ChainsAreAdmissible: every kind of message starts with an admissible chain. */
  predicate Enabled(s: System, e: Event) {
    match e
    case Create(i, chain, _, _) => i !in s.sessions && Admissible(chain)
    case Put(i) => i in s.pushing
    case Get => s.queue != []
    case Process(i, _) => i in s.working && i in s.sessions && i in s.starts
    case Callback(i, _) => i in s.requests && i in s.sessions && i in s.current
  }

  function Step(s: System, e: Event): System
    requires Enabled(s, e)
  {
    match e
    case Create(i, chain, retries, urls) =>
      s.(sessions := s.sessions[i := Fresh(chain, retries, urls)], pushing := s.pushing + multiset{i},
         starts := s.starts[i := 0], bounds := s.bounds[i := retries + |urls| + |chain| + 1])
    case Put(i) => s.(pushing := s.pushing - multiset{i}, queue := s.queue + [i])
    case Get => s.(queue := s.queue[1..], working := s.working + multiset{s.queue[0]})
    case Process(i, o) =>
      var (t, next) := Start(s.sessions[i], o);
      Place(s.(working := s.working - multiset{i}, starts := s.starts[i := s.starts[i] + 1]), i, t, next)
    case Callback(i, h) =>
      var (t, next) := HttpDone(s.sessions[i], s.current[i], h);
      Place(s.(requests := s.requests - multiset{i}), i, t, next)
  }

  /** Events that are not enabled do nothing. */
  function Run(events: seq<Event>): System {
    if events == [] then IDLE
    else
      var s, e := Run(events[..|events| - 1]), events[|events| - 1];
      if Enabled(s, e) then Step(s, e) else s
  }

  // ---------- ownership ----------

  predicate Unfinished(s: System, i: nat) { i in s.sessions && s.sessions[i].code.None? }

  /** In how many places session `i` is. */
  function Places(s: System, i: nat): nat {
    multiset(s.queue)[i] + s.working[i] + s.pushing[i] + s.requests[i]
  }

  predicate Owned(s: System, i: nat) { Places(s, i) == if Unfinished(s, i) then 1 else 0 }

  // ---------- what holds of one session ----------

  function Asked(s: System, i: nat): Option<ProcType> {
    if i in s.requests && i in s.current then Some(s.current[i]) else None
  }

  /** Between two dispatches a session is ready and its download loop at rest; while a request
      is out it waits for it. */
  predicate Sound(t: State, asked: Option<ProcType>) {
    Loaded(t) &&
    (t.code.None? ==>
      match asked
      case None => Ready(t) && AtRest(t)
      case Some(stage) => stage in REQUESTING && InBounds(t) && Waiting(t, stage))
  }

  /** How many more stages the session can start. */
  function Left(t: State, asked: Option<ProcType>): nat {
    if t.code.Some? || !InBounds(t) then 0
    else Measure(t) + if asked == Some(DownloadImage) then 1 else 0
  }

  predicate Booked(s: System, i: nat) {
    i in s.sessions ==>
      && i in s.starts && i in s.bounds
      && (i in s.requests ==> i in s.current)
      && Sound(s.sessions[i], Asked(s, i))
      && s.starts[i] + Left(s.sessions[i], Asked(s, i)) <= s.bounds[i]
  }

  ghost predicate Inv(s: System) {
    (forall i: nat :: Owned(s, i)) && (forall i: nat :: Booked(s, i))
  }

  // ---------- the invariant is kept ----------

  /** The result of a step of session `i`, as far as the session itself goes. */
  predicate Result(t: State, next: Next, left: nat) {
    match next
    case Requeued => Sound(t, None) && t.code.None? && Left(t, None) <= left
    case Awaiting(stage) => Sound(t, Some(stage)) && t.code.None? && Left(t, Some(stage)) <= left
    case Ended => Sound(t, None) && t.code.Some?
  }

  lemma StartResult(s: State, o: Outcome)
    requires s.code.None? && Sound(s, None)
    ensures var (t, next) := Start(s, o); Left(s, None) >= 1 && Result(t, next, Left(s, None) - 1)
  {
    StartProgresses(s, o);
    StartKeepsLoop(s, o);
  }

  lemma HttpResult(s: State, stage: ProcType, h: Http)
    requires s.code.None? && Sound(s, Some(stage))
    ensures var (t, next) := HttpDone(s, stage, h); Result(t, next, Left(s, Some(stage)))
  {
    ReplyProgresses(s, Left(s, Some(stage)) + 1, stage, h);
    ReplyKeepsLoop(s, stage, h);
  }

  /** Session `i` is in a thread's hands and nowhere else. */
  ghost predicate InHand(s: System, i: nat) {
    && Unfinished(s, i)
    && Places(s, i) == 0
    && forall j: nat :: j != i ==> Owned(s, j)
  }

  lemma PlaceKeepsOwned(s: System, i: nat, t: State, next: Next)
    requires InHand(s, i)
    requires next.Ended? <==> t.code.Some?
    ensures forall j: nat :: Owned(Place(s, i, t, next), j)
  {
    var u := Place(s, i, t, next);
    forall j: nat ensures Owned(u, j) {
      assert j != i ==> Owned(s, j);
      assert j != i ==> (Unfinished(u, j) <==> Unfinished(s, j));
    }
  }

  lemma PlaceKeepsBooked(s: System, i: nat, t: State, next: Next, left: nat)
    requires forall j: nat :: j != i ==> Booked(s, j)
    requires i in s.sessions && i in s.starts && i in s.bounds && i !in s.requests
    requires Result(t, next, left) && s.starts[i] + left <= s.bounds[i]
    ensures forall j: nat :: Booked(Place(s, i, t, next), j)
  {
    var u := Place(s, i, t, next);
    forall j: nat ensures Booked(u, j) {
      if j != i {
        assert Booked(s, j);
        assert (j in u.requests <==> j in s.requests) && Asked(u, j) == Asked(s, j);
      }
    }
  }

  lemma {:induction false} ProcessKeepsInv(s: System, i: nat, o: Outcome)
    requires Inv(s) && Enabled(s, Process(i, o))
    ensures Inv(Step(s, Process(i, o)))
  {
    var r := s.(working := s.working - multiset{i}, starts := s.starts[i := s.starts[i] + 1]);
    assert Owned(s, i) && Booked(s, i);
    forall j: nat | j != i ensures Owned(r, j) && Booked(r, j) {
      assert Owned(s, j) && Booked(s, j);
      assert Asked(r, j) == Asked(s, j);
    }
    assert i !in s.requests && Asked(s, i) == None;
    var st := s.sessions[i];
    StartResult(st, o);
    PlaceKeepsOwned(r, i, Start(st, o).0, Start(st, o).1);
    PlaceKeepsBooked(r, i, Start(st, o).0, Start(st, o).1, Left(st, None) - 1);
  }

  lemma CallbackKeepsInv(s: System, i: nat, h: Http)
    requires Inv(s) && Enabled(s, Callback(i, h))
    ensures Inv(Step(s, Callback(i, h)))
  {
    var r := s.(requests := s.requests - multiset{i});
    assert Owned(s, i) && Booked(s, i);
    forall j: nat | j != i ensures Owned(r, j) && Booked(r, j) {
      assert Owned(s, j) && Booked(s, j);
      assert Asked(r, j) == Asked(s, j);
    }
    var st, stage := s.sessions[i], s.current[i];
    assert Asked(s, i) == Some(stage);
    HttpResult(st, stage, h);
    PlaceKeepsOwned(r, i, HttpDone(st, stage, h).0, HttpDone(st, stage, h).1);
    PlaceKeepsBooked(r, i, HttpDone(st, stage, h).0, HttpDone(st, stage, h).1, Left(st, Some(stage)));
  }

  lemma MoveKeepsInv(s: System, t: System)
    requires Inv(s)
    requires t.sessions == s.sessions && t.requests == s.requests && t.current == s.current
    requires t.starts == s.starts && t.bounds == s.bounds
    requires forall i: nat :: Places(t, i) == Places(s, i)
    ensures Inv(t)
  {
    forall i: nat ensures Owned(t, i) && Booked(t, i) {
      assert Owned(s, i) && Booked(s, i);
      assert Asked(t, i) == Asked(s, i);
    }
  }

  lemma CreateKeepsInv(s: System, e: Event)
    requires Inv(s) && e.Create? && Enabled(s, e)
    ensures Inv(Step(s, e))
  {
    var t := Step(s, e);
    var st := Fresh(e.chain, e.retries, e.urls);
    assert Owned(s, e.i);
    assert Sound(st, None) && Left(st, None) <= t.bounds[e.i];
    forall j: nat ensures Owned(t, j) && Booked(t, j) {
      assert Owned(s, j) && Booked(s, j);
      assert Asked(t, j) == Asked(s, j);
    }
  }

  lemma {:induction false} StepKeepsInv(s: System, e: Event)
    requires Inv(s) && Enabled(s, e)
    ensures Inv(Step(s, e))
  {
    match e
    case Create(_, _, _, _) => CreateKeepsInv(s, e);
    case Put(i) => MoveKeepsInv(s, Step(s, e));
    case Get =>
      assert s.queue == [s.queue[0]] + s.queue[1..];
      MoveKeepsInv(s, Step(s, e));
    case Process(i, o) => ProcessKeepsInv(s, i, o);
    case Callback(i, h) => CallbackKeepsInv(s, i, h);
  }

  lemma {:induction false} RunKeepsInv(events: seq<Event>)
    ensures Inv(Run(events))
  {
    if events != [] {
      RunKeepsInv(events[..|events| - 1]);
      var s, e := Run(events[..|events| - 1]), events[|events| - 1];
      if Enabled(s, e) {
        StepKeepsInv(s, e);
      }
    }
  }

  /** In every reachable state an unfinished session is in exactly one of the queue, the hands
      of one thread, or one outstanding request; a finished one is in none of them, so it is
      never put into the queue again. */
  lemma {:induction false} SingleOwner(events: seq<Event>, i: nat)
    ensures var s := Run(events);
            Places(s, i) == if i in s.sessions && s.sessions[i].code.None? then 1 else 0
  {
    RunKeepsInv(events);
    assert Owned(Run(events), i);
  }

  /** No interleaving makes a session start more stages than its retries, URLs and chain allow,
      and one more. */
  lemma {:induction false} StagesAreBounded(events: seq<Event>, i: nat)
    requires i in Run(events).sessions
    ensures var s := Run(events); i in s.starts && i in s.bounds && s.starts[i] <= s.bounds[i]
  {
    RunKeepsInv(events);
    assert Booked(Run(events), i);
  }

  /** A request for traces is only out while every URL of its session has been answered; with
      distinct URLs its images belong to the faces of their numbers exactly when empty answers
      came last. */
  lemma {:induction false} TraceHasAllImages(events: seq<Event>, i: nat)
    requires Unfinished(Run(events), i) && Asked(Run(events), i) == Some(TraceSpace)
    ensures var t := Run(events).sessions[i];
            && |t.answers| == |t.urls| && t.images == Stored(t.urls, t.answers)
            && (DistinctUrls(t.urls) ==> (Aligned(t.images, t.urls) <==> EmptyOnlyAtEnd(t.answers)))
  {
    RunKeepsInv(events);
    assert Booked(Run(events), i);
    var t := Run(events).sessions[i];
    if DistinctUrls(t.urls) {
      AlignedIff(t.urls, t.answers);
    }
  }

  lemma StepLeavesFinished(s: System, e: Event, i: nat)
    requires Inv(s) && Enabled(s, e)
    requires i in s.sessions && s.sessions[i].code.Some?
    ensures i in Step(s, e).sessions && Step(s, e).sessions[i] == s.sessions[i]
  {
    assert Owned(s, i);
    assert i !in s.working && i !in s.requests;
  }

  /** The first code Final records is never replaced, and the session's books are closed: no
      later event touches it. */
  lemma {:induction false} FinishedStaysFinished(before: seq<Event>, after: seq<Event>, i: nat)
    requires i in Run(before).sessions && Run(before).sessions[i].code.Some?
    ensures i in Run(before + after).sessions
    ensures Run(before + after).sessions[i] == Run(before).sessions[i]
    decreases |after|
  {
    if after == [] {
      assert before + after == before;
    } else {
      var shorter := after[..|after| - 1];
      var all := before + after;
      assert all[..|all| - 1] == before + shorter && all[|all| - 1] == after[|after| - 1];
      FinishedStaysFinished(before, shorter, i);
      RunKeepsInv(before + shorter);
      if Enabled(Run(before + shorter), after[|after| - 1]) {
        StepLeavesFinished(Run(before + shorter), after[|after| - 1], i);
      }
    }
  }
}
