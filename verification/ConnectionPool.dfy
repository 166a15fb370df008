/**
 The connection pool of the HTTP client: as a machine over its critical sections (requests, the
 ends of asynchronous operations, the stops of runner and client, in any interleaving), and the
 critical sections themselves as methods on the set of connections.
 */
module ConnectionPool {
  import opened HttpExchange

  datatype Connection = Connection(inUse: bool, attemptReconnect: bool)

  /** An operation that ended, how, and whether the runner let its handler continue. */
  datatype Came = Came(phase: Phase, outcome: Outcome, locked: bool)

  /** `pending` are the outstanding operations of the request, `replies` the calls of its callback,
      `escapes` the exceptions that left its handlers. `came` is history: the operations that
      ended. `reconnects` counts the reconnections; `limit` is the largest size of its buffers and
      `room` what is left of it for chunks. */
  datatype Request = Request(connection: nat, pending: multiset<Phase>, replies: seq<Error>, escapes: nat,
                             reconnects: nat, limit: nat, room: nat, came: seq<Came>)

  /** `pool` is the client's set of connections, `all` every connection created so far. */
  datatype Client = Client(pool: set<nat>, all: map<nat, Connection>, requests: map<nat, Request>,
                           runnerStopped: bool, stopped: bool)

  const START := Client({}, map[], map[], false, false)

  /** `c` is the connection that get_connection comes upon, or the new one, and `open` says
      whether its socket is; `next` the new connection of a reconnection; `keep` the idle
      connections that survive the pruning loop. */
  datatype Event =
    | Send(r: nat, c: nat, open: bool, limit: nat)
    | Completion(r: nat, phase: Phase, outcome: Outcome, next: nat, keep: set<nat>)
    | StopRunner
    | Stop

  predicate Idle(s: Client, c: nat) { c in s.pool && c in s.all && !s.all[c].inUse }

  /** A request that has had no callback. */
  predicate Active(s: Client, r: nat) { r in s.requests && s.requests[r].replies == [] }

  predicate Known(s: Client, r: nat) { r in s.requests && s.requests[r].connection in s.all }

  /** The loop over the set, in whatever order, leaves one idle connection if there is any. */
  predicate Kept(idle: set<nat>, keep: set<nat>) {
    && keep <= idle
    && (idle != {} ==> keep != {})
    && |keep| <= 1
  }

  function IdleAfter(s: Client, c: nat, failed: bool): set<nat> {
    set d | d in s.pool && (Idle(s, d) || d == c) && !(failed && d == c)
  }

  /** The busy connections that stay in the pool when the request on `c` ends. */
  function BusyAfter(s: Client, c: nat): set<nat> {
    set d | d in s.pool && !Idle(s, d) && d != c
  }

  // ---------- steps ----------

  /** What the handler of a completion does. */
  function Reaction(s: Client, e: Event): Action
    requires e.Completion? && Known(s, e.r)
  {
    var q := s.requests[e.r];
    React(e.phase, e.outcome, !s.runnerStopped, s.all[q.connection].attemptReconnect, q.room)
  }

  /** The error code the callback is called with, if it is. */
  function Answer(s: Client, r: nat, a: Action): (error: seq<Error>)
    requires Known(s, r)
  {
    match a
    case Reply(error) => [error]
    case Reconnect(error) => if s.requests[r].connection in s.pool then [] else [error]
    case _ => []
  }

  predicate Retries(s: Client, r: nat, a: Action)
    requires Known(s, r)
  {
    a.Reconnect? && s.requests[r].connection in s.pool
  }

  /** The operation is over, and the handler has set the flag of the connection. */
  function Arrived(s: Client, e: Event): Client
    requires e.Completion? && Known(s, e.r)
  {
    var q := s.requests[e.r];
    var c := s.all[q.connection];
    s.(all := s.all[q.connection := c.(attemptReconnect := c.attemptReconnect || Heard(e.phase, e.outcome, !s.runnerStopped))],
       requests := s.requests[e.r := q.(pending := q.pending - multiset{e.phase},
                                        came := q.came + [Came(e.phase, e.outcome, !s.runnerStopped)])])
  }

  function Started(s: Client, r: nat, p: Phase, room: nat): Client
    requires r in s.requests
  {
    var q := s.requests[r];
    s.(requests := s.requests[r := q.(pending := q.pending + multiset{p}, room := room)])
  }

  /** The session's callback. */
  function Completed(s: Client, r: nat, error: Error, keep: set<nat>): Client
    requires Known(s, r)
  {
    var q := s.requests[r];
    s.(pool := BusyAfter(s, q.connection) + keep,
       all := s.all[q.connection := s.all[q.connection].(inUse := false)],
       requests := s.requests[r := q.(replies := q.replies + [error])])
  }

  function Reconnected(s: Client, r: nat, next: nat): Client
    requires r in s.requests
  {
    var q := s.requests[r];
    s.(pool := s.pool - {q.connection} + {next},
       all := s.all[next := Connection(true, false)],
       requests := s.requests[r := q.(connection := next, reconnects := q.reconnects + 1,
                                      pending := q.pending + multiset{Connect(false)})])
  }

  function Escaped(s: Client, r: nat): Client
    requires r in s.requests
  {
    var q := s.requests[r];
    s.(requests := s.requests[r := q.(escapes := q.escapes + 1)])
  }

  function Act(s: Client, r: nat, a: Action, next: nat, keep: set<nat>): Client
    requires Known(s, r)
  {
    match a
    case Start(phase, room) => Started(s, r, phase, room)
    case Reply(error) => Completed(s, r, error, keep)
    case Reconnect(error) =>
      if s.requests[r].connection in s.pool then Reconnected(s, r, next) else Completed(s, r, error, keep)
    case Escape => Escaped(s, r)
  }

  /** What the end of a handler adds to its request, and that it leaves the others alone. */
  lemma ActOfRequest(s: Client, r: nat, a: Action, next: nat, keep: set<nat>)
    requires Known(s, r)
    ensures var q, p := s.requests[r], Act(s, r, a, next, keep).requests[r];
            && p.replies == q.replies + Answer(s, r, a)
            && p.escapes == q.escapes + (if a.Escape? then 1 else 0)
            && p.reconnects == q.reconnects + (if Retries(s, r, a) then 1 else 0)
            && p.connection == (if Retries(s, r, a) then next else q.connection)
            && p.came == q.came
            && (!a.Start? && !Retries(s, r, a) ==> p.pending == q.pending)
    ensures Act(s, r, a, next, keep).requests - {r} == s.requests - {r}
  {
  }

  predicate Pruning(s: Client, r: nat, a: Action, keep: set<nat>)
    requires Known(s, r)
  {
    var error := Answer(s, r, a);
    error != [] ==> Kept(IdleAfter(s, s.requests[r].connection, !error[0].Success?), keep)
  }

  ghost predicate Enabled(s: Client, e: Event) {
    match e
    case Send(r, c, open, _) =>
      r !in s.requests && if exists d :: Idle(s, d) then Idle(s, c) else c !in s.all && !open
    case Completion(r, phase, _, next, keep) =>
      && Known(s, r) && phase in s.requests[r].pending
      && next !in s.all && Pruning(Arrived(s, e), r, Reaction(s, e), keep)
    case _ => true
  }

  function Step(s: Client, e: Event): Client
    requires e.Completion? ==> Known(s, e.r)
  {
    match e
    case Send(r, c, open, limit) =>
      s.(pool := s.pool + {c}, all := s.all[c := Connection(true, true)],
         requests := s.requests[r := Request(c, multiset{Connect(open)}, [], 0, 0, limit, limit, [])])
    case Completion(r, _, _, next, keep) => Act(Arrived(s, e), r, Reaction(s, e), next, keep)
    case StopRunner => s.(runnerStopped := true)
    case Stop => s.(pool := {}, stopped := true)
  }

  ghost function Run(events: seq<Event>): Client {
    if events == [] then START
    else
      var s, e := Run(events[..|events| - 1]), events[|events| - 1];
      if Enabled(s, e) then Step(s, e) else s
  }

  // ---------- invariants ----------

  /** Outstanding operations, callbacks and escaped exceptions of a request. */
  function Weight(q: Request): nat { |q.pending| + |q.replies| + q.escapes }

  /** What holds of a request whatever it waits for; its connection is in the pool unless the
      client was stopped. */
  predicate Held(s: Client, r: nat)
    requires r in s.requests
  {
    var q := s.requests[r];
    && q.connection in s.all
    && q.reconnects <= 1
    && q.room <= q.limit
    && (q.replies == [] ==> s.all[q.connection].inUse && (!s.stopped ==> q.connection in s.pool))
  }

  /** What holds of a request while it waits for the end of an operation. */
  predicate Waiting(s: Client, r: nat, p: Phase)
    requires Known(s, r)
  {
    var q := s.requests[r];
    && Fits(p, q.limit, q.room)
    && |q.came| + Rank(p, q.limit, q.room, q.reconnects) <= 2 * q.limit + 9
    && (Early(p) ==> (s.all[q.connection].attemptReconnect <==> q.reconnects == 0))
  }

  ghost predicate Sane(s: Client, r: nat) {
    r in s.requests ==>
      && Held(s, r)
      && Weight(s.requests[r]) == 1
      && |s.requests[r].came| <= 2 * s.requests[r].limit + 9
      && forall p :: p in s.requests[r].pending ==> Waiting(s, r, p)
  }

  predicate Apart(s: Client, r: nat, q: nat) {
    Active(s, r) && Active(s, q) && r != q ==> s.requests[r].connection != s.requests[q].connection
  }

  /** A connection in the pool that is in use belongs to an active request. */
  ghost predicate Belongs(s: Client, c: nat) {
    c in s.pool ==> c in s.all && (Idle(s, c) || exists r :: Active(s, r) && s.requests[r].connection == c)
  }

  ghost predicate OneIdle(s: Client) {
    forall c, d :: Idle(s, c) && Idle(s, d) ==> c == d
  }

  /** The connections belong to the requests. */
  ghost predicate Tidy(s: Client) {
    && (forall r, q :: Apart(s, r, q))
    && (forall c :: Belongs(s, c))
    && OneIdle(s)
  }

  ghost predicate Inv(s: Client) {
    (forall r :: Sane(s, r)) && Tidy(s)
  }

  /** The handler of request `r` is running: nothing is outstanding for it. */
  ghost predicate InHand(s: Client, r: nat) {
    && Known(s, r)
    && (forall q :: q != r ==> Sane(s, q))
    && Tidy(s)
    && Held(s, r)
    && Weight(s.requests[r]) == 0
  }

  lemma Empty(q: Request)
    requires Weight(q) == 0
    ensures q.pending == multiset{} && q.replies == []
  {
  }

  lemma Single(q: Request, p: Phase)
    requires Weight(q) == 1 && p in q.pending
    ensures q.pending == multiset{p} && q.replies == [] && q.escapes == 0
  {
    assert |q.pending - multiset{p}| == |q.pending| - 1;
    assert q.pending == multiset{p} + (q.pending - multiset{p});
  }

  lemma SameConnections(s: Client, t: Client)
    requires Tidy(s) && s.pool == t.pool && s.all.Keys == t.all.Keys
    requires forall c :: c in s.all ==> s.all[c].inUse == t.all[c].inUse
    requires forall r :: Active(s, r) <==> Active(t, r)
    requires forall r :: Active(s, r) ==> r in t.requests && s.requests[r].connection == t.requests[r].connection
    ensures Tidy(t)
  {
    forall r, q ensures Apart(t, r, q) {
      assert Apart(s, r, q);
    }
    forall c ensures Belongs(t, c) {
      assert Belongs(s, c) && (Idle(s, c) <==> Idle(t, c));
      if c in s.pool && !Idle(s, c) {
        var r :| Active(s, r) && s.requests[r].connection == c;
        assert Active(t, r);
      }
    }
    forall a, b | Idle(t, a) && Idle(t, b) ensures a == b {
      assert Idle(s, a) && Idle(s, b);
    }
  }

  lemma SendKeepsInv(s: Client, e: Event)
    requires e.Send? && Inv(s) && Enabled(s, e)
    ensures Inv(Step(s, e))
  {
    var t := Step(s, e);
    forall q ensures Sane(t, q) && Apart(t, e.r, q) && Apart(t, q, e.r) {
      assert Sane(s, q);
    }
    forall q, p ensures Apart(t, q, p) {
      assert Apart(s, q, p);
    }
    forall d ensures Belongs(t, d) {
      assert Belongs(s, d);
      if d == e.c {
        assert Active(t, e.r) && t.requests[e.r].connection == e.c;
      } else if d in s.pool && !Idle(s, d) {
        var q :| Active(s, q) && s.requests[q].connection == d;
        assert Active(t, q) && t.requests[q].connection == d;
      }
    }
    forall a ensures !Idle(t, a) {
      assert Idle(s, a) ==> Idle(s, e.c);
    }
  }

  lemma StopKeepsInv(s: Client, e: Event)
    requires (e.Stop? || e.StopRunner?) && Inv(s)
    ensures Inv(Step(s, e))
  {
    var t := Step(s, e);
    forall q ensures Sane(t, q) {
      assert Sane(s, q);
    }
    forall q, p ensures Apart(t, q, p) {
      assert Apart(s, q, p);
    }
    forall c ensures Belongs(t, c) {
      assert Belongs(s, c);
      if c in t.pool && !Idle(s, c) {
        var r :| Active(s, r) && s.requests[r].connection == c;
        assert Active(t, r);
      }
    }
    forall a, b | Idle(t, a) && Idle(t, b) ensures a == b {
      assert Idle(s, a) && Idle(s, b);
    }
  }

  lemma ArrivedIsInHand(s: Client, e: Event)
    requires e.Completion? && Inv(s) && Known(s, e.r) && e.phase in s.requests[e.r].pending
    ensures InHand(Arrived(s, e), e.r)
  {
    var t := Arrived(s, e);
    assert Sane(s, e.r);
    Single(s.requests[e.r], e.phase);
    forall q | q != e.r ensures Sane(t, q) {
      assert Sane(s, q) && Apart(s, q, e.r);
    }
    SameConnections(s, t);
  }

  lemma StartedKeepsInv(s: Client, r: nat, p: Phase, room: nat)
    requires InHand(s, r) && Fits(p, s.requests[r].limit, room)
    requires Waiting(Started(s, r, p, room), r, p)
    ensures Inv(Started(s, r, p, room))
  {
    var t := Started(s, r, p, room);
    Empty(s.requests[r]);
    forall q ensures Sane(t, q) {
      assert q != r ==> Sane(s, q);
    }
    SameConnections(s, t);
  }

  lemma EscapedKeepsInv(s: Client, r: nat)
    requires InHand(s, r) && |s.requests[r].came| <= 2 * s.requests[r].limit + 9
    ensures Inv(Escaped(s, r))
  {
    var t := Escaped(s, r);
    Empty(s.requests[r]);
    forall q ensures Sane(t, q) {
      assert q != r ==> Sane(s, q);
    }
    SameConnections(s, t);
  }

  lemma CompletedKeepsRequests(s: Client, r: nat, error: Error, keep: set<nat>)
    requires InHand(s, r) && |s.requests[r].came| <= 2 * s.requests[r].limit + 9
    ensures var t := Completed(s, r, error, keep);
            (forall q :: Sane(t, q)) && (forall q, p :: Apart(t, q, p))
  {
    var t := Completed(s, r, error, keep);
    Empty(s.requests[r]);
    forall q ensures Sane(t, q) {
      assert q != r ==> Sane(s, q) && Apart(s, q, r);
    }
    forall q, p ensures Apart(t, q, p) {
      assert Apart(s, q, p);
    }
  }

  lemma AtMostOne(keep: set<nat>, a: nat, b: nat)
    requires |keep| <= 1 && a in keep && b in keep
    ensures a == b
  {
    assert |keep - {a}| == 0;
  }

  lemma CompletedKeepsPool(s: Client, r: nat, error: Error, keep: set<nat>)
    requires InHand(s, r)
    requires Kept(IdleAfter(s, s.requests[r].connection, !error.Success?), keep)
    ensures var t := Completed(s, r, error, keep);
            (forall c :: Belongs(t, c)) && OneIdle(t)
  {
    var t := Completed(s, r, error, keep);
    forall d ensures Belongs(t, d) {
      assert Belongs(s, d);
      if d in t.pool && d !in keep {
        var q :| Active(s, q) && s.requests[q].connection == d;
        assert Active(t, q) && t.requests[q].connection == d;
      }
    }
    forall a, b | Idle(t, a) && Idle(t, b) ensures a == b {
      AtMostOne(keep, a, b);
    }
  }

  lemma ReconnectedKeepsInv(s: Client, r: nat, next: nat)
    requires InHand(s, r) && next !in s.all && s.requests[r].connection in s.pool && s.requests[r].reconnects == 0
    requires Waiting(Reconnected(s, r, next), r, Resolving)
    ensures Inv(Reconnected(s, r, next))
  {
    var t := Reconnected(s, r, next);
    Empty(s.requests[r]);
    forall q ensures Sane(t, q) && Apart(t, q, r) && Apart(t, r, q) {
      assert q != r ==> Sane(s, q) && Apart(s, q, r);
    }
    forall q, p ensures Apart(t, q, p) {
      assert Apart(s, q, p);
    }
    forall d ensures Belongs(t, d) {
      assert Belongs(s, d);
      if d == next {
        assert Active(t, r) && t.requests[r].connection == d;
      } else if d in t.pool && !Idle(s, d) {
        var q :| Active(s, q) && s.requests[q].connection == d;
        assert Active(t, q) && t.requests[q].connection == d;
      }
    }
    forall a, b | Idle(t, a) && Idle(t, b) ensures a == b {
      assert Idle(s, a) && Idle(s, b);
    }
  }

  lemma CompletionKeepsInv(s: Client, e: Event)
    requires e.Completion? && Inv(s) && Enabled(s, e)
    ensures Inv(Step(s, e))
  {
    var t, q, a := Arrived(s, e), s.requests[e.r], Reaction(s, e);
    assert Sane(s, e.r) && Waiting(s, e.r, e.phase);
    ArrivedIsInHand(s, e);
    ReactProgresses(e.phase, e.outcome, !s.runnerStopped, s.all[q.connection].attemptReconnect, q.limit, q.room, q.reconnects);
    match a
    case Start(phase, room) => StartedKeepsInv(t, e.r, phase, room);
    case Escape => EscapedKeepsInv(t, e.r);
    case Reply(error) =>
      CompletedKeepsRequests(t, e.r, error, e.keep);
      CompletedKeepsPool(t, e.r, error, e.keep);
    case Reconnect(error) =>
      if q.connection in s.pool {
        ReconnectedKeepsInv(t, e.r, e.next);
      } else {
        CompletedKeepsRequests(t, e.r, error, e.keep);
        CompletedKeepsPool(t, e.r, error, e.keep);
      }
  }

  lemma StepKeepsInv(s: Client, e: Event)
    requires Inv(s) && Enabled(s, e)
    ensures Inv(Step(s, e))
  {
    match e
    case Send(_, _, _, _) => SendKeepsInv(s, e);
    case Completion(_, _, _, _, _) => CompletionKeepsInv(s, e);
    case _ => StopKeepsInv(s, e);
  }

  lemma {:induction false} RunKeepsInv(events: seq<Event>)
    ensures Inv(Run(events))
  {
    if events != [] {
      RunKeepsInv(events[..|events| - 1]);
      var s, e := Run(events[..|events| - 1]), events[|events| - 1];
      if Enabled(s, e) {
        StepKeepsInv(s, e);
      }
    }
  }

  // ---------- one operation or one callback ----------

  /** A request has exactly one outstanding operation, one callback or one escaped exception; its
      exchange is over after at most 2 * limit + 9 operations, whatever the network does. */
  lemma OneOperationOrReply(events: seq<Event>, r: nat)
    requires r in Run(events).requests
    ensures var q := Run(events).requests[r];
            && |q.pending| + |q.replies| + q.escapes == 1
            && |q.came| <= 2 * q.limit + 9
            && (|q.came| == 2 * q.limit + 9 ==> |q.pending| == 0)
  {
    RunKeepsInv(events);
    var s := Run(events);
    var q := s.requests[r];
    assert Sane(s, r);
    if |q.came| == 2 * q.limit + 9 && q.pending != multiset{} {
      var p :| p in q.pending;
      assert Waiting(s, r, p);
      ReactProgresses(p, Outcome(Success, false, NoBody, BadSize), true, true, q.limit, q.room, q.reconnects);
    }
  }

  /** A response with a Content-Length that cannot be read, or with a chunk whose size wraps. */
  predicate Unmanageable(s: Client, e: Event) {
    e.Completion? && Clear(e.outcome, !s.runnerStopped) && Overtaxing(e.phase, e.outcome)
  }

  ghost predicate Manageable(events: seq<Event>) {
    forall k :: 0 <= k < |events| && Enabled(Run(events[..k]), events[k]) ==> !Unmanageable(Run(events[..k]), events[k])
  }

  /** Each request waits for exactly one operation, or has had its one callback. */
  ghost predicate Answered(s: Client) {
    forall r :: r in s.requests ==> |s.requests[r].pending| + |s.requests[r].replies| == 1
  }

  /** A completion of another request changes nothing of this one. */
  lemma OtherRequest(s: Client, e: Event, r: nat)
    requires e.Completion? && Known(s, e.r) && r in s.requests && r != e.r
    ensures r in Step(s, e).requests && Step(s, e).requests[r] == s.requests[r]
  {
    var t := Arrived(s, e);
    ActOfRequest(t, e.r, Reaction(s, e), e.next, e.keep);
    assert r in t.requests - {e.r} && r in Step(s, e).requests - {e.r};
  }

  lemma EscapesOfStep(s: Client, e: Event, r: nat)
    requires Enabled(s, e) && r in s.requests
    ensures var t := Step(s, e);
            && r in t.requests
            && t.requests[r].escapes == s.requests[r].escapes + (if Unmanageable(s, e) && e.r == r then 1 else 0)
  {
    if e.Completion? && e.r != r {
      OtherRequest(s, e, r);
    } else if e.Completion? {
      EscapeIff(e.phase, e.outcome, !s.runnerStopped, s.all[s.requests[e.r].connection].attemptReconnect, s.requests[e.r].room);
      ActOfRequest(Arrived(s, e), e.r, Reaction(s, e), e.next, e.keep);
    }
  }

  lemma NoEscape(s: Client)
    requires forall r :: Sane(s, r)
    ensures Answered(s) <==> forall r :: r in s.requests ==> s.requests[r].escapes == 0
  {
    forall r | r in s.requests
      ensures |s.requests[r].pending| + |s.requests[r].replies| == 1 <==> s.requests[r].escapes == 0
    {
      assert Sane(s, r);
    }
  }

  lemma EscapesOfAll(s: Client, e: Event)
    requires Enabled(s, e) && (forall r :: Sane(s, r)) && (forall r :: Sane(Step(s, e), r))
    ensures Answered(Step(s, e)) <==> Answered(s) && !Unmanageable(s, e)
  {
    var t := Step(s, e);
    NoEscape(s);
    NoEscape(t);
    forall r | r in s.requests
      ensures r in t.requests
      ensures t.requests[r].escapes == s.requests[r].escapes + (if Unmanageable(s, e) && e.r == r then 1 else 0)
    {
      EscapesOfStep(s, e, r);
    }
    if e.Completion? {
      SameRequests(s, e);
    }
  }

  lemma SameRequests(s: Client, e: Event)
    requires e.Completion? && Known(s, e.r)
    ensures Step(s, e).requests.Keys == s.requests.Keys
  {
  }

  /** In every run, each request has one outstanding operation or one callback if and only if no
      response had a Content-Length that cannot be read or a chunk whose size wraps. */
  lemma {:induction false} AnsweredIff(events: seq<Event>)
    ensures Answered(Run(events)) <==> Manageable(events)
  {
    if events != [] {
      var before, e := events[..|events| - 1], events[|events| - 1];
      AnsweredIff(before);
      ManageableOfLast(events);
      RunKeepsInv(before);
      RunKeepsInv(events);
      if Enabled(Run(before), e) {
        EscapesOfAll(Run(before), e);
      }
    }
  }

  /** One request alone, waiting for an operation. */
  function Lone(p: Phase, came: seq<Came>): Client {
    Client({0}, map[0 := Connection(true, true)],
           map[0 := Request(0, multiset{p}, [], 0, 0, 1, 1, came)], false, false)
  }

  const CONNECTED := Outcome(Success, false, NoBody, BadSize)

  function Ends(p: Phase, o: Outcome): Event { Completion(0, p, o, 1, {}) }

  lemma NextPhase(p: Phase, o: Outcome, n: Phase, came: seq<Came>)
    requires React(p, o, true, true, 1) == Start(n, 1)
    ensures Enabled(Lone(p, came), Ends(p, o))
    ensures Step(Lone(p, came), Ends(p, o)) == Lone(n, came + [Came(p, o, true)])
  {
    assert multiset{p} - multiset{p} + multiset{n} == multiset{n};
  }

  lemma RunSnoc(events: seq<Event>, e: Event)
    ensures Run(events + [e]) == if Enabled(Run(events), e) then Step(Run(events), e) else Run(events)
  {
    assert (events + [e])[..|events|] == events;
  }

  function ToHead(): seq<Event> {
    [Send(0, 0, false, 1)] + [Ends(Resolving, CONNECTED)] + [Ends(Connecting, CONNECTED)] + [Ends(Writing, CONNECTED)]
  }

  lemma {:induction false} GoesOn(events: seq<Event>, p: Phase, o: Outcome, n: Phase, came: seq<Came>)
    requires Run(events) == Lone(p, came) && React(p, o, true, true, 1) == Start(n, 1)
    ensures Run(events + [Ends(p, o)]) == Lone(n, came + [Came(p, o, true)])
  {
    NextPhase(p, o, n, came);
    RunSnoc(events, Ends(p, o));
  }

  lemma {:induction false} RunOfSend()
    ensures Run([Send(0, 0, false, 1)]) == Lone(Resolving, [])
  {
    assert [] + [Send(0, 0, false, 1)] == [Send(0, 0, false, 1)];
    RunSnoc([], Send(0, 0, false, 1));
  }

  function Reached(): seq<Came> {
    [] + [Came(Resolving, CONNECTED, true)] + [Came(Connecting, CONNECTED, true)] + [Came(Writing, CONNECTED, true)]
  }

  lemma {:induction false} RunToHead()
    ensures Run(ToHead()) == Lone(ReadingHead, Reached())
  {
    var sent, c1 := [Send(0, 0, false, 1)], [] + [Came(Resolving, CONNECTED, true)];
    RunOfSend();
    GoesOn(sent, Resolving, CONNECTED, Connecting, []);
    GoesOn(sent + [Ends(Resolving, CONNECTED)], Connecting, CONNECTED, Writing, c1);
    GoesOn(sent + [Ends(Resolving, CONNECTED)] + [Ends(Connecting, CONNECTED)], Writing, CONNECTED, ReadingHead,
           c1 + [Came(Connecting, CONNECTED, true)]);
  }

  /** Neither an operation nor a callback is left for the request, and its connection stays in use. */
  predicate Forgotten(s: Client) {
    && 0 in s.requests && |s.requests[0].pending| == |s.requests[0].replies| == 0
    && s.pool == {0} && !Idle(s, 0)
  }

  lemma {:induction false} ForgottenAfter(events: seq<Event>, p: Phase, o: Outcome, came: seq<Came>)
    requires Run(events) == Lone(p, came) && React(p, o, true, true, 1) == Escape
    ensures Forgotten(Run(events + [Ends(p, o)]))
  {
    var s, e := Lone(p, came), Ends(p, o);
    RunSnoc(events, e);
    assert Enabled(s, e) && Reaction(s, e) == Escape;
    assert multiset{p} - multiset{p} == multiset{};
  }

  /** A concrete run: the head of the response has a Content-Length that is no number. */
  lemma {:induction false} UnansweredRun()
    ensures Forgotten(Run(ToHead() + [Ends(ReadingHead, CONNECTED.(body := UnreadableLength))]))
  {
    RunToHead();
    ForgottenAfter(ToHead(), ReadingHead, CONNECTED.(body := UnreadableLength), Reached());
  }

  lemma OversizeEscapes()
    ensures React(ReadingSize, CONNECTED.(chunk := Chunk.Chunk(ULONG_RANGE - 1, 1)), true, true, 1) == Escape
    ensures React(ReadingHead, CONNECTED.(body := Body.Chunked), true, true, 1) == Start(ReadingSize, 1)
  {
  }

  /** A concrete run: a chunked response whose first size is "-1", read as the largest number. */
  lemma {:induction false} UnansweredChunkRun()
    ensures Forgotten(Run(ToHead() + [Ends(ReadingHead, CONNECTED.(body := Body.Chunked))]
                          + [Ends(ReadingSize, CONNECTED.(chunk := Chunk.Chunk(ULONG_RANGE - 1, 1)))]))
  {
    RunToHead();
    var chunked, oversize := CONNECTED.(body := Body.Chunked), CONNECTED.(chunk := Chunk.Chunk(ULONG_RANGE - 1, 1));
    OversizeEscapes();
    GoesOn(ToHead(), ReadingHead, chunked, ReadingSize, Reached());
    ForgottenAfter(ToHead() + [Ends(ReadingHead, chunked)], ReadingSize, oversize,
                   Reached() + [Came(ReadingHead, chunked, true)]);
  }

  lemma ManageableOfLast(events: seq<Event>)
    requires events != []
    ensures var before, e := events[..|events| - 1], events[|events| - 1];
            Manageable(events) <==> Manageable(before) && (Enabled(Run(before), e) ==> !Unmanageable(Run(before), e))
  {
    var n := |events| - 1;
    assert forall k :: 0 <= k < n ==> events[..n][..k] == events[..k] && events[..n][k] == events[k];
  }

  /** Nothing happened, or the outstanding operation ended in a broken pipe. */
  predicate CutOff(q: Request, p: Request) {
    p == q || (q.pending != multiset{} && p.pending == multiset{} && p.replies == [BrokenPipe])
  }

  lemma StoppedStep(s: Client, e: Event, r: nat)
    requires Inv(s) && Enabled(s, e) && s.runnerStopped && r in s.requests
    ensures Step(s, e).runnerStopped && r in Step(s, e).requests
    ensures CutOff(s.requests[r], Step(s, e).requests[r])
  {
    if e.Completion? && e.r != r {
      OtherRequest(s, e, r);
    } else if e.Completion? {
      assert Sane(s, r);
      Single(s.requests[r], e.phase);
      assert Reaction(s, e) == Reply(BrokenPipe);
      ActOfRequest(Arrived(s, e), r, Reply(BrokenPipe), e.next, e.keep);
    }
  }

  /** Once the runner is stopped, no further operation starts for a request: it stays as it is, or
      its outstanding operation ends in a callback that reports a broken pipe. */
  lemma {:induction false} NothingStartsAfterStop(events: seq<Event>, n: nat, r: nat)
    requires n <= |events| && Run(events[..n]).runnerStopped && r in Run(events[..n]).requests
    ensures Run(events).runnerStopped && r in Run(events).requests
    ensures CutOff(Run(events[..n]).requests[r], Run(events).requests[r])
  {
    if n == |events| {
      assert events[..n] == events;
    } else {
      var before, e := events[..|events| - 1], events[|events| - 1];
      assert before[..n] == events[..n];
      NothingStartsAfterStop(before, n, r);
      RunKeepsInv(before);
      if Enabled(Run(before), e) {
        StoppedStep(Run(before), e, r);
      }
    }
  }

  lemma {:induction false} StaysStopped(events: seq<Event>, n: nat)
    requires n <= |events| && Run(events[..n]).runnerStopped
    ensures Run(events).runnerStopped
  {
    if n == |events| {
      assert events[..n] == events;
    } else {
      var before, e := events[..|events| - 1], events[|events| - 1];
      assert before[..n] == events[..n];
      StaysStopped(before, n);
      if Enabled(Run(before), e) {
        StoppedStays(Run(before), e);
      }
    }
  }

  lemma StoppedStays(s: Client, e: Event)
    requires Enabled(s, e) && s.runnerStopped
    ensures Step(s, e).runnerStopped
    ensures e.Completion? ==> Step(s, e).requests.Keys == s.requests.Keys
  {
  }

  /** A request sent with the runner stopped: its first operation is outstanding, or has ended in
      a callback that reports a broken pipe. */
  predicate First(q: Request) {
    exists open :: |q.came| == 0 && q.pending == multiset{Connect(open)} && q.replies == []
  }

  predicate CutOffAtOnce(q: Request) {
    First(q) || (|q.came| == 1 && q.pending == multiset{} && q.replies == [BrokenPipe])
  }

  lemma {:induction false} StoppedCompletion(s: Client, e: Event)
    requires Inv(s) && Enabled(s, e) && s.runnerStopped && e.Completion? && CutOffAtOnce(s.requests[e.r])
    ensures e.r in Step(s, e).requests && CutOffAtOnce(Step(s, e).requests[e.r])
  {
    assert Sane(s, e.r);
    Single(s.requests[e.r], e.phase);
    assert Reaction(s, e) == Reply(BrokenPipe);
    ActOfRequest(Arrived(s, e), e.r, Reply(BrokenPipe), e.next, e.keep);
  }

  /** A request sent after the stop of the runner gets no further than its first operation. */
  lemma {:induction false} LateRequestIsCutOff(events: seq<Event>, n: nat, r: nat)
    requires n <= |events| && Run(events[..n]).runnerStopped
    requires r !in Run(events[..n]).requests && r in Run(events).requests
    ensures CutOffAtOnce(Run(events).requests[r])
  {
    assert n < |events| by { assert events[..|events|] == events; }
    var before, e := events[..|events| - 1], events[|events| - 1];
    assert before[..n] == events[..n];
    StaysStopped(before, n);
    RunKeepsInv(before);
    var s := Run(before);
    if r in s.requests {
      LateRequestIsCutOff(before, n, r);
      if Enabled(s, e) && e.Completion? {
        if e.r == r {
          StoppedCompletion(s, e);
        } else {
          OtherRequest(s, e, r);
        }
      }
    } else if e.Completion? {
      StoppedStays(s, e);
    } else {
      assert Run(events).requests[r].pending == multiset{Connect(e.open)};
    }
  }

  // ---------- what the invariants are for ----------

  /** Two requests in flight never share a connection, in every run, even across stop. */
  lemma NoSharing(events: seq<Event>, r: nat, q: nat)
    requires Active(Run(events), r) && Active(Run(events), q) && r != q
    ensures Run(events).requests[r].connection != Run(events).requests[q].connection
  {
    RunKeepsInv(events);
    assert Apart(Run(events), r, q);
  }

  lemma KeepsConnection(s: Client, e: Event, r: nat)
    requires Inv(s) && Enabled(s, e) && Inv(Step(s, e)) && Active(s, r) && !s.stopped
    requires (e.Send? || e.Completion?) && e.r != r
    ensures var t := Step(s, e);
            && Active(t, r) && t.requests[r] == s.requests[r]
            && s.requests[r].connection in t.pool && s.requests[r].connection in t.all
            && t.all[s.requests[r].connection].inUse
  {
    if e.Completion? {
      OtherRequest(s, e, r);
      StaysOpen(Arrived(s, e), e.r, Reaction(s, e), e.next, e.keep);
    }
    assert Sane(Step(s, e), r);
  }

  lemma StaysOpen(s: Client, r: nat, a: Action, next: nat, keep: set<nat>)
    requires Known(s, r)
    ensures Act(s, r, a, next, keep).stopped == s.stopped
  {
  }

  /** A step of another request neither takes the connection of an active request out of the
      pool nor marks it as idle. */
  lemma InUseIsNotPruned(events: seq<Event>, e: Event, r: nat)
    requires var s := Run(events); Active(s, r) && !s.stopped && Enabled(s, e)
    requires (e.Send? || e.Completion?) && e.r != r
    ensures var s, t := Run(events), Step(Run(events), e);
            && Active(t, r) && t.requests[r] == s.requests[r]
            && s.requests[r].connection in t.pool && s.requests[r].connection in t.all
            && t.all[s.requests[r].connection].inUse
  {
    RunKeepsInv(events);
    StepKeepsInv(Run(events), e);
    KeepsConnection(Run(events), e, r);
  }

  /** At every release of the mutex: at most one idle connection, at most one reconnection of a
      request, and nothing in use that no request without callback uses. */
  lemma PoolIsTidy(events: seq<Event>, r: nat)
    ensures var s := Run(events);
            && OneIdle(s)
            && (forall c :: c in s.pool && !Idle(s, c) ==> exists q :: Active(s, q) && s.requests[q].connection == c)
            && (r in s.requests ==> s.requests[r].reconnects <= 1)
  {
    RunKeepsInv(events);
    var s := Run(events);
    assert Sane(s, r);
    forall c | c in s.pool && !Idle(s, c) ensures exists q :: Active(s, q) && s.requests[q].connection == c {
      assert Belongs(s, c);
    }
  }

  /** Reading the head failed. */
  predicate HeadFailed(s: Client, e: Event) {
    && e.Completion? && e.phase.ReadingHead? && !s.runnerStopped
    && !e.outcome.error.Success? && !(e.outcome.error.NotFound? && e.outcome.full)
  }

  lemma ReconnectOfReaction(p: Phase, o: Outcome, locked: bool, attemptReconnect: bool, room: nat)
    ensures React(p, o, locked, attemptReconnect, room).Reconnect?
            <==> locked && p.ReadingHead? && !o.error.Success? && !(o.error.NotFound? && o.full)
                 && attemptReconnect && !o.error.Aborted?
  {
  }

  lemma ReconnectOfStep(s: Client, e: Event)
    requires e.Completion? && Inv(s) && Enabled(s, e) && !s.stopped
    ensures var q, p := s.requests[e.r], Step(s, e).requests[e.r];
            && Known(s, e.r) && e.r in Step(s, e).requests
            && (p.reconnects == q.reconnects + 1 <==>
                  HeadFailed(s, e) && q.reconnects == 0 && !e.outcome.error.Aborted?)
            && (p.reconnects > q.reconnects ==> p.connection == e.next && p.replies == [])
  {
    var q, c := s.requests[e.r], s.all[s.requests[e.r].connection];
    assert Sane(s, e.r) && Waiting(s, e.r, e.phase);
    Single(q, e.phase);
    ReconnectOfReaction(e.phase, e.outcome, !s.runnerStopped, c.attemptReconnect, q.room);
    ActOfRequest(Arrived(s, e), e.r, Reaction(s, e), e.next, e.keep);
  }

  /** A completion reconnects exactly when reading the head failed the first time and was not
      aborted, as long as neither client nor runner was stopped. */
  lemma ReconnectIff(events: seq<Event>, e: Event)
    requires e.Completion? && Enabled(Run(events), e) && !Run(events).stopped
    ensures var s, t := Run(events), Step(Run(events), e);
            && e.r in t.requests
            && (t.requests[e.r].reconnects == s.requests[e.r].reconnects + 1 <==>
                  HeadFailed(s, e) && s.requests[e.r].reconnects == 0 && !e.outcome.error.Aborted?)
            && (t.requests[e.r].reconnects > s.requests[e.r].reconnects ==>
                  t.requests[e.r].connection == e.next && Active(t, e.r))
  {
    RunKeepsInv(events);
    ReconnectOfStep(Run(events), e);
  }

  // ---------- the class ----------

  /** The connections while the pruning loop has `rest` before it. */
  function Remaining(rest: set<nat>, busy: set<nat>, keep: set<nat>): set<nat> { rest + (busy - rest) + keep }

  lemma Passed(rest: set<nat>, busy: set<nat>, keep: set<nat>, it: nat)
    requires it in rest && it !in keep
    ensures it in busy ==> Remaining(rest - {it}, busy, keep) == Remaining(rest, busy, keep)
    ensures it !in busy ==> Remaining(rest - {it}, busy, keep) == Remaining(rest, busy, keep) - {it}
    ensures it !in busy ==> Remaining(rest - {it}, busy, {it} + keep) == Remaining(rest, busy, keep)
  {
  }

  /** The loop with `rest` before it: it has kept the first idle connection it met, if any. */
  predicate Pruned(rest: set<nat>, idle: set<nat>, keep: set<nat>, unused: nat) {
    && keep <= idle - rest
    && (unused == 0 <==> idle <= rest)
    && (keep == {} <==> unused == 0)
    && |keep| <= 1
  }

  lemma PrunedTurn(rest: set<nat>, idle: set<nat>, keep: set<nat>, unused: nat, it: nat)
    requires it in rest && Pruned(rest, idle, keep, unused)
    ensures it !in idle ==> Pruned(rest - {it}, idle, keep, unused)
    ensures it in idle ==> Pruned(rest - {it}, idle, if unused == 0 then {it} + keep else keep, unused + 1)
  {
    assert unused == 0 ==> {it} + keep == {it};
  }

  /** The connections of a pool by what the loop does with them. */
  predicate Divided(pool: set<nat>, table: map<nat, Connection>, c: nat, failed: bool, idle: set<nat>, busy: set<nat>) {
    && pool <= table.Keys
    && forall d :: d in pool ==>
         && (d in busy <==> table[d].inUse)
         && (d in idle <==> !table[d].inUse && !(failed && d == c))
  }

  lemma DividedTurn(rest: set<nat>, table: map<nat, Connection>, c: nat, failed: bool, idle: set<nat>, busy: set<nat>, it: nat)
    requires it in rest && Divided(rest, table, c, failed, idle, busy)
    ensures it in table && (it in busy <==> table[it].inUse)
    ensures it in idle <==> it !in busy && !(failed && it == c)
    ensures Divided(rest - {it}, table, c, failed, idle, busy)
  {
  }

  /** Connections are numbers into a table of their flags; each method is one critical section.
      `requests` is what the sessions in flight hold. */
  class ClientBase {
    var connections: set<nat>
    var table: map<nat, Connection>
    var created: nat
    var requests: map<nat, Request>
    var runnerStopped: bool
    ghost var stopped: bool
    ghost var events: seq<Event>

    constructor ()
      ensures Valid() && events == []
    {
      connections, table, created, requests := {}, map[], 0, map[];
      runnerStopped, stopped, events := false, false, [];
    }

    ghost function View(): Client
      reads this
    {
      Client(connections, table, requests, runnerStopped, stopped)
    }

    ghost predicate Fresh()
      reads this
    {
      forall c :: c in table ==> c < created
    }

    ghost predicate Valid()
      reads this
    {
      View() == Run(events) && Fresh()
    }

    ghost method Record(e: Event)
      requires Enabled(Run(events), e)
      modifies this`events
      ensures events == old(events) + [e] && Run(events) == Step(Run(old(events)), e)
    {
      events := events + [e];
      assert events[..|events| - 1] == old(events);
    }

    method CreateConnection(flags: Connection) returns (c: nat)
      requires Fresh()
      modifies this`table, this`created
      ensures c == old(created) && c !in old(table) && table == old(table)[c := flags]
      ensures Fresh()
    {
      c := created;
      created := created + 1;
      table := table[c := flags];
    }

    /** get_connection: the first idle connection the iteration meets, or a new one. */
    method GetConnection() returns (c: nat, found: bool)
      requires Inv(View()) && Fresh()
      modifies this`connections, this`table, this`created
      ensures Fresh()
      ensures found <==> exists d :: Idle(old(View()), d)
      ensures if found then Idle(old(View()), c) else c !in old(table)
      ensures connections == old(connections) + {c} && table == old(table)[c := Connection(true, true)]
    {
      ghost var s := View();
      var rest := connections;
      found, c := false, 0;
      while rest != {} && !found
        invariant rest <= connections
        invariant found ==> Idle(s, c)
        invariant !found ==> forall d :: Idle(s, d) ==> d in rest
        decreases |rest|
      {
        var it :| it in rest;
        assert Belongs(s, it);
        rest := rest - {it};
        if !table[it].inUse {
          c, found := it, true;
        }
      }
      if found {
        table := table[c := Connection(true, true)];
      } else {
        c := CreateConnection(Connection(true, true));
        connections := connections + {c};
      }
    }

    /** `open` says whether the socket of an idle connection is still open. */
    method Send(r: nat, open: bool, limit: nat) returns (c: nat)
      requires Valid() && r !in requests
      modifies this
      ensures Valid() && Active(View(), r) && requests[r].connection == c
      ensures exists o :: events == old(events) + [Event.Send(r, c, o, limit)]
    {
      RunKeepsInv(events);
      var found;
      c, found := GetConnection();
      requests := requests[r := Request(c, multiset{Connect(found && open)}, [], 0, 0, limit, limit, [])];
      Record(Event.Send(r, c, found && open, limit));
    }

    /** One turn of the pruning loop. */
    method Visit(it: nat, c: nat, failed: bool, unused: nat, ghost busy: set<nat>, ghost rest: set<nat>, ghost kept: set<nat>)
      returns (unusedConnections: nat, ghost keep: set<nat>)
      requires it in rest && it in table && it !in kept
      requires it in busy <==> table[it].inUse
      requires table[it].inUse ==> !(failed && it == c)
      requires connections == Remaining(rest, busy, kept)
      modifies this`connections
      ensures connections == Remaining(rest - {it}, busy, keep)
      ensures keep == if it !in busy && !(failed && it == c) && unused == 0 then {it} + kept else kept
      ensures unusedConnections == if it !in busy && !(failed && it == c) then unused + 1 else unused
    {
      Passed(rest, busy, kept, it);
      unusedConnections, keep := unused, kept;
      if failed && it == c {
        connections := connections - {it};
      } else if !table[it].inUse {
        unusedConnections := unusedConnections + 1;
        if unusedConnections > 1 {
          connections := connections - {it};
        } else {
          keep := {it} + kept;
        }
      }
    }

    /** The pruning loop, in any order of the set. */
    method Prune(c: nat, failed: bool, ghost idle: set<nat>, ghost busy: set<nat>) returns (ghost keep: set<nat>)
      requires Divided(connections, table, c, failed, idle, busy) && idle + busy <= connections
      requires c in table && !table[c].inUse
      modifies this`connections
      ensures Kept(idle, keep)
      ensures connections == busy + keep
    {
      var unusedConnections := 0;
      var rest := connections;
      keep := {};
      while rest != {}
        invariant Divided(rest, table, c, failed, idle, busy)
        invariant connections == Remaining(rest, busy, keep)
        invariant Pruned(rest, idle, keep, unusedConnections)
        decreases |rest|
      {
        var it :| it in rest;
        DividedTurn(rest, table, c, failed, idle, busy, it);
        PrunedTurn(rest, idle, keep, unusedConnections, it);
        unusedConnections, keep := Visit(it, c, failed, unusedConnections, busy, rest, keep);
        rest := rest - {it};
      }
      assert Remaining({}, busy, keep) == busy + keep;
    }

    /** The session's callback. */
    method Callback(r: nat, error: Error) returns (ghost keep: set<nat>)
      requires InHand(View(), r)
      modifies this`connections, this`table, this`requests
      ensures Kept(IdleAfter(old(View()), old(requests)[r].connection, !error.Success?), keep)
      ensures View() == Completed(old(View()), r, error, keep)
      ensures table.Keys == old(table).Keys
    {
      ghost var s := View();
      var c := requests[r].connection;
      forall d | d in connections ensures d in table {
        assert Belongs(s, d);
      }
      table := table[c := table[c].(inUse := false)];
      keep := Prune(c, !error.Success?, IdleAfter(s, c, !error.Success?), BusyAfter(s, c));
      requests := requests[r := requests[r].(replies := requests[r].replies + [error])];
    }

    /** Over a new connection, if the old one is still in the pool. */
    method Retry(r: nat, error: Error) returns (ghost keep: set<nat>)
      requires InHand(View(), r) && Fresh()
      modifies this`connections, this`table, this`requests, this`created
      ensures Fresh()
      ensures Pruning(old(View()), r, Reconnect(error), keep)
      ensures View() == Act(old(View()), r, Reconnect(error), old(created), keep)
    {
      var c := requests[r].connection;
      keep := {};
      if c in connections {
        connections := connections - {c};
        var next := CreateConnection(Connection(true, false));
        connections := connections + {next};
        var q := requests[r];
        requests := requests[r := q.(connection := next, reconnects := q.reconnects + 1,
                                     pending := q.pending + multiset{Connect(false)})];
      } else {
        keep := Callback(r, error);
      }
    }

    /** What a handler ends with. */
    method Perform(r: nat, a: Action) returns (ghost keep: set<nat>)
      requires InHand(View(), r) && Fresh()
      modifies this`connections, this`table, this`requests, this`created
      ensures Fresh()
      ensures Pruning(old(View()), r, a, keep)
      ensures View() == Act(old(View()), r, a, old(created), keep)
    {
      keep := {};
      match a
      case Start(phase, room) =>
        requests := requests[r := requests[r].(pending := requests[r].pending + multiset{phase}, room := room)];
      case Reply(error) =>
        keep := Callback(r, error);
      case Reconnect(error) =>
        keep := Retry(r, error);
      case Escape =>
        requests := requests[r := requests[r].(escapes := requests[r].escapes + 1)];
    }

    /** An outstanding operation ends, and its handler runs. */
    method Handle(r: nat, p: Phase, o: Outcome)
      requires Valid() && r in requests && p in requests[r].pending
      modifies this
      ensures Valid()
      ensures exists next, keep :: events == old(events) + [Completion(r, p, o, next, keep)]
    {
      RunKeepsInv(events);
      assert Sane(View(), r);
      ghost var next := created;
      ArrivedIsInHand(View(), Completion(r, p, o, next, {}));
      var a := Arrive(r, p, o);
      ghost var keep := Perform(r, a);
      Record(Completion(r, p, o, next, keep));
    }

    /** The operation is no longer outstanding; what its handler decides. */
    method Arrive(r: nat, p: Phase, o: Outcome) returns (a: Action)
      requires Known(View(), r) && Fresh()
      modifies this`table, this`requests
      ensures Fresh() && table.Keys == old(table).Keys
      ensures forall next, keep :: View() == Arrived(old(View()), Completion(r, p, o, next, keep))
      ensures forall next, keep :: a == Reaction(old(View()), Completion(r, p, o, next, keep))
    {
      var q := requests[r];
      var c := table[q.connection];
      a := React(p, o, !runnerStopped, c.attemptReconnect, q.room);
      requests := requests[r := q.(pending := q.pending - multiset{p},
                                   came := q.came + [Came(p, o, !runnerStopped)])];
      if Heard(p, o, !runnerStopped) {
        table := table[q.connection := c.(attemptReconnect := true)];
      }
    }

    method StopRunner()
      requires Valid()
      modifies this
      ensures Valid() && events == old(events) + [Event.StopRunner]
    {
      runnerStopped := true;
      Record(Event.StopRunner);
    }

    method Stop()
      requires Valid()
      modifies this
      ensures Valid() && events == old(events) + [Event.Stop]
    {
      while connections != {}
        modifies this`connections
        decreases |connections|
      {
        var it :| it in connections;
        connections := connections - {it};
      }
      stopped := true;
      Record(Event.Stop);
    }
  }
}
