/**
 What an HTTP request's callback reports against what came over the network: success exactly when
 the whole response came, and every failure for its own reason. Stated on the operations that
 ended, in every interleaving of the connection pool.
 */
module HttpTranscript {
  import opened HttpExchange
  import opened ConnectionPool

  // ---------- what came ----------

  /** The operation went well and fitted its buffer. */
  predicate Well(c: Came) { Clear(c.outcome, c.locked) }

  /** What the last head that was read announced. */
  function Announced(came: seq<Came>): (body: seq<Body>)
    ensures |body| <= 1
  {
    if came == [] then []
    else
      var last := came[|came| - 1];
      if last.phase.ReadingHead? && Well(last) then [last.outcome.body] else Announced(came[..|came| - 1])
  }

  predicate Said(came: seq<Came>, body: Body) { Announced(came) == [body] }

  /** Everything came: with the head, since nothing of the announced length was missing or there is
      no body; or with the missing rest; or with the end of a body that runs until close; or with
      the last chunk, of length 0 and its line end. */
  predicate Whole(came: seq<Came>) {
    came != [] &&
    var last := came[|came| - 1];
    var chunk := last.outcome.chunk;
    match last.phase
    case ReadingHead => Well(last) && (last.outcome.body == Sized(false) || last.outcome.body == NoBody)
    case ReadingBody => Well(last) && Said(came, Sized(true))
    case ReadingRest => (Well(last) || (last.locked && last.outcome.error.Eof?)) && Said(came, UntilClose)
    case ReadingSize =>
      Well(last) && Said(came, Body.Chunked) && chunk.Chunk? && chunk.length == 0 && chunk.additional >= 2
    case ReadingChunk(length) => Well(last) && Said(came, Body.Chunked) && length == 0
    case _ => false
  }

  /** The operation ended without error, the runner let its handler continue. */
  predicate Fine(c: Came) { c.locked && c.outcome.error.Success? }

  /** The chunk of the last size line, or the one read for, has come and is not the last. */
  predicate ChunkCame(c: Came) {
    match c.phase
    case ReadingSize =>
      && Well(c) && c.outcome.chunk.Chunk? && c.outcome.chunk.length > 0
      && 2 + c.outcome.chunk.length <= c.outcome.chunk.additional
    case ReadingChunk(length) => Well(c) && length > 0
    case _ => false
  }

  /** The operation a request must wait for after what came so far. */
  predicate Due(came: seq<Came>, p: Phase) {
    var n := |came|;
    match p
    case Resolving => n == 0 || (came[n - 1].phase.ReadingHead? && !Fine(came[n - 1]))
    case Connecting => n > 0 && came[n - 1].phase.Resolving? && Fine(came[n - 1])
    case Writing => n == 0 || (came[n - 1].phase.Connecting? && Fine(came[n - 1]))
    case ReadingHead => n > 0 && came[n - 1].phase.Writing? && Fine(came[n - 1])
    case ReadingBody => n > 0 && came[n - 1].phase.ReadingHead? && Well(came[n - 1]) && Said(came, Sized(true))
    case ReadingRest => n > 0 && came[n - 1].phase.ReadingHead? && Well(came[n - 1]) && Said(came, UntilClose)
    case ReadingSize =>
      && n > 0 && Said(came, Body.Chunked)
      && ((came[n - 1].phase.ReadingHead? && Well(came[n - 1])) || ChunkCame(came[n - 1]))
    case ReadingChunk(length) =>
      && n > 0 && Said(came, Body.Chunked) && came[n - 1].phase.ReadingSize? && Well(came[n - 1])
      && came[n - 1].outcome.chunk.Chunk? && came[n - 1].outcome.chunk.length == length
      && came[n - 1].outcome.chunk.additional < Needed(length)
  }

  /** Why a callback reports an error. */
  predicate Reason(c: Came, error: Error) {
    match error
    case Success => false
    case BrokenPipe => !c.locked || c.outcome.error == error
    case MessageSize =>
      c.locked && (c.outcome.full || c.outcome.error == error
                   || (c.phase.ReadingHead? && c.outcome.body == Body.Chunked) || ChunkCame(c))
    case ProtocolError =>
      && c.locked
      && (c.outcome.error == error || (c.phase.ReadingHead? && c.outcome.body.Malformed?)
          || (c.phase.ReadingSize? && c.outcome.chunk.BadSize?))
    case _ => c.locked && c.outcome.error == error
  }

  // ---------- one handler ----------

  lemma SaidNext(came: seq<Came>, c: Came)
    ensures Announced(came + [c]) == if c.phase.ReadingHead? && Well(c) then [c.outcome.body] else Announced(came)
  {
    assert (came + [c])[..|came|] == came;
  }

  /** Each handler does what is due: it goes on with the operation that is, reports success when
      everything came and then only, and otherwise the error for its reason. */
  lemma {:induction false} ReactIsDue(came: seq<Came>, c: Came, attempt: bool, room: nat)
    requires Due(came, c.phase)
    ensures var a := React(c.phase, c.outcome, c.locked, attempt, room);
            match a
            case Start(phase, _) => Due(came + [c], phase) && !Whole(came + [c])
            case Reply(error) =>
              (error == Success <==> Whole(came + [c])) && (error != Success ==> Reason(c, error))
            case Reconnect(error) =>
              Due(came + [c], Resolving) && !Whole(came + [c]) && error != Success && Reason(c, error)
            case Escape => !Whole(came + [c])
  {
    SaidNext(came, c);
  }

  // ---------- runs ----------

  /** A request waits for what is due, and its callback has told the truth. */
  ghost predicate Told(q: Request) {
    && (forall p :: p in q.pending ==> Due(q.came, p))
    && (q.replies == [Success] <==> Whole(q.came))
    && (forall i :: 0 <= i < |q.replies| && q.replies[i] != Success ==>
          q.came != [] && Reason(q.came[|q.came| - 1], q.replies[i]))
  }

  lemma NothingCame()
    ensures !Whole([]) && Due([], Resolving) && Due([], Writing)
  {
  }

  /** What the end of a handler makes of its request, which waited for one operation only. */
  lemma {:induction false} Ended(s: Client, r: nat, a: Action, next: nat, keep: set<nat>)
    requires Known(s, r) && s.requests[r].pending == multiset{} && s.requests[r].replies == []
    ensures var q, p := s.requests[r], Act(s, r, a, next, keep).requests[r];
            && p.came == q.came && p.replies == Answer(s, r, a)
            && p.pending == (if a.Start? then multiset{a.phase} else if Retries(s, r, a) then multiset{Resolving} else multiset{})
  {
    ActOfRequest(s, r, a, next, keep);
    assert multiset{} + multiset{Resolving} == multiset{Resolving};
    if a.Start? {
      assert multiset{} + multiset{a.phase} == multiset{a.phase};
    }
  }

  lemma {:induction false} CompletionTells(s: Client, e: Event)
    requires e.Completion? && Inv(s) && Enabled(s, e) && Told(s.requests[e.r])
    ensures e.r in Step(s, e).requests && Told(Step(s, e).requests[e.r])
  {
    var q, t, a := s.requests[e.r], Arrived(s, e), Reaction(s, e);
    var c := Came(e.phase, e.outcome, !s.runnerStopped);
    assert Sane(s, e.r);
    Single(q, e.phase);
    ReactIsDue(q.came, c, s.all[q.connection].attemptReconnect, q.room);
    assert t.requests[e.r].pending == multiset{} && t.requests[e.r].came == q.came + [c];
    Ended(t, e.r, a, e.next, e.keep);
    ToldAfter(q.came, c, a, Retries(t, e.r, a), Step(s, e).requests[e.r]);
  }

  lemma {:induction false} ToldAfter(came: seq<Came>, c: Came, a: Action, retries: bool, p: Request)
    requires p.came == came + [c]
    requires retries ==> a.Reconnect?
    requires p.replies == match a case Reply(error) => [error]
                                  case Reconnect(error) => (if retries then [] else [error]) case _ => []
    requires p.pending == (if a.Start? then multiset{a.phase} else if retries then multiset{Resolving} else multiset{})
    requires match a
             case Start(phase, _) => Due(came + [c], phase) && !Whole(came + [c])
             case Reply(error) => (error == Success <==> Whole(came + [c])) && (error != Success ==> Reason(c, error))
             case Reconnect(error) =>
               Due(came + [c], Resolving) && !Whole(came + [c]) && error != Success && Reason(c, error)
             case Escape => !Whole(came + [c])
    ensures Told(p)
  {
    assert p.came[|p.came| - 1] == c;
  }

  lemma {:induction false} StepTells(s: Client, e: Event, r: nat)
    requires Inv(s) && Enabled(s, e) && r in Step(s, e).requests
    requires r in s.requests ==> Told(s.requests[r])
    ensures Told(Step(s, e).requests[r])
  {
    if e.Completion? {
      SameRequests(s, e);
      if e.r == r {
        CompletionTells(s, e);
      } else {
        OtherRequest(s, e, r);
      }
    } else if r !in s.requests {
      NothingCame();
    }
  }

  lemma {:induction false} RunTells(events: seq<Event>, r: nat)
    requires r in Run(events).requests
    ensures Told(Run(events).requests[r])
  {
    if events != [] {
      var before, e := events[..|events| - 1], events[|events| - 1];
      RunKeepsInv(before);
      if r in Run(before).requests {
        RunTells(before, r);
      }
      if Enabled(Run(before), e) {
        StepTells(Run(before), e, r);
      }
    }
  }

  /** In every run a request's callback has reported success, once and nothing else, if and only if
      the whole response came. */
  lemma {:induction false} SuccessIff(events: seq<Event>, r: nat)
    requires r in Run(events).requests
    ensures var q := Run(events).requests[r]; q.replies == [Success] <==> Whole(q.came)
  {
    RunTells(events, r);
  }

  /** In every run what is outstanding for a request is what has to follow what came: resolving,
      connecting, writing, the head, and then what the head announced. */
  lemma {:induction false} OnlyWhatIsDue(events: seq<Event>, r: nat, p: Phase)
    requires r in Run(events).requests && p in Run(events).requests[r].pending
    ensures Due(Run(events).requests[r].came, p)
  {
    RunTells(events, r);
  }

  /** In every run a callback that reports an error was given the reason for it by the last operation. */
  lemma {:induction false} FailureHasReason(events: seq<Event>, r: nat)
    requires r in Run(events).requests && Run(events).requests[r].replies != []
    requires Run(events).requests[r].replies != [Success]
    ensures var q := Run(events).requests[r];
            |q.replies| == 1 && q.came != [] && Reason(q.came[|q.came| - 1], q.replies[0])
  {
    RunTells(events, r);
    OneOperationOrReply(events, r);
  }

  /** A response that is complete with its head starts no further operation and is reported as it is. */
  lemma {:induction false} CompleteWithHead(events: seq<Event>, r: nat)
    requires r in Run(events).requests && Run(events).requests[r].came != []
    requires var last := Run(events).requests[r].came[|Run(events).requests[r].came| - 1];
             last.phase.ReadingHead? && Well(last) && (last.outcome.body == Sized(false) || last.outcome.body == NoBody)
    ensures var q := Run(events).requests[r]; |q.pending| == 0 && q.replies == [Success]
  {
    RunTells(events, r);
    OneOperationOrReply(events, r);
  }
}
