/**
 Which stages a session has passed. A stage is passed when its request is answered and the answer
 accepted, or when it makes no request and does not fail; a stage whose request failed is tried
 again and not passed. A session that ends well because no stage is left has passed all of them.
 */
module StageOrder {
  import opened Wrappers
  import opened Stages
  import opened SessionSpec

  // ---------- history ----------

  const ASKING := {DownloadImage, TraceSpace, GenerateUrl}

  /** One stage that ran, whether its request went out, and how it went. */
  datatype Visit = Visit(stage: ProcType, asked: bool, reply: Reply)

  /** The request of the stage goes out. */
  predicate Asks(s: State, r: Reply) {
    && s.chain != [] && s.chain[0] in ASKING
    && match s.chain[0]
       case DownloadImage => s.cursor < |s.urls| && Locate(s.urls[s.cursor]).Some? && !r.outcome.Fails?
       case TraceSpace => s.images != []
       case _ => !r.outcome.Fails?
  }

  function VisitOf(s: State, r: Reply): Visit {
    Visit(if s.chain == [] then NoneProcess else s.chain[0], Asks(s, r), r)
  }

  /** The stages that a run dispatches. */
  function Visits(s: State, script: seq<Reply>): seq<Visit>
    decreases |script|
  {
    if s.code.Some? || script == [] then []
    else [VisitOf(s, script[0])] + Visits(Stage(s, script[0]).0, script[1..])
  }

  predicate Passed(v: Visit) {
    if v.stage in ASKING then v.asked && v.reply.http.Answered?
    else
      match v.stage
      case PicWait => !v.reply.outcome.Waits?
      case GetPlugin => !v.reply.outcome.Fails?
      case BusinessSave => !v.reply.outcome.Fails?
      case OutputKafka => !v.reply.outcome.Fails?
      case _ => false
  }

  /** The stages passed, in order. */
  function AllPassed(visits: seq<Visit>): seq<ProcType> {
    if visits == [] then []
    else (if Passed(visits[0]) then [visits[0].stage] else []) + AllPassed(visits[1..])
  }

  /** What plugins have added to the end of the chain. */
  function Added(visits: seq<Visit>): seq<ProcType> {
    if visits == [] then []
    else (if visits[0].stage == GetPlugin && visits[0].reply.outcome.Extends? then [OutputKafka] else []) + Added(visits[1..])
  }

  function Times(n: nat): (stages: seq<ProcType>)
    ensures |stages| == n && forall i :: 0 <= i < n ==> stages[i] == DownloadImage
  {
    if n == 0 then [] else [DownloadImage] + Times(n - 1)
  }

  /** The stages of a chain with one download for each of `left` URLs. */
  function Spelled(chain: seq<ProcType>, left: nat): seq<ProcType> {
    if chain == [] then []
    else if chain[0] == DownloadImage then Times(left) + Spelled(chain[1..], 0)
    else [chain[0]] + Spelled(chain[1..], left)
  }

  lemma {:induction false} SpelledSnoc(chain: seq<ProcType>, left: nat)
    ensures Spelled(chain + [OutputKafka], left) == Spelled(chain, left) + [OutputKafka]
  {
    if chain == [] {
      assert Spelled([OutputKafka], left) == [OutputKafka] + Spelled([], left);
    } else {
      assert (chain + [OutputKafka])[1..] == chain[1..] + [OutputKafka];
      SpelledSnoc(chain[1..], if chain[0] == DownloadImage then 0 else left);
    }
  }

  // ---------- one stage ----------

  /** A stage whose request failed is the next to be dispatched, with one retry less and everything
      else as it was; without a retry left the session ends with the connection error. */
  lemma {:induction false} FailedIsRetried(s: State, r: Reply)
    requires Ready(s) && Asks(s, r) && r.http.TransportError?
    ensures var t := Stage(s, r).0;
            if s.retries > 0 then t == s.(retries := s.retries - 1, currentUrl := t.currentUrl)
            else t.code == Some(HTTP_CONN_ERROR)
  {
    assert [s.chain[0]] + s.chain[1..] == s.chain;
  }

  /** A session is told to wait. */
  predicate Parks(v: Visit) { v.stage == PicWait && v.reply.outcome.Waits? }

  function Left(s: State): nat
    requires InBounds(s)
  {
    |s.urls| - s.cursor
  }

  /** What is still to be passed before and after one stage, unless it ends the session otherwise. */
  predicate Advances(s: State, r: Reply, t: State) {
    && InBounds(s) && InBounds(t)
    && Spelled(s.chain, Left(s)) + Added([VisitOf(s, r)]) == AllPassed([VisitOf(s, r)]) + Spelled(t.chain, Left(t))
  }

  lemma Single(v: Visit)
    ensures AllPassed([v]) == if Passed(v) then [v.stage] else []
    ensures Added([v]) == if v.stage == GetPlugin && v.reply.outcome.Extends? then [OutputKafka] else []
  {
    assert [v][1..] == [] && AllPassed([]) == [] && Added([]) == [];
  }

  /** A stage without request that neither fails nor waits takes the front off the chain, and the
      plugin that wants the data appends the output. */
  lemma {:induction false} LocalPasses(s: State, r: Reply)
    requires Ready(s) && s.chain[0] !in REQUESTING
    ensures var t := Stage(s, r).0;
            (t.code.None? || (t.code == Some(SUCCESS) && !Parks(VisitOf(s, r)))) ==>
              && Passed(VisitOf(s, r)) && t.urls == s.urls && t.cursor == s.cursor
              && t.chain == s.chain[1..] + Added([VisitOf(s, r)])
  {
    var v := VisitOf(s, r);
    Single(v);
    assert s.chain[1..] + [] == s.chain[1..];
  }

  lemma {:induction false} SpelledLocal(chain: seq<ProcType>, added: seq<ProcType>, left: nat)
    requires chain != [] && chain[0] != DownloadImage && (added == [] || added == [OutputKafka])
    ensures Spelled(chain, left) + added == [chain[0]] + Spelled(chain[1..] + added, left)
  {
    var rest := chain[1..];
    if added == [] {
      assert rest + added == rest;
    } else {
      SpelledSnoc(rest, left);
    }
  }

  lemma {:induction false} LocalAdvances(s: State, r: Reply)
    requires Ready(s) && s.chain[0] !in REQUESTING
    ensures var t := Stage(s, r).0;
            (t.code.None? || (t.code == Some(SUCCESS) && !Parks(VisitOf(s, r)))) ==> Advances(s, r, t)
  {
    var v := VisitOf(s, r);
    LocalPasses(s, r);
    Single(v);
    SpelledLocal(s.chain, Added([v]), Left(s));
  }

  lemma {:induction false} RetryAdvances(s: State, r: Reply)
    requires Ready(s) && Asks(s, r) && r.http.TransportError? && s.retries > 0
    ensures Advances(s, r, Stage(s, r).0)
  {
    FailedIsRetried(s, r);
    Single(VisitOf(s, r));
  }

  lemma {:induction false} DownloadAdvances(s: State, r: Reply)
    requires Ready(s) && s.chain[0] == DownloadImage && Asks(s, r) && r.http.Answered?
    ensures Advances(s, r, Stage(s, r).0)
  {
    var rest, t := s.chain[1..], Stage(s, r).0;
    DownloadPasses(s, r);
    Single(VisitOf(s, r));
    SpelledDownload(rest, Left(s) - 1);
    assert s.chain == [DownloadImage] + rest;
  }

  lemma {:induction false} DownloadPasses(s: State, r: Reply)
    requires Ready(s) && s.chain[0] == DownloadImage && Asks(s, r) && r.http.Answered?
    ensures var t := Stage(s, r).0;
            && InBounds(t) && Left(t) == Left(s) - 1 && Passed(VisitOf(s, r)) && VisitOf(s, r).stage == DownloadImage
            && t.chain == if Left(t) > 0 then [DownloadImage] + s.chain[1..] else s.chain[1..]
  {
  }

  lemma {:induction false} SpelledDownload(rest: seq<ProcType>, n: nat)
    ensures Spelled([DownloadImage] + rest, n + 1)
         == [DownloadImage] + if n > 0 then Spelled([DownloadImage] + rest, n) else Spelled(rest, 0)
  {
    assert ([DownloadImage] + rest)[1..] == rest;
    assert Times(n + 1) == [DownloadImage] + Times(n) && Times(0) == [];
    assert [DownloadImage] + Times(n) + Spelled(rest, 0) == [DownloadImage] + (Times(n) + Spelled(rest, 0));
  }

  lemma {:induction false} AnswerAdvances(s: State, r: Reply)
    requires Ready(s) && s.chain[0] in ASKING && s.chain[0] != DownloadImage && Asks(s, r) && r.http.Answered?
    ensures Advances(s, r, Stage(s, r).0)
  {
    Single(VisitOf(s, r));
    assert Stage(s, r).0.chain == s.chain[1..];
  }

  lemma {:induction false} StageAdvances(s: State, r: Reply)
    requires Ready(s)
    ensures var t := Stage(s, r).0;
            (t.code.None? || (t.code == Some(SUCCESS) && !Parks(VisitOf(s, r)))) ==> Advances(s, r, t)
    ensures Stage(s, r).0.code == Some(SUCCESS) && !Parks(VisitOf(s, r)) ==> Stage(s, r).0.chain == []
  {
    if s.chain[0] !in REQUESTING {
      LocalAdvances(s, r);
    } else if Asks(s, r) {
      match r.http
      case TransportError => if s.retries > 0 { RetryAdvances(s, r); }
      case Rejected =>
      case Answered(_) =>
        if s.chain[0] == DownloadImage {
          DownloadAdvances(s, r);
        } else {
          AnswerAdvances(s, r);
        }
    }
  }

  // ---------- runs ----------

  lemma {:induction false} VisitsInOrder(v: Visit, rest: seq<Visit>)
    ensures AllPassed([v] + rest) == AllPassed([v]) + AllPassed(rest)
    ensures Added([v] + rest) == Added([v]) + Added(rest)
  {
    assert ([v] + rest)[1..] == rest && [v][1..] == [];
  }

  /** Not told to wait, and no error. */
  predicate EndsWell(t: State, visits: seq<Visit>) {
    t.code.None? || (t.code == Some(SUCCESS) && visits != [] && !Parks(visits[|visits| - 1]))
  }

  predicate Balanced(s: State, visits: seq<Visit>, t: State) {
    && InBounds(s) && InBounds(t)
    && Spelled(s.chain, Left(s)) + Added(visits) == AllPassed(visits) + Spelled(t.chain, Left(t))
  }

  lemma {:induction false} Chained(a: seq<ProcType>, b: seq<ProcType>, c: seq<ProcType>, p: seq<ProcType>,
                                   q: seq<ProcType>, x: seq<ProcType>, y: seq<ProcType>)
    requires a + x == p + b && b + y == q + c
    ensures a + (x + y) == (p + q) + c
  {
    assert a + (x + y) == (a + x) + y;
    assert (p + b) + y == p + (b + y);
    assert p + (q + c) == (p + q) + c;
  }

  lemma {:induction false} StageIsReady(s: State, r: Reply)
    requires Ready(s) && Stage(s, r).0.code.None?
    ensures Ready(Stage(s, r).0)
  {
    StageProgresses(s, r);
  }

  lemma {:induction false} RunAdvances(s: State, script: seq<Reply>)
    requires Ready(s)
    ensures var t, visits := Run(s, script).0, Visits(s, script);
            EndsWell(t, visits) ==> Balanced(s, visits, t) && (t.code.Some? ==> t.chain == [])
    decreases |script|
  {
    var visits := Visits(s, script);
    if script == [] {
      assert Added([]) == [] && AllPassed([]) == [];
    } else {
      var r, rest := script[0], script[1..];
      var m, v := Stage(s, r).0, VisitOf(s, r);
      var later := Visits(m, rest);
      VisitsInOrder(v, later);
      StageAdvances(s, r);
      assert later != [] ==> visits[|visits| - 1] == later[|later| - 1];
      assert later == [] ==> visits[|visits| - 1] == v;
      if m.code.None? {
        StageIsReady(s, r);
        RunAdvances(m, rest);
        var t := Run(m, rest).0;
        if EndsWell(t, visits) {
          Chained(Spelled(s.chain, Left(s)), Spelled(m.chain, Left(m)), Spelled(t.chain, Left(t)),
                  AllPassed([v]), AllPassed(later), Added([v]), Added(later));
        }
      } else if EndsWell(m, visits) {
        assert AllPassed([]) == [] && Added([]) == [];
        assert AllPassed([v]) + [] == AllPassed([v]) && Added([v]) + [] == Added([v]);
      }
    }
  }

  /** A session that has ended well without being told to wait has passed every stage of its chain, in
      order, with one download for each URL, and then what plugins added; and no request that
      failed counts. */
  lemma {:induction false} SuccessMeansPassed(chain: seq<ProcType>, retries: nat, urls: seq<string>, script: seq<Reply>)
    requires chain != []
    ensures var s, visits := Run(Fresh(chain, retries, urls), script).0, Visits(Fresh(chain, retries, urls), script);
            s.code == Some(SUCCESS) && !Parks(visits[|visits| - 1]) ==>
              AllPassed(visits) == Spelled(chain, |urls|) + Added(visits)
  {
    var s0 := Fresh(chain, retries, urls);
    var s := Run(s0, script).0;
    RunAdvances(s0, script);
    assert AllPassed(Visits(s0, script)) + Spelled([], Left(s0)) == AllPassed(Visits(s0, script));
  }

  // ---------- runs that end otherwise ----------

  lemma {:induction false} NothingPassed(s: State, r: Reply)
    requires Ready(s) && !EndsWell(Stage(s, r).0, [VisitOf(s, r)])
    ensures AllPassed([VisitOf(s, r)]) == [] == Added([VisitOf(s, r)])
  {
    Single(VisitOf(s, r));
  }

  /** Whatever becomes of a session, it never passes a stage out of turn or passes one over. */
  lemma {:induction false} InOrder(s: State, script: seq<Reply>)
    requires Ready(s)
    ensures AllPassed(Visits(s, script)) <= Spelled(s.chain, Left(s)) + Added(Visits(s, script))
    decreases |script|
  {
    if script != [] {
      var r, rest := script[0], script[1..];
      var m, v := Stage(s, r).0, VisitOf(s, r);
      var later := Visits(m, rest);
      VisitsInOrder(v, later);
      if EndsWell(m, [v]) {
        StageAdvances(s, r);
        if m.code.None? {
          StageIsReady(s, r);
          InOrder(m, rest);
        }
        PrefixStep(Spelled(s.chain, Left(s)), Added([v]), AllPassed([v]), Spelled(m.chain, Left(m)), Added(later), AllPassed(later));
      } else {
        NothingPassed(s, r);
        assert AllPassed([]) == [];
      }
    }
  }

  lemma {:induction false} PrefixStep(a: seq<ProcType>, x: seq<ProcType>, p: seq<ProcType>, b: seq<ProcType>,
                                      y: seq<ProcType>, q: seq<ProcType>)
    requires a + x == p + b && q <= b + y
    ensures p + q <= a + (x + y)
  {
    assert a + (x + y) == (a + x) + y;
    assert (p + b) + y == p + (b + y);
  }

  // ---------- final codes ----------

  /** What happened in the last stage, by final code. */
  predicate EndsAs(v: Visit, code: int) {
    var fails := v.reply.outcome.Fails?;
    if code == SUCCESS then Parks(v) || Passed(v)
    else if code == MONGO_FAILED then fails && (v.stage == GetPlugin || v.stage == BusinessSave)
    else if code == KAFKA_ERROR then fails && v.stage == OutputKafka
    else if code == HTTP_CONN_ERROR then v.asked && v.reply.http.TransportError?
    else if code == DOWNLOAD_ERROR then v.stage == TraceSpace && !v.asked
    else
      && code == PROC_TERMINATE
      && ((v.asked && v.reply.http.Rejected?)
          || (!v.asked && v.stage !in {TraceSpace, PicWait, GetPlugin, BusinessSave, OutputKafka}))
  }

  lemma {:induction false} StageEndsAs(s: State, r: Reply)
    requires Ready(s) && Stage(s, r).0.code.Some?
    ensures EndsAs(VisitOf(s, r), Stage(s, r).0.code.value)
  {
  }

  lemma OneEnd(v: Visit, c: int, d: int)
    requires EndsAs(v, c) && EndsAs(v, d) && (v.asked ==> v.stage in ASKING)
    ensures c == d
  {
  }

  /** The code of a finished session tells how its last stage went, and the other way round. */
  lemma {:induction false} CodeTells(s: State, script: seq<Reply>, code: int)
    requires Ready(s) && Run(s, script).0.code.Some?
    ensures Visits(s, script) != []
    ensures var visits := Visits(s, script); Run(s, script).0.code == Some(code) <==> EndsAs(visits[|visits| - 1], code)
    decreases |script|
  {
    var m, v := Stage(s, script[0]).0, VisitOf(s, script[0]);
    if m.code.None? {
      StageIsReady(s, script[0]);
      CodeTells(m, script[1..], code);
    } else {
      StageEndsAs(s, script[0]);
      assert Visits(s, script) == [v];
      if EndsAs(v, code) {
        OneEnd(v, code, m.code.value);
      }
    }
  }
}
