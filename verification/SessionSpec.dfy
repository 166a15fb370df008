/**
 One session's way through its stages, as a function of what databases, Redis, Kafka and the
 HTTP services answer. The classes in Session.dfy refine it.
 */
module SessionSpec {
  import opened Wrappers
  import opened Stages

  const SUCCESS := 0
  const PROC_TERMINATE := 1001
  const KAFKA_ERROR := 1004
  const DOWNLOAD_ERROR := 1007
  const HTTP_CONN_ERROR := 1009
  const MONGO_FAILED := 1101

  datatype Image = Image(url: string, img: string)

  /** `code` is the one Final recorded. `answers` is history: the bodies that came back for
      the downloads so far, empty ones included. */
  datatype State = State(chain: seq<ProcType>, retries: nat, urls: seq<string>, cursor: nat,
    currentUrl: string, images: seq<Image>, code: Option<int>, answers: seq<string>)

  /** How a stage goes before it hands on: Fails also stands for a request that cannot be made,
      Extends for a plugin that wants the data (GetPlugin), Waits for a parked message (PicWait). */
  datatype Outcome = Fails | Passes | Extends | Waits

  /** How a request ends. Rejected is a reply that the handler of the stage does not accept. */
  datatype Http = TransportError | Rejected | Answered(body: string)

  /** Where a session is after a step: back in the workers' queue, in an outstanding request,
      or done with. */
  datatype Next = Requeued | Awaiting(stage: ProcType) | Ended

  function Final(s: State, code: int): State {
    if s.code.Some? then s else s.(code := Some(code))
  }

  /** A stage is over: the session is finished when there is no next one. */
  function HandOn(s: State): (State, Next) {
    if s.chain == [] then (Final(s, SUCCESS), Ended) else (s, Requeued)
  }

  function Stop(s: State, code: int): (State, Next) { (Final(s, code), Ended) }

  // ---------- URLs ----------

  datatype Location = Location(endpoint: string, bucket: string, key: string)

  /** find: the first '/' at or after `from`, or the length. */
  function Slash(s: string, from: nat): (i: nat)
    requires from <= |s|
    ensures from <= i <= |s|
    ensures forall k :: from <= k < i ==> s[k] != '/'
    ensures i < |s| ==> s[i] == '/'
    decreases |s| - from
  {
    if from == |s| || s[from] == '/' then from else Slash(s, from + 1)
  }

  function Locate(url: string): Option<Location> {
    var e := Slash(url, 0);
    if e == |url| then None
    else
      var b := Slash(url, e + 1);
      if b == |url| || b + 1 == |url| then None
      else Some(Location(url[..e], url[e + 1..b], url[b + 1..]))
  }

  predicate Splits(url: string, l: Location) {
    && url == l.endpoint + "/" + l.bucket + "/" + l.key
    && '/' !in l.endpoint && '/' !in l.bucket && l.key != ""
  }

  lemma SplitsIsFound(url: string, l: Location)
    requires Splits(url, l)
    ensures Locate(url) == Some(l)
  {
    var e, m := |l.endpoint|, |l.endpoint| + 1 + |l.bucket|;
    assert url[e] == '/' && url[m] == '/';
    forall k | 0 <= k < e ensures url[k] != '/' {
      assert url[k] == l.endpoint[k];
    }
    assert Slash(url, 0) == e;
    forall k | e + 1 <= k < m ensures url[k] != '/' {
      assert url[k] == l.bucket[k - e - 1];
    }
    assert Slash(url, e + 1) == m;
    assert url[..e] == l.endpoint && url[e + 1..m] == l.bucket && url[m + 1..] == l.key;
  }

  lemma FoundSplits(url: string)
    requires Locate(url).Some?
    ensures Splits(url, Locate(url).value)
  {
    var e := Slash(url, 0);
    var b := Slash(url, e + 1);
    assert url == url[..e] + "/" + url[e + 1..b] + "/" + url[b + 1..];
  }

  /** A URL is turned into exactly the endpoint, bucket and key it consists of, and refused
      exactly when it does not consist of three such parts. */
  lemma LocateIff(url: string, l: Location)
    ensures Locate(url) == Some(l) <==> Splits(url, l)
  {
    if Splits(url, l) {
      SplitsIsFound(url, l);
    } else if Locate(url).Some? {
      FoundSplits(url);
    }
  }

  // ---------- steps ----------

  /** makeDownloadRequest: the cursor has moved on even when the URL turns out to be unusable. */
  function MakeDownload(s: State, o: Outcome): (State, bool) {
    if s.urls == [] then (s, false)
    else if s.cursor < |s.urls| then
      (s.(currentUrl := s.urls[s.cursor], cursor := s.cursor + 1), Locate(s.urls[s.cursor]).Some? && !o.Fails?)
    else (s.(currentUrl := ""), false)
  }

  /** makeRequest; the trace request fails exactly when there is no image. */
  function Make(s: State, stage: ProcType, o: Outcome): (State, bool) {
    match stage
    case DownloadImage => MakeDownload(s, o)
    case TraceSpace => if s.images == [] then (Final(s, DOWNLOAD_ERROR), false) else (s, true)
    case _ => (s, !o.Fails?)
  }

  function Requesting(s: State, stage: ProcType, o: Outcome): (State, Next) {
    var (t, ok) := Make(s, stage, o);
    if ok then (t, Awaiting(stage)) else Stop(t, PROC_TERMINATE)
  }

  /** The stages that make a request. */
  const REQUESTING := {DownloadImage, TraceSpace, GenerateUrl}

  /** The code with which a stage that makes no request ends the session, if it does. */
  function Verdict(stage: ProcType, o: Outcome): Option<int> {
    match stage
    case PicWait => if o.Waits? then Some(SUCCESS) else None
    case GetPlugin => if o.Fails? then Some(MONGO_FAILED) else None
    case BusinessSave => if o.Fails? then Some(MONGO_FAILED) else None
    case OutputKafka => if o.Fails? then Some(KAFKA_ERROR) else None
    case _ => Some(PROC_TERMINATE)
  }

  /** The stages that make no request. There is no module for the remaining stage names. */
  function Local(s: State, stage: ProcType, o: Outcome): (State, Next) {
    if Verdict(stage, o).Some? then Stop(s, Verdict(stage, o).value)
    else HandOn(if stage == GetPlugin && o.Extends? then s.(chain := s.chain + [OutputKafka]) else s)
  }

  /** Session::Process, up to the point where the worker lets go of the session. */
  function Start(s: State, o: Outcome): (State, Next) {
    if s.chain == [] then Stop(s, PROC_TERMINATE)
    else
      var t := s.(chain := s.chain[1..]);
      if s.chain[0] in REQUESTING then Requesting(t, s.chain[0], o) else Local(t, s.chain[0], o)
  }

  lemma OnlyFailureMatters(s: State, stage: ProcType, o: Outcome)
    ensures Requesting(s, stage, if !o.Fails? then Passes else Fails) == Requesting(s, stage, o)
  {
  }

  /** Start in the terms of NextProcessor. */
  lemma StartOf(s: State, t: State, proc: ProcType, o: Outcome)
    requires t == s.(chain := t.chain)
    requires if s.chain == [] then t.chain == [] && proc == NoneProcess else s.chain == [proc] + t.chain
    ensures Start(s, o) == if proc in REQUESTING then Requesting(t, proc, o) else Local(t, proc, o)
  {
    if s.chain == [] {
      assert s == t;
    } else {
      assert s.chain[1..] == t.chain;
    }
  }

  /** ProcImageResponse. */
  function Received(s: State, body: string): State {
    s.(images := s.images + (if body == "" then [] else [Image(s.currentUrl, body)]),
       answers := s.answers + [body],
       chain := (if s.cursor < |s.urls| then [DownloadImage] else []) + s.chain)
  }

  /** HttpErrorProcess. */
  function Retry(s: State, stage: ProcType): (State, Next) {
    var t := if stage == DownloadImage && s.cursor > 0 then s.(cursor := s.cursor - 1) else s;
    if t.retries > 0 then (t.(retries := t.retries - 1, chain := [stage] + t.chain), Requeued)
    else Stop(t, HTTP_CONN_ERROR)
  }

  /** The callback of the request that `stage` made. */
  function HttpDone(s: State, stage: ProcType, h: Http): (State, Next) {
    match h
    case TransportError => Retry(s, stage)
    case Rejected => Stop(s, PROC_TERMINATE)
    case Answered(body) => HandOn(if stage == DownloadImage then Received(s, body) else s)
  }

  datatype Reply = Reply(outcome: Outcome, http: Http)

  /** A whole stage: from one dispatch to the next or to the end. */
  function Stage(s: State, r: Reply): (State, Next) {
    var (t, next) := Start(s, r.outcome);
    if next.Awaiting? then HttpDone(t, next.stage, r.http) else (t, next)
  }

  /** Plays a script of replies until the session is finished: the last state, and how many
      stages ran. */
  function Run(s: State, script: seq<Reply>): (State, nat)
    decreases |script|
  {
    if s.code.Some? || script == [] then (s, 0)
    else
      var (t, n) := Run(Stage(s, script[0]).0, script[1..]);
      (t, n + 1)
  }

  function Fresh(chain: seq<ProcType>, retries: nat, urls: seq<string>): State {
    State(chain, retries, urls, 0, "", [], None, [])
  }

  // ---------- termination ----------

  function Plugins(chain: seq<ProcType>): nat {
    if chain == [] then 0 else (if chain[0] == GetPlugin then 1 else 0) + Plugins(chain[1..])
  }

  predicate InBounds(s: State) { s.cursor <= |s.urls| }

  function Measure(s: State): nat
    requires InBounds(s)
  {
    s.retries + (|s.urls| - s.cursor) + |s.chain| + Plugins(s.chain)
  }

  predicate Ready(s: State) { InBounds(s) && s.code.None? && s.chain != [] }

  /** After a step: still ready, with less left to do, or finished. */
  predicate Progress(s: State, n: nat, next: Next) {
    match next
    case Requeued => Ready(s) && Measure(s) < n
    case Ended => s.code.Some?
    case Awaiting(stage) =>
      && InBounds(s) && s.code.None?
      && Measure(s) < (if stage == DownloadImage then n - 1 else n)
  }

  lemma {:induction false} PluginsSnoc(chain: seq<ProcType>)
    ensures Plugins(chain + [OutputKafka]) == Plugins(chain)
  {
    if chain != [] {
      PluginsSnoc(chain[1..]);
      assert (chain + [OutputKafka])[1..] == chain[1..] + [OutputKafka];
    }
  }

  lemma LocalProgresses(s: State, stage: ProcType, o: Outcome, n: nat)
    requires InBounds(s) && s.code.None?
    requires Measure(s) + (if stage == GetPlugin then 2 else 1) == n
    ensures var (t, next) := Local(s, stage, o); !next.Awaiting? && Progress(t, n, next)
  {
    PluginsSnoc(s.chain);
  }

  lemma RequestProgresses(s: State, stage: ProcType, o: Outcome, n: nat)
    requires stage in REQUESTING && InBounds(s) && s.code.None? && Measure(s) < n
    ensures var (t, next) := Requesting(s, stage, o);
            Progress(t, n, next) && !next.Requeued? && (next.Awaiting? ==> next.stage == stage)
  {
  }

  lemma StartProgresses(s: State, o: Outcome)
    requires Ready(s)
    ensures var (t, next) := Start(s, o); Progress(t, Measure(s), next)
    ensures var (t, next) := Start(s, o); next.Awaiting? ==> next.stage in REQUESTING
  {
    var t := s.(chain := s.chain[1..]);
    if s.chain[0] in REQUESTING {
      RequestProgresses(t, s.chain[0], o, Measure(s));
    } else {
      LocalProgresses(t, s.chain[0], o, Measure(s));
    }
  }

  lemma {:induction false} ReplyProgresses(s: State, n: nat, stage: ProcType, h: Http)
    requires stage in REQUESTING
    requires Progress(s, n, Awaiting(stage))
    ensures var (t, next) := HttpDone(s, stage, h); !next.Awaiting? && Progress(t, n, next)
  {
    assert ([stage] + s.chain)[1..] == s.chain;
    assert [] + s.chain == s.chain;
  }

  lemma StageProgresses(s: State, r: Reply)
    requires Ready(s)
    ensures var (t, next) := Stage(s, r); !next.Awaiting? && Progress(t, Measure(s), next)
  {
    StartProgresses(s, r.outcome);
    var (t, next) := Start(s, r.outcome);
    if next.Awaiting? {
      ReplyProgresses(t, Measure(s), next.stage, r.http);
    }
  }

  /** Termination: whatever is answered, a session is finished after at most Measure stages. */
  lemma {:induction false} FinishesWithin(s: State, script: seq<Reply>)
    requires Ready(s) && |script| >= Measure(s)
    ensures Run(s, script).0.code.Some?
    ensures 1 <= Run(s, script).1 <= Measure(s)
    decreases Measure(s)
  {
    StageProgresses(s, script[0]);
    var t := Stage(s, script[0]).0;
    if t.code.None? {
      FinishesWithin(t, script[1..]);
    }
  }

  lemma {:induction false} NoPlugins(chain: seq<ProcType>)
    requires GetPlugin !in chain
    ensures Plugins(chain) == 0
  {
    if chain != [] {
      NoPlugins(chain[1..]);
    }
  }

  lemma OnePlugin(chain: seq<ProcType>, i: nat)
    requires i < |chain|
    requires GetPlugin !in chain[..i] && GetPlugin !in chain[i + 1..]
    ensures Plugins(chain) <= 1
  {
    if i == 0 {
      NoPlugins(chain[1..]);
    } else {
      assert chain[1..][..i - 1] == chain[1..i] && chain[1..][i..] == chain[i + 1..];
      assert forall k :: 1 <= k < i ==> chain[k] == chain[..i][k];
      assert chain[0] == chain[..i][0];
      OnePlugin(chain[1..], i - 1);
    }
  }

  /** From any chain: at most as many stages as retries, URLs, stages of the chain, and one more
      for every stage that a plugin may add. */
  lemma {:induction false} EverySessionFinishes(chain: seq<ProcType>, retries: nat, urls: seq<string>, script: seq<Reply>)
    requires chain != []
    requires |script| >= retries + |urls| + |chain| + Plugins(chain)
    ensures Run(Fresh(chain, retries, urls), script).0.code.Some?
    ensures Run(Fresh(chain, retries, urls), script).1 <= retries + |urls| + |chain| + Plugins(chain)
  {
    FinishesWithin(Fresh(chain, retries, urls), script);
  }

  /** One plugin stage at most, and no trace stage before the downloads. */
  predicate Admissible(chain: seq<ProcType>) {
    chain != [] && Plugins(chain) <= 1 && Guarded(chain)
  }

  /** Every kind of message starts with such a chain. */
  lemma {:induction false} ChainsAreAdmissible(o: Origin)
    ensures Admissible(ChainFor(o))
  {
    var chain := ChainFor(o);
    match o
    case Capture =>
      OnePlugin(chain, 0);
      assert chain[1..][0] == DownloadImage;
    case XiashunCapture =>
      OnePlugin(chain, 0);
    case BusinessEvent(msgType, fromRedis) =>
      OnePlugin(chain, if msgType == BUSINESS_CAPTURE && !fromRedis then 1 else 0);
      NoTraceIsGuarded(chain);
    case _ =>
      OnePlugin(chain, 0);
      NoTraceIsGuarded(chain);
  }

  /** The bound is reached: a plain business message whose plugin adds the Kafka output. */
  lemma {:induction false} BoundIsReached()
    ensures var chain := BusinessChain(0, false);
            Run(Fresh(chain, 0, []), [Reply(Extends, Rejected), Reply(Passes, Rejected), Reply(Passes, Rejected)]).1
              == 0 + 0 + |chain| + 1
  {
    var script := [Reply(Extends, Rejected), Reply(Passes, Rejected), Reply(Passes, Rejected)];
    var s := Fresh([GetPlugin, BusinessSave], 0, []);
    assert Stage(s, script[0]).0 == s.(chain := [BusinessSave, OutputKafka]);
    assert Stage(s.(chain := [BusinessSave, OutputKafka]), script[1]).0 == s.(chain := [OutputKafka]);
    assert script[1..][0] == script[1] && script[1..][1..][0] == script[2];
  }

  // ---------- the download loop ----------

  /** What the answers for the first URLs leave behind. */
  function Stored(urls: seq<string>, answers: seq<string>): seq<Image>
    requires |answers| <= |urls|
  {
    if answers == [] then []
    else
      var last := |answers| - 1;
      Stored(urls, answers[..last]) + if answers[last] == "" then [] else [Image(urls[last], answers[last])]
  }

  predicate Loaded(s: State) {
    |s.answers| <= |s.urls| && s.images == Stored(s.urls, s.answers)
  }

  /** TraceSpace is not reached before a download. */
  predicate Guarded(chain: seq<ProcType>) {
    chain != [] && chain[0] != DownloadImage ==> chain[0] != TraceSpace && Guarded(chain[1..])
  }

  predicate TraceComesLast(s: State) { s.cursor < |s.urls| ==> Guarded(s.chain) }

  /** While no download is outstanding, the cursor stands behind the answered URLs. */
  predicate AtRest(s: State) {
    Loaded(s) && (s.code.None? ==> s.cursor == |s.answers| && TraceComesLast(s))
  }

  predicate Fetching(s: State) {
    && Loaded(s)
    && |s.answers| < |s.urls|
    && s.cursor == |s.answers| + 1
    && s.currentUrl == s.urls[|s.answers|]
  }

  predicate Waiting(s: State, stage: ProcType) {
    if stage == DownloadImage then Fetching(s)
    else AtRest(s) && s.code.None? && (stage == TraceSpace ==> s.cursor == |s.urls|)
  }

  lemma {:induction false} GuardedSnoc(chain: seq<ProcType>)
    requires Guarded(chain)
    ensures Guarded(chain + [OutputKafka])
  {
    if chain != [] && chain[0] != DownloadImage {
      GuardedSnoc(chain[1..]);
      assert (chain + [OutputKafka])[1..] == chain[1..] + [OutputKafka];
    }
  }

  lemma LocalKeepsLoop(s: State, stage: ProcType, o: Outcome)
    requires AtRest(s) && s.code.None?
    ensures AtRest(Local(s, stage, o).0)
  {
    if s.cursor < |s.urls| {
      GuardedSnoc(s.chain);
    }
  }

  lemma DownloadKeepsLoop(s: State, o: Outcome)
    requires Loaded(s) && s.code.None? && s.cursor == |s.answers|
    ensures var (t, next) := Requesting(s, DownloadImage, o); if next.Awaiting? then Fetching(t) else AtRest(t)
  {
  }

  lemma {:induction false} StartKeepsLoop(s: State, o: Outcome)
    requires AtRest(s) && s.code.None?
    ensures var (t, next) := Start(s, o); if next.Awaiting? then Waiting(t, next.stage) else AtRest(t)
  {
    if s.chain != [] {
      var t := s.(chain := s.chain[1..]);
      if s.chain[0] !in REQUESTING {
        LocalKeepsLoop(t, s.chain[0], o);
      } else if s.chain[0] == DownloadImage {
        DownloadKeepsLoop(t, o);
      }
    }
  }

  lemma {:induction false} ReplyKeepsLoop(s: State, stage: ProcType, h: Http)
    requires stage in REQUESTING
    requires Waiting(s, stage)
    ensures AtRest(HttpDone(s, stage, h).0)
  {
    if h.Answered? {
      assert (s.answers + [h.body])[..|s.answers|] == s.answers;
      assert s.images + [] == s.images;
      assert [] + s.chain == s.chain;
    } else if h.TransportError? {
      assert ([stage] + s.chain)[1..] == s.chain;
    }
  }

  lemma StageKeepsLoop(s: State, r: Reply)
    requires AtRest(s) && s.code.None?
    ensures AtRest(Stage(s, r).0)
  {
    StartKeepsLoop(s, r.outcome);
    var (t, next) := Start(s, r.outcome);
    if next.Awaiting? {
      ReplyKeepsLoop(t, next.stage, r.http);
    }
  }

  lemma {:induction false} RunKeepsLoop(s: State, script: seq<Reply>)
    requires AtRest(s)
    ensures AtRest(Run(s, script).0)
    decreases |script|
  {
    if s.code.None? && script != [] {
      StageKeepsLoop(s, script[0]);
      RunKeepsLoop(Stage(s, script[0]).0, script[1..]);
    }
  }

  lemma StageKeepsUrls(s: State, r: Reply)
    ensures Stage(s, r).0.urls == s.urls
  {
  }

  lemma {:induction false} RunKeepsUrls(s: State, script: seq<Reply>)
    ensures Run(s, script).0.urls == s.urls
    decreases |script|
  {
    if s.code.None? && script != [] {
      StageKeepsUrls(s, script[0]);
      RunKeepsUrls(Stage(s, script[0]).0, script[1..]);
    }
  }

  lemma {:induction false} StoredLength(urls: seq<string>, answers: seq<string>)
    requires |answers| <= |urls|
    ensures |Stored(urls, answers)| <= |answers|
    ensures |Stored(urls, answers)| == |answers| <==> "" !in answers
  {
    if answers != [] {
      var last := |answers| - 1;
      StoredLength(urls, answers[..last]);
      assert answers == answers[..last] + [answers[last]];
    }
  }

  lemma {:induction false} StoredAt(urls: seq<string>, answers: seq<string>, i: nat)
    requires i < |answers| <= |urls|
    requires forall k :: 0 <= k <= i ==> answers[k] != ""
    ensures i < |Stored(urls, answers)| && Stored(urls, answers)[i] == Image(urls[i], answers[i])
  {
    var last := |answers| - 1;
    if i < last {
      StoredAt(urls, answers[..last], i);
    } else {
      assert "" !in answers[..last];
      StoredLength(urls, answers[..last]);
    }
  }

  /** The download loop, for every pattern of transport errors, rejections and retries: the
      images are what the URLs answered, in order, none twice and none skipped but the empty
      ones; and the trace stage only starts when every URL was answered. */
  lemma {:induction false} DownloadLoop(chain: seq<ProcType>, retries: nat, urls: seq<string>, script: seq<Reply>)
    requires Guarded(chain)
    ensures var s := Run(Fresh(chain, retries, urls), script).0;
            && |s.answers| <= |urls|
            && s.images == Stored(urls, s.answers)
            && (AtTrace(s) ==> |s.answers| == |urls|)
            && ("" !in s.answers ==> |s.images| == |s.answers|)
            && forall i :: 0 <= i < |s.images| && "" !in s.answers ==> s.images[i] == Image(urls[i], s.answers[i])
  {
    RunKeepsLoop(Fresh(chain, retries, urls), script);
    RunKeepsUrls(Fresh(chain, retries, urls), script);
    var s := Run(Fresh(chain, retries, urls), script).0;
    StoredLength(urls, s.answers);
    forall i | 0 <= i < |s.images| && "" !in s.answers ensures s.images[i] == Image(urls[i], s.answers[i]) {
      StoredAt(urls, s.answers, i);
    }
  }

  /** The next dispatch makes the trace request. */
  predicate AtTrace(s: State) { s.code.None? && s.chain != [] && s.chain[0] == TraceSpace }

  lemma {:induction false} NoTraceIsGuarded(chain: seq<ProcType>)
    requires TraceSpace !in chain
    ensures Guarded(chain)
  {
    if chain != [] {
      NoTraceIsGuarded(chain[1..]);
    }
  }

  // ---------- images against face order ----------

  predicate Aligned(images: seq<Image>, urls: seq<string>) {
    |images| <= |urls| && forall i :: 0 <= i < |images| ==> images[i].url == urls[i]
  }

  predicate EmptyOnlyAtEnd(answers: seq<string>) {
    forall i, j :: 0 <= i < j < |answers| && answers[j] != "" ==> answers[i] != ""
  }

  lemma EmptyStaysAtEnd(answers: seq<string>, answer: string)
    ensures EmptyOnlyAtEnd(answers + [answer]) <==>
              EmptyOnlyAtEnd(answers) && (answer != "" ==> "" !in answers)
  {
    var longer := answers + [answer];
    assert answers == longer[..|answers|];
    if EmptyOnlyAtEnd(longer) && answer != "" {
      forall i | 0 <= i < |answers| ensures answers[i] != "" {
        assert longer[i] == answers[i] && longer[|answers|] == answer;
      }
    }
    if EmptyOnlyAtEnd(longer) {
      forall i, j | 0 <= i < j < |answers| && answers[j] != "" ensures answers[i] != "" {
        assert longer[i] == answers[i] && longer[j] == answers[j];
      }
    }
  }

  /** One more image belongs to the URL it stands at when it is not moved up. */
  lemma AlignedSnoc(images: seq<Image>, urls: seq<string>, n: nat, img: string)
    requires |images| <= n < |urls|
    requires DistinctUrls(urls)
    ensures Aligned(images + [Image(urls[n], img)], urls) <==> Aligned(images, urls) && |images| == n
  {
    var longer := images + [Image(urls[n], img)];
    assert longer[|images|].url == urls[n];
    assert forall i :: 0 <= i < |images| ==> longer[i] == images[i];
  }

  predicate DistinctUrls(urls: seq<string>) {
    forall i, j :: 0 <= i < j < |urls| ==> urls[i] != urls[j]
  }

  lemma {:induction false} AlignedIff(urls: seq<string>, answers: seq<string>)
    requires |answers| <= |urls|
    requires DistinctUrls(urls)
    ensures Aligned(Stored(urls, answers), urls) <==> EmptyOnlyAtEnd(answers)
  {
    if answers != [] {
      var last := |answers| - 1;
      var before := answers[..last];
      assert answers == before + [answers[last]];
      AlignedIff(urls, before);
      StoredLength(urls, before);
      EmptyStaysAtEnd(before, answers[last]);
      AlignedSnoc(Stored(urls, before), urls, last, answers[last]);
      assert Stored(urls, before) + [] == Stored(urls, before);
    }
  }

  /** The trace request takes the face attributes of image i from face i. In every run that comes
      to the trace stage, with distinct URLs, each image belongs to the face of its number if
      and only if empty answers came last. */
  lemma {:induction false} TraceAlignedIff(chain: seq<ProcType>, retries: nat, urls: seq<string>, script: seq<Reply>)
    requires Guarded(chain) && DistinctUrls(urls)
    requires AtTrace(Run(Fresh(chain, retries, urls), script).0)
    ensures var s := Run(Fresh(chain, retries, urls), script).0;
            && |s.answers| == |urls|
            && (Aligned(s.images, urls) <==> EmptyOnlyAtEnd(s.answers))
  {
    DownloadLoop(chain, retries, urls, script);
    AlignedIff(urls, Run(Fresh(chain, retries, urls), script).0.answers);
  }

  lemma AnsweredStage(s: State, body: string, rest: seq<ProcType>)
    requires s.code.None? && s.chain == [DownloadImage] + rest && rest != []
    requires s.cursor < |s.urls| && Locate(s.urls[s.cursor]).Some?
    ensures Stage(s, Reply(Passes, Answered(body))).0 ==
              Received(s.(currentUrl := s.urls[s.cursor], cursor := s.cursor + 1, chain := rest), body)
  {
    assert s.chain[1..] == rest;
  }

  /** Two pictures, answered in turn. */
  lemma {:induction false} TwoPictures(rest: seq<ProcType>, retries: nat, urls: seq<string>, a: string, b: string)
    requires rest != [] && |urls| == 2 && Locate(urls[0]).Some? && Locate(urls[1]).Some?
    ensures var s := Run(Fresh([DownloadImage] + rest, retries, urls),
                         [Reply(Passes, Answered(a)), Reply(Passes, Answered(b))]).0;
            && s.code.None? && s.chain == rest
            && s.images == (if a == "" then [] else [Image(urls[0], a)]) + (if b == "" then [] else [Image(urls[1], b)])
  {
    var s := Fresh([DownloadImage] + rest, retries, urls);
    AnsweredStage(s, a, rest);
    var s1 := Stage(s, Reply(Passes, Answered(a))).0;
    AnsweredStage(s1, b, rest);
    var s2 := Stage(s1, Reply(Passes, Answered(b))).0;
    assert [] + rest == rest;
    RunOfTwo(s, Reply(Passes, Answered(a)), Reply(Passes, Answered(b)));
  }

  lemma {:induction false} RunOfTwo(s: State, a: Reply, b: Reply)
    requires s.code.None? && Stage(s, a).0.code.None?
    ensures Run(s, [a, b]).0 == Stage(Stage(s, a).0, b).0
  {
    var script, t := [a, b], Stage(s, a).0;
    assert script[1..] == [b] && [b][1..] == [];
    assert Run(t, [b]).0 == Run(Stage(t, b).0, []).0;
  }

  lemma XiashunChain()
    ensures XIASHUN_CAPTURE_CHAIN == [DownloadImage] + [TraceSpace, BusinessSave, GenerateUrl, OutputKafka]
  {
  }

  /** A capture whose first picture comes back empty: the second one is sent with the attributes
      of the first face. */
  lemma {:induction false} MisalignedRun()
    ensures var urls := ["e/b/1", "e/b/2"];
            var script := [Reply(Passes, Answered("")), Reply(Passes, Answered("x"))];
            var s := Run(Fresh(XIASHUN_CAPTURE_CHAIN, 0, urls), script).0;
            AtTrace(s) && s.images == [Image(urls[1], "x")] && s.images[0].url != urls[0]
  {
    var urls := ["e/b/1", "e/b/2"];
    LocateIff(urls[0], Location("e", "b", "1"));
    LocateIff(urls[1], Location("e", "b", "2"));
    XiashunChain();
    TwoPictures([TraceSpace, BusinessSave, GenerateUrl, OutputKafka], 0, urls, "", "x");
    assert [] + [Image(urls[1], "x")] == [Image(urls[1], "x")];
    assert urls[0][4] != urls[1][4];
  }

  // ---------- the final code ----------

  const CODES := {SUCCESS, PROC_TERMINATE, KAFKA_ERROR, DOWNLOAD_ERROR, HTTP_CONN_ERROR, MONGO_FAILED}

  predicate CodeFits(s: State) {
    && (s.code.Some? ==> s.code.value in CODES)
    && (s.code == Some(DOWNLOAD_ERROR) ==> |s.answers| == |s.urls| && s.images == [])
    && (s.code == Some(HTTP_CONN_ERROR) ==> s.retries == 0)
  }

  lemma LocalFits(s: State, stage: ProcType, o: Outcome)
    requires s.code.None?
    ensures CodeFits(Local(s, stage, o).0)
  {
  }

  lemma StartFits(s: State, o: Outcome)
    requires AtRest(s) && s.code.None?
    ensures CodeFits(Start(s, o).0)
  {
    if s.chain != [] {
      var t := s.(chain := s.chain[1..]);
      if s.chain[0] !in REQUESTING {
        LocalFits(t, s.chain[0], o);
      }
    }
  }

  lemma ReplyFits(s: State, stage: ProcType, h: Http)
    requires s.code.None?
    ensures CodeFits(HttpDone(s, stage, h).0)
  {
  }

  lemma StageFits(s: State, r: Reply)
    requires AtRest(s) && Ready(s)
    ensures CodeFits(Stage(s, r).0)
  {
    StartFits(s, r.outcome);
    StartProgresses(s, r.outcome);
    var (t, next) := Start(s, r.outcome);
    if next.Awaiting? {
      ReplyFits(t, next.stage, r.http);
    }
  }

  lemma {:induction false} RunFits(s: State, script: seq<Reply>)
    requires AtRest(s) && Ready(s)
    ensures CodeFits(Run(s, script).0)
    decreases |script|
  {
    if script != [] {
      StageFits(s, script[0]);
      StageKeepsLoop(s, script[0]);
      StageProgresses(s, script[0]);
      var t := Stage(s, script[0]).0;
      if t.code.None? {
        RunFits(t, script[1..]);
      }
    }
  }

  lemma {:induction false} NothingStored(urls: seq<string>, answers: seq<string>)
    requires |answers| <= |urls| && Stored(urls, answers) == []
    ensures forall i :: 0 <= i < |answers| ==> answers[i] == ""
  {
    if answers != [] {
      NothingStored(urls, answers[..|answers| - 1]);
    }
  }

  /** What the final codes of any run mean. The download error: every URL was answered, each
      with an empty body (although the trace stage then calls Final a second time, for the
      request that could not be made). The connection error: no retry was left. */
  lemma CodesMean(chain: seq<ProcType>, retries: nat, urls: seq<string>, script: seq<Reply>)
    requires chain != [] && Guarded(chain)
    ensures var s := Run(Fresh(chain, retries, urls), script).0;
            && (s.code.Some? ==> s.code.value in CODES)
            && (s.code == Some(HTTP_CONN_ERROR) ==> s.retries == 0)
            && (s.code == Some(DOWNLOAD_ERROR) ==>
                  |s.answers| == |s.urls| && forall i :: 0 <= i < |s.answers| ==> s.answers[i] == "")
  {
    RunFits(Fresh(chain, retries, urls), script);
    RunKeepsLoop(Fresh(chain, retries, urls), script);
    var s := Run(Fresh(chain, retries, urls), script).0;
    if s.code == Some(DOWNLOAD_ERROR) {
      NothingStored(s.urls, s.answers);
    }
  }
}
