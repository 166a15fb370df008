/**
 Sessions, their stage modules and the workers' queue, against SessionSpec. Each call below is
 one thread's step; Ownership.dfy interleaves them.
 */
module Session {
  import opened Wrappers
  import opened Stages
  import opened SessionSpec
  import PartitionSpec
  import PartitionManager

  /** The person of a capture: its face URLs and the download cursor. */
  class Person {
    const faces: seq<string>
    var faceIndex: nat

    constructor (faces: seq<string>)
      ensures this.faces == faces && faceIndex == 0
    {
      this.faces := faces;
      faceIndex := 0;
    }

    predicate HasNextUrl()
      reads this
    {
      faceIndex < |faces|
    }

    method GetNextUrl() returns (url: string)
      modifies this
      ensures url == if old(faceIndex) < |faces| then faces[old(faceIndex)] else ""
      ensures faceIndex == if old(faceIndex) < |faces| then old(faceIndex) + 1 else old(faceIndex)
    {
      url := "";
      if faceIndex < |faces| {
        url := faces[faceIndex];
        faceIndex := faceIndex + 1;
      }
    }

    method RetreatUrl()
      modifies this
      ensures faceIndex == if old(faceIndex) > 0 then old(faceIndex) - 1 else 0
    {
      if faceIndex > 0 {
        faceIndex := faceIndex - 1;
      }
    }
  }

  /** The workers' queue; its blocking is in FifoBuffer.dfy. */
  class Worker {
    var queue: seq<Session>

    constructor ()
      ensures queue == []
    {
      queue := [];
    }

    method PushMsg(msg: Session)
      modifies this
      ensures queue == old(queue) + [msg]
    {
      queue := queue + [msg];
    }
  }

  class Session {
    const person: Person
    /** The Kafka message to mark, unless the session comes from Redis. */
    const data: PartitionManager.Node?
    var procChain: seq<ProcType>
    var httpRetryTime: nat
    var currentDownloadUrl: string
    var images: seq<Image>
    var isFinished: bool
    var status: int
    ghost var answers: seq<string>

    constructor (chain: seq<ProcType>, retries: nat, faces: seq<string>, data: PartitionManager.Node?)
      requires data != null ==> data.state == PartitionSpec.Doing
      ensures Valid() && View() == Fresh(chain, retries, faces)
      ensures this.data == data && fresh(person)
    {
      person := new Person(faces);
      this.data := data;
      procChain, httpRetryTime, currentDownloadUrl, images := chain, retries, "", [];
      isFinished, status, answers := false, SUCCESS, [];
    }

    ghost function View(): State
      reads this, person
    {
      State(procChain, httpRetryTime, person.faces, person.faceIndex, currentDownloadUrl, images,
            if isFinished then Some(status) else None, answers)
    }

    /** A message is DONE for the committer exactly when its session is finished. */
    ghost predicate Valid()
      reads this, person, data
    {
      data != null ==> (data.state == PartitionSpec.Done <==> isFinished)
    }

    predicate HasNextProcessor()
      reads this
    {
      procChain != []
    }

    method NextProcessor() returns (proc: ProcType)
      modifies this`procChain
      ensures old(procChain) == [] ==> proc == NoneProcess && procChain == []
      ensures old(procChain) != [] ==> old(procChain) == [proc] + procChain
      ensures View() == old(View()).(chain := procChain)
    {
      if procChain == [] {
        return NoneProcess;
      }
      proc := procChain[0];
      procChain := procChain[1..];
    }

    method AddChain(proc: ProcType)
      modifies this`procChain
      ensures procChain == [proc] + old(procChain)
    {
      procChain := [proc] + procChain;
    }

    method Final(err: int)
      requires Valid()
      modifies this`isFinished, this`status, data
      ensures Valid() && View() == SessionSpec.Final(old(View()), err)
    {
      if isFinished {
        return;
      }
      status := err;
      isFinished := true;
      if data != null {
        data.state := PartitionSpec.Done;
      }
    }

    /** The end of every stage. */
    method PassOn(worker: Worker) returns (ghost next: Next)
      requires Valid()
      modifies this`isFinished, this`status, data, worker
      ensures Valid() && (View(), next) == HandOn(old(View()))
      ensures worker.queue == old(worker.queue) + if next.Requeued? then [this] else []
    {
      if !HasNextProcessor() {
        Final(SUCCESS);
        return Ended;
      }
      worker.PushMsg(this);
      next := Requeued;
    }

    method MakeDownloadRequest(configured: bool) returns (ok: bool)
      requires Valid()
      modifies this`currentDownloadUrl, person
      ensures Valid()
      ensures (View(), ok) == MakeDownload(old(View()), if configured then Passes else Fails)
    {
      if |person.faces| <= 0 {
        return false;
      }
      currentDownloadUrl := person.GetNextUrl();
      if currentDownloadUrl == "" {
        return false;
      }
      ok := Locate(currentDownloadUrl).Some? && configured;
    }

    method ProcImageResponse(body: string)
      requires Valid()
      modifies this`images, this`procChain, this`answers
      ensures Valid() && View() == Received(old(View()), body)
    {
      if body != "" {
        images := images + [Image(currentDownloadUrl, body)];
      } else {
        assert images + [] == images;
      }
      answers := answers + [body];
      if person.HasNextUrl() {
        AddChain(DownloadImage);
      } else {
        assert [] + procChain == procChain;
      }
    }
  }

  /** The stage modules that make a request. */
  class HttpModule {
    const moduleType: ProcType
    var concurrentRequests: int
    var failedRequests: int
    /** The sessions whose callback has not run. */
    ghost var outstanding: multiset<Session>

    constructor (moduleType: ProcType)
      requires moduleType in REQUESTING
      ensures Valid() && this.moduleType == moduleType && outstanding == multiset{}
    {
      this.moduleType := moduleType;
      concurrentRequests, failedRequests, outstanding := 0, 0, multiset{};
    }

    ghost predicate Valid()
      reads this
    {
      moduleType in REQUESTING && concurrentRequests == |outstanding|
    }

    method SendRequest(session: Session)
      requires Valid()
      modifies this
      ensures Valid() && outstanding == old(outstanding) + multiset{session}
    {
      concurrentRequests := concurrentRequests + 1;
      outstanding := outstanding + multiset{session};
    }

    /** `ready` is whether the rest of the request can be made: the configured path, and for
        GenerateUrl the list of URLs. */
    method MakeRequest(session: Session, ready: bool) returns (ok: bool)
      requires Valid() && session.Valid()
      modifies session, session.person, session.data
      ensures session.Valid()
      ensures (session.View(), ok) == Make(old(session.View()), moduleType, if ready then Passes else Fails)
    {
      match moduleType {
        case DownloadImage =>
          ok := session.MakeDownloadRequest(ready);
        case TraceSpace =>
          ok := true;
          if session.images == [] {
            session.Final(DOWNLOAD_ERROR);
            ok := false;
          }
        case _ =>
          ok := ready;
      }
    }

    method HttpErrorProcess(session: Session, worker: Worker) returns (ghost next: Next)
      requires session.Valid()
      modifies session, session.person, session.data, worker
      ensures session.Valid() && (session.View(), next) == Retry(old(session.View()), moduleType)
      ensures worker.queue == old(worker.queue) + if next.Requeued? then [session] else []
      ensures if old(session.httpRetryTime) > 0 then
                && session.procChain == [moduleType] + old(session.procChain)
                && session.httpRetryTime == old(session.httpRetryTime) - 1
                && session.isFinished == old(session.isFinished) && session.images == old(session.images)
                && session.person.faceIndex ==
                     old(session.person.faceIndex)
                     - (if moduleType == DownloadImage && old(session.person.faceIndex) > 0 then 1 else 0)
                && worker.queue == old(worker.queue) + [session]
              else
                session.isFinished && worker.queue == old(worker.queue)
    {
      if moduleType == DownloadImage {
        session.person.RetreatUrl();
      }
      if session.httpRetryTime > 0 {
        session.httpRetryTime := session.httpRetryTime - 1;
        session.AddChain(moduleType);
        worker.PushMsg(session);
        next := Requeued;
      } else {
        session.Final(HTTP_CONN_ERROR);
        next := Ended;
      }
    }

    method ProcResponse(session: Session, h: Http, worker: Worker) returns (ghost next: Next)
      requires session.Valid() && !h.TransportError?
      modifies session, session.data, worker
      ensures session.Valid() && (session.View(), next) == HttpDone(old(session.View()), moduleType, h)
      ensures worker.queue == old(worker.queue) + if next.Requeued? then [session] else []
    {
      if h.Rejected? {
        session.Final(PROC_TERMINATE);
        return Ended;
      }
      if moduleType == DownloadImage {
        session.ProcImageResponse(h.body);
      }
      next := session.PassOn(worker);
    }

    /** The completion handler that SendRequest installs. */
    method Callback(session: Session, h: Http, worker: Worker) returns (ghost next: Next)
      requires Valid() && session in outstanding && session.Valid()
      modifies this, session, session.person, session.data, worker
      ensures Valid() && outstanding == old(outstanding) - multiset{session}
      ensures session.Valid() && (session.View(), next) == HttpDone(old(session.View()), moduleType, h)
      ensures worker.queue == old(worker.queue) + if next.Requeued? then [session] else []
    {
      concurrentRequests := concurrentRequests - 1;
      outstanding := outstanding - multiset{session};
      if h.TransportError? {
        failedRequests := failedRequests + 1;
        next := HttpErrorProcess(session, worker);
      } else {
        next := ProcResponse(session, h, worker);
      }
    }

    method Process(session: Session, ready: bool) returns (ghost next: Next)
      requires Valid() && session.Valid()
      modifies this, session, session.person, session.data
      ensures Valid() && session.Valid()
      ensures outstanding == Sent(old(outstanding), session, next, moduleType)
      ensures (session.View(), next) == Requesting(old(session.View()), moduleType, if ready then Passes else Fails)
    {
      var ok := MakeRequest(session, ready);
      if !ok {
        session.Final(PROC_TERMINATE);
        return Ended;
      }
      SendRequest(session);
      next := Awaiting(moduleType);
    }
  }

  /** The outstanding requests of a stage after a step of `session`. */
  ghost function Sent(before: multiset<Session>, session: Session, next: Next, stage: ProcType): multiset<Session> {
    if next == Awaiting(stage) then before + multiset{session} else before
  }

  /** The stages whose module makes no request, and those without a module. */
  method RunLocal(session: Session, stage: ProcType, o: Outcome, worker: Worker) returns (ghost next: Next)
    requires session.Valid() && stage !in REQUESTING
    modifies session, session.data, worker
    ensures session.Valid() && (session.View(), next) == Local(old(session.View()), stage, o)
    ensures worker.queue == old(worker.queue) + if next.Requeued? then [session] else []
  {
    if stage !in {GetPlugin, PicWait, BusinessSave, OutputKafka} {
      session.Final(PROC_TERMINATE);
      return Ended;
    }
    if stage == PicWait && o.Waits? {
      session.Final(SUCCESS);
      return Ended;
    }
    if stage != PicWait && o.Fails? {
      session.Final(if stage == OutputKafka then KAFKA_ERROR else MONGO_FAILED);
      return Ended;
    }
    if stage == GetPlugin && o.Extends? {
      session.procChain := session.procChain + [OutputKafka];
    }
    next := session.PassOn(worker);
  }

  /** getModule for a stage that makes a request. */
  ghost predicate Serves(server: HttpModule?, chain: seq<ProcType>)
    reads server
  {
    if chain != [] && chain[0] in REQUESTING then
      server != null && server.Valid() && server.moduleType == chain[0]
    else server == null
  }

  /** Session::Process, with the HTTP module that serves the next stage, if any. */
  method Process(session: Session, server: HttpModule?, o: Outcome, worker: Worker) returns (ghost next: Next)
    requires session.Valid() && Serves(server, session.procChain)
    modifies session, session.person, session.data, worker, server
    ensures session.Valid() && (session.View(), next) == Start(old(session.View()), o)
    ensures worker.queue == old(worker.queue) + if next.Requeued? then [session] else []
    ensures server != null ==>
              server.Valid() && server.outstanding == Sent(old(server.outstanding), session, next, server.moduleType)
  {
    var proc := session.NextProcessor();
    StartOf(old(session.View()), session.View(), proc, o);
    if proc in REQUESTING {
      OnlyFailureMatters(session.View(), proc, o);
      next := server.Process(session, !o.Fails?);
    } else {
      next := RunLocal(session, proc, o, worker);
    }
  }
}
