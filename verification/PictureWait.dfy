/** The picture-wait module: the handlers on the shared Redis value, against Rendezvous.Visit. */
module PictureWait {
  import opened Wrappers
  import opened Stages
  import opened TraceResult
  import opened Rendezvous

  function Lookup(store: map<string, Stored>, key: string): Option<Stored> {
    if key in store then Some(store[key]) else None
  }

  /** What reading a stored result makes of a session's result. */
  function ReadOver(result: Result, read: Option<TraceBody>): Result {
    if read.None? then result else Apply(result, read.value, PERSON_CODES).0
  }

  class PictureWaitModule {
    /** Redis, as far as this database goes. */
    var store: map<string, Stored>
    /** Business sessions pushed to the workers, and trace sessions that passed. */
    var queue: seq<Continued>
    var passedTraces: seq<TraceBody>

    constructor ()
      ensures store == map[] && queue == [] && passedTraces == []
    {
      store, queue, passedTraces := map[], [], [];
    }

    /** SetAdvancedKeyValue; whether it failed is only logged. */
    method Set(key: string, value: Stored, written: bool)
      modifies this`store
      ensures store == if written then old(store)[key := value] else old(store)
    {
      if written {
        store := store[key := value];
      }
    }

    method HandleWithoutKey(key: string, ptype: int, payload: Payload, body: TraceBody, written: bool)
      returns (wait: bool)
      modifies this`store
      ensures var reply := WithoutKey(ptype, payload, body);
              && wait == reply.wait
              && store == if written then old(store)[key := reply.write.value] else old(store)
    {
      var value := Typed(ptype, [], None);
      if ptype == BUSINESS {
        wait := true;
        value := value.(messages := value.messages + [Text(payload)]);
        assert [] + [Text(payload)] == [Text(payload)];
      } else {
        wait := false;
        value := value.(trace := Some(body));
      }
      Set(key, value, written);
    }

    method HandleFromRedis(payload: Payload, body: TraceBody) returns (pushed: bool)
      modifies this`queue
      ensures pushed <==> payload.readable && Acceptable(body)
      ensures queue == old(queue) +
                if pushed then [Continued(payload, ReadInto(Some(body)), BusinessChain(payload.msgType, true))] else []
    {
      if !payload.readable {
        return false;
      }
      var session := new Session();
      var ok := session.GetPersonResult(body);
      if !ok {
        return false;
      }
      queue := queue + [Continued(payload, session.result, BusinessChain(payload.msgType, true))];
      pushed := true;
    }

    /** The loop over message_list when the trace result arrives. */
    method ReleaseAll(messages: seq<Cell>, body: TraceBody)
      modifies this`queue
      ensures queue == old(queue) + Release(messages, body).0
    {
      var k := 0;
      while k < |messages|
        invariant 0 <= k <= |messages|
        invariant queue == old(queue) + Release(messages[..k], body).0
      {
        assert messages[..k + 1][..k] == messages[..k];
        if messages[k].Text? {
          var pushed := HandleFromRedis(messages[k].payload, body);
        }
        k := k + 1;
      }
      assert messages[..k] == messages;
    }

    /** A trace session keeps the result it has; a business session has what the stored one
        makes of its own. */
    method HandleWithKey(session: Session, key: string, value: Stored, ptype: int, payload: Payload, body: TraceBody, written: bool)
      returns (wait: bool)
      modifies this`store, this`queue, session
      ensures var reply := WithKey(value, ptype, payload, body);
              && wait == reply.wait
              && session.result == ReadOver(old(session.result), reply.read)
              && queue == old(queue) + Release(reply.release, body).0
              && store == if written && reply.write.Some? then old(store)[key := reply.write.value] else old(store)
    {
      wait := false;
      if !value.Typed? {
        return;
      }
      if value.ptype == TRACE {
        if ptype == BUSINESS && value.trace.Some? {
          var ok := session.GetPersonResult(value.trace.value);
        }
      } else if value.ptype == BUSINESS {
        if ptype == BUSINESS {
          Set(key, value.(messages := value.messages + [Text(payload)]), written);
          wait := true;
        } else if ptype == TRACE {
          ReleaseAll(value.messages, body);
          Set(key, Typed(ptype, [], Some(body)), written);
        }
      }
    }

    /** The section between the lock and the unlock, and the two ways around it. */
    method GetResultOfWait(session: Session, key: string, ptype: int, payload: Payload, body: TraceBody, f: Faults)
      returns (wait: bool)
      modifies this`store, this`queue, session
      ensures key == "" || !f.locked ==>
                !wait && store == old(store) && queue == old(queue) && session.result == old(session.result)
      ensures key != "" && f.locked ==>
                var reply := Answer(if f.read then Lookup(old(store), key) else None, ptype, payload, body);
                && wait == reply.wait
                && session.result == ReadOver(old(session.result), reply.read)
                && queue == old(queue) + Release(reply.release, body).0
                && store == if f.written && reply.write.Some? then old(store)[key := reply.write.value] else old(store)
    {
      wait := false;
      if key == "" {
        return;
      }
      if !f.locked {
        return;
      }
      var data := if f.read then Lookup(store, key) else None;
      if data.None? {
        wait := HandleWithoutKey(key, ptype, payload, body, f.written);
        assert queue == queue + Release([], body).0;
      } else {
        wait := HandleWithKey(session, key, data.value, ptype, payload, body, f.written);
      }
    }

    /** One session at kPicWait. At its key it does exactly one Visit; other keys are untouched.
        A business session from Kafka has no result yet; a trace session comes with its own
        and leaves with it. */
    method Process(session: Session, key: string, a: Arrival, f: Faults)
      requires a.Business? ==> session.result == FRESH
      modifies this, session
      ensures a.Trace? ==> session.result == old(session.result)
      ensures key == "" ==> store == old(store)
      ensures key == "" ==> queue == old(queue) + if a.Business? then [Continue(a.payload, FRESH)] else []
      ensures key != "" ==>
                var next := Visit(Desk(Lookup(old(store), key), old(queue), []), a, f);
                && queue == next.out
                && Lookup(store, key) == next.stored
                && store - {key} == old(store) - {key}
      ensures passedTraces == old(passedTraces) + if a.Trace? then [a.body] else []
    {
      var ptype := if a.Business? then BUSINESS else TRACE;
      var payload := if a.Business? then a.payload else NO_PAYLOAD;
      var body := if a.Trace? then a.body else Garbled;
      var wait := GetResultOfWait(session, key, ptype, payload, body, f);
      if wait {
        return;
      }
      if a.Business? {
        queue := queue + [Continue(payload, session.result)];
      } else {
        passedTraces := passedTraces + [body];
      }
    }
  }
}
