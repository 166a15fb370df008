/**
 The result of the trace service as it is written into a session: by the trace session's own
 response handler, and later by every business session that meets the result.
 JSON members that may be missing or of the wrong type are options.
 */
module TraceResult {
  import opened Sequences
  import opened Wrappers

  datatype Track = Track(age: Option<int>, gender: Option<int>, score: Option<real>)

  datatype AttributeFields = AttributeFields(kind: Option<string>, value: Option<string>,
    confidence: Option<int>, mtime: Option<int>, isManual: Option<bool>)

  datatype Person = Person(id: Option<string>, url: Option<string>, setName: Option<string>,
    kind: Option<int>, isAutoReg: Option<int>, similar: Option<real>, atime: Option<int>,
    attributes: Option<seq<AttributeFields>>)

  /** `result` is present when it is a JSON object, and so are its two members. */
  datatype TraceBody = Garbled | TraceBody(code: Option<int>, hasResult: bool,
    track: Option<Track>, person: Option<Person>)

  datatype Attribute = Attribute(kind: string, value: string, confidence: int, mtime: int, isManual: bool)

  datatype Result = Result(age: int, gender: int, score: real, id: string, url: string,
    setName: string, kind: int, isAutoReg: int, similar: real, atime: int, attributes: seq<Attribute>)

  const FRESH := Result(-1, -1, 0.0, "", "", "", 0, 0, 0.0, 0, [])

  const MANUAL_AGE := "manual_age"

  function Or<T>(o: Option<T>, t: T): T {
    match o case Some(v) => v case None => t
  }

  function OneAttribute(a: AttributeFields): Attribute {
    Attribute(Or(a.kind, ""), Or(a.value, ""), Or(a.confidence, 0), Or(a.mtime, 0), Or(a.isManual, false))
  }

  /** An attribute with an empty type is skipped; one without a type is kept. */
  function Collect(fields: seq<AttributeFields>): seq<Attribute> {
    if fields == [] then []
    else
      var last := fields[|fields| - 1];
      Collect(fields[..|fields| - 1]) + if last.kind == Some("") then [] else [OneAttribute(last)]
  }

  predicate HasManualAge(attributes: seq<Attribute>) {
    exists a :: a in attributes && a.kind == MANUAL_AGE
  }

  lemma {:induction false} CollectNext(fields: seq<AttributeFields>, k: nat)
    requires k < |fields|
    ensures Collect(fields[..k + 1]) ==
              Collect(fields[..k]) + if fields[k].kind == Some("") then [] else [OneAttribute(fields[k])]
  {
    assert fields[..k + 1][..k] == fields[..k];
  }

  lemma {:induction false} ManualAgeNext(attributes: seq<Attribute>, a: Attribute)
    ensures HasManualAge(attributes + [a]) <==> HasManualAge(attributes) || a.kind == MANUAL_AGE
  {
    var more := attributes + [a];
    assert a in more && forall b :: b in attributes ==> b in more;
  }

  const NO_MANUAL_AGE := Attribute(MANUAL_AGE, "-1", 0, 0, false)

  function WithManualAge(attributes: seq<Attribute>): seq<Attribute> {
    if HasManualAge(attributes) then attributes else attributes + [NO_MANUAL_AGE]
  }

  function WithTrack(r: Result, t: Track): Result {
    r.(age := Or(t.age, r.age), gender := Or(t.gender, r.gender), score := Or(t.score, r.score))
  }

  function WithIdentity(r: Result, p: Person): Result {
    r.(id := Or(p.id, r.id), url := Or(p.url, r.url), setName := Or(p.setName, r.setName), kind := Or(p.kind, r.kind))
  }

  function WithMatch(r: Result, p: Person): Result {
    r.(isAutoReg := Or(p.isAutoReg, r.isAutoReg), similar := Or(p.similar, r.similar), atime := Or(p.atime, r.atime))
  }

  function WithAttributes(r: Result, fields: seq<AttributeFields>): Result {
    r.(attributes := r.attributes + WithManualAge(Collect(fields)))
  }

  function WithPerson(r: Result, p: Person): Result {
    WithAttributes(WithMatch(WithIdentity(r, p), p), Or(p.attributes, []))
  }

  /** Reads a body into `r`, accepting the given codes. A body that breaks off halfway has
      already changed the fields read before. */
  function Apply(r: Result, body: TraceBody, codes: set<int>): (Result, bool) {
    if body.Garbled? || body.code.None? || body.code.value !in codes || !body.hasResult || body.track.None? then (r, false)
    else if body.person.None? then (WithTrack(r, body.track.value), false)
    else (WithPerson(WithTrack(r, body.track.value), body.person.value), true)
  }

  // ---------- what a reader leaves in a session, field by field ----------

  /** A member that is present becomes the field, an absent one leaves the field alone. */
  predicate Takes<T(==)>(member: Option<T>, before: T, after: T) {
    match member case Some(v) => after == v case None => after == before
  }

  predicate TakesTrack(t: Track, before: Result, after: Result) {
    && Takes(t.age, before.age, after.age)
    && Takes(t.gender, before.gender, after.gender)
    && Takes(t.score, before.score, after.score)
  }

  predicate TakesPerson(p: Person, before: Result, after: Result) {
    && Takes(p.id, before.id, after.id)
    && Takes(p.url, before.url, after.url)
    && Takes(p.setName, before.setName, after.setName)
    && Takes(p.kind, before.kind, after.kind)
    && Takes(p.isAutoReg, before.isAutoReg, after.isAutoReg)
    && Takes(p.similar, before.similar, after.similar)
    && Takes(p.atime, before.atime, after.atime)
  }

  predicate TakesAttribute(f: AttributeFields, a: Attribute) {
    && Takes(f.kind, "", a.kind)
    && Takes(f.value, "", a.value)
    && Takes(f.confidence, 0, a.confidence)
    && Takes(f.mtime, 0, a.mtime)
    && Takes(f.isManual, false, a.isManual)
  }

  /** The attributes of the body that count: all but those with an empty type. */
  function Named(fields: seq<AttributeFields>): seq<AttributeFields> {
    if fields == [] then []
    else Named(fields[..|fields| - 1]) + if fields[|fields| - 1].kind == Some("") then [] else [fields[|fields| - 1]]
  }

  /** The attributes added: those of the body in order, and one of type manual_age with the value
      "-1" behind them exactly when none of them is of that type. */
  predicate TakesAttributes(fields: seq<AttributeFields>, added: seq<Attribute>) {
    var named := Named(fields);
    && |named| <= |added| <= |named| + 1
    && (forall k :: 0 <= k < |named| ==> TakesAttribute(named[k], added[k]))
    && (|added| == |named| <==> exists k :: 0 <= k < |named| && added[k].kind == "manual_age")
    && (|added| > |named| ==> added[|named|] == Attribute("manual_age", "-1", 0, 0, false))
  }

  /** The whole body has been read into the session. */
  predicate Reads(body: TraceBody, before: Result, after: Result) {
    && body.TraceBody? && body.track.Some? && body.person.Some?
    && TakesTrack(body.track.value, before, after)
    && TakesPerson(body.person.value, before, after)
    && before.attributes <= after.attributes
    && TakesAttributes(Or(body.person.value.attributes, []), after.attributes[|before.attributes|..])
  }

  /** A body that breaks off: only what stands before the break has been read. */
  predicate BreaksOff(body: TraceBody, codes: set<int>, before: Result, after: Result) {
    && after == before.(age := after.age, gender := after.gender, score := after.score)
    && if body.TraceBody? && body.code.Some? && body.code.value in codes && body.hasResult && body.track.Some? then
         TakesTrack(body.track.value, before, after)
       else after == before
  }

  lemma {:induction false} CollectTakes(fields: seq<AttributeFields>)
    ensures |Collect(fields)| == |Named(fields)|
    ensures forall k :: 0 <= k < |Named(fields)| ==> TakesAttribute(Named(fields)[k], Collect(fields)[k])
  {
    if fields != [] {
      CollectTakes(fields[..|fields| - 1]);
    }
  }

  lemma {:induction false} AddedTakes(fields: seq<AttributeFields>)
    ensures TakesAttributes(fields, WithManualAge(Collect(fields)))
  {
    var read := Collect(fields);
    CollectTakes(fields);
    if HasManualAge(read) {
      var a :| a in read && a.kind == MANUAL_AGE;
      var k :| 0 <= k < |read| && read[k] == a;
      assert read[k].kind == "manual_age";
    }
  }

  lemma {:induction false} ApplyReads(r: Result, body: TraceBody, codes: set<int>)
    ensures var (after, ok) := Apply(r, body, codes);
            if ok then Reads(body, r, after) else BreaksOff(body, codes, r, after)
  {
    if Apply(r, body, codes).1 {
      var fields := Or(body.person.value.attributes, []);
      AddedTakes(fields);
      assert (r.attributes + WithManualAge(Collect(fields)))[|r.attributes|..] == WithManualAge(Collect(fields));
    }
  }

  /** ProcTraceSpaceResponse keeps a body for later only under these codes. */
  const TRACE_CODES: set<int> := {0, -10041}

  /** getPersonResult. */
  const PERSON_CODES: set<int> := {0}

  predicate Acceptable(body: TraceBody) { Apply(FRESH, body, PERSON_CODES).1 }

  predicate Kept(body: TraceBody) { Apply(FRESH, body, TRACE_CODES).1 }

  /** The two readers disagree exactly on code -10041: the trace session keeps such a body, a
      business session that reads it is rejected with its result untouched. On code 0 both
      read the same result. */
  lemma ReadersDisagree(r: Result, body: TraceBody)
    ensures Kept(body) ==> (Acceptable(body) <==> body.code == Some(0))
    ensures Acceptable(body) ==> Kept(body)
    ensures Acceptable(body) ==> Apply(r, body, PERSON_CODES) == Apply(r, body, TRACE_CODES)
    ensures Kept(body) && !Acceptable(body) ==> Apply(r, body, PERSON_CODES) == (r, false)
  {
    assert Kept(body) ==> body.code.value in TRACE_CODES;
    assert body.TraceBody? && body.code.Some? ==> (body.code.value in PERSON_CODES <==> body.code.value == 0);
  }

  class Session {
    var result: Result
    /** The body kept for the picture wait, once there is one. */
    var traceSpaceResult: Option<TraceBody>

    constructor ()
      ensures result == FRESH && traceSpaceResult == None
    {
      result, traceSpaceResult := FRESH, None;
    }

    method GetPersonResult(body: TraceBody) returns (ok: bool)
      modifies this`result
      ensures (result, ok) == Apply(old(result), body, PERSON_CODES)
      ensures if ok then Reads(body, old(result), result) else BreaksOff(body, {0}, old(result), result)
    {
      ApplyReads(result, body, PERSON_CODES);
      if body.Garbled? || body.code.None? {
        return false;
      }
      if 0 != body.code.value {
        return false;
      }
      if !body.hasResult || body.track.None? {
        return false;
      }
      CopyTrack(body.track.value);
      if body.person.None? {
        return false;
      }
      CopyPerson(body.person.value);
      ok := true;
    }

    method CopyTrack(track: Track)
      modifies this`result
      ensures result == WithTrack(old(result), track)
    {
      if track.age.Some? { result := result.(age := track.age.value); }
      if track.gender.Some? { result := result.(gender := track.gender.value); }
      if track.score.Some? { result := result.(score := track.score.value); }
    }

    method CopyPerson(person: Person)
      modifies this`result
      ensures result == WithPerson(old(result), person)
    {
      if person.id.Some? { result := result.(id := person.id.value); }
      if person.url.Some? { result := result.(url := person.url.value); }
      if person.setName.Some? { result := result.(setName := person.setName.value); }
      if person.kind.Some? { result := result.(kind := person.kind.value); }
      assert result == WithIdentity(old(result), person);
      if person.isAutoReg.Some? { result := result.(isAutoReg := person.isAutoReg.value); }
      if person.similar.Some? { result := result.(similar := person.similar.value); }
      if person.atime.Some? { result := result.(atime := person.atime.value); }
      assert result == WithMatch(WithIdentity(old(result), person), person);
      AppendAttributes(Or(person.attributes, []));
    }

    method AppendAttributes(fields: seq<AttributeFields>)
      modifies this`result
      ensures result == WithAttributes(old(result), fields)
    {
      ghost var before, read: seq<Attribute> := result.attributes, [];
      var hasManualAge := false;
      var k := 0;
      while k < |fields|
        invariant 0 <= k <= |fields|
        invariant read == Collect(fields[..k])
        invariant result == old(result).(attributes := before + read)
        invariant hasManualAge <==> HasManualAge(read)
      {
        var a := fields[k];
        CollectNext(fields, k);
        if a.kind != Some("") {
          if a.kind == Some(MANUAL_AGE) {
            hasManualAge := true;
          }
          ManualAgeNext(read, OneAttribute(a));
          Assoc(before, read, [OneAttribute(a)]);
          result := result.(attributes := result.attributes + [OneAttribute(a)]);
          read := read + [OneAttribute(a)];
        }
        k := k + 1;
      }
      assert fields[..k] == fields;
      Assoc(before, read, [NO_MANUAL_AGE]);
      if !hasManualAge {
        result := result.(attributes := result.attributes + [NO_MANUAL_AGE]);
      }
    }

    /** The trace session's own reader of the response: a routine of its own, with other codes,
        that keeps the body when it could read all of it. */
    method ProcTraceSpaceResponse(is200: bool, body: TraceBody) returns (ok: bool)
      modifies this
      ensures (result, ok) == if is200 then Apply(old(result), body, TRACE_CODES) else (old(result), false)
      ensures traceSpaceResult == if ok then Some(body) else old(traceSpaceResult)
      ensures is200 ==> if ok then Reads(body, old(result), result) else BreaksOff(body, {0, -10041}, old(result), result)
    {
      ApplyReads(result, body, TRACE_CODES);
      if !is200 || body.Garbled? {
        return false;
      }
      if body.code.None? || (0 != body.code.value && -10041 != body.code.value) {
        return false;
      }
      if !body.hasResult || body.track.None? {
        return false;
      }
      ReadTrack(body.track.value);
      if body.person.None? {
        return false;
      }
      ReadPerson(body.person.value);
      traceSpaceResult := Some(body);
      ok := true;
    }

    method ReadTrack(track: Track)
      modifies this`result
      ensures result == WithTrack(old(result), track)
    {
      var age, gender, score := result.age, result.gender, result.score;
      if track.age.Some? { age := track.age.value; }
      if track.gender.Some? { gender := track.gender.value; }
      if track.score.Some? { score := track.score.value; }
      result := result.(age := age, gender := gender, score := score);
    }

    method ReadPerson(person: Person)
      modifies this`result
      ensures result == WithPerson(old(result), person)
    {
      if person.id.Some? { result := result.(id := person.id.value); }
      if person.url.Some? { result := result.(url := person.url.value); }
      if person.setName.Some? { result := result.(setName := person.setName.value); }
      if person.kind.Some? { result := result.(kind := person.kind.value); }
      assert result == WithIdentity(old(result), person);
      if person.isAutoReg.Some? { result := result.(isAutoReg := person.isAutoReg.value); }
      if person.similar.Some? { result := result.(similar := person.similar.value); }
      if person.atime.Some? { result := result.(atime := person.atime.value); }
      assert result == WithMatch(WithIdentity(old(result), person), person);
      ReadAttributes(if person.attributes.Some? then person.attributes.value else []);
    }

    method ReadAttributes(fields: seq<AttributeFields>)
      modifies this`result
      ensures result == WithAttributes(old(result), fields)
    {
      var read: seq<Attribute>, k, mageFlag := [], 0, false;
      while k < |fields|
        invariant 0 <= k <= |fields|
        invariant read == Collect(fields[..k]) && result == old(result)
        invariant mageFlag <==> HasManualAge(read)
      {
        CollectNext(fields, k);
        if fields[k].kind != Some("") {
          if fields[k].kind == Some(MANUAL_AGE) {
            mageFlag := true;
          }
          ManualAgeNext(read, OneAttribute(fields[k]));
          read := read + [OneAttribute(fields[k])];
        }
        k := k + 1;
      }
      assert fields[..k] == fields;
      if !mageFlag {
        read := read + [NO_MANUAL_AGE];
      }
      result := result.(attributes := result.attributes + read);
    }
  }

  /** One body before both readers: the trace session that receives it, and a business session
      that reads what was kept. Whatever the second accepts the first has kept, with the same
      result; the first also keeps bodies under code -10041, and these alone, which the second
      rejects without a trace. */
  method TwoReaders(body: TraceBody) returns (kept: bool, accepted: bool, own: Result, later: Result)
    ensures kept <==> body.TraceBody? && body.hasResult && body.track.Some? && body.person.Some?
                      && (body.code == Some(0) || body.code == Some(-10041))
    ensures accepted <==> kept && body.code == Some(0)
    ensures if accepted then own == later else kept ==> later == FRESH
    ensures kept ==> HasManualAge(own.attributes)
  {
    var trace := new Session();
    kept := trace.ProcTraceSpaceResponse(true, body);
    own := trace.result;
    var business := new Session();
    accepted := business.GetPersonResult(body);
    later := business.result;
    if kept {
      var named := Collect(Or(body.person.value.attributes, []));
      assert NO_MANUAL_AGE in named + [NO_MANUAL_AGE];
      assert [] + WithManualAge(named) == WithManualAge(named);
    }
  }

  /** A session that accepted a body always carries a manual_age, and the attributes the body
      named keep their order in front of the one that was supplied. */
  lemma ManualAgeIsSet(body: TraceBody)
    requires Acceptable(body)
    ensures var attributes := Apply(FRESH, body, PERSON_CODES).0.attributes;
            && HasManualAge(attributes)
            && Collect(Or(body.person.value.attributes, [])) <= attributes
            && |attributes| <= |Collect(Or(body.person.value.attributes, []))| + 1
  {
    var named := Collect(Or(body.person.value.attributes, []));
    assert NO_MANUAL_AGE in named + [NO_MANUAL_AGE];
    assert [] + WithManualAge(named) == WithManualAge(named);
  }
}
