/**
 The event records that BusinessSave keeps in MongoDB: one collection of documents, changed by
 a find and an upsert per message.
 */
module RecordStore {
  import opened TraceResult

  datatype Value = Num(n: int) | Text(s: string) | Texts(ss: seq<string>) | Score(r: real)

  type Doc = map<string, Value>

  datatype Pair = Pair(name: string, value: Value)

  datatype Key = Key(device: string, track: int, app: string, space: string, direction: int)

  /** A message to save. `ready`: the face set was found, a connection was to be had and the
      message had the data. `result` is what the session knows from the trace service, with
      the face set's id in place of its name. */
  datatype Save = Save(key: Key, msgType: int, replay: bool, ready: bool, result: Result, setType: string,
                       age: int, gender: int, eventTime: int, urls: seq<string>, now: string)

  /** A document, and whether a replayed message created it (history). */
  datatype Record = Record(doc: Doc, byReplay: bool)

  // ---------- documents ----------

  function KeyPairs(k: Key): seq<Pair> {
    [Pair("app_id", Text(k.app)), Pair("space_id", Text(k.space)), Pair("device_sn", Text(k.device)),
     Pair("track_id", Num(k.track)), Pair("in_out_type", Num(k.direction))]
  }

  predicate Holds(d: Doc, p: Pair) { p.name in d && d[p.name] == p.value }

  predicate Matches(d: Doc, k: Key) {
    forall i :: 0 <= i < 5 ==> Holds(d, KeyPairs(k)[i])
  }

  predicate Distinct(ps: seq<Pair>) {
    forall i, j :: 0 <= i < j < |ps| ==> ps[i].name != ps[j].name
  }

  /** $set */
  function Assign(d: Doc, ps: seq<Pair>): Doc {
    if ps == [] then d
    else
      var last := ps[|ps| - 1];
      Assign(d, ps[..|ps| - 1])[last.name := last.value]
  }

  function Digits(s: string, n: int): int {
    if s == "" || !('0' <= s[0] <= '9') then n else Digits(s[1..], 10 * n + (s[0] as int - 48))
  }

  function Atoi(s: string): int {
    if s == "" then 0
    else if s[0] == ' ' || '\t' <= s[0] <= '\r' then Atoi(s[1..])
    else if s[0] == '-' then -Digits(s[1..], 0)
    else if s[0] == '+' then Digits(s[1..], 0)
    else Digits(s, 0)
  }

  function AttributePair(a: Attribute): Pair {
    Pair(a.kind, if a.kind in {"gender", "manual_age", "age"} then Num(Atoi(a.value)) else Text(a.value))
  }

  function AttributePairs(attributes: seq<Attribute>): (ps: seq<Pair>)
    ensures forall i :: 0 <= i < |ps| ==> ps[i].value.Text? || ps[i].name in {"gender", "manual_age", "age"}
  {
    if attributes == [] then []
    else
      var a := attributes[|attributes| - 1];
      AttributePairs(attributes[..|attributes| - 1]) + if a.kind == "" then [] else [AttributePair(a)]
  }

  const MARK := Pair("replay", Num(1))

  /** The fields of a message besides its key: a big record, a small one, or neither. */
  function Own(s: Save): seq<Pair> {
    if s.msgType == 2 then
      [Pair("face_id", Text(s.result.id)), Pair("faceset_id", Text(s.result.setName)),
       Pair("faceset_type", Text(s.setType)), Pair("event_time", Num(s.eventTime)), Pair("msg_type", Num(2)),
       Pair("capture_url", Texts(s.urls)), Pair("match_url", Text(s.result.url)),
       Pair("score", Score(s.result.similar)), Pair("created_time", Text(s.now)), Pair("updated_time", Text(s.now))]
      + AttributePairs(s.result.attributes)
    else if s.msgType == 1 then
      [Pair("age", Num(if s.result.age == -1 then s.age else s.result.age)),
       Pair("gender", Num(if s.result.gender == -1 then s.gender else s.result.gender)),
       Pair("event_time", Num(s.eventTime)), Pair("msg_type", Num(1)),
       Pair("created_time", Text(s.now)), Pair("updated_time", Text(s.now))]
    else
      [Pair("event_time", Num(s.eventTime)), Pair("created_time", Text(s.now)), Pair("updated_time", Text(s.now))]
  }

  function Fields(s: Save): seq<Pair> {
    KeyPairs(s.key) + Own(s) + if s.replay then [MARK] else []
  }

  // ---------- saving ----------

  /** The first record with the key, or the length. */
  function Find(rs: seq<Record>, k: Key): (i: nat)
    ensures i <= |rs|
  {
    if rs == [] then 0
    else
      var i := Find(rs[..|rs| - 1], k);
      if i < |rs| - 1 || Matches(rs[|rs| - 1].doc, k) then i else |rs|
  }

  /** update_one with upsert; the server refuses a document that sets a field twice. */
  function Upsert(rs: seq<Record>, s: Save): seq<Record> {
    var i := Find(rs, s.key);
    if i < |rs| then rs[i := rs[i].(doc := Assign(rs[i].doc, Fields(s)))]
    else rs + [Record(Assign(map[], Fields(s)), s.replay)]
  }

  /** find_one with the key and msg_type 2. */
  predicate HasBig(rs: seq<Record>, k: Key) {
    exists i :: 0 <= i < |rs| && Matches(rs[i].doc, k) && Holds(rs[i].doc, Pair("msg_type", Num(2)))
  }

  /** find_one with the key and replay not 1. */
  predicate HasUnmarked(rs: seq<Record>, k: Key) {
    exists i :: 0 <= i < |rs| && Matches(rs[i].doc, k) && !Holds(rs[i].doc, MARK)
  }

  predicate Withheld(rs: seq<Record>, s: Save) {
    (s.msgType == 1 && HasBig(rs, s.key)) || (s.replay && HasUnmarked(rs, s.key))
  }

  /** SaveBusinessMongo. */
  function SaveTo(rs: seq<Record>, s: Save): (seq<Record>, int) {
    if !s.ready then (rs, -1)
    else if Withheld(rs, s) then (rs, 0)
    else if !Distinct(Fields(s)) then (rs, -1)
    else (Upsert(rs, s), 0)
  }

  function Run(saves: seq<Save>): seq<Record> {
    if saves == [] then [] else SaveTo(Run(saves[..|saves| - 1]), saves[|saves| - 1]).0
  }

  // ---------- numbers ----------

  /** A number without a sign as it is usually written. */
  function Decimal(n: nat): (s: string)
    ensures s != "" && forall i :: 0 <= i < |s| ==> '0' <= s[i] <= '9'
  {
    (if n < 10 then "" else Decimal(n / 10)) + [(n % 10 + 48) as char]
  }

  predicate Blank(c: char) { c == ' ' || 9 <= c as int <= 13 }

  predicate White(s: string) { forall i :: 0 <= i < |s| ==> Blank(s[i]) }

  predicate NoDigitFirst(s: string) { s == "" || s[0] !in "0123456789" }

  lemma {:induction false} DigitsOfDecimal(n: nat, rest: string)
    ensures Digits(Decimal(n) + rest, 0) == Digits(rest, n)
  {
    var last := [(n % 10 + 48) as char];
    assert (last + rest)[1..] == rest;
    if n < 10 {
      assert Decimal(n) + rest == last + rest;
    } else {
      DigitsOfDecimal(n / 10, last + rest);
      assert Decimal(n) + rest == Decimal(n / 10) + (last + rest);
    }
  }

  lemma {:induction false} ZerosDoNotCount(zeros: string, s: string)
    requires forall i :: 0 <= i < |zeros| ==> zeros[i] == '0'
    ensures Digits(zeros + s, 0) == Digits(s, 0)
  {
    if zeros == "" {
      assert zeros + s == s;
    } else {
      ZerosDoNotCount(zeros[1..], s);
      assert (zeros + s)[1..] == zeros[1..] + s;
    }
  }

  lemma {:induction false} WhiteIsSkipped(white: string, s: string)
    requires White(white)
    ensures Atoi(white + s) == Atoi(s)
  {
    if white == "" {
      assert white + s == s;
    } else {
      WhiteIsSkipped(white[1..], s);
      assert (white + s)[1..] == white[1..] + s;
    }
  }

  lemma SignIsRead(sign: string, s: string)
    requires sign in {"", "-", "+"} && s != "" && s[0] in "0123456789"
    ensures Atoi(sign + s) == if sign == "-" then -Digits(s, 0) else Digits(s, 0)
  {
    if sign == "" {
      assert sign + s == s;
    } else {
      assert (sign + s)[1..] == s;
    }
  }

  /** atoi reads white space, a sign, and a decimal number up to the first other character. */
  lemma {:induction false} AtoiReads(white: string, sign: string, zeros: string, n: nat, rest: string)
    requires White(white) && sign in {"", "-", "+"} && NoDigitFirst(rest)
    requires forall i :: 0 <= i < |zeros| ==> zeros[i] == '0'
    ensures Atoi(white + (sign + (zeros + (Decimal(n) + rest)))) == if sign == "-" then 0 - n else n
  {
    var digits := zeros + (Decimal(n) + rest);
    assert digits[0] == if zeros == "" then Decimal(n)[0] else '0';
    DigitsOfDecimal(n, rest);
    ZerosDoNotCount(zeros, Decimal(n) + rest);
    SignIsRead(sign, digits);
    WhiteIsSkipped(white, sign + digits);
  }

  /** A text without a number there is 0. */
  lemma {:induction false} AtoiOfNone(white: string, sign: string, rest: string)
    requires White(white) && sign in {"", "-", "+"} && NoDigitFirst(rest)
    requires sign == "" && rest != "" ==> !Blank(rest[0]) && rest[0] !in "-+"
    ensures Atoi(white + (sign + rest)) == 0
  {
    WhiteIsSkipped(white, sign + rest);
    if sign == "" {
      assert sign + rest == rest;
    } else {
      assert (sign + rest)[1..] == rest;
    }
  }

  /** The age that stands for no manual age. */
  lemma {:induction false} NoManualAgeIsMinusOne()
    ensures AttributePair(NO_MANUAL_AGE) == Pair("manual_age", Num(-1))
  {
    assert Decimal(1) == "1" && "-1" == "" + ("-" + ("" + (Decimal(1) + "")));
    AtoiReads("", "-", "", 1, "");
  }

  // ---------- assignments ----------

  lemma {:induction false} AssignHas(d: Doc, ps: seq<Pair>, i: nat)
    requires i < |ps| && Distinct(ps)
    ensures Holds(Assign(d, ps), ps[i])
  {
    var last := |ps| - 1;
    if i < last {
      AssignHas(d, ps[..last], i);
    }
  }

  lemma {:induction false} AssignKeeps(d: Doc, ps: seq<Pair>, name: string)
    requires forall i :: 0 <= i < |ps| ==> ps[i].name != name
    ensures name in Assign(d, ps) <==> name in d
    ensures name in d ==> Assign(d, ps)[name] == d[name]
  {
    if ps != [] {
      AssignKeeps(d, ps[..|ps| - 1], name);
    }
  }

  lemma {:induction false} AssignOnly(d: Doc, ps: seq<Pair>, p: Pair)
    requires forall i :: 0 <= i < |ps| ==> ps[i] != p
    requires !Holds(d, p)
    ensures !Holds(Assign(d, ps), p)
  {
    if ps != [] {
      AssignOnly(d, ps[..|ps| - 1], p);
    }
  }

  function Rank(d: Doc): int {
    if "msg_type" in d && d["msg_type"].Num? then d["msg_type"].n else 0
  }

  lemma KeyStays(d: Doc, s: Save)
    requires Distinct(Fields(s))
    ensures Matches(Assign(d, Fields(s)), s.key)
  {
    forall i: nat | i < 5 ensures Holds(Assign(d, Fields(s)), KeyPairs(s.key)[i]) {
      AssignHas(d, Fields(s), i);
      assert Fields(s)[i] == KeyPairs(s.key)[i];
    }
  }

  lemma OneKey(d: Doc, k: Key, l: Key)
    requires Matches(d, k) && Matches(d, l)
    ensures k == l
  {
    assert forall i :: 0 <= i < 5 ==> Holds(d, KeyPairs(k)[i]) && Holds(d, KeyPairs(l)[i]);
    assert Holds(d, KeyPairs(k)[0]) && Holds(d, KeyPairs(l)[0]);
    assert Holds(d, KeyPairs(k)[1]) && Holds(d, KeyPairs(l)[1]);
    assert Holds(d, KeyPairs(k)[2]) && Holds(d, KeyPairs(l)[2]);
    assert Holds(d, KeyPairs(k)[3]) && Holds(d, KeyPairs(l)[3]);
    assert Holds(d, KeyPairs(k)[4]) && Holds(d, KeyPairs(l)[4]);
  }

  lemma RankAfter(d: Doc, s: Save)
    requires Distinct(Fields(s))
    ensures Rank(Assign(d, Fields(s))) == if s.msgType == 1 || s.msgType == 2 then s.msgType else Rank(d)
  {
    if s.msgType == 2 {
      AssignHas(d, Fields(s), 9);
      assert Fields(s)[9] == Pair("msg_type", Num(2));
    } else if s.msgType == 1 {
      AssignHas(d, Fields(s), 8);
      assert Fields(s)[8] == Pair("msg_type", Num(1));
    } else {
      AssignKeeps(d, Fields(s), "msg_type");
    }
  }

  /** Only a replayed message sets the mark. */
  lemma MarkAfter(d: Doc, s: Save)
    requires !s.replay && !Holds(d, MARK)
    ensures !Holds(Assign(d, Fields(s)), MARK)
  {
    forall i | 0 <= i < |Fields(s)| ensures Fields(s)[i] != MARK {
      OwnIsUnmarked(s);
    }
    AssignOnly(d, Fields(s), MARK);
  }

  lemma OwnIsUnmarked(s: Save)
    ensures forall i :: 0 <= i < |Own(s)| ==> Own(s)[i] != MARK
  {
  }

  // ---------- refused messages ----------

  predicate Apart(a: seq<Pair>, b: seq<Pair>) {
    forall i, j :: 0 <= i < |a| && 0 <= j < |b| ==> a[i].name != b[j].name
  }

  lemma {:induction false} DistinctConcat(a: seq<Pair>, b: seq<Pair>)
    ensures Distinct(a + b) <==> Distinct(a) && Distinct(b) && Apart(a, b)
  {
    var c := a + b;
    assert forall i :: 0 <= i < |a| ==> c[i] == a[i];
    assert forall j :: 0 <= j < |b| ==> c[|a| + j] == b[j];
    if Distinct(c) {
      forall i, j | 0 <= i < j < |b| ensures b[i].name != b[j].name {
        assert c[|a| + i].name != c[|a| + j].name;
      }
      forall i, j | 0 <= i < |a| && 0 <= j < |b| ensures a[i].name != b[j].name {
        assert c[i].name != c[|a| + j].name;
      }
    }
  }

  lemma {:induction false} ApartConcat(a: seq<Pair>, b: seq<Pair>, c: seq<Pair>)
    ensures Apart(a + b, c) <==> Apart(a, c) && Apart(b, c)
  {
    var ab := a + b;
    assert forall i :: 0 <= i < |a| ==> ab[i] == a[i];
    assert forall i :: 0 <= i < |b| ==> ab[|a| + i] == b[i];
    if Apart(ab, c) {
      forall i, j | 0 <= i < |b| && 0 <= j < |c| ensures b[i].name != c[j].name {
        assert ab[|a| + i].name != c[j].name;
      }
    }
  }

  /** The fields that every document of the message's type has. */
  function FixedFields(s: Save): seq<Pair> {
    KeyPairs(s.key) + (if s.msgType == 2 then BigFirst(s) + BigSecond(s) else Own(s))
  }

  function BigFirst(s: Save): seq<Pair> {
    [Pair("face_id", Text(s.result.id)), Pair("faceset_id", Text(s.result.setName)),
     Pair("faceset_type", Text(s.setType)), Pair("event_time", Num(s.eventTime)), Pair("msg_type", Num(2))]
  }

  function BigSecond(s: Save): seq<Pair> {
    [Pair("capture_url", Texts(s.urls)), Pair("match_url", Text(s.result.url)), Pair("score", Score(s.result.similar)),
     Pair("created_time", Text(s.now)), Pair("updated_time", Text(s.now))]
  }

  /** The attributes that the document names. */
  function Attributes(s: Save): seq<Pair> {
    if s.msgType == 2 then AttributePairs(s.result.attributes) else []
  }

  function Mark(s: Save): seq<Pair> { if s.replay then [MARK] else [] }

  lemma FieldsInParts(s: Save)
    ensures Fields(s) == FixedFields(s) + (Attributes(s) + Mark(s))
  {
  }

  lemma BigChunks(s: Save)
    ensures Distinct(KeyPairs(s.key)) && Distinct(BigFirst(s)) && Distinct(BigSecond(s))
    ensures Apart(BigFirst(s), BigSecond(s)) && Apart(BigFirst(s), [MARK]) && Apart(BigSecond(s), [MARK])
  {
  }

  lemma KeyChunks(s: Save)
    ensures Apart(KeyPairs(s.key), BigFirst(s)) && Apart(KeyPairs(s.key), BigSecond(s)) && Apart(KeyPairs(s.key), [MARK])
  {
  }

  lemma SmallChunks(s: Save)
    requires s.msgType != 2
    ensures Distinct(KeyPairs(s.key)) && Distinct(Own(s)) && Apart(KeyPairs(s.key), Own(s))
    ensures Apart(KeyPairs(s.key), Mark(s)) && Apart(Own(s), Mark(s))
  {
  }

  lemma {:induction false} FixedIsDistinct(s: Save)
    ensures Distinct(FixedFields(s)) && Apart(FixedFields(s), Mark(s))
  {
    if s.msgType == 2 {
      BigChunks(s);
      KeyChunks(s);
      var k, a, b := KeyPairs(s.key), BigFirst(s), BigSecond(s);
      DistinctConcat(a, b);
      DistinctConcat(k, a + b);
      ApartInto(k, a, b);
      ApartConcat(a, b, Mark(s));
      ApartConcat(k, a + b, Mark(s));
    } else {
      SmallChunks(s);
      DistinctConcat(KeyPairs(s.key), Own(s));
      ApartConcat(KeyPairs(s.key), Own(s), Mark(s));
    }
  }

  lemma ApartInto(a: seq<Pair>, b: seq<Pair>, c: seq<Pair>)
    requires Apart(a, b) && Apart(a, c)
    ensures Apart(a, b + c)
  {
  }

  lemma {:induction false} ApartSplits(a: seq<Pair>, b: seq<Pair>, c: seq<Pair>)
    ensures Apart(a, b + c) <==> Apart(a, b) && Apart(a, c)
  {
    var bc := b + c;
    assert forall i :: 0 <= i < |b| ==> bc[i] == b[i];
    assert forall i :: 0 <= i < |c| ==> bc[|b| + i] == c[i];
    if Apart(a, bc) {
      forall i, j | 0 <= i < |a| && 0 <= j < |c| ensures a[i].name != c[j].name {
        assert a[i].name != bc[|b| + j].name;
      }
    }
  }

  /** Exactly which messages are refused: those whose attributes share a name with each other,
      with a field of the document, or with the mark of a replay. Only big messages name their
      attributes, so no other is ever refused. */
  lemma {:induction false} RefusedIff(s: Save)
    ensures var attributes := Attributes(s);
            Distinct(Fields(s)) <==>
              Distinct(attributes) && Apart(FixedFields(s), attributes) && Apart(attributes, Mark(s))
    ensures s.msgType != 2 ==> Distinct(Fields(s))
  {
    FieldsInParts(s);
    FixedIsDistinct(s);
    DistinctConcat(FixedFields(s), Attributes(s) + Mark(s));
    DistinctConcat(Attributes(s), Mark(s));
    ApartSplits(FixedFields(s), Attributes(s), Mark(s));
  }

  // ---------- invariants ----------

  lemma {:induction false} FindIs(rs: seq<Record>, k: Key)
    ensures Find(rs, k) < |rs| ==> Matches(rs[Find(rs, k)].doc, k)
    ensures forall i :: 0 <= i < Find(rs, k) ==> !Matches(rs[i].doc, k)
  {
    if rs != [] {
      FindIs(rs[..|rs| - 1], k);
    }
  }

  predicate Keyed(d: Doc, k: Key) { Matches(d, k) }

  ghost predicate HasKey(r: Record) { exists k :: Keyed(r.doc, k) }

  ghost predicate Unique(rs: seq<Record>) {
    && (forall i :: 0 <= i < |rs| ==> HasKey(rs[i]))
    && forall i, j, k :: 0 <= i < j < |rs| && Keyed(rs[i].doc, k) ==> !Keyed(rs[j].doc, k)
  }

  /** Ranks are those of the message types, and a marked record was created by a replay. */
  predicate Regular(r: Record) {
    0 <= Rank(r.doc) <= 2 && (Holds(r.doc, MARK) ==> r.byReplay)
  }

  ghost predicate Inv(rs: seq<Record>) {
    Unique(rs) && forall i :: 0 <= i < |rs| ==> Regular(rs[i])
  }

  /** The effect on one record: the update, or nothing. */
  predicate Updated(r: Record, t: Record, s: Save) {
    && t.byReplay == r.byReplay
    && Distinct(Fields(s))
    && Matches(r.doc, s.key)
    && t.doc == Assign(r.doc, Fields(s))
  }

  lemma UpdatedStaysRegular(r: Record, t: Record, s: Save)
    requires Regular(r) && Updated(r, t, s)
    requires s.replay ==> Holds(r.doc, MARK)
    ensures Regular(t)
  {
    RankAfter(r.doc, s);
    if !s.replay && !Holds(r.doc, MARK) {
      MarkAfter(r.doc, s);
    }
  }

  lemma UpdatedKeepsKey(r: Record, t: Record, s: Save, k: Key)
    requires Updated(r, t, s)
    ensures Keyed(t.doc, k) <==> Keyed(r.doc, k)
  {
    KeyStays(r.doc, s);
    if Keyed(t.doc, k) {
      OneKey(t.doc, k, s.key);
    }
    if Keyed(r.doc, k) {
      OneKey(r.doc, k, s.key);
    }
  }

  lemma InsertedIsRegular(s: Save)
    requires Distinct(Fields(s))
    ensures Regular(Record(Assign(map[], Fields(s)), s.replay))
    ensures Keyed(Assign(map[], Fields(s)), s.key)
  {
    RankAfter(map[], s);
    KeyStays(map[], s);
    if !s.replay {
      MarkAfter(map[], s);
    }
  }

  lemma UpdateKeepsUnique(rs: seq<Record>, i: nat, t: Record, s: Save)
    requires Unique(rs) && i < |rs| && Updated(rs[i], t, s)
    ensures Unique(rs[i := t])
  {
    var us := rs[i := t];
    forall j | 0 <= j < |us| ensures HasKey(us[j]) {
      assert HasKey(rs[j]);
      var k :| Keyed(rs[j].doc, k);
      UpdatedKeepsKey(rs[i], t, s, k);
      assert Keyed(us[j].doc, k);
    }
    forall a, b, k | 0 <= a < b < |us| && Keyed(us[a].doc, k) ensures !Keyed(us[b].doc, k) {
      UpdatedKeepsKey(rs[i], t, s, k);
      assert Keyed(rs[a].doc, k);
    }
  }

  lemma InsertKeepsUnique(rs: seq<Record>, t: Record, key: Key)
    requires Unique(rs) && Keyed(t.doc, key)
    requires forall i :: 0 <= i < |rs| ==> !Keyed(rs[i].doc, key)
    ensures Unique(rs + [t])
  {
    var us := rs + [t];
    forall j | 0 <= j < |us| ensures HasKey(us[j]) {
      assert j < |rs| ==> HasKey(rs[j]);
    }
    forall a, b, k | 0 <= a < b < |us| && Keyed(us[a].doc, k) ensures !Keyed(us[b].doc, k) {
      if b == |rs| && Keyed(us[b].doc, k) {
        OneKey(t.doc, k, key);
      }
    }
  }

  /** Saving updates the record with the key, adds one, or changes nothing. */
  lemma SaveCases(rs: seq<Record>, s: Save) returns (i: nat)
    requires Inv(rs)
    ensures i <= |rs|
    ensures var us := SaveTo(rs, s).0;
            || us == rs
            || (i < |rs| && |us| == |rs| && us == rs[i := us[i]] && Updated(rs[i], us[i], s)
                && (s.replay ==> Holds(rs[i].doc, MARK))
                && (s.msgType == 1 ==> Rank(rs[i].doc) != 2))
            || (i == |rs| && us == rs + [Record(Assign(map[], Fields(s)), s.replay)] && Distinct(Fields(s))
                && forall j :: 0 <= j < |rs| ==> !Keyed(rs[j].doc, s.key))
  {
    i := Find(rs, s.key);
    FindIs(rs, s.key);
    if i < |rs| && s.ready && !Withheld(rs, s) {
      assert s.replay ==> Holds(rs[i].doc, MARK);
      assert s.msgType == 1 ==> !Holds(rs[i].doc, Pair("msg_type", Num(2)));
    }
  }

  lemma SaveKeepsInv(rs: seq<Record>, s: Save)
    requires Inv(rs)
    ensures Inv(SaveTo(rs, s).0)
  {
    var us := SaveTo(rs, s).0;
    var i := SaveCases(rs, s);
    if us != rs && i < |rs| {
      UpdatedStaysRegular(rs[i], us[i], s);
      UpdateKeepsUnique(rs, i, us[i], s);
    } else if us != rs {
      InsertedIsRegular(s);
      InsertKeepsUnique(rs, us[i], s.key);
    }
  }

  lemma {:induction false} RunKeepsInv(saves: seq<Save>)
    ensures Inv(Run(saves))
  {
    if saves != [] {
      RunKeepsInv(saves[..|saves| - 1]);
      SaveKeepsInv(Run(saves[..|saves| - 1]), saves[|saves| - 1]);
    }
  }

  // ---------- precedence ----------

  /** There is at most one record per device, track, app, space and direction. */
  lemma {:induction false} OneRecordPerKey(saves: seq<Save>, k: Key, i: nat, j: nat)
    requires i < |Run(saves)| && j < |Run(saves)|
    requires Matches(Run(saves)[i].doc, k) && Matches(Run(saves)[j].doc, k)
    ensures i == j
  {
    RunKeepsInv(saves);
    assert Keyed(Run(saves)[i].doc, k) && Keyed(Run(saves)[j].doc, k);
  }

  /** What one save leaves of a record: its type does not decrease, a small record does not
      touch a big one, and a replayed message does not touch what it did not create. */
  predicate Respects(r: Record, t: Record, s: Save) {
    && Rank(t.doc) >= Rank(r.doc)
    && t.byReplay == r.byReplay
    && (s.msgType == 1 && Rank(r.doc) == 2 ==> t == r)
    && (s.replay && !r.byReplay ==> t == r)
  }

  lemma SaveRespects(rs: seq<Record>, s: Save, j: nat)
    requires Inv(rs) && j < |rs|
    ensures j < |SaveTo(rs, s).0| && Respects(rs[j], SaveTo(rs, s).0[j], s)
  {
    var us := SaveTo(rs, s).0;
    var i := SaveCases(rs, s);
    assert Regular(rs[j]);
    if us != rs && i == j {
      RankAfter(rs[i].doc, s);
    }
  }

  /** Over any sequence of saves: a record keeps its place and never goes back to a smaller
      message type; it stays as it is while only replayed messages come that did not create
      it, and, once big, while only small messages come. */
  lemma {:induction false} Precedence(before: seq<Save>, after: seq<Save>, j: nat)
    requires j < |Run(before)|
    ensures j < |Run(before + after)|
    ensures var r, t := Run(before)[j], Run(before + after)[j];
            && Rank(t.doc) >= Rank(r.doc) && t.byReplay == r.byReplay
            && (!r.byReplay && (forall i :: 0 <= i < |after| ==> after[i].replay) ==> t == r)
            && (Rank(r.doc) == 2 && (forall i :: 0 <= i < |after| ==> after[i].msgType == 1) ==> t == r)
    decreases |after|
  {
    if after == [] {
      assert before + after == before;
    } else {
      var shorter, last := after[..|after| - 1], after[|after| - 1];
      var all := before + after;
      assert all[..|all| - 1] == before + shorter && all[|all| - 1] == last;
      Precedence(before, shorter, j);
      RunKeepsInv(before + shorter);
      SaveRespects(Run(before + shorter), last, j);
    }
  }

  /** A message that is not withheld and not refused leaves exactly one record with its key, and
      that holds every field of the message. */
  lemma SavedIsThere(rs: seq<Record>, s: Save) returns (i: nat)
    requires Inv(rs) && s.ready && !Withheld(rs, s) && Distinct(Fields(s))
    ensures var us := SaveTo(rs, s).0;
            && i < |us| && Matches(us[i].doc, s.key)
            && (forall j :: 0 <= j < |Fields(s)| ==> Holds(us[i].doc, Fields(s)[j]))
            && (forall j :: 0 <= j < |us| && Matches(us[j].doc, s.key) ==> j == i)
  {
    i := Find(rs, s.key);
    FindIs(rs, s.key);
    var us := SaveTo(rs, s).0;
    var was: Doc := if i < |rs| then rs[i].doc else map[];
    assert us[i].doc == Assign(was, Fields(s));
    KeyStays(was, s);
    forall j: nat | j < |Fields(s)| ensures Holds(us[i].doc, Fields(s)[j]) {
      AssignHas(was, Fields(s), j);
    }
    SaveKeepsInv(rs, s);
    forall j | 0 <= j < |us| && Matches(us[j].doc, s.key) ensures j == i {
      assert Keyed(us[j].doc, s.key) && Keyed(us[i].doc, s.key);
    }
  }

  // ---------- the document, field by field ----------

  /** What the record of a message says under each name. */
  predicate DescribesKey(d: Doc, k: Key) {
    && Holds(d, Pair("app_id", Text(k.app))) && Holds(d, Pair("space_id", Text(k.space)))
    && Holds(d, Pair("device_sn", Text(k.device))) && Holds(d, Pair("track_id", Num(k.track)))
    && Holds(d, Pair("in_out_type", Num(k.direction)))
  }

  predicate DescribesTimes(d: Doc, s: Save) {
    && Holds(d, Pair("event_time", Num(s.eventTime)))
    && Holds(d, Pair("created_time", Text(s.now))) && Holds(d, Pair("updated_time", Text(s.now)))
  }

  predicate DescribesPerson(d: Doc, s: Save) {
    && Holds(d, Pair("msg_type", Num(2)))
    && Holds(d, Pair("face_id", Text(s.result.id))) && Holds(d, Pair("match_url", Text(s.result.url)))
    && Holds(d, Pair("faceset_id", Text(s.result.setName))) && Holds(d, Pair("faceset_type", Text(s.setType)))
    && Holds(d, Pair("score", Score(s.result.similar))) && Holds(d, Pair("capture_url", Texts(s.urls)))
  }

  predicate DescribesAttribute(d: Doc, a: Attribute) {
    a.kind in d &&
    if a.kind in {"gender", "age", "manual_age"} then d[a.kind] == Num(Atoi(a.value)) else d[a.kind] == Text(a.value)
  }

  predicate DescribesAttributes(d: Doc, attributes: seq<Attribute>) {
    forall i :: 0 <= i < |attributes| && attributes[i].kind != "" ==> DescribesAttribute(d, attributes[i])
  }

  /** The trace service's age and gender, or the camera's where it had none. */
  predicate DescribesTrack(d: Doc, s: Save) {
    && Holds(d, Pair("msg_type", Num(1)))
    && Holds(d, Pair("age", Num(if s.result.age != -1 then s.result.age else s.age)))
    && Holds(d, Pair("gender", Num(if s.result.gender != -1 then s.result.gender else s.gender)))
  }

  predicate Describes(d: Doc, s: Save) {
    && DescribesKey(d, s.key) && DescribesTimes(d, s)
    && (s.msgType == 2 ==> DescribesPerson(d, s) && DescribesAttributes(d, s.result.attributes))
    && (s.msgType == 1 ==> DescribesTrack(d, s))
    && (s.replay ==> Holds(d, Pair("replay", Num(1))))
  }

  /** The names a message writes. */
  function Names(s: Save): set<string> {
    {"app_id", "space_id", "device_sn", "track_id", "in_out_type", "event_time", "created_time", "updated_time"}
    + (if s.msgType == 2 then
         {"msg_type", "face_id", "match_url", "faceset_id", "faceset_type", "score", "capture_url"}
         + set a | a in s.result.attributes && a.kind != "" :: a.kind
       else if s.msgType == 1 then {"msg_type", "age", "gender"} else {})
    + (if s.replay then {"replay"} else {})
  }

  ghost predicate HoldsAll(d: Doc, ps: seq<Pair>) { forall i :: 0 <= i < |ps| ==> Holds(d, ps[i]) }

  lemma {:induction false} HoldsConcat(d: Doc, a: seq<Pair>, b: seq<Pair>)
    requires HoldsAll(d, a + b)
    ensures HoldsAll(d, a) && HoldsAll(d, b)
  {
    assert forall i :: 0 <= i < |a| ==> (a + b)[i] == a[i];
    assert forall i :: 0 <= i < |b| ==> (a + b)[|a| + i] == b[i];
  }

  lemma KeyDescribed(d: Doc, k: Key)
    requires HoldsAll(d, KeyPairs(k))
    ensures DescribesKey(d, k)
  {
    var ps := KeyPairs(k);
    assert Holds(d, ps[0]) && Holds(d, ps[1]) && Holds(d, ps[2]) && Holds(d, ps[3]) && Holds(d, ps[4]);
  }

  lemma PersonDescribed(d: Doc, s: Save)
    requires HoldsAll(d, BigFirst(s)) && HoldsAll(d, BigSecond(s))
    ensures DescribesPerson(d, s) && DescribesTimes(d, s)
  {
    var a, b := BigFirst(s), BigSecond(s);
    assert Holds(d, a[0]) && Holds(d, a[1]) && Holds(d, a[2]) && Holds(d, a[3]) && Holds(d, a[4]);
    assert Holds(d, b[0]) && Holds(d, b[1]) && Holds(d, b[2]) && Holds(d, b[3]) && Holds(d, b[4]);
  }

  lemma SmallDescribed(d: Doc, s: Save)
    requires s.msgType != 2 && HoldsAll(d, Own(s))
    ensures DescribesTimes(d, s) && (s.msgType == 1 ==> DescribesTrack(d, s))
  {
    var ps := Own(s);
    assert Holds(d, ps[0]) && Holds(d, ps[1]) && Holds(d, ps[2]);
    if s.msgType == 1 {
      assert Holds(d, ps[3]) && Holds(d, ps[4]) && Holds(d, ps[5]);
    }
  }

  lemma {:induction false} AttributesDescribed(d: Doc, attributes: seq<Attribute>)
    requires HoldsAll(d, AttributePairs(attributes))
    ensures DescribesAttributes(d, attributes)
  {
    if attributes != [] {
      var shorter, a := attributes[..|attributes| - 1], attributes[|attributes| - 1];
      var last := if a.kind == "" then [] else [AttributePair(a)];
      assert AttributePairs(attributes) == AttributePairs(shorter) + last;
      HoldsConcat(d, AttributePairs(shorter), last);
      AttributesDescribed(d, shorter);
      assert a.kind != "" ==> Holds(d, last[0]);
    }
  }

  lemma FieldsDescribe(d: Doc, s: Save)
    requires HoldsAll(d, Fields(s))
    ensures Describes(d, s)
  {
    FieldsInParts(s);
    HoldsConcat(d, FixedFields(s), Attributes(s) + Mark(s));
    HoldsConcat(d, Attributes(s), Mark(s));
    assert s.replay ==> Holds(d, Mark(s)[0]);
    if s.msgType == 2 {
      HoldsConcat(d, KeyPairs(s.key), BigFirst(s) + BigSecond(s));
      HoldsConcat(d, BigFirst(s), BigSecond(s));
      PersonDescribed(d, s);
      AttributesDescribed(d, s.result.attributes);
    } else {
      HoldsConcat(d, KeyPairs(s.key), Own(s));
      SmallDescribed(d, s);
    }
    KeyDescribed(d, s.key);
  }

  ghost predicate AllNamed(ps: seq<Pair>, names: set<string>) { forall i :: 0 <= i < |ps| ==> ps[i].name in names }

  lemma {:induction false} AttributesAreNamed(attributes: seq<Attribute>)
    ensures AllNamed(AttributePairs(attributes), set a | a in attributes && a.kind != "" :: a.kind)
  {
    if attributes != [] {
      var shorter := attributes[..|attributes| - 1];
      AttributesAreNamed(shorter);
      assert forall a :: a in shorter ==> a in attributes;
    }
  }

  lemma FieldsAreNamed(s: Save)
    ensures AllNamed(Fields(s), Names(s))
  {
    FieldsInParts(s);
    AttributesAreNamed(s.result.attributes);
    FixedAreNamed(s);
  }

  lemma FixedAreNamed(s: Save)
    ensures AllNamed(FixedFields(s), Names(s)) && AllNamed(Mark(s), Names(s))
  {
  }

  /** The document that a stored message leaves: every field says what the message says, and
      whatever the message does not name is as before, or absent from a new document. */
  lemma {:induction false} DocumentSaysTheMessage(rs: seq<Record>, s: Save) returns (i: nat)
    requires Inv(rs) && s.ready && !Withheld(rs, s) && Distinct(Fields(s))
    ensures var us := SaveTo(rs, s).0;
            && i < |us| && Describes(us[i].doc, s)
            && (forall j :: 0 <= j < |us| && DescribesKey(us[j].doc, s.key) ==> j == i)
            && (i < |rs| ==> DescribesKey(rs[i].doc, s.key))
            && (i < |rs| ==> forall name :: name !in Names(s) ==>
                  (name in us[i].doc <==> name in rs[i].doc) && (name in rs[i].doc ==> us[i].doc[name] == rs[i].doc[name]))
            && (i == |rs| ==> forall name :: name in us[i].doc ==> name in Names(s))
  {
    i := SavedIsThere(rs, s);
    var us := SaveTo(rs, s).0;
    FieldsDescribe(us[i].doc, s);
    forall j | 0 <= j < |us| && DescribesKey(us[j].doc, s.key) ensures j == i {
      KeyIff(us[j].doc, s.key);
    }
    FieldsAreNamed(s);
    var was: Doc := if i < |rs| then rs[i].doc else map[];
    SavedOver(rs, s, i);
    forall name | name !in Names(s)
      ensures (name in us[i].doc <==> name in was) && (name in was ==> us[i].doc[name] == was[name])
    {
      AssignKeeps(was, Fields(s), name);
    }
    if i < |rs| {
      KeyIff(rs[i].doc, s.key);
    }
  }

  lemma KeyIff(d: Doc, k: Key)
    ensures Matches(d, k) <==> DescribesKey(d, k)
  {
    if Matches(d, k) {
      assert HoldsAll(d, KeyPairs(k));
      KeyDescribed(d, k);
    }
  }

  /** The document that makes a message wait: a big one under the key of a small message, or one
      without the mark under the key of a replayed message. */
  predicate Stops(d: Doc, s: Save) {
    && DescribesKey(d, s.key)
    && ((s.msgType == 1 && Holds(d, Pair("msg_type", Num(2)))) || (s.replay && !Holds(d, Pair("replay", Num(1)))))
  }

  /** Exactly when a message is answered with success, and when it changes nothing. */
  lemma {:induction false} StoredIff(rs: seq<Record>, s: Save)
    ensures var stopped := exists i :: 0 <= i < |rs| && Stops(rs[i].doc, s);
            && (SaveTo(rs, s).1 == 0 <==> s.ready && (stopped || Distinct(Fields(s))))
            && (SaveTo(rs, s).1 != 0 ==> SaveTo(rs, s).1 == -1)
            && (Withheld(rs, s) <==> stopped)
            && (!s.ready || stopped || !Distinct(Fields(s)) ==> SaveTo(rs, s).0 == rs)
  {
    forall i | 0 <= i < |rs|
      ensures Stops(rs[i].doc, s) <==>
                Matches(rs[i].doc, s.key) && ((s.msgType == 1 && Holds(rs[i].doc, Pair("msg_type", Num(2))))
                                              || (s.replay && !Holds(rs[i].doc, MARK)))
    {
      KeyIff(rs[i].doc, s.key);
    }
  }

  /** The record found with the key is the one that the message is written to. */
  lemma SavedOver(rs: seq<Record>, s: Save, i: nat)
    requires Inv(rs) && s.ready && !Withheld(rs, s) && Distinct(Fields(s))
    requires i < |SaveTo(rs, s).0| && Matches(SaveTo(rs, s).0[i].doc, s.key)
    ensures SaveTo(rs, s).0[i].doc == Assign(if i < |rs| then rs[i].doc else map[], Fields(s))
    ensures i <= |rs| && (i < |rs| ==> Matches(rs[i].doc, s.key))
  {
    var f := Find(rs, s.key);
    FindIs(rs, s.key);
    var us := SaveTo(rs, s).0;
    KeyStays(if f < |rs| then rs[f].doc else map[], s);
    SaveKeepsInv(rs, s);
    assert Keyed(us[i].doc, s.key) && Keyed(us[f].doc, s.key);
  }

  lemma StampAt(s: Save) returns (i: nat)
    ensures i < |Fields(s)| && Fields(s)[i] == Pair("updated_time", Text(s.now))
  {
    i := if s.msgType == 2 then 14 else if s.msgType == 1 then 10 else 7;
  }

  /** For messages of every type: a replayed message is written over an existing record if and
      only if the record carries the mark and the message is not a small one that meets a big
      record. (The time of the save differs from the stored one, so that writing shows.) */
  lemma {:induction false} ReplayStoredIff(rs: seq<Record>, s: Save, i: nat)
    requires Inv(rs) && i < |rs| && Matches(rs[i].doc, s.key)
    requires s.replay && s.ready && Distinct(Fields(s)) && !Holds(rs[i].doc, Pair("updated_time", Text(s.now)))
    ensures SaveTo(rs, s).0 != rs <==>
              Holds(rs[i].doc, MARK) && !(s.msgType == 1 && Holds(rs[i].doc, Pair("msg_type", Num(2))))
    ensures Holds(rs[i].doc, MARK) ==> rs[i].byReplay
  {
    assert Keyed(rs[i].doc, s.key) && Regular(rs[i]);
    OnlyRecord(rs, s.key, i);
    if !Withheld(rs, s) {
      var j := StampAt(s);
      AssignHas(rs[i].doc, Fields(s), j);
      assert SaveTo(rs, s).0[i].doc == Assign(rs[i].doc, Fields(s));
    }
  }

  /** With unique keys both lookups and the update see the one record with the key. */
  lemma OnlyRecord(rs: seq<Record>, k: Key, i: nat)
    requires Unique(rs) && i < |rs| && Matches(rs[i].doc, k)
    ensures Find(rs, k) == i
    ensures HasBig(rs, k) <==> Holds(rs[i].doc, Pair("msg_type", Num(2)))
    ensures HasUnmarked(rs, k) <==> !Holds(rs[i].doc, MARK)
  {
    FindIs(rs, k);
    assert Keyed(rs[i].doc, k);
    forall j | 0 <= j < |rs| && Matches(rs[j].doc, k) ensures j == i {
      assert Keyed(rs[j].doc, k);
    }
  }

  /** What a save leaves alone: the other records, and every field of the record that the
      message does not name. */
  lemma {:induction false} SavedLeavesRest(rs: seq<Record>, s: Save, i: nat, name: string)
    requires Inv(rs) && i < |rs|
    ensures i < |SaveTo(rs, s).0|
    ensures !Matches(rs[i].doc, s.key) ==> SaveTo(rs, s).0[i] == rs[i]
    ensures (forall j :: 0 <= j < |Fields(s)| ==> Fields(s)[j].name != name) ==>
              var d := SaveTo(rs, s).0[i].doc;
              (name in d <==> name in rs[i].doc) && (name in d ==> d[name] == rs[i].doc[name])
  {
    var f := SaveCases(rs, s);
    if forall j :: 0 <= j < |Fields(s)| ==> Fields(s)[j].name != name {
      AssignKeeps(rs[i].doc, Fields(s), name);
    }
  }

  /** The guards of a save that meets a record with its key. */
  predicate Skips(d: Doc, s: Save) {
    (s.msgType == 1 && Holds(d, Pair("msg_type", Num(2)))) || (s.replay && !Holds(d, MARK))
  }

  lemma {:induction false} SaveOnOne(r: Record, s: Save)
    requires s.ready && Distinct(Fields(s)) && Matches(r.doc, s.key)
    ensures SaveTo([r], s).0 == [if Skips(r.doc, s) then r else r.(doc := Assign(r.doc, Fields(s)))]
    ensures Matches(SaveTo([r], s).0[0].doc, s.key)
  {
    var rs := [r];
    FindInOne(r, s.key);
    assert rs[0] == r;
    KeyStays(r.doc, s);
  }

  /** What the record holds after the message: whether it is big, and whether it is marked. */
  lemma {:induction false} AfterSave(d: Doc, s: Save)
    requires Distinct(Fields(s))
    ensures var next := Assign(d, Fields(s));
            && (Holds(next, Pair("msg_type", Num(2))) <==>
                  s.msgType == 2 || (s.msgType != 1 && Holds(d, Pair("msg_type", Num(2)))))
            && (Holds(next, MARK) <==> s.replay || (Holds(d, MARK) && Unnamed(s)))
  {
    RankAfter(d, s);
    MarkedIff(d, s);
  }

  /** No attribute of the message is called replay. */
  predicate Unnamed(s: Save) { forall i :: 0 <= i < |Own(s)| ==> Own(s)[i].name != "replay" }

  lemma SmallIsUnnamed(s: Save)
    requires s.msgType != 2
    ensures Unnamed(s)
  {
  }

  lemma {:induction false} FirstIsInserted(s: Save)
    requires s.ready && Distinct(Fields(s))
    ensures Run([s]) == [Record(Assign(map[], Fields(s)), s.replay)] && Matches(Run([s])[0].doc, s.key)
    ensures Holds(Run([s])[0].doc, Pair("msg_type", Num(2))) <==> s.msgType == 2
    ensures Holds(Run([s])[0].doc, MARK) <==> s.replay
  {
    RunOne(s);
    KeyStays(map[], s);
    AfterSave(map[], s);
  }

  /** The live message leaves the mark, unless it names an attribute replay. */
  lemma {:induction false} LiveOnReplayed(first: Save, live: Save)
    requires first.ready && live.ready && Distinct(Fields(first)) && Distinct(Fields(live))
    requires first.key == live.key && first.replay && !live.replay
    ensures var rs := Run([first, live]);
            && |rs| == 1 && Matches(rs[0].doc, live.key)
            && (Holds(rs[0].doc, Pair("msg_type", Num(2))) <==> first.msgType == 2 || live.msgType == 2)
            && (Holds(rs[0].doc, MARK) <==> Unnamed(live))
  {
    FirstIsInserted(first);
    var r := Run([first])[0];
    assert [first, live][..1] == [first];
    SaveOnOne(r, live);
    AfterSave(r.doc, live);
    if live.msgType != 2 {
      SmallIsUnnamed(live);
    }
  }

  /** A live message does not take the mark away, so it is not safe on a record that a replay
      created. In a run of a replayed, a live and again a replayed message of any types with one
      key, the last one is written over the live one if and only if the live one names no
      attribute replay, and the last one is not a small message that meets a big record. */
  lemma {:induction false} LiveIsOverwritten(first: Save, live: Save, again: Save)
    requires first.ready && live.ready && again.ready
    requires Distinct(Fields(first)) && Distinct(Fields(live)) && Distinct(Fields(again))
    requires first.key == live.key == again.key && first.replay && !live.replay && again.replay
    ensures var before, after := Run([first, live]), Run([first, live, again]);
            && |before| == |after| == 1
            && if Unnamed(live) && !(again.msgType == 1 && (first.msgType == 2 || live.msgType == 2)) then
                 after[0].doc == Assign(before[0].doc, Fields(again))
                 && forall j :: 0 <= j < |Fields(again)| ==> Holds(after[0].doc, Fields(again)[j])
               else after == before
  {
    LiveOnReplayed(first, live);
    var before := Run([first, live]);
    assert [first, live, again][..2] == [first, live] && before == [before[0]];
    SaveOnOne(before[0], again);
    forall j: nat | j < |Fields(again)| ensures Holds(Assign(before[0].doc, Fields(again)), Fields(again)[j]) {
      AssignHas(before[0].doc, Fields(again), j);
    }
  }

  lemma RunOne(s: Save)
    requires s.ready && Distinct(Fields(s))
    ensures Run([s]) == [Record(Assign(map[], Fields(s)), s.replay)]
  {
    assert [s][..0] == [] && [] + Run([s]) == Run([s]);
    assert Find([], s.key) == 0;
    var r := Record(Assign(map[], Fields(s)), s.replay);
    assert [] + [r] == [r];
  }

  lemma FindInOne(r: Record, k: Key)
    requires Matches(r.doc, k)
    ensures Find([r], k) == 0
  {
    assert [r][..0] == [];
  }

  /** Find and update are two requests. An update that goes ahead on an outdated find lowers the
      type of a record exactly when a small message meets a record that has become big. */
  lemma StaleFindIff(rs: seq<Record>, s: Save, i: nat)
    requires Inv(rs) && i < |rs| && Matches(rs[i].doc, s.key) && Distinct(Fields(s))
    ensures i < |Upsert(rs, s)|
    ensures Rank(Upsert(rs, s)[i].doc) < Rank(rs[i].doc) <==> s.msgType == 1 && Rank(rs[i].doc) == 2
  {
    assert Keyed(rs[i].doc, s.key) && Regular(rs[i]);
    FindIs(rs, s.key);
    var f := Find(rs, s.key);
    assert Keyed(rs[f].doc, s.key);
    RankAfter(rs[i].doc, s);
  }

  /** A record carries the mark after a message if and only if the message is a replayed one, or
      it carried the mark before and no attribute is called replay. A replayed message on an
      outdated lookup therefore marks a record that a live message created. */
  lemma {:induction false} MarkedIff(d: Doc, s: Save)
    requires Distinct(Fields(s))
    ensures Holds(Assign(d, Fields(s)), MARK) <==>
              s.replay || (Holds(d, MARK) && Unnamed(s))
  {
    var fs, n := Fields(s), |Fields(s)|;
    if s.replay {
      AssignHas(d, fs, n - 1);
      assert fs[n - 1] == MARK;
    } else {
      assert fs == KeyPairs(s.key) + Own(s);
      if i :| 0 <= i < |Own(s)| && Own(s)[i].name == "replay" {
        OwnIsUnmarked(s);
        AssignHas(d, fs, 5 + i);
        assert fs[5 + i] == Own(s)[i];
      } else {
        forall i | 0 <= i < n ensures fs[i].name != "replay" {
          assert i >= 5 ==> fs[i] == Own(s)[i - 5];
        }
        AssignKeeps(d, fs, "replay");
      }
    }
  }

  /** An insert on an outdated lookup makes a second record for the key if and only if there is
      one by then. */
  lemma {:induction false} StaleInsertIff(rs: seq<Record>, s: Save)
    requires Inv(rs) && Distinct(Fields(s))
    ensures Unique(rs + [Record(Assign(map[], Fields(s)), s.replay)]) <==>
              forall i :: 0 <= i < |rs| ==> !Keyed(rs[i].doc, s.key)
  {
    var r := Record(Assign(map[], Fields(s)), s.replay);
    InsertedIsRegular(s);
    if forall i :: 0 <= i < |rs| ==> !Keyed(rs[i].doc, s.key) {
      InsertKeepsUnique(rs, r, s.key);
    } else {
      var i :| 0 <= i < |rs| && Keyed(rs[i].doc, s.key);
      var us := rs + [r];
      assert Keyed(us[i].doc, s.key) && Keyed(us[|rs|].doc, s.key);
    }
  }

  /** The collection of one application; each save runs undisturbed. */
  class BusinessSave {
    var coll: seq<Record>

    constructor ()
      ensures coll == []
    {
      coll := [];
    }

    /** The document under construction: the key, then what the message type adds. */
    method BuildFields(s: Save) returns (builder: seq<Pair>)
      ensures builder == KeyPairs(s.key) + Own(s)
    {
      builder := KeyPairs(s.key);
      if s.msgType == 2 {
        builder := builder + [Pair("face_id", Text(s.result.id)), Pair("faceset_id", Text(s.result.setName)),
          Pair("faceset_type", Text(s.setType)), Pair("event_time", Num(s.eventTime)), Pair("msg_type", Num(s.msgType)),
          Pair("capture_url", Texts(s.urls)), Pair("match_url", Text(s.result.url)), Pair("score", Score(s.result.similar)),
          Pair("created_time", Text(s.now)), Pair("updated_time", Text(s.now))];
        var attributes := AppendAttributes(s.result.attributes);
        builder := builder + attributes;
      } else if s.msgType == 1 {
        var gender := if s.result.gender == -1 then s.gender else s.result.gender;
        var age := if s.result.age == -1 then s.age else s.result.age;
        builder := builder + [Pair("age", Num(age)), Pair("gender", Num(gender)), Pair("event_time", Num(s.eventTime)),
          Pair("msg_type", Num(s.msgType)), Pair("created_time", Text(s.now)), Pair("updated_time", Text(s.now))];
      } else {
        builder := builder + [Pair("event_time", Num(s.eventTime)), Pair("created_time", Text(s.now)),
          Pair("updated_time", Text(s.now))];
      }
    }

    method AppendAttributes(attributes: seq<Attribute>) returns (ps: seq<Pair>)
      ensures ps == AttributePairs(attributes)
    {
      ps := [];
      var k := 0;
      while k < |attributes|
        invariant 0 <= k <= |attributes|
        invariant ps == AttributePairs(attributes[..k])
      {
        var a := attributes[k];
        assert attributes[..k + 1][..k] == attributes[..k];
        if a.kind != "" {
          ps := ps + [AttributePair(a)];
        }
        k := k + 1;
      }
      assert attributes[..k] == attributes;
    }

    /** update_one; false stands for the exception. */
    method UpdateOne(s: Save, builder: seq<Pair>) returns (ok: bool)
      requires builder == Fields(s)
      modifies this
      ensures ok <==> Distinct(Fields(s))
      ensures coll == if ok then Upsert(old(coll), s) else old(coll)
    {
      ok := Distinct(builder);
      if ok {
        var i := Find(coll, s.key);
        if i < |coll| {
          coll := coll[i := coll[i].(doc := Assign(coll[i].doc, builder))];
        } else {
          coll := coll + [Record(Assign(map[], builder), s.replay)];
        }
      }
    }

    method SaveBusinessMongo(s: Save) returns (ret: int)
      modifies this
      ensures (coll, ret) == SaveTo(old(coll), s)
    {
      if !s.ready {
        return -1;
      }
      if s.msgType == 1 && HasBig(coll, s.key) {
        return 0;
      }
      var builder := BuildFields(s);
      if s.replay {
        if HasUnmarked(coll, s.key) {
          return 0;
        }
        builder := builder + [MARK];
      } else {
        assert builder + [] == builder;
      }
      var ok := UpdateOne(s, builder);
      return if ok then 0 else -1;
    }
  }
}
