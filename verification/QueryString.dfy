/** Query strings: fields joined by '&', each a name, '=', and a percent-encoded value. */
module QueryString {
  import Percent
  import opened Sequences

  datatype Field = Field(name: string, value: string)

  datatype Chunk = Chunk(text: string)

  function Piece(f: Field): string { f.name + "=" + Percent.Encode(f.value) }

  /** The fields in the order in which the multimap is traversed. */
  function Create(fields: seq<Field>): string {
    if fields == [] then ""
    else Piece(fields[0]) + if |fields| == 1 then "" else "&" + Create(fields[1..])
  }

  /** The first '&' at or after `from`, or the length. */
  function Next(s: string, from: nat): (k: nat)
    requires from <= |s|
    ensures from <= k <= |s|
    decreases |s| - from
  {
    if from == |s| || s[from] == '&' then from else Next(s, from + 1)
  }

  function Split(s: string, from: nat): (pieces: seq<Chunk>)
    requires from <= |s|
    ensures pieces != []
    decreases |s| - from, 1
  {
    var k := Next(s, from);
    [Chunk(s[from..k])] + SplitAfter(s, k)
  }

  function SplitAfter(s: string, k: nat): seq<Chunk>
    requires k <= |s|
    decreases |s| - k, 0
  {
    if k == |s| then [] else Split(s, k + 1)
  }

  /** The last '=', or the length. */
  function Equals(s: string): (k: nat)
    ensures k <= |s|
  {
    if s == "" then 0
    else if s[|s| - 1] == '=' then |s| - 1
    else
      var k := Equals(s[..|s| - 1]);
      if k == |s| - 1 then |s| else k
  }

  /** A piece without a name is dropped. */
  function ParsePiece(s: string): seq<Field> {
    var e := Equals(s);
    if e == 0 then []
    else [Field(s[..e], if e == |s| then "" else Percent.Decode(s[e + 1..]))]
  }

  function Collect(pieces: seq<Chunk>): seq<Field> {
    if pieces == [] then [] else ParsePiece(pieces[0].text) + Collect(pieces[1..])
  }

  function Parse(s: string): seq<Field> { Collect(Split(s, 0)) }

  // ---------- splitting ----------

  lemma {:induction false} NextShift(p: string, s: string, from: nat)
    requires from <= |s|
    ensures Next(p + s, |p| + from) == |p| + Next(s, from)
    decreases |s| - from
  {
    if from < |s| {
      assert (p + s)[|p| + from] == s[from];
      if s[from] != '&' {
        NextShift(p, s, from + 1);
      }
    }
  }

  lemma {:induction false} SplitShift(p: string, s: string, from: nat)
    requires from <= |s|
    ensures Split(p + s, |p| + from) == Split(s, from)
    decreases |s| - from
  {
    NextShift(p, s, from);
    var k := Next(s, from);
    assert (p + s)[|p| + from..|p| + k] == s[from..k];
    assert SplitAfter(p + s, |p| + k) == SplitAfter(s, k) by {
      if k < |s| {
        SplitShift(p, s, k + 1);
      }
    }
  }

  lemma {:induction false} NextIs(s: string, from: nat, k: nat)
    requires from <= k <= |s| && (k < |s| ==> s[k] == '&')
    requires forall i :: from <= i < k ==> s[i] != '&'
    ensures Next(s, from) == k
    decreases k - from
  {
    if from < k {
      NextIs(s, from + 1, k);
    }
  }

  lemma {:induction false} NextCuts(s: string, from: nat)
    requires from <= |s|
    ensures forall i :: from <= i < Next(s, from) ==> s[i] != '&'
    decreases |s| - from
  {
    if from < |s| && s[from] != '&' {
      NextCuts(s, from + 1);
    }
  }

  lemma LastPiece(p: string)
    requires '&' !in p
    ensures Split(p, 0) == [Chunk(p)]
  {
    NextIs(p, 0, |p|);
    assert p[0..|p|] == p;
  }

  lemma FirstPiece(p: string, rest: string)
    requires '&' !in p
    ensures Split(p + ("&" + rest), 0) == [Chunk(p)] + Split(rest, 0)
  {
    var s := p + ("&" + rest);
    assert s[|p|] == '&' && s[0..|p|] == p;
    NextIs(s, 0, |p|);
    assert s == (p + "&") + rest;
    SplitShift(p + "&", rest, 0);
  }

  // ---------- round trip ----------

  predicate Named(f: Field) { f.name != "" && '&' !in f.name }

  ghost predicate AllNamed(fields: seq<Field>) { forall i :: 0 <= i < |fields| ==> Named(fields[i]) }

  lemma NamedConcat(a: seq<Field>, b: seq<Field>)
    requires AllNamed(a) && AllNamed(b)
    ensures AllNamed(a + b)
  {
  }

  lemma PieceIsNamed(s: string)
    requires '&' !in s
    ensures AllNamed(ParsePiece(s))
  {
    var e := Equals(s);
    assert forall c :: c in s[..e] ==> c in s;
  }

  /** Whatever is parsed, a name is not empty and contains no '&'. */
  lemma {:induction false} ParsedAreNamed(s: string, from: nat)
    requires from <= |s|
    ensures AllNamed(Collect(Split(s, from)))
    decreases |s| - from
  {
    var k := Next(s, from);
    NextCuts(s, from);
    PieceIsNamed(s[from..k]);
    var rest := SplitAfter(s, k);
    if k < |s| {
      ParsedAreNamed(s, k + 1);
    }
    NamedConcat(ParsePiece(s[from..k]), Collect(rest));
    assert ([Chunk(s[from..k])] + rest)[1..] == rest;
  }

  lemma {:induction false} EqualsIs(name: string, value: string)
    requires '=' !in value
    ensures Equals(name + "=" + value) == |name|
  {
    var s := name + "=" + value;
    if value == "" {
      assert s[|s| - 1] == '=';
    } else {
      var shorter := value[..|value| - 1];
      assert s[..|s| - 1] == name + "=" + shorter;
      assert s[|s| - 1] == value[|value| - 1];
      EqualsIs(name, shorter);
    }
  }

  function Reread(f: Field): Field { Field(f.name, Percent.Decode(Percent.Encode(f.value))) }

  lemma PieceIsParsed(f: Field)
    requires Named(f)
    ensures '&' !in Piece(f)
    ensures ParsePiece(Piece(f)) == [Reread(f)]
  {
    var s, n := Piece(f), |f.name|;
    Percent.NoSeparator(f.value);
    EqualsIs(f.name, Percent.Encode(f.value));
    assert s[..n] == f.name && s[n + 1..] == Percent.Encode(f.value);
  }

  function RereadAll(fields: seq<Field>): (r: seq<Field>)
    ensures |r| == |fields| && forall i :: 0 <= i < |r| ==> r[i] == Reread(fields[i])
  {
    if fields == [] then [] else [Reread(fields[0])] + RereadAll(fields[1..])
  }

  lemma CollectFirst(p: string, rest: seq<Chunk>)
    ensures Collect([Chunk(p)] + rest) == ParsePiece(p) + Collect(rest)
  {
    assert ([Chunk(p)] + rest)[1..] == rest;
  }

  /** Well named fields come back in order, with their values encoded and decoded; a name may
      contain '='. */
  lemma {:induction false} NamedComeBack(fields: seq<Field>)
    requires AllNamed(fields)
    ensures Parse(Create(fields)) == RereadAll(fields)
  {
    if fields == [] {
      assert Split("", 0) == [Chunk("")] && Equals("") == 0;
      CollectFirst("", []);
    } else if |fields| == 1 {
      PieceIsParsed(fields[0]);
      LastPiece(Piece(fields[0]));
      CollectFirst(Piece(fields[0]), []);
      assert Create(fields) == Piece(fields[0]) && fields[1..] == [];
    } else {
      PieceIsParsed(fields[0]);
      NamedComeBack(fields[1..]);
      FirstPiece(Piece(fields[0]), Create(fields[1..]));
      CollectFirst(Piece(fields[0]), Split(Create(fields[1..]), 0));
    }
  }

  /** How any query string is read: each piece up to the next '&' on its own. */
  lemma {:induction false} ParsedInPieces(piece: string, rest: string)
    requires '&' !in piece
    ensures Parse(piece) == ParsePiece(piece)
    ensures Parse(piece + ("&" + rest)) == Parse(piece) + Parse(rest)
  {
    FirstPiece(piece, rest);
    LastPiece(piece);
    CollectFirst(piece, Split(rest, 0));
    CollectFirst(piece, []);
    assert ParsePiece(piece) + Collect([]) == ParsePiece(piece);
  }

  /** A piece is cut at its last '='; one without '=' is a name without a value, and one without
      a name is dropped. */
  lemma {:induction false} ParsedPiece(name: string, value: string)
    requires '=' !in value
    ensures ParsePiece(name + "=" + value) == if name == "" then [] else [Field(name, Percent.Decode(value))]
    ensures ParsePiece(value) == if value == "" then [] else [Field(value, "")]
  {
    var piece := name + "=" + value;
    EqualsIs(name, value);
    assert piece[..|name|] == name && piece[|name| + 1..] == value;
    NoEquals(value);
    assert value[..|value|] == value;
  }

  lemma {:induction false} NoEquals(s: string)
    requires '=' !in s
    ensures Equals(s) == |s|
  {
    if s != "" {
      assert s[|s| - 1] in s;
      NoEquals(s[..|s| - 1]);
    }
  }

  /** What is written: nothing, one field, or two lists of fields with one '&' between them. */
  lemma {:induction false} CreatedText(f: Field, a: seq<Field>, b: seq<Field>)
    ensures Create([]) == ""
    ensures Create([f]) == f.name + "=" + Percent.Encode(f.value)
    ensures a != [] && b != [] ==> Create(a + b) == Create(a) + "&" + Create(b)
  {
    if a != [] && b != [] {
      assert (a + b)[1..] == a[1..] + b;
      if |a| == 1 {
        assert a[1..] + b == b;
      } else {
        CreatedText(f, a[1..], b);
      }
    }
  }

  predicate Good(f: Field) { Named(f) && Percent.Harmless(f.value) }

  /** The query string of some fields parses to those fields exactly when every name is a
      nonempty string without '&' and every value survives percent encoding. */
  lemma {:induction false} RoundTripIff(fields: seq<Field>)
    ensures Parse(Create(fields)) == fields <==> forall i :: 0 <= i < |fields| ==> Good(fields[i])
  {
    if Parse(Create(fields)) == fields {
      ParsedAreNamed(Create(fields), 0);
    }
    if AllNamed(fields) {
      NamedComeBack(fields);
      forall i | 0 <= i < |fields| ensures RereadAll(fields)[i] == fields[i] <==> Good(fields[i]) {
        Percent.RoundTripIff(fields[i].value);
      }
      assert (forall i :: 0 <= i < |fields| ==> RereadAll(fields)[i] == fields[i]) ==> RereadAll(fields) == fields;
    }
  }

  // ---------- the loops ----------

  lemma CreateNext(result: string, fields: seq<Field>, k: nat)
    requires k < |fields|
    ensures result + Create(fields[k..]) ==
              result + Piece(fields[k]) + (if k + 1 == |fields| then "" else "&") + Create(fields[k + 1..])
  {
    assert fields[k..][1..] == fields[k + 1..];
  }

  method CreateLoop(fields: seq<Field>) returns (result: string)
    ensures result == Create(fields)
  {
    result := "";
    var first, k := true, 0;
    assert fields[0..] == fields;
    while k < |fields|
      invariant 0 <= k <= |fields| && (first <==> k == 0)
      invariant Create(fields) == result + (if first || k == |fields| then "" else "&") + Create(fields[k..])
    {
      var before := result + if !first then "&" else "";
      CreateNext(before, fields, k);
      result := before + Piece(fields[k]);
      first := false;
      k := k + 1;
    }
  }

  /** Where the loop at `c` has met the last '=' of the piece that begins at `from`; -1 is npos. */
  function LastEquals(s: string, from: nat, c: nat): int
    requires from <= c <= |s|
    decreases c
  {
    if c == from then -1 else if s[c - 1] == '=' then c - 1 else LastEquals(s, from, c - 1)
  }

  lemma {:induction false} LastEqualsIs(s: string, from: nat, c: nat)
    requires from <= c <= |s|
    ensures var k := LastEquals(s, from, c);
            k == if Equals(s[from..c]) == c - from then -1 else from + Equals(s[from..c])
    decreases c
  {
    if from < c {
      LastEqualsIs(s, from, c - 1);
      assert s[from..c][..c - from - 1] == s[from..c - 1];
    }
  }

  /** result.emplace for the piece from `namePos` to `end`. */
  method Emplace(result: seq<Field>, s: string, namePos: nat, end: nat, nameEndPos: int) returns (r: seq<Field>)
    requires namePos <= end <= |s| && nameEndPos == LastEquals(s, namePos, end)
    ensures r == result + ParsePiece(s[namePos..end])
  {
    ghost var piece := s[namePos..end];
    ghost var e := Equals(piece);
    LastEqualsIs(s, namePos, end);
    var name := s[namePos..if nameEndPos == -1 then end else nameEndPos];
    assert name == piece[..e];
    r := result;
    if name != "" {
      var value := if nameEndPos == -1 then "" else s[nameEndPos + 1..end];
      assert nameEndPos != -1 ==> value == piece[e + 1..];
      r := result + [Field(name, Percent.Decode(value))];
    }
  }

  lemma {:induction false} CollectLast(pieces: seq<Chunk>, p: string)
    ensures Collect(pieces + [Chunk(p)]) == Collect(pieces) + ParsePiece(p)
  {
    if pieces == [] {
      CollectFirst(p, []);
      assert pieces + [Chunk(p)] == [Chunk(p)] + [];
    } else {
      CollectLast(pieces[1..], p);
      Assoc([pieces[0]], pieces[1..], [Chunk(p)]);
      assert pieces == [pieces[0]] + pieces[1..];
      CollectFirst(pieces[0].text, pieces[1..] + [Chunk(p)]);
      Assoc(ParsePiece(pieces[0].text), Collect(pieces[1..]), ParsePiece(p));
    }
  }

  lemma SplitNext(done: seq<Chunk>, s: string, from: nat, c: nat)
    requires from <= c <= |s| && Next(s, from) == c
    ensures (done + [Chunk(s[from..c])]) + SplitAfter(s, c) == done + Split(s, from)
  {
    Assoc(done, [Chunk(s[from..c])], SplitAfter(s, c));
  }

  /** The loop at `c` is in the piece that begins at `from`. */
  predicate Within(s: string, from: nat, c: nat) { from <= c <= |s| && Next(s, from) >= c }

  lemma {:induction false} WithinNext(s: string, from: nat, c: nat)
    requires Within(s, from, c) && c < |s|
    ensures if s[c] == '&' then Next(s, from) == c else Next(s, from) >= c + 1
    decreases c - from
  {
    if from < c {
      WithinNext(s, from + 1, c);
    }
  }

  /** The piece from `namePos` to `c` is complete. */
  method EndPiece(result: seq<Field>, s: string, namePos: nat, c: nat, nameEndPos: int, ghost before: seq<Chunk>)
    returns (r: seq<Field>, ghost done: seq<Chunk>)
    requires namePos <= c <= |s| && Next(s, namePos) == c && nameEndPos == LastEquals(s, namePos, c)
    requires result == Collect(before)
    ensures r == Collect(done)
    ensures done + SplitAfter(s, c) == before + Split(s, namePos)
  {
    r := Emplace(result, s, namePos, c, nameEndPos);
    CollectLast(before, s[namePos..c]);
    SplitNext(before, s, namePos, c);
    done := before + [Chunk(s[namePos..c])];
  }

  method ParseLoop(s: string) returns (result: seq<Field>)
    ensures result == Parse(s)
  {
    result := [];
    var namePos, nameEndPos, c := 0, -1, 0;
    ghost var done: seq<Chunk> := [];
    while c < |s|
      invariant Within(s, namePos, c) && nameEndPos == LastEquals(s, namePos, c)
      invariant result == Collect(done) && done + Split(s, namePos) == Split(s, 0)
    {
      WithinNext(s, namePos, c);
      if s[c] == '&' {
        result, done := EndPiece(result, s, namePos, c, nameEndPos, done);
        namePos, nameEndPos := c + 1, -1;
      } else if s[c] == '=' {
        nameEndPos := c;
      }
      c := c + 1;
    }
    assert c == |s|;
    result := Finish(result, s, namePos, nameEndPos, done);
  }

  /** After the loop: what is behind the last '&'. */
  method Finish(fields: seq<Field>, s: string, namePos: nat, nameEndPos: int, ghost before: seq<Chunk>)
    returns (result: seq<Field>)
    requires Within(s, namePos, |s|) && nameEndPos == LastEquals(s, namePos, |s|)
    requires fields == Collect(before)
    ensures result == Collect(before + Split(s, namePos))
  {
    result := fields;
    if namePos < |s| {
      ghost var done;
      result, done := EndPiece(fields, s, namePos, |s|, nameEndPos, before);
      assert done + SplitAfter(s, |s|) == done;
    } else {
      EmptyEnd(before, s);
    }
  }

  /** Nothing comes after a last '&'. */
  lemma EmptyEnd(done: seq<Chunk>, s: string)
    ensures Collect(done + Split(s, |s|)) == Collect(done)
  {
    assert s[|s|..|s|] == "" && Split(s, |s|) == [Chunk("")];
    CollectLast(done, "");
    assert Equals("") == 0 && Collect(done) + [] == Collect(done);
  }
}
