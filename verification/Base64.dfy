/**
 base64_encode and base64_decode. Bytes are numbers below 256; masks and shifts are written as
 divisions and remainders, and what is stored in an unsigned char is taken modulo 256.
 */
module Base64 {
  import opened Sequences

  type Byte = i: int | 0 <= i < 256

  type Sextet = i: int | 0 <= i < 64

  const UPPER := "ABCDEFGHIJKLMNOPQRSTUVWXYZ"
  const LOWER := "abcdefghijklmnopqrstuvwxyz"
  const REST := "0123456789+/"
  const ALPHABET := UPPER + LOWER + REST

  function CharOf(v: Sextet): char {
    if v < 26 then (v + 65) as char
    else if v < 52 then (v + 71) as char
    else if v < 62 then (v - 4) as char
    else if v == 62 then '+'
    else '/'
  }

  predicate IsBase64(c: char) {
    'A' <= c <= 'Z' || 'a' <= c <= 'z' || '0' <= c <= '9' || c == '+' || c == '/'
  }

  /** base64_chars.find(c) in an unsigned char; what is not there becomes npos modulo 256. */
  function Find(c: char): Byte {
    if 'A' <= c <= 'Z' then c as int - 65
    else if 'a' <= c <= 'z' then c as int - 71
    else if '0' <= c <= '9' then c as int + 4
    else if c == '+' then 62
    else if c == '/' then 63
    else 255
  }

  lemma UpperIs(v: nat)
    requires v < 26
    ensures UPPER[v] == CharOf(v)
  {
  }

  lemma LowerIs(v: nat)
    requires v < 26
    ensures LOWER[v] == CharOf(v + 26)
  {
  }

  lemma RestIs(v: nat)
    requires v < 12
    ensures REST[v] == CharOf(v + 52)
  {
  }

  /** CharOf is the lookup in the alphabet of table 1 of RFC 4648. */
  lemma AlphabetIs(v: Sextet)
    ensures |ALPHABET| == 64 && ALPHABET[v] == CharOf(v)
  {
    if v < 26 {
      UpperIs(v);
    } else if v < 52 {
      LowerIs(v - 26);
    } else {
      RestIs(v - 52);
    }
  }

  lemma FindsEachChar(v: Sextet)
    ensures IsBase64(CharOf(v)) && Find(CharOf(v)) == v
  {
  }

  function Quad(a: Byte, b: Byte, c: Byte): (q: seq<Sextet>)
    ensures |q| == 4
  {
    [a / 4, a % 4 * 16 + b / 16, b % 16 * 4 + c / 64, c % 64]
  }

  function Triple(w: Byte, x: Byte, y: Byte, z: Byte): (t: seq<Byte>)
    ensures |t| == 3
  {
    [(w * 4 + x % 64 / 16) % 256, (x % 16 * 16 + y % 64 / 4) % 256, (y % 4 * 64 + z) % 256]
  }

  function Chars(q: seq<Sextet>): (s: string)
    ensures |s| == |q| && forall i :: 0 <= i < |s| ==> s[i] == CharOf(q[i])
  {
    if q == [] then [] else Chars(q[..|q| - 1]) + [CharOf(q[|q| - 1])]
  }

  /** The encoding without its padding. */
  function Bare(b: seq<Byte>): string {
    if |b| == 0 then ""
    else if |b| == 1 then Chars(Quad(b[0], 0, 0)[..2])
    else if |b| == 2 then Chars(Quad(b[0], b[1], 0)[..3])
    else Chars(Quad(b[0], b[1], b[2])) + Bare(b[3..])
  }

  function Padding(n: nat): string {
    if n % 3 == 0 then "" else if n % 3 == 1 then "==" else "="
  }

  function Encode(b: seq<Byte>): string { Bare(b) + Padding(|b|) }

  /** The last one to three characters; the unused places of the buffer hold `filler`. */
  function DecodeTail(s: string, filler: Byte): seq<Byte>
    requires 1 <= |s| <= 3
  {
    var v := (i: int) => if 0 <= i < |s| then Find(s[i]) else filler;
    Triple(v(0), v(1), v(2), v(3))[..|s| - 1]
  }

  function DecodeAll(s: string): seq<Byte> {
    if s == "" then []
    else if |s| < 4 then DecodeTail(s, 255)
    else Triple(Find(s[0]), Find(s[1]), Find(s[2]), Find(s[3])) + DecodeAll(s[4..])
  }

  /** Decoding stops at the first character outside the alphabet. */
  function Valid(s: string): (n: nat)
    ensures n <= |s|
    ensures forall i :: 0 <= i < n ==> IsBase64(s[i])
    ensures n < |s| ==> !IsBase64(s[n])
  {
    if s == "" || !IsBase64(s[0]) then 0 else 1 + Valid(s[1..])
  }

  function Decode(s: string): seq<Byte> { DecodeAll(s[..Valid(s)]) }

  // ---------- properties ----------

  /** What find('\0') returns is read for the missing characters, but no output byte depends
      on it. */
  lemma FillerNeverShows(s: string, filler: Byte, other: Byte)
    requires 1 <= |s| <= 3
    ensures DecodeTail(s, filler) == DecodeTail(s, other)
  {
  }

  lemma Sixteen(q: nat, r: nat)
    requires r < 16
    ensures (q * 16 + r) / 16 == q && (q * 16 + r) % 16 == r
  {
  }

  lemma Four(q: nat, r: nat)
    requires r < 4
    ensures (q * 4 + r) / 4 == q && (q * 4 + r) % 4 == r
  {
  }

  lemma HighBits(a: Byte, b: Byte)
    ensures (a / 4 * 4 + (a % 4 * 16 + b / 16) % 64 / 16) % 256 == a
  {
    Sixteen(a % 4, b / 16);
  }

  lemma MiddleBits(a: Byte, b: Byte, c: Byte)
    ensures ((a % 4 * 16 + b / 16) % 16 * 16 + (b % 16 * 4 + c / 64) % 64 / 4) % 256 == b
  {
    Sixteen(a % 4, b / 16);
    Four(b % 16, c / 64);
    var y := b % 16 * 4 + c / 64;
    assert y % 64 == y;
    assert b / 16 * 16 + b % 16 == b;
  }

  lemma LowBits(b: Byte, c: Byte)
    ensures ((b % 16 * 4 + c / 64) % 4 * 64 + c % 64) % 256 == c
  {
    Four(b % 16, c / 64);
  }

  lemma {:induction false} TripleOfQuad(a: Byte, b: Byte, c: Byte)
    ensures var q := Quad(a, b, c); Triple(q[0], q[1], q[2], q[3]) == [a, b, c]
  {
    HighBits(a, b);
    MiddleBits(a, b, c);
    LowBits(b, c);
    TripleIs(a / 4, a % 4 * 16 + b / 16, b % 16 * 4 + c / 64, c % 64, a, b, c);
  }

  lemma TripleIs(w: Byte, x: Byte, y: Byte, z: Byte, a: Byte, b: Byte, c: Byte)
    requires (w * 4 + x % 64 / 16) % 256 == a && (x % 16 * 16 + y % 64 / 4) % 256 == b && (y % 4 * 64 + z) % 256 == c
    ensures Triple(w, x, y, z) == [a, b, c]
  {
  }

  lemma {:induction false} OneByte(a: Byte)
    ensures DecodeAll(Bare([a])) == [a]
  {
    var q := Quad(a, 0, 0);
    FindsEachChar(q[0]);
    FindsEachChar(q[1]);
    HighBits(a, 0);
    var s := Bare([a]);
    assert s == [CharOf(q[0]), CharOf(q[1])];
    assert DecodeTail(s, 255) == [a];
  }

  lemma {:induction false} TwoBytes(a: Byte, b: Byte)
    ensures DecodeAll(Bare([a, b])) == [a, b]
  {
    var q := Quad(a, b, 0);
    FindsEachChar(q[0]);
    FindsEachChar(q[1]);
    FindsEachChar(q[2]);
    HighBits(a, b);
    MiddleBits(a, b, 0);
    var s := Bare([a, b]);
    assert s == [CharOf(q[0]), CharOf(q[1]), CharOf(q[2])];
    assert DecodeTail(s, 255) == [a, b];
  }

  // ---------- the bits of an encoding ----------

  /** Six bits behind others, and eight. */
  function Six(x: nat, y: nat): nat { x * 64 + y }

  function Eight(x: nat, y: nat): nat { x * 256 + y }

  /** Four characters as a number of 24 bits. */
  function Bits(s: string, i: nat): nat
    requires i + 4 <= |s|
  {
    Six(Six(Six(Find(s[i]), Find(s[i + 1])), Find(s[i + 2])), Find(s[i + 3]))
  }

  lemma QuadBits(a: Byte, b: Byte, c: Byte)
    ensures var q := Quad(a, b, c); Six(Six(Six(q[0], q[1]), q[2]), q[3]) == Eight(Eight(a, b), c)
  {
    assert a / 4 * 4 + a % 4 == a && b / 16 * 16 + b % 16 == b && c / 64 * 64 + c % 64 == c;
  }

  lemma {:induction false} CharsBits(s: string, q: seq<Sextet>)
    requires |q| == 4 && s == Chars(q)
    ensures |s| == 4 && Bits(s, 0) == Six(Six(Six(q[0], q[1]), q[2]), q[3])
  {
    FindsEachChar(q[0]);
    FindsEachChar(q[1]);
    FindsEachChar(q[2]);
    FindsEachChar(q[3]);
  }

  lemma {:induction false} BareOfMore(b: seq<Byte>)
    requires |b| >= 3
    ensures |Bare(b)| >= 4 && Bare(b)[4..] == Bare(b[3..])
    ensures Bits(Bare(b), 0) == Eight(Eight(b[0], b[1]), b[2])
  {
    var q := Quad(b[0], b[1], b[2]);
    QuadBits(b[0], b[1], b[2]);
    CharsBits(Chars(q), q);
    assert Bare(b)[..4] == Chars(q);
    assert forall i :: 0 <= i < 4 ==> Bare(b)[i] == Chars(q)[i];
  }

  /** Section 4 of RFC 4648: each four characters are the 24 bits of three bytes, first bits first. */
  lemma {:induction false} ChunkBits(b: seq<Byte>, k: nat)
    requires 3 * k + 3 <= |b|
    ensures 4 * k + 4 <= |Bare(b)|
    ensures Bits(Bare(b), 4 * k) == Eight(Eight(b[3 * k], b[3 * k + 1]), b[3 * k + 2])
    decreases k
  {
    BareOfMore(b);
    if k > 0 {
      ChunkBits(b[3..], k - 1);
      BitsOfRest(Bare(b), 4 * (k - 1));
    }
  }

  lemma BitsOfRest(s: string, i: nat)
    requires i + 8 <= |s|
    ensures Bits(s[4..], i) == Bits(s, i + 4)
  {
  }

  /** The characters before the padding hold the bits of the last one or two bytes, and zero bits. */
  predicate EndsInZeros(s: string, b: seq<Byte>) {
    var m, n := |s|, |b|;
    if n % 3 == 1 then m >= 2 && Six(Find(s[m - 2]), Find(s[m - 1])) == b[n - 1] as int * 16
    else if n % 3 == 2 then
      m >= 3 && Six(Six(Find(s[m - 3]), Find(s[m - 2])), Find(s[m - 1])) == Eight(b[n - 2], b[n - 1]) * 4
    else true
  }

  lemma {:induction false} TailBits(b: seq<Byte>)
    ensures EndsInZeros(Bare(b), b)
  {
    if |b| >= 3 {
      BareOfMore(b);
      TailBits(b[3..]);
      SameTail(Bare(b), b);
    } else if |b| == 1 {
      LastOne(b[0]);
      assert b == [b[0]];
    } else if |b| == 2 {
      LastTwo(b[0], b[1]);
      assert b == [b[0], b[1]];
    }
  }

  lemma {:induction false} SameTail(s: string, b: seq<Byte>)
    requires |s| >= 4 && |b| >= 3 && EndsInZeros(s[4..], b[3..])
    ensures EndsInZeros(s, b)
  {
    var t, c, m, n := s[4..], b[3..], |s|, |b|;
    assert |c| % 3 == n % 3;
    if n % 3 == 1 {
      assert t[|t| - 2] == s[m - 2] && t[|t| - 1] == s[m - 1] && c[|c| - 1] == b[n - 1];
    } else if n % 3 == 2 {
      assert t[|t| - 3] == s[m - 3] && t[|t| - 2] == s[m - 2] && t[|t| - 1] == s[m - 1];
      assert c[|c| - 2] == b[n - 2] && c[|c| - 1] == b[n - 1];
    }
  }

  lemma {:induction false} LastOne(a: Byte)
    ensures EndsInZeros(Bare([a]), [a])
  {
    var q := Quad(a, 0, 0);
    FindsEachChar(q[0]);
    FindsEachChar(q[1]);
    assert Bare([a]) == [CharOf(q[0]), CharOf(q[1])];
    assert a / 4 * 4 + a % 4 == a;
  }

  lemma {:induction false} LastTwo(a: Byte, b: Byte)
    ensures EndsInZeros(Bare([a, b]), [a, b])
  {
    var q := Quad(a, b, 0);
    FindsEachChar(q[0]);
    FindsEachChar(q[1]);
    FindsEachChar(q[2]);
    assert Bare([a, b]) == [CharOf(q[0]), CharOf(q[1]), CharOf(q[2])];
    assert a / 4 * 4 + a % 4 == a && b / 16 * 16 + b % 16 == b;
  }

  lemma {:induction false} BareRoundTrip(b: seq<Byte>)
    ensures DecodeAll(Bare(b)) == b
  {
    if |b| == 1 {
      OneByte(b[0]);
      assert b == [b[0]];
    } else if |b| == 2 {
      TwoBytes(b[0], b[1]);
      assert b == [b[0], b[1]];
    } else if |b| >= 3 {
      var q := Quad(b[0], b[1], b[2]);
      var s := Bare(b);
      assert s[..4] == Chars(q) && s[4..] == Bare(b[3..]);
      forall i | 0 <= i < 4 ensures Find(s[i]) == q[i] {
        FindsEachChar(q[i]);
      }
      TripleOfQuad(b[0], b[1], b[2]);
      BareRoundTrip(b[3..]);
      assert b == [b[0], b[1], b[2]] + b[3..];
    }
  }

  lemma CharsAreBase64(q: seq<Sextet>)
    ensures forall i :: 0 <= i < |q| ==> IsBase64(Chars(q)[i])
  {
    forall i | 0 <= i < |q| ensures IsBase64(Chars(q)[i]) {
      FindsEachChar(q[i]);
    }
  }

  /** Section 4 of RFC 4648: three bytes to four characters, and what is left over to the
      characters it needs. */
  lemma {:induction false} BareShape(b: seq<Byte>)
    ensures |Bare(b)| == 4 * (|b| / 3) + (if |b| % 3 == 0 then 0 else |b| % 3 + 1)
    ensures forall i :: 0 <= i < |Bare(b)| ==> IsBase64(Bare(b)[i])
  {
    if |b| >= 3 {
      BareShape(b[3..]);
      CharsAreBase64(Quad(b[0], b[1], b[2]));
    } else if |b| == 2 {
      CharsAreBase64(Quad(b[0], b[1], 0)[..3]);
    } else if |b| == 1 {
      CharsAreBase64(Quad(b[0], 0, 0)[..2]);
    }
  }

  lemma PaddedEnd(s: string, p: string)
    requires forall i :: 0 <= i < |s| ==> IsBase64(s[i])
    requires forall i :: 0 <= i < |p| ==> p[i] == '='
    ensures Valid(s + p) == |s|
    ensures forall i :: 0 <= i < |s + p| ==> ((s + p)[i] == '=' <==> i >= |s|)
  {
    assert forall i :: 0 <= i < |s| ==> (s + p)[i] == s[i];
    assert forall i :: |s| <= i < |s + p| ==> (s + p)[i] == p[i - |s|];
    assert p != "" ==> !IsBase64((s + p)[|s|]);
  }

  lemma Thirds(n: nat)
    ensures 4 * (n / 3) + (if n % 3 == 0 then 0 else n % 3 + 1) + |Padding(n)| == 4 * ((n + 2) / 3)
    ensures |Padding(n)| == (3 - n % 3) % 3
  {
    assert n == 3 * (n / 3) + n % 3;
    assert (n + 2) / 3 == n / 3 + (if n % 3 == 0 then 0 else 1);
  }

  lemma EqualsAtEnd(b: seq<Byte>)
    ensures |Encode(b)| == |Bare(b)| + |Padding(|b|)|
    ensures forall i :: 0 <= i < |Encode(b)| ==> (Encode(b)[i] == '=' <==> i >= |Bare(b)|)
    ensures Valid(Encode(b)) == |Bare(b)|
  {
    BareShape(b);
    PaddedEnd(Bare(b), Padding(|b|));
  }

  /** The length is a multiple of four; '=' stands at the end only, as often as bytes are missing
      from the last three. */
  lemma EncodeShape(b: seq<Byte>)
    ensures |Encode(b)| == 4 * ((|b| + 2) / 3)
    ensures forall i :: 0 <= i < |Encode(b)| ==>
              (Encode(b)[i] == '=' <==> i >= |Encode(b)| - (3 - |b| % 3) % 3)
  {
    Thirds(|b|);
    BareShape(b);
    EqualsAtEnd(b);
  }

  lemma RoundTrip(b: seq<Byte>)
    ensures Decode(Encode(b)) == b
  {
    EqualsAtEnd(b);
    assert Encode(b)[..|Bare(b)|] == Bare(b);
    BareRoundTrip(b);
  }

  // ---------- the loops ----------

  lemma {:induction false} BareAppend(a: seq<Byte>, b: seq<Byte>, n: nat)
    requires |a| == 3 * n
    ensures Bare(a + b) == Bare(a) + Bare(b)
  {
    if n == 0 {
      assert a + b == b;
    } else {
      assert (a + b)[3..] == a[3..] + b;
      BareAppend(a[3..], b, n - 1);
    }
  }

  lemma SameRemainder(n: nat, m: nat)
    ensures (3 * n + m) % 3 == m % 3
  {
  }

  lemma EncodeAppend(a: seq<Byte>, b: seq<Byte>, n: nat)
    requires |a| == 3 * n
    ensures Encode(a + b) == Bare(a) + Encode(b)
  {
    SameRemainder(n, |b|);
    BareAppend(a, b, n);
    Assoc(Bare(a), Bare(b), Padding(|b|));
  }

  lemma ValidNext(s: string, n: nat)
    requires n < |s| && n <= Valid(s) && IsBase64(s[n])
    ensures n + 1 <= Valid(s)
  {
  }

  lemma {:induction false} DecodeAppend(a: string, b: string, n: nat)
    requires |a| == 4 * n
    ensures DecodeAll(a + b) == DecodeAll(a) + DecodeAll(b)
  {
    if n == 0 {
      assert a + b == b;
    } else {
      assert (a + b)[4..] == a[4..] + b;
      DecodeAppend(a[4..], b, n - 1);
    }
  }

  /** The inner loop of both functions: what a full buffer adds to the result. */
  method AppendChars(ret: string, charArray4: seq<Sextet>, count: nat) returns (r: string)
    requires |charArray4| == 4 && count <= 4
    ensures r == ret + Chars(charArray4[..count])
  {
    r := ret;
    var j := 0;
    while j < count
      invariant 0 <= j <= count
      invariant r == ret + Chars(charArray4[..j])
    {
      assert charArray4[..j + 1][..j] == charArray4[..j];
      r := r + [CharOf(charArray4[j])];
      j := j + 1;
    }
  }

  lemma FullChunk(before: seq<Byte>, chunk: seq<Byte>, n: nat)
    requires |before| == 3 * n && |chunk| == 3
    ensures Bare(before + chunk) == Bare(before) + Chars(Quad(chunk[0], chunk[1], chunk[2]))
  {
    BareAppend(before, chunk, n);
    assert chunk[3..] == [];
  }

  lemma FullQuad(before: string, chunk: string, n: nat)
    requires |before| == 4 * n && |chunk| == 4
    ensures DecodeAll(before + chunk) ==
              DecodeAll(before) + Triple(Find(chunk[0]), Find(chunk[1]), Find(chunk[2]), Find(chunk[3]))
  {
    DecodeAppend(before, chunk, n);
    assert chunk[4..] == "";
  }

  method EncodeBuffer(ret: string, charArray3: array<Byte>, count: nat) returns (r: string)
    requires charArray3.Length == 3 && count <= 4
    ensures r == ret + Chars(Quad(charArray3[0], charArray3[1], charArray3[2])[..count])
  {
    var charArray4 := Quad(charArray3[0], charArray3[1], charArray3[2]);
    r := AppendChars(ret, charArray4, count);
  }

  lemma Grow<T>(s: seq<T>, at: nat, done: seq<T>, left: seq<T>)
    requires at < |s| && s[..at] == done + left
    ensures s[..at + 1] == done + (left + [s[at]]) == done + (left + [s[at]]) + []
  {
  }

  /** char_array[i++] = c; */
  method Store<T>(a: array<T>, i: nat, c: T)
    requires i < a.Length
    modifies a
    ensures a[..i + 1] == old(a[..i]) + [c]
  {
    a[i] := c;
  }

  method Clear<T>(a: array<T>, from: nat, zero: T)
    requires from <= a.Length
    modifies a
    ensures a[..from] == old(a[..from])
    ensures forall k :: from <= k < a.Length ==> a[k] == zero
  {
    var j := from;
    while j < a.Length
      invariant from <= j <= a.Length
      invariant a[..from] == old(a[..from])
      invariant forall k :: from <= k < j ==> a[k] == zero
    {
      a[j] := zero;
      j := j + 1;
    }
  }

  /** while ((i++ < 3)) ret += '='; */
  method Pad(ret: string, left: nat) returns (r: string)
    requires 1 <= left <= 2
    ensures r == ret + Padding(left)
  {
    r := ret;
    var i := left;
    while i < 3
      invariant left <= i <= 3
      invariant r == ret + (if i == left then "" else if i == left + 1 then "=" else "==")
    {
      r := r + "=";
      i := i + 1;
    }
  }

  /** What is left in the buffer after the loop. */
  method FinishEncode(ret: string, charArray3: array<Byte>, i: nat, ghost left: seq<Byte>) returns (r: string)
    requires charArray3.Length == 3 && i == |left| < 3 && charArray3[..i] == left
    modifies charArray3
    ensures r == ret + Encode(left)
  {
    if i == 0 {
      return ret;
    }
    Clear(charArray3, i, 0);
    assert forall k :: 0 <= k < i ==> charArray3[k] == charArray3[..i][k];
    r := EncodeBuffer(ret, charArray3, i + 1);
    assert r == ret + Bare(left);
    r := Pad(r, i);
  }

  method Base64Encode(bytesToEncode: seq<Byte>) returns (ret: string)
    requires |bytesToEncode| < 0x1_0000_0000
    ensures ret == Encode(bytesToEncode)
  {
    ret := "";
    var charArray3 := new Byte[3](_ => 0);
    var i, at := 0, 0;
    ghost var n, done, left := 0, [], [];
    while at < |bytesToEncode|
      invariant 0 <= i < 3 && |done| == 3 * n && at <= |bytesToEncode|
      invariant left == charArray3[..i] && bytesToEncode[..at] == done + left
      invariant ret == Bare(done)
    {
      Store(charArray3, i, bytesToEncode[at]);
      Grow(bytesToEncode, at, done, left);
      left := left + [bytesToEncode[at]];
      i, at := i + 1, at + 1;
      if i == 3 {
        ret := EncodeBuffer(ret, charArray3, 4);
        FullChunk(done, left, n);
        n, done, left, i := n + 1, done + left, [], 0;
      }
    }
    EncodeAppend(done, left, n);
    assert bytesToEncode[..at] == bytesToEncode;
    ret := FinishEncode(ret, charArray3, i, left);
  }

  method DecodeBuffer(ret: seq<Byte>, charArray4: array<char>, count: nat) returns (r: seq<Byte>)
    requires charArray4.Length == 4 && count <= 3
    ensures r == ret + Triple(Find(charArray4[0]), Find(charArray4[1]), Find(charArray4[2]), Find(charArray4[3]))[..count]
  {
    var charArray3 := Triple(Find(charArray4[0]), Find(charArray4[1]), Find(charArray4[2]), Find(charArray4[3]));
    r := ret;
    var j := 0;
    while j < count
      invariant 0 <= j <= count
      invariant r == ret + charArray3[..j]
    {
      r := r + [charArray3[j]];
      j := j + 1;
    }
  }

  method FinishDecode(ret: seq<Byte>, charArray4: array<char>, i: nat, ghost left: string) returns (r: seq<Byte>)
    requires charArray4.Length == 4 && i == |left| < 4 && charArray4[..i] == left
    modifies charArray4
    ensures r == ret + DecodeAll(left)
  {
    if i == 0 {
      return ret;
    }
    Clear(charArray4, i, '\0');
    assert forall k :: 0 <= k < i ==> charArray4[k] == charArray4[..i][k];
    assert forall k :: i <= k < 4 ==> Find(charArray4[k]) == 255;
    r := DecodeBuffer(ret, charArray4, i - 1);
  }

  method Base64Decode(encodedString: string) returns (ret: seq<Byte>)
    requires |encodedString| <= 0x7fff_ffff
    ensures ret == Decode(encodedString)
  {
    ret := [];
    var charArray4 := new char[4](_ => '\0');
    var i, at := 0, 0;
    ghost var n, done, left := 0, [], [];
    while at < |encodedString| && encodedString[at] != '=' && IsBase64(encodedString[at])
      invariant 0 <= i < 4 && |done| == 4 * n && at <= |encodedString|
      invariant at <= Valid(encodedString)
      invariant left == charArray4[..i] && encodedString[..at] == done + left
      invariant ret == DecodeAll(done)
    {
      ValidNext(encodedString, at);
      Store(charArray4, i, encodedString[at]);
      Grow(encodedString, at, done, left);
      left := left + [encodedString[at]];
      i, at := i + 1, at + 1;
      if i == 4 {
        ret := DecodeBuffer(ret, charArray4, 3);
        FullQuad(done, left, n);
        n, done, left, i := n + 1, done + left, [], 0;
      }
    }
    assert at == Valid(encodedString);
    DecodeAppend(done, left, n);
    ret := FinishDecode(ret, charArray4, i, left);
  }
}
