/** Percent encoding and decoding of query values; characters stand for bytes. */
module Percent {

  /** The characters that are escaped. The digits are among them, '%' is not. */
  predicate Special(c: char) {
    c == '!' || c == '#' || c == '$' || '&' <= c <= ',' || '/' <= c <= ';' ||
    c == '=' || c == '?' || c == '@' || c == '[' || c == ']'
  }

  function HexChar(n: nat): char
    requires n < 16
  {
    if n < 10 then (n + 48) as char else (n + 55) as char
  }

  function EncodeChar(c: char): string {
    if c == ' ' then "+"
    else if Special(c) then ['%', HexChar(c as int / 16), HexChar(c as int % 16)]
    else [c]
  }

  function Encode(value: string): (r: string)
    ensures |r| >= |value|
  {
    if value == "" then "" else EncodeChar(value[0]) + Encode(value[1..])
  }

  /** The value of a hexadecimal digit, or 16. */
  function HexValue(c: char): (n: nat)
    ensures n <= 16
  {
    if '0' <= c <= '9' then c as int - 48
    else if 'A' <= c <= 'F' then c as int - 55
    else if 'a' <= c <= 'f' then c as int - 87
    else 16
  }

  predicate IsSpace(c: char) { c == ' ' || '\t' <= c <= '\r' }

  /** strtol of two characters to base 16, stored in a char: white space and signs are skipped,
      anything else ends the number. */
  function TwoDigits(c: char, d: char): char {
    var high, low := HexValue(c), HexValue(d);
    if high < 16 then (if low < 16 then high * 16 + low else high) as char
    else if low == 16 then '\0'
    else if IsSpace(c) || c == '+' then low as char
    else if c == '-' then ((256 - low) % 256) as char
    else '\0'
  }

  function Decode(value: string): string {
    if value == "" then ""
    else if value[0] == '%' && 2 < |value| then [TwoDigits(value[1], value[2])] + Decode(value[3..])
    else if value[0] == '+' then " " + Decode(value[1..])
    else [value[0]] + Decode(value[1..])
  }

  // ---------- round trip ----------

  lemma EscapeIsUndone(c: char)
    requires Special(c)
    ensures TwoDigits(HexChar(c as int / 16), HexChar(c as int % 16)) == c
  {
    assert c as int == c as int / 16 * 16 + c as int % 16;
  }

  const SPECIAL := "!#$&'()*+,/0123456789:;=?@[]"

  const UPPER := "0123456789ABCDEF"

  const LOWER := "0123456789abcdef"

  /** Which characters are escaped, and how: '%' and two capital hexadecimal digits. */
  lemma {:induction false} EscapeIs(c: char)
    ensures c in SPECIAL <==> EncodeChar(c) != [c] && c != ' '
    ensures c in SPECIAL ==> EncodeChar(c) == ['%', UPPER[c as int / 16], UPPER[c as int % 16]]
    ensures c == ' ' ==> EncodeChar(c) == "+"
  {
    SpecialIs(c);
    if Special(c) {
      UpperIs(c as int / 16);
      UpperIs(c as int % 16);
    }
  }

  lemma SpecialIs(c: char)
    ensures Special(c) <==> c in SPECIAL
    ensures Special(c) ==> c as int < 128
  {
    var s := SPECIAL;
    assert s[0] == '!' && s[1] == '#' && s[2] == '$' && s[3] == '&' && s[4] == '\'' && s[5] == '(' && s[6] == ')';
    assert s[7] == '*' && s[8] == '+' && s[9] == ',' && s[10] == '/' && s[11] == '0' && s[12] == '1' && s[13] == '2';
    assert s[14] == '3' && s[15] == '4' && s[16] == '5' && s[17] == '6' && s[18] == '7' && s[19] == '8' && s[20] == '9';
    assert s[21] == ':' && s[22] == ';' && s[23] == '=' && s[24] == '?' && s[25] == '@' && s[26] == '[' && s[27] == ']';
  }

  lemma UpperIs(n: nat)
    requires n < 16
    ensures HexChar(n) == UPPER[n] && HexValue(UPPER[n]) == n && HexValue(LOWER[n]) == n
  {
  }

  /** What an escape stands for: any two hexadecimal digits, in capitals or not. */
  lemma {:induction false} EscapeMeans(n: nat, c: char, d: char)
    requires n < 256 && (c == UPPER[n / 16] || c == LOWER[n / 16]) && (d == UPPER[n % 16] || d == LOWER[n % 16])
    ensures TwoDigits(c, d) as int == n
  {
    UpperIs(n / 16);
    UpperIs(n % 16);
  }

  /** How any text is decoded, from the front; an escape that is cut short stays as it is. */
  lemma {:induction false} DecodedText(n: nat, c: char, d: char, e: char, rest: string)
    requires n < 256 && (c == UPPER[n / 16] || c == LOWER[n / 16]) && (d == UPPER[n % 16] || d == LOWER[n % 16])
    ensures Decode(['%', c, d] + rest) == [n as char] + Decode(rest)
    ensures Decode("+" + rest) == " " + Decode(rest)
    ensures e !in "+%" || (e == '%' && |rest| < 2) ==> Decode([e] + rest) == [e] + Decode(rest)
  {
    EscapeMeans(n, c, d);
    assert (['%', c, d] + rest)[3..] == rest && ("+" + rest)[1..] == rest && ([e] + rest)[1..] == rest;
  }

  /** Where a '%' is not followed by two characters of the encoding. */
  predicate Harmless(value: string) {
    forall i: nat :: i < |value| ==> HarmlessAt(value, i)
  }

  predicate HarmlessAt(value: string, i: nat)
    requires i < |value|
  {
    value[i] == '%' ==> i + 1 == |value| || (i + 2 == |value| && !Special(value[i + 1]))
  }

  lemma ShortEncoding(tail: string)
    ensures |Encode(tail)| < 2 <==> tail == "" || (|tail| == 1 && !Special(tail[0]))
  {
    if tail != "" {
      assert Encode(tail) == EncodeChar(tail[0]) + Encode(tail[1..]);
    }
  }

  lemma HarmlessTail(value: string)
    requires value != ""
    ensures Harmless(value) <==>
              Harmless(value[1..]) && (value[0] == '%' ==> |Encode(value[1..])| < 2)
  {
    var tail := value[1..];
    ShortEncoding(tail);
    assert HarmlessAt(value, 0) <==> (value[0] == '%' ==> |Encode(tail)| < 2);
    forall i: nat | i < |tail| ensures HarmlessAt(value, i + 1) <==> HarmlessAt(tail, i) {
    }
    if Harmless(tail) && HarmlessAt(value, 0) {
      forall i: nat | i < |value| ensures HarmlessAt(value, i) {
        assert i > 0 ==> HarmlessAt(tail, i - 1);
      }
    }
    if Harmless(value) {
      forall i: nat | i < |tail| ensures HarmlessAt(tail, i) {
        assert HarmlessAt(value, i + 1);
      }
    }
  }

  /** No encoding starts with a digit, so the two characters after a '%' never spell "25". */
  lemma NeverAPercent(tail: string)
    requires |Encode(tail)| >= 2
    ensures TwoDigits(Encode(tail)[0], Encode(tail)[1]) != '%'
  {
    var c := Encode(tail)[0];
    assert tail != "" && c == EncodeChar(tail[0])[0];
    assert HexValue(c) != 2;
  }

  /** Section 2.1 of RFC 3986 escapes '%' itself; this encoder does not. Decoding gives a value
      back exactly when no '%' in it is followed by two characters of the encoding. */
  lemma {:induction false} RoundTripIff(value: string)
    ensures Decode(Encode(value)) == value <==> Harmless(value)
  {
    if value != "" {
      var c, tail := value[0], value[1..];
      RoundTripIff(tail);
      HarmlessTail(value);
      assert value == [c] + tail;
      Front(c, tail);
    }
  }

  /** How decoding begins. */
  lemma Front(c: char, tail: string)
    ensures c != '%' || |Encode(tail)| < 2 ==> Decode(Encode([c] + tail)) == [c] + Decode(Encode(tail))
    ensures c == '%' && |Encode(tail)| >= 2 ==>
              Decode(Encode([c] + tail)) != "" && Decode(Encode([c] + tail))[0] != '%'
  {
    assert ([c] + tail)[1..] == tail;
    var s := Encode([c] + tail);
    assert s == EncodeChar(c) + Encode(tail);
    assert s[|EncodeChar(c)|..] == Encode(tail);
    if Special(c) {
      EscapeIsUndone(c);
    } else if c == '%' && |Encode(tail)| >= 2 {
      NeverAPercent(tail);
    }
  }

  lemma {:induction false} PlainIsHarmless(value: string)
    requires '%' !in value
    ensures Decode(Encode(value)) == value
  {
    RoundTripIff(value);
  }

  predicate Separator(c: char) { c == '&' || c == '=' || c == '#' || c == ' ' }

  /** An encoded value contains no separator of a query. */
  lemma {:induction false} NoSeparator(value: string)
    ensures forall i :: 0 <= i < |Encode(value)| ==> !Separator(Encode(value)[i])
  {
    if value != "" {
      NoSeparator(value[1..]);
    }
  }

  // ---------- the loops ----------

  lemma EncodeNext(result: string, value: string, k: nat)
    requires k < |value|
    ensures result + Encode(value[k..]) == result + EncodeChar(value[k]) + Encode(value[k + 1..])
  {
    assert value[k..][1..] == value[k + 1..];
  }

  method AppendChar(result: string, chr: char) returns (r: string)
    ensures r == result + EncodeChar(chr)
  {
    if chr == ' ' {
      r := result + "+";
    } else if Special(chr) {
      r := result + ("%" + [HexChar(chr as int / 16)] + [HexChar(chr as int % 16)]);
    } else {
      r := result + [chr];
    }
  }

  method EncodeLoop(value: string) returns (result: string)
    ensures result == Encode(value)
  {
    result := "";
    var k := 0;
    while k < |value|
      invariant 0 <= k <= |value|
      invariant result + Encode(value[k..]) == Encode(value)
    {
      EncodeNext(result, value, k);
      result := AppendChar(result, value[k]);
      k := k + 1;
    }
  }

  lemma DecodeNext(result: string, value: string, i: nat)
    requires i < |value|
    ensures result + Decode(value[i..]) ==
              if value[i] == '%' && i + 2 < |value| then
                result + [TwoDigits(value[i + 1], value[i + 2])] + Decode(value[i + 3..])
              else result + [if value[i] == '+' then ' ' else value[i]] + Decode(value[i + 1..])
  {
    if value[i] == '%' && i + 2 < |value| {
      assert value[i..][3..] == value[i + 3..];
    } else {
      assert value[i..][1..] == value[i + 1..];
    }
  }

  method DecodeLoop(value: string) returns (result: string)
    ensures result == Decode(value)
  {
    result := "";
    var i := 0;
    while i < |value|
      invariant 0 <= i <= |value|
      invariant result + Decode(value[i..]) == Decode(value)
    {
      DecodeNext(result, value, i);
      var chr := value[i];
      if chr == '%' && i + 2 < |value| {
        result := result + [TwoDigits(value[i + 1], value[i + 2])];
        i := i + 2;
      } else if chr == '+' {
        result := result + [' '];
      } else {
        result := result + [chr];
      }
      i := i + 1;
    }
  }
}
