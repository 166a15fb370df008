/**
 The head of an HTTP request: what create_request_header and the blank line print, and what
 RequestMessage and HttpHeader parse. No proxy. A stream is the text that is still to be read.
 */
module HttpHead {
  import opened Sequences
  import opened Wrappers

  datatype Header = Header(name: string, value: string)

  /** `query` is None when the parser leaves the caller's query string alone. */
  datatype Request = Request(method_: string, path: string, query: Option<string>, version: string,
                             headers: seq<Header>)

  /** Hangs: the header loop gets the same line again and again, because the stream has ended
      in the middle of a line that contains ':'. */
  datatype Outcome<T> = Rejected | Hangs | Parsed(value: T, rest: string)

  // ---------- searching ----------

  /** find: the first `c` at or after `from`, or the length. */
  function First(s: string, c: char, from: nat): (k: nat)
    requires from <= |s|
    ensures from <= k <= |s|
    decreases |s| - from
  {
    if from == |s| || s[from] == c then from else First(s, c, from + 1)
  }

  lemma {:induction false} FirstIs(s: string, c: char, from: nat, k: nat)
    requires from <= k <= |s| && (k < |s| ==> s[k] == c)
    requires forall i :: from <= i < k ==> s[i] != c
    ensures First(s, c, from) == k
    decreases k - from
  {
    if from < k {
      FirstIs(s, c, from + 1, k);
    }
  }

  lemma {:induction false} FirstAtMost(s: string, c: char, from: nat, i: nat)
    requires from <= i < |s| && s[i] == c
    ensures First(s, c, from) <= i
    decreases i - from
  {
    if from < i {
      FirstAtMost(s, c, from + 1, i);
    }
  }

  lemma {:induction false} FirstCuts(s: string, c: char, from: nat)
    requires from <= |s|
    ensures c !in s[from..First(s, c, from)]
    ensures First(s, c, from) < |s| ==> s[First(s, c, from)] == c
    decreases |s| - from
  {
    if from < |s| && s[from] != c {
      FirstCuts(s, c, from + 1);
      assert s[from..First(s, c, from)] == [s[from]] + s[from + 1..First(s, c, from)];
    }
  }

  /** The first `c` in a text that begins with `a`, continues with `c`, and has no `c` in `a`. */
  lemma FirstAfter(p: string, a: string, c: char, rest: string)
    requires c !in a
    ensures First(p + (a + ([c] + rest)), c, |p|) == |p| + |a|
    ensures p + (a + ([c] + rest)) == (p + a + [c]) + rest
  {
    var s := p + (a + ([c] + rest));
    assert s[|p| + |a|] == c;
    forall i | |p| <= i < |p| + |a| ensures s[i] != c {
      assert s[i] == a[i - |p|];
    }
    FirstIs(s, c, |p|, |p| + |a|);
  }

  /** The last '?' before `end` and at or after `from`, or -1. */
  function LastMark(s: string, from: nat, end: nat): (k: int)
    requires from <= end <= |s|
    ensures k == -1 || (from <= k < end)
    decreases end
  {
    if from == end then -1 else if s[end - 1] == '?' then end - 1 else LastMark(s, from, end - 1)
  }

  lemma {:induction false} LastMarkIs(s: string, from: nat, end: nat)
    requires from <= end <= |s|
    ensures LastMark(s, from, end) != -1 ==> s[LastMark(s, from, end)] == '?'
    decreases end
  {
    if from < end {
      LastMarkIs(s, from, end - 1);
    }
  }

  // ---------- parsing ----------

  function Line(s: string): string { s[..First(s, '\n', 0)] }

  function AfterLine(s: string): (rest: string)
    ensures s != "" ==> |rest| < |s|
  {
    var k := First(s, '\n', 0);
    if k == |s| then "" else s[k + 1..]
  }

  predicate Ended(s: string) { First(s, '\n', 0) == |s| }

  /** One header line: a single space after ':' and the last character, the '\r', are cut off. */
  function ParseHeader(line: string): seq<Header> {
    var c := First(line, ':', 0);
    if c + 1 >= |line| then []
    else
      var v := if line[c + 1] == ' ' then c + 2 else c + 1;
      if v < |line| then [Header(line[..c], line[v..|line| - 1])] else []
  }

  function Prepend(h: seq<Header>, o: Outcome<seq<Header>>): Outcome<seq<Header>> {
    if o.Parsed? then o.(value := h + o.value) else o
  }

  /** HttpHeader::parse: up to the first line without ':'. */
  function ParseHeaders(s: string): (o: Outcome<seq<Header>>)
    ensures !o.Rejected?
    decreases |s|
  {
    if First(Line(s), ':', 0) == |Line(s)| then Parsed([], AfterLine(s))
    else if Ended(s) then Hangs
    else Prepend(ParseHeader(Line(s)), ParseHeaders(AfterLine(s)))
  }

  const NO_REQUEST := Request("", "", None, "", [])

  /** From the first space at `m` and the second at `e`. */
  function Cut(line: string, m: nat, e: nat): Request
    requires m < e < |line|
  {
    var q := LastMark(line, m + 1, e);
    if q == -1 then NO_REQUEST.(method_ := line[..m], path := line[m + 1..e])
    else NO_REQUEST.(method_ := line[..m], path := line[m + 1..q], query := Some(line[q + 1..e]))
  }

  /** What follows "HTTP/", without the last character, the '\r'. */
  function Version(line: string, from: nat): Option<string>
    requires from <= |line|
  {
    var p := First(line, '/', from);
    if p == |line| || line[from..p] != "HTTP" then None
    else Some(if p + 1 < |line| then line[p + 1..|line| - 1] else "")
  }

  function ParseRequestLine(line: string): Option<Request> {
    var m := First(line, ' ', 0);
    if m == |line| then None
    else
      var e := First(line, ' ', m + 1);
      if e == |line| then None
      else
        var v := Version(line, e + 1);
        if v.None? then None else Some(Cut(line, m, e).(version := v.value))
  }

  /** RequestMessage::parse. */
  function ParseRequest(s: string): Outcome<Request> {
    var r := ParseRequestLine(Line(s));
    if r.None? then Rejected
    else
      var h := ParseHeaders(AfterLine(s));
      if h.Parsed? then Parsed(r.value.(headers := h.value), h.rest) else Hangs
  }

  // ---------- printing ----------

  function Corrected(path: string): string { if path == "" then "/" else path }

  function RequestLine(method_: string, target: string): string {
    method_ + (" " + (target + (" " + "HTTP/1.1\r")))
  }

  function HeaderLine(h: Header): string { h.name + (":" + (" " + h.value + "\r")) }

  /** The header lines, the blank line, and what follows it. */
  function PrintHeaders(hs: seq<Header>, body: string): string {
    if hs == [] then "\r" + ("\n" + body)
    else HeaderLine(hs[0]) + ("\n" + PrintHeaders(hs[1..], body))
  }

  function Print(method_: string, path: string, headers: seq<Header>, body: string): string {
    RequestLine(method_, Corrected(path)) + ("\n" + PrintHeaders(headers, body))
  }

  // ---------- round trip ----------

  predicate CleanHeader(h: Header) { ':' !in h.name && '\n' !in h.name && '\n' !in h.value }

  ghost predicate AllClean(hs: seq<Header>) { forall i :: 0 <= i < |hs| ==> CleanHeader(hs[i]) }

  predicate CleanToken(s: string) { ' ' !in s && '\n' !in s }

  lemma LineOf(l: string, rest: string)
    requires '\n' !in l
    ensures Line(l + ("\n" + rest)) == l && AfterLine(l + ("\n" + rest)) == rest && !Ended(l + ("\n" + rest))
  {
    FirstAfter("", l, '\n', rest);
    assert "" + (l + (['\n'] + rest)) == l + ("\n" + rest);
  }

  lemma ColonIsFound(h: Header)
    requires ':' !in h.name
    ensures First(HeaderLine(h), ':', 0) == |h.name|
  {
    var tail := " " + h.value + "\r";
    FirstAfter("", h.name, ':', tail);
    assert "" + (h.name + ([':'] + tail)) == HeaderLine(h);
  }

  lemma HeaderLineParts(h: Header)
    ensures var line, n := HeaderLine(h), |h.name|;
            && |line| == n + 3 + |h.value| && line[..n] == h.name && line[n + 1] == ' '
            && line[n + 2..|line| - 1] == h.value
  {
  }

  lemma HeaderIsParsed(h: Header)
    requires ':' !in h.name
    ensures First(HeaderLine(h), ':', 0) == |h.name| < |HeaderLine(h)|
    ensures ParseHeader(HeaderLine(h)) == [h]
  {
    ColonIsFound(h);
    HeaderLineParts(h);
  }

  /** The space behind the ':' of a header may be left out; the line end is not part of the value. */
  lemma {:induction false} SpaceIsOptional(name: string, value: string)
    requires ':' !in name && (value != "" ==> value[0] != ' ')
    ensures ParseHeader(name + (":" + (" " + value + "\r"))) == [Header(name, value)]
    ensures ParseHeader(name + (":" + (value + "\r"))) == [Header(name, value)]
  {
    HeaderIsParsed(Header(name, value));
    var tail := value + "\r";
    var line := name + (":" + tail);
    FirstAfter("", name, ':', tail);
    assert "" + (name + ([':'] + tail)) == line;
    assert line[..|name|] == name && line[|name| + 1..|line| - 1] == value;
    assert line[|name| + 1] == tail[0];
  }

  lemma {:induction false} HeadersAreParsed(hs: seq<Header>, body: string)
    requires AllClean(hs)
    ensures ParseHeaders(PrintHeaders(hs, body)) == Parsed(hs, body)
  {
    if hs == [] {
      LineOf("\r", body);
      FirstIs("\r", ':', 0, 1);
    } else {
      var line, rest := HeaderLine(hs[0]), PrintHeaders(hs[1..], body);
      HeaderIsParsed(hs[0]);
      assert '\n' !in line;
      LineOf(line, rest);
      HeadersAreParsed(hs[1..], body);
      NextHeader(line + ("\n" + rest), hs[0], hs[1..], body);
      assert hs == [hs[0]] + hs[1..];
    }
  }

  lemma {:induction false} NextHeader(s: string, h: Header, hs: seq<Header>, body: string)
    requires First(Line(s), ':', 0) < |Line(s)| && !Ended(s) && ParseHeader(Line(s)) == [h]
    requires ParseHeaders(AfterLine(s)) == Parsed(hs, body)
    ensures ParseHeaders(s) == Parsed([h] + hs, body)
  {
  }

  /** Whatever is parsed, header names contain no ':' and nothing contains a newline. */
  lemma HeaderIsClean(line: string)
    requires '\n' !in line
    ensures AllClean(ParseHeader(line))
  {
    FirstCuts(line, ':', 0);
    var c := First(line, ':', 0);
    assert line[0..c] == line[..c];
    assert forall x :: x in line[..c] ==> x in line;
  }

  lemma {:induction false} HeadersAreClean(s: string)
    requires ParseHeaders(s).Parsed?
    ensures AllClean(ParseHeaders(s).value)
    decreases |s|
  {
    FirstCuts(s, '\n', 0);
    assert s[0..First(s, '\n', 0)] == Line(s);
    if First(Line(s), ':', 0) < |Line(s)| {
      HeaderIsClean(Line(s));
      HeadersAreClean(AfterLine(s));
    }
  }

  /** The request target that path and query string stand for. */
  function Target(r: Request): string {
    r.path + if r.query.Some? then "?" + r.query.value else ""
  }

  lemma CutTarget(line: string, m: nat, e: nat)
    requires m < e < |line|
    ensures Target(Cut(line, m, e)) == line[m + 1..e]
    ensures Cut(line, m, e).query.None? ==> Cut(line, m, e).path == line[m + 1..e]
  {
    LastMarkIs(line, m + 1, e);
    var q := LastMark(line, m + 1, e);
    if q != -1 {
      assert line[m + 1..e] == line[m + 1..q] + ("?" + line[q + 1..e]);
    } else {
      assert line[m + 1..e] + "" == line[m + 1..e];
    }
  }

  /** The query begins behind the last '?' of the target. */
  lemma {:induction false} QueryIsLast(line: string, m: nat, e: nat)
    requires m < e < |line|
    ensures var r := Cut(line, m, e);
            && (r.query.Some? <==> '?' in line[m + 1..e])
            && (r.query.Some? ==> '?' !in r.query.value)
            && r.method_ == line[..m] && Target(r) == line[m + 1..e]
  {
    CutTarget(line, m, e);
    MarkIsFound(line, m + 1, e);
    LastMarkIsLast(line, m + 1, e);
  }

  lemma {:induction false} LastMarkIsLast(s: string, from: nat, end: nat)
    requires from <= end <= |s|
    ensures '?' !in s[(if LastMark(s, from, end) == -1 then from else LastMark(s, from, end) + 1)..end]
    decreases end
  {
    if from < end && s[end - 1] != '?' {
      LastMarkIsLast(s, from, end - 1);
      var k := if LastMark(s, from, end) == -1 then from else LastMark(s, from, end) + 1;
      assert s[k..end] == s[k..end - 1] + [s[end - 1]];
    }
  }

  lemma {:induction false} MarkIsFound(line: string, from: nat, end: nat)
    requires from <= end <= |line|
    ensures LastMark(line, from, end) == -1 <==> '?' !in line[from..end]
    decreases end
  {
    if from < end {
      MarkIsFound(line, from, end - 1);
      assert line[from..end] == line[from..end - 1] + [line[end - 1]];
    }
  }

  /** Where the three parts of a printed request line are. */
  lemma RequestLineParts(method_: string, target: string)
    ensures var line, m, e := RequestLine(method_, target), |method_|, |method_| + 1 + |target|;
            && |line| == e + 10 && line[..m] == method_ && line[m + 1..e] == target
            && line[e + 1..e + 5] == "HTTP" && line[e + 6..|line| - 1] == "1.1"
  {
  }

  lemma FirstSpace(method_: string, target: string)
    requires ' ' !in method_
    ensures First(RequestLine(method_, target), ' ', 0) == |method_|
  {
    var tail := target + (" " + "HTTP/1.1\r");
    FirstAfter("", method_, ' ', tail);
    assert "" + (method_ + ([' '] + tail)) == RequestLine(method_, target);
  }

  lemma SecondSpace(method_: string, target: string)
    requires ' ' !in target
    ensures First(RequestLine(method_, target), ' ', |method_| + 1) == |method_| + 1 + |target|
  {
    FirstAfter(method_ + " ", target, ' ', "HTTP/1.1\r");
    Assoc(method_, " ", target + ([' '] + "HTTP/1.1\r"));
  }

  lemma HttpVersion()
    ensures "HTTP" + (['/'] + "1.1\r") == "HTTP/1.1\r"
  {
  }

  lemma Regrouped(method_: string, target: string, version: string)
    ensures method_ + (" " + (target + (" " + version))) == method_ + " " + target + " " + version
  {
    Assoc(method_, " ", target + (" " + version));
    Assoc(method_ + " ", target, " " + version);
    Assoc(method_ + " " + target, " ", version);
  }

  lemma {:induction false} ProtocolSlash(method_: string, target: string)
    ensures First(RequestLine(method_, target), '/', |method_| + |target| + 2) == |method_| + |target| + 6
  {
    var p, line := method_ + " " + target + " ", RequestLine(method_, target);
    VersionSlash(p);
    Regrouped(method_, target, "HTTP/1.1\r");
    assert line == p + "HTTP/1.1\r" && |p| == |method_| + |target| + 2;
  }

  lemma VersionSlash(p: string)
    ensures First(p + "HTTP/1.1\r", '/', |p|) == |p| + 4
  {
    HttpVersion();
    FirstAfter(p, "HTTP", '/', "1.1\r");
  }

  lemma LineIsParsed(line: string, m: nat, e: nat, p: nat)
    requires m < e < p < |line| - 1
    requires First(line, ' ', 0) == m && First(line, ' ', m + 1) == e && First(line, '/', e + 1) == p
    requires line[e + 1..p] == "HTTP"
    ensures ParseRequestLine(line) == Some(Cut(line, m, e).(version := line[p + 1..|line| - 1]))
  {
  }

  lemma RequestLineIsParsed(method_: string, target: string)
    requires ' ' !in method_ && ' ' !in target
    ensures ParseRequestLine(RequestLine(method_, target)) ==
              Some(Cut(RequestLine(method_, target), |method_|, |method_| + 1 + |target|).(version := "1.1"))
  {
    RequestLineParts(method_, target);
    FirstSpace(method_, target);
    SecondSpace(method_, target);
    ProtocolSlash(method_, target);
    var e := |method_| + 1 + |target|;
    LineIsParsed(RequestLine(method_, target), |method_|, e, e + 5);
  }

  /** What is parsed from one line has no space or newline in its method and target. */
  lemma ParsedLineIsClean(line: string)
    requires '\n' !in line && ParseRequestLine(line).Some?
    ensures CleanToken(ParseRequestLine(line).value.method_)
    ensures CleanToken(Target(ParseRequestLine(line).value))
  {
    var m := First(line, ' ', 0);
    var e := First(line, ' ', m + 1);
    TokenIsClean(line, 0);
    TokenIsClean(line, m + 1);
    CutTarget(line, m, e);
    var r := ParseRequestLine(line).value;
    assert r.method_ == line[0..m] && Target(r) == line[m + 1..e];
  }

  lemma TokenIsClean(line: string, from: nat)
    requires '\n' !in line && from <= |line|
    ensures from <= First(line, ' ', from) <= |line| && CleanToken(line[from..First(line, ' ', from)])
  {
    FirstCuts(line, ' ', from);
    var token := line[from..First(line, ' ', from)];
    assert forall c :: c in token ==> c in line;
  }

  /** Everything that was printed is there again, and the body is left in the stream. */
  ghost predicate Faithful(o: Outcome<Request>, method_: string, path: string, headers: seq<Header>, body: string) {
    && o.Parsed?
    && o.value.method_ == method_
    && Target(o.value) == Corrected(path)
    && (o.value.query.Some? <==> '?' in path)
    && o.value.version == "1.1"
    && o.value.headers == headers
    && o.rest == body
  }

  lemma RequestLineIsClean(method_: string, target: string)
    requires '\n' !in method_ && '\n' !in target
    ensures '\n' !in RequestLine(method_, target)
  {
  }

  lemma Compose(s: string, r: Request, hs: seq<Header>, body: string)
    requires ParseRequestLine(Line(s)) == Some(r) && ParseHeaders(AfterLine(s)) == Parsed(hs, body)
    ensures ParseRequest(s) == Parsed(r.(headers := hs), body)
  {
  }

  lemma CutOf(line: string, m: nat, e: nat, method_: string, target: string)
    requires m < e < |line| && line[..m] == method_ && line[m + 1..e] == target
    ensures var r := Cut(line, m, e);
            r.method_ == method_ && Target(r) == target && (r.query.Some? <==> '?' in target)
  {
    CutTarget(line, m, e);
    MarkIsFound(line, m + 1, e);
  }

  lemma PrintedCut(method_: string, target: string)
    ensures var r := Cut(RequestLine(method_, target), |method_|, |method_| + 1 + |target|);
            r.method_ == method_ && Target(r) == target && (r.query.Some? <==> '?' in target)
  {
    RequestLineParts(method_, target);
    CutOf(RequestLine(method_, target), |method_|, |method_| + 1 + |target|, method_, target);
  }

  lemma CleanIsFaithful(method_: string, path: string, headers: seq<Header>, body: string)
    requires CleanToken(method_) && CleanToken(path) && AllClean(headers)
    ensures Faithful(ParseRequest(Print(method_, path, headers, body)), method_, path, headers, body)
  {
    var target := Corrected(path);
    var line := RequestLine(method_, target);
    RequestLineIsClean(method_, target);
    LineOf(line, PrintHeaders(headers, body));
    RequestLineIsParsed(method_, target);
    HeadersAreParsed(headers, body);
    var r := Cut(line, |method_|, |method_| + 1 + |target|).(version := "1.1");
    Compose(Print(method_, path, headers, body), r, headers, body);
    PrintedCut(method_, target);
  }

  lemma {:induction false} FaithfulIsClean(method_: string, path: string, headers: seq<Header>, body: string)
    ensures Faithful(ParseRequest(Print(method_, path, headers, body)), method_, path, headers, body) ==>
              CleanToken(method_) && CleanToken(path) && AllClean(headers)
  {
    var s := Print(method_, path, headers, body);
    if Faithful(ParseRequest(s), method_, path, headers, body) {
      FirstCuts(s, '\n', 0);
      assert s[0..First(s, '\n', 0)] == Line(s);
      ParsedLineIsClean(Line(s));
      HeadersAreClean(AfterLine(s));
      assert Target(ParseRequest(s).value) == Target(ParseRequestLine(Line(s)).value);
    }
  }

  /** Sections 3.1.1 and 3.2 of RFC 7230 forbid these characters; the printer checks nothing, and
      the parser gives back what was printed exactly when they do not occur: no space or newline
      in the method and the target, no ':' or newline in a header name, no newline in a value. */
  lemma {:induction false} RoundTripIff(method_: string, path: string, headers: seq<Header>, body: string)
    ensures Faithful(ParseRequest(Print(method_, path, headers, body)), method_, path, headers, body) <==>
              CleanToken(method_) && CleanToken(path) && AllClean(headers)
  {
    if CleanToken(method_) && CleanToken(path) && AllClean(headers) {
      CleanIsFaithful(method_, path, headers, body);
    }
    FaithfulIsClean(method_, path, headers, body);
  }

  // ---------- when the header loop ends ----------

  /** A line begins at `i`; after a final newline an empty one does. */
  predicate LineStart(s: string, i: nat) { i <= |s| && (i == 0 || s[i - 1] == '\n') }

  predicate HasColon(s: string, i: nat)
    requires i <= |s|
  {
    ':' in s[i..First(s, '\n', i)]
  }

  ghost predicate AllColons(s: string) {
    forall i: nat :: LineStart(s, i) ==> HasColon(s, i)
  }

  lemma {:induction false} FirstShift(p: string, s: string, c: char, from: nat)
    requires from <= |s|
    ensures First(p + s, c, |p| + from) == |p| + First(s, c, from)
    decreases |s| - from
  {
    if from < |s| {
      assert (p + s)[|p| + from] == s[from];
      if s[from] != c {
        FirstShift(p, s, c, from + 1);
      }
    }
  }

  lemma ColonInLine(s: string)
    ensures HasColon(s, 0) <==> First(Line(s), ':', 0) < |Line(s)|
  {
    var line := Line(s);
    assert line == s[0..First(s, '\n', 0)];
    FirstCuts(line, ':', 0);
    if First(line, ':', 0) == |line| {
      assert line[0..|line|] == line;
    }
  }

  /** The lines of `s` are its first and those of the rest. */
  lemma {:induction false} LaterLine(s: string, k: nat, j: nat)
    requires k < |s| && s[k] == '\n' && j <= |s| - k - 1
    ensures LineStart(s, k + 1 + j) <==> LineStart(s[k + 1..], j)
    ensures HasColon(s, k + 1 + j) <==> HasColon(s[k + 1..], j)
  {
    var p, rest := s[..k + 1], s[k + 1..];
    assert s == p + rest;
    FirstShift(p, rest, '\n', j);
    assert s[k + 1 + j..First(s, '\n', k + 1 + j)] == rest[j..First(rest, '\n', j)];
  }

  lemma {:induction false} RestHasColons(s: string)
    requires !Ended(s) && AllColons(s)
    ensures AllColons(AfterLine(s))
  {
    var k, rest := First(s, '\n', 0), AfterLine(s);
    FirstCuts(s, '\n', 0);
    forall j: nat | LineStart(rest, j) ensures HasColon(rest, j) {
      LaterLine(s, k, j);
    }
  }

  lemma StartsInRest(s: string, i: nat)
    requires !Ended(s) && LineStart(s, i) && i > 0
    ensures i > First(s, '\n', 0)
  {
    var k := First(s, '\n', 0);
    FirstAtMost(s, '\n', 0, i - 1);
  }

  lemma {:induction false} ColonsFromRest(s: string)
    requires !Ended(s) && HasColon(s, 0) && AllColons(AfterLine(s))
    ensures AllColons(s)
  {
    var k := First(s, '\n', 0);
    FirstCuts(s, '\n', 0);
    forall i: nat | LineStart(s, i) ensures HasColon(s, i) {
      if i > 0 {
        StartsInRest(s, i);
        LaterLine(s, k, i - k - 1);
      }
    }
  }

  lemma {:induction false} ColonsOfRest(s: string)
    requires !Ended(s)
    ensures AllColons(s) <==> HasColon(s, 0) && AllColons(AfterLine(s))
  {
    if AllColons(s) {
      assert LineStart(s, 0);
      RestHasColons(s);
    }
    if HasColon(s, 0) && AllColons(AfterLine(s)) {
      ColonsFromRest(s);
    }
  }

  /** The header loop never ends if and only if every line up to the end of the text, the last
      one without its newline included, contains a ':'. */
  lemma {:induction false} HangsIff(s: string)
    ensures ParseHeaders(s).Hangs? <==> AllColons(s)
    decreases |s|
  {
    ColonInLine(s);
    if First(Line(s), ':', 0) == |Line(s)| {
      assert LineStart(s, 0);
    } else if Ended(s) {
      FirstCuts(s, '\n', 0);
      assert s[0..|s|] == s;
      assert forall i: nat :: LineStart(s, i) ==> i == 0;
    } else {
      ColonsOfRest(s);
      HangsIff(AfterLine(s));
    }
  }

  /** So it ends on every text that ends with a newline, and not on a lone unfinished header. */
  lemma {:induction false} NewlineEndsHeaders(s: string)
    requires s != "" && s[|s| - 1] == '\n'
    ensures ParseHeaders(s).Parsed?
  {
    HangsIff(s);
    assert LineStart(s, |s|) && First(s, '\n', |s|) == |s| && s[|s|..|s|] == "";
  }

  lemma {:induction false} UnfinishedHeaderHangs()
    ensures ParseHeaders("a:b").Hangs?
  {
    FirstIs("a:b", '\n', 0, 3);
    FirstIs("a:b", ':', 0, 1);
    assert "a:b"[..3] == "a:b";
  }

  // ---------- the loops ----------

  function HeaderLines(hs: seq<Header>): string {
    if hs == [] then "" else HeaderLines(hs[..|hs| - 1]) + (HeaderLine(hs[|hs| - 1]) + "\n")
  }

  /** The header lines and the blank line are what PrintHeaders prints. */
  lemma {:induction false} HeaderLinesPrint(hs: seq<Header>, more: seq<Header>, body: string)
    ensures HeaderLines(hs) + PrintHeaders(more, body) == PrintHeaders(hs + more, body)
  {
    if hs == [] {
      assert hs + more == more && "" + PrintHeaders(more, body) == PrintHeaders(more, body);
    } else {
      var last, init := hs[|hs| - 1], hs[..|hs| - 1];
      HeaderLinesPrint(init, [last] + more, body);
      assert ([last] + more)[1..] == more;
      assert init + ([last] + more) == hs + more;
      Assoc(HeaderLines(init), HeaderLine(last) + "\n", PrintHeaders(more, body));
      Assoc(HeaderLine(last), "\n", PrintHeaders(more, body));
    }
  }

  /** What create_request_header writes, the blank line and the content are the printed request. */
  lemma HeadAndBlankLine(method_: string, path: string, hs: seq<Header>, body: string)
    ensures RequestLine(method_, Corrected(path)) + "\n" + HeaderLines(hs) + ("\r" + ("\n" + body)) ==
              Print(method_, path, hs, body)
  {
    HeaderLinesPrint(hs, [], body);
    assert hs + [] == hs;
    assert PrintHeaders([], body) == "\r" + ("\n" + body);
    var line := RequestLine(method_, Corrected(path));
    Assoc(line + "\n", HeaderLines(hs), "\r" + ("\n" + body));
    Assoc(line, "\n", HeaderLines(hs) + ("\r" + ("\n" + body)));
  }

  method CreateRequestHeader(method_: string, path: string, host: string, header: seq<Header>)
    returns (stream: string)
    ensures stream == RequestLine(method_, Corrected(path)) + "\n" + HeaderLines([Header("Host", host)] + header)
  {
    var correctedPath := path;
    if correctedPath == "" {
      correctedPath := "/";
    }
    stream := RequestLine(method_, correctedPath) + "\n";
    ghost var start := stream;
    var first := Header("Host", host);
    HostLine(first, header);
    stream := stream + (HeaderLine(first) + "\n");
    var k := 0;
    while k < |header|
      invariant 0 <= k <= |header|
      invariant stream == start + HeaderLines([first] + header[..k])
    {
      HeaderLinesNext([first], header, k);
      Assoc(start, HeaderLines([first] + header[..k]), HeaderLine(header[k]) + "\n");
      stream := stream + (HeaderLine(header[k]) + "\n");
      k := k + 1;
    }
    assert header[..k] == header;
  }

  /** The printed text, character by character: the request line, and each header line after the
      ones before it. */
  lemma {:induction false} PrintedText(method_: string, path: string, headers: seq<Header>, h: Header)
    ensures RequestLine(method_, Corrected(path)) + "\n" ==
              method_ + " " + (if path == "" then "/" else path) + " HTTP/1.1\r\n"
    ensures HeaderLines([]) == ""
    ensures HeaderLines(headers + [h]) == HeaderLines(headers) + (h.name + ": " + h.value + "\r\n")
  {
    assert HeaderLine(h) + "\n" == h.name + ": " + h.value + "\r\n";
    assert (headers + [h])[..|headers|] == headers;
  }

  lemma HostLine(first: Header, header: seq<Header>)
    ensures HeaderLines([first] + header[..0]) == HeaderLine(first) + "\n"
  {
    assert [first] + header[..0] == [first] && [first][..0] == [];
    assert HeaderLines([]) + (HeaderLine(first) + "\n") == HeaderLine(first) + "\n";
  }

  lemma HeaderLinesNext(all: seq<Header>, header: seq<Header>, k: nat)
    requires k < |header|
    ensures HeaderLines(all + header[..k + 1]) == HeaderLines(all + header[..k]) + (HeaderLine(header[k]) + "\n")
  {
    var longer := all + header[..k + 1];
    assert longer[..|longer| - 1] == all + header[..k];
  }

  lemma PrependTwice(a: seq<Header>, b: seq<Header>, o: Outcome<seq<Header>>)
    ensures Prepend(a, Prepend(b, o)) == Prepend(a + b, o)
  {
    if o.Parsed? {
      assert a + (b + o.value) == a + b + o.value;
    }
  }

  lemma HeadersNext(s: string)
    requires First(Line(s), ':', 0) < |Line(s)| && !ParseHeaders(s).Hangs?
    ensures ParseHeaders(s) == Prepend(ParseHeader(Line(s)), ParseHeaders(AfterLine(s)))
    ensures |AfterLine(s)| < |s| && !ParseHeaders(AfterLine(s)).Hangs?
  {
    assert s != "";
  }

  /** HttpHeader::parse; `rest` is what it leaves in the stream. */
  method ParseHeaderLines(stream: string) returns (result: seq<Header>, rest: string)
    requires !ParseHeaders(stream).Hangs?
    ensures ParseHeaders(stream) == Parsed(result, rest)
  {
    result := [];
    ghost var at := stream;
    var line := Line(stream);
    rest := AfterLine(stream);
    assert forall hs: seq<Header> :: [] + hs == hs;
    while First(line, ':', 0) != |line|
      invariant line == Line(at) && rest == AfterLine(at) && !ParseHeaders(at).Hangs?
      invariant Prepend(result, ParseHeaders(at)) == ParseHeaders(stream)
      decreases |at|
    {
      HeadersNext(at);
      PrependTwice(result, ParseHeader(line), ParseHeaders(rest));
      result := result + ParseHeader(line);
      at := rest;
      line, rest := Line(rest), AfterLine(rest);
    }
    assert result + [] == result;
  }

  /** The loop of RequestMessage::parse over the target; -1 is npos. */
  method ScanTarget(line: string, from: nat) returns (queryStart: int, end: int)
    requires from <= |line|
    ensures end == if First(line, ' ', from) == |line| then -1 else First(line, ' ', from)
    ensures end != -1 ==> queryStart == if LastMark(line, from, end) == -1 then -1 else LastMark(line, from, end) + 1
  {
    queryStart, end := -1, -1;
    var i := from;
    while i < |line|
      invariant from <= i <= |line| && First(line, ' ', from) >= i
      invariant i < |line| ==> queryStart == if LastMark(line, from, i) == -1 then -1 else LastMark(line, from, i) + 1
    {
      SpaceAt(line, from, i);
      if line[i] == '?' && i + 1 < |line| {
        queryStart := i + 1;
      } else if line[i] == ' ' {
        return queryStart, i;
      }
      i := i + 1;
    }
  }

  lemma {:induction false} SpaceAt(line: string, from: nat, i: nat)
    requires from <= i < |line| && First(line, ' ', from) >= i
    ensures if line[i] == ' ' then First(line, ' ', from) == i else First(line, ' ', from) >= i + 1
    decreases i - from
  {
    if from < i {
      SpaceAt(line, from + 1, i);
    }
  }

  method CutLine(line: string, methodEnd: nat, end: nat, queryStart: int) returns (r: Request)
    requires methodEnd < end < |line|
    requires queryStart == if LastMark(line, methodEnd + 1, end) == -1 then -1 else LastMark(line, methodEnd + 1, end) + 1
    ensures r == Cut(line, methodEnd, end)
  {
    if queryStart == -1 {
      r := Request(line[..methodEnd], line[methodEnd + 1..end], None, "", []);
    } else {
      r := Request(line[..methodEnd], line[methodEnd + 1..queryStart - 1], Some(line[queryStart..end]), "", []);
    }
  }

  /** The request line; the version is cut as `substr` does. */
  method ParseFirstLine(line: string) returns (r: Option<Request>)
    ensures r == ParseRequestLine(line)
  {
    var methodEnd := First(line, ' ', 0);
    if methodEnd == |line| {
      return None;
    }
    var queryStart, end := ScanTarget(line, methodEnd + 1);
    if end == -1 {
      return None;
    }
    var version := Version(line, end + 1);
    if version.None? {
      return None;
    }
    var cut := CutLine(line, methodEnd, end, queryStart);
    r := Some(cut.(version := version.value));
  }

  /** RequestMessage::parse. */
  method Parse(stream: string) returns (ok: bool, request: Request, rest: string)
    requires !ParseRequest(stream).Hangs?
    ensures ok <==> ParseRequest(stream).Parsed?
    ensures ok ==> ParseRequest(stream) == Parsed(request, rest)
  {
    request, rest := NO_REQUEST, AfterLine(stream);
    var r := ParseFirstLine(Line(stream));
    ok := r.Some?;
    if ok {
      var headers: seq<Header>;
      headers, rest := ParseHeaderLines(rest);
      request := r.value.(headers := headers);
    }
  }
}
