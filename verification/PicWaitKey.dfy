/** The Redis key of a message: the greatest last path segment among its picture URLs. */
module PicWaitKey {

  /** Byte-wise string order of std::string. */
  predicate Less(a: string, b: string) {
    if b == [] then false
    else if a == [] then true
    else a[0] < b[0] || (a[0] == b[0] && Less(a[1..], b[1..]))
  }

  lemma {:induction false} LessIsTotal(a: string, b: string)
    ensures Less(a, b) || Less(b, a) || a == b
    ensures !(Less(a, b) && Less(b, a)) && !Less(a, a)
  {
    if a != [] && b != [] {
      LessIsTotal(a[1..], b[1..]);
    }
    if a != [] { LessIsTotal(a[1..], a[1..]); }
    if a != [] && b != [] && a[0] == b[0] && a[1..] == b[1..] {
      assert a == [a[0]] + a[1..] == b;
    }
  }

  lemma {:induction false} LessIsTransitive(a: string, b: string, c: string)
    requires Less(a, b) && Less(b, c)
    ensures Less(a, c)
  {
    if a != [] && a[0] == b[0] && b[0] == c[0] {
      LessIsTransitive(a[1..], b[1..], c[1..]);
    }
  }

  /** The strings agree before `i`, and there `a` ends or has the smaller character. */
  predicate SmallerAt(a: string, b: string, i: nat) {
    i <= |a| && i < |b| && a[..i] == b[..i] && (i == |a| || a[i] < b[i])
  }

  /** The order is the lexicographic one. */
  lemma {:induction false} LessIff(a: string, b: string)
    ensures Less(a, b) <==> exists i: nat :: SmallerAt(a, b, i)
  {
    if a != [] && b != [] && a[0] == b[0] {
      LessIff(a[1..], b[1..]);
      if i: nat :| SmallerAt(a[1..], b[1..], i) {
        assert a[..i + 1] == [a[0]] + a[1..][..i] && b[..i + 1] == [b[0]] + b[1..][..i];
        assert SmallerAt(a, b, i + 1);
      }
      if j: nat :| SmallerAt(a, b, j) {
        assert j > 0;
        assert a[1..][..j - 1] == a[..j][1..] && b[1..][..j - 1] == b[..j][1..];
        assert SmallerAt(a[1..], b[1..], j - 1);
      }
    } else if Less(a, b) {
      assert SmallerAt(a, b, 0);
    } else {
      forall j: nat ensures !SmallerAt(a, b, j) {
        if SmallerAt(a, b, j) && j > 0 {
          SameStart(a, b, j);
        }
      }
    }
  }

  lemma SameStart(a: string, b: string, j: nat)
    requires SmallerAt(a, b, j) && j > 0
    ensures a != [] && b != [] && a[0] == b[0]
  {
    assert a[..j][0] == b[..j][0];
  }

  /** The suffix without '/' that cannot be extended to the left. */
  predicate IsTail(url: string, t: string) {
    && '/' !in t && |t| <= |url| && t == url[|url| - |t|..]
    && (|t| < |url| ==> url[|url| - |t| - 1] == '/')
  }

  /** getsplitstr: what follows the last '/', or the whole string. */
  function Tail(url: string): (t: string)
    ensures IsTail(url, t)
  {
    if url == [] then []
    else if url[|url| - 1] == '/' then []
    else
      var rest := url[..|url| - 1];
      assert url == rest + [url[|url| - 1]];
      Tail(rest) + [url[|url| - 1]]
  }

  lemma TailIsUnique(url: string, t: string, u: string)
    requires IsTail(url, t) && IsTail(url, u)
    ensures t == u
  {
    SameEnd(url, u, t);
    SameEnd(url, t, u);
    assert |t| == |u|;
  }

  /** A shorter suffix is preceded by a character of the longer one. */
  lemma SameEnd(url: string, longer: string, shorter: string)
    requires |longer| <= |url| && longer == url[|url| - |longer|..]
    requires |shorter| <= |url|
    ensures |shorter| < |longer| ==> url[|url| - |shorter| - 1] in longer
  {
    if |shorter| < |longer| {
      assert longer[|longer| - |shorter| - 1] == url[|url| - |shorter| - 1];
    }
  }

  function Tails(urls: seq<string>): seq<string> {
    seq(|urls|, i requires 0 <= i < |urls| => Tail(urls[i]))
  }

  /** `key` is one of the first `n` segments and none of them is greater; it is empty when
      there are none. */
  predicate IsGreatest(tails: seq<string>, n: nat, key: string)
    requires n <= |tails|
  {
    if n == 0 then key == ""
    else
      && (exists i :: 0 <= i < n && tails[i] == key)
      && (forall i :: 0 <= i < n ==> !Less(key, tails[i]))
  }

  function Greater(key: string, temp: string): string {
    if key == "" || Less(key, temp) then temp else key
  }

  lemma GreaterIsNotLess(key: string, temp: string, t: string)
    requires !Less(key, t)
    ensures !Less(Greater(key, temp), t) && !Less(Greater(key, temp), temp)
  {
    LessIsTotal(key, t);
    LessIsTotal(temp, temp);
    if Less(key, temp) && Less(temp, t) {
      LessIsTransitive(key, temp, t);
    }
  }

  lemma NextGreatest(tails: seq<string>, n: nat, key: string)
    requires n < |tails| && IsGreatest(tails, n, key)
    ensures IsGreatest(tails, n + 1, Greater(key, tails[n]))
  {
    forall j | 0 <= j < n + 1 ensures !Less(Greater(key, tails[n]), tails[j]) {
      GreaterIsNotLess(key, tails[n], if j < n then tails[j] else "");
    }
  }

  method GetPicWaitKey(urls: seq<string>) returns (key: string)
    ensures IsGreatest(Tails(urls), |urls|, key)
  {
    key := "";
    var i := 0;
    while i < |urls|
      invariant 0 <= i <= |urls|
      invariant IsGreatest(Tails(urls), i, key)
    {
      NextGreatest(Tails(urls), i, key);
      var temp := Tail(urls[i]);
      if key == "" {
        key := temp;
      } else if Less(key, temp) {
        key := temp;
      }
      i := i + 1;
    }
  }

  /** The key does not depend on the order or repetition of the URLs, so two messages about the
      same pictures meet. */
  lemma {:induction false} KeyIgnoresOrder(urls: seq<string>, other: seq<string>, key: string, key': string)
    requires forall u :: u in urls <==> u in other
    requires IsGreatest(Tails(urls), |urls|, key) && IsGreatest(Tails(other), |other|, key')
    ensures key == key'
  {
    assert |other| > 0 ==> other[0] in other;
    assert |urls| > 0 ==> urls[0] in urls;
    if urls != [] {
      NotGreater(urls, other, key, key');
      NotGreater(other, urls, key', key);
      LessIsTotal(key, key');
    }
  }

  lemma NotGreater(urls: seq<string>, other: seq<string>, key: string, key': string)
    requires urls != [] && forall u :: u in urls ==> u in other
    requires IsGreatest(Tails(urls), |urls|, key) && IsGreatest(Tails(other), |other|, key')
    ensures !Less(key', key)
  {
    var i := IndexOf(Tails(urls), key);
    var j := Elsewhere(urls, other, i);
    NoneGreater(Tails(other), key', j);
  }

  lemma Elsewhere(urls: seq<string>, other: seq<string>, i: nat) returns (j: nat)
    requires i < |urls| && forall u :: u in urls ==> u in other
    ensures j < |other| && Tails(other)[j] == Tails(urls)[i]
  {
    assert urls[i] in other;
    j :| j < |other| && other[j] == urls[i];
  }

  lemma IndexOf(tails: seq<string>, key: string) returns (i: nat)
    requires tails != [] && IsGreatest(tails, |tails|, key)
    ensures i < |tails| && tails[i] == key
  {
    i :| i < |tails| && tails[i] == key;
  }

  lemma NoneGreater(tails: seq<string>, key: string, j: nat)
    requires j < |tails| && IsGreatest(tails, |tails|, key)
    ensures !Less(key, tails[j])
  {
  }
}
