/**
 What the LRU cache means: a recency list of key-value pairs, newest first, and what every
 sequence of operations keeps of it.
 */
module LruSpec {
  import opened Wrappers

  datatype Pair<K, V> = Pair(key: K, value: V)

  const SIZE_MODULUS: nat := 0x1_0000_0000_0000_0000

  /** maxSize_ + elasticity_ in size_t arithmetic. */
  function MaxAllowed(maxSize: nat, elasticity: nat): nat {
    (maxSize + elasticity) % SIZE_MODULUS
  }

  function Keys<K, V>(view: seq<Pair<K, V>>): set<K> {
    set i | 0 <= i < |view| :: view[i].key
  }

  /** Position of `k`, or the length when it is absent. */
  function IndexOf<K(==), V>(view: seq<Pair<K, V>>, k: K): (i: nat)
    ensures i <= |view|
    ensures i < |view| ==> view[i].key == k
    ensures forall j :: 0 <= j < i ==> view[j].key != k
  {
    if view == [] || view[0].key == k then 0 else 1 + IndexOf(view[1..], k)
  }

  function Find<K(==), V>(view: seq<Pair<K, V>>, k: K): Option<V> {
    var i := IndexOf(view, k);
    if i < |view| then Some(view[i].value) else None
  }

  function Without<K(==), V>(view: seq<Pair<K, V>>, k: K): seq<Pair<K, V>> {
    var i := IndexOf(view, k);
    if i < |view| then view[..i] + view[i + 1..] else view
  }

  /** Eviction starts at maxAllowed entries and goes down to maxSize; 0 means no bound. */
  function Pruned<K, V>(view: seq<Pair<K, V>>, maxSize: nat, elasticity: nat): seq<Pair<K, V>> {
    if maxSize == 0 || |view| < MaxAllowed(maxSize, elasticity) || |view| <= maxSize then view
    else view[..maxSize]
  }

  datatype Op<K, V> = Insert(key: K, value: V) | Get(key: K) | Remove(key: K) | Clear

  function Apply<K(==), V>(view: seq<Pair<K, V>>, op: Op<K, V>, maxSize: nat, elasticity: nat): seq<Pair<K, V>> {
    match op
    case Insert(k, v) =>
      if Find(view, k).Some? then [Pair(k, v)] + Without(view, k)
      else Pruned([Pair(k, v)] + view, maxSize, elasticity)
    case Get(k) =>
      (match Find(view, k)
       case Some(v) => [Pair(k, v)] + Without(view, k)
       case None => view)
    case Remove(k) => Without(view, k)
    case Clear => []
  }

  function Run<K(==), V>(ops: seq<Op<K, V>>, maxSize: nat, elasticity: nat): seq<Pair<K, V>> {
    if ops == [] then []
    else Apply(Run(ops[..|ops| - 1], maxSize, elasticity), ops[|ops| - 1], maxSize, elasticity)
  }

  ghost predicate UniqueKeys<K, V>(view: seq<Pair<K, V>>) {
    forall i, j :: 0 <= i < j < |view| ==> view[i].key != view[j].key
  }

  // ---------- any hit returns the value inserted last ----------

  /** The map a cache that never evicts would hold. */
  function Remembered<K, V>(ops: seq<Op<K, V>>): map<K, V> {
    if ops == [] then map[]
    else
      var m := Remembered(ops[..|ops| - 1]);
      match ops[|ops| - 1]
      case Insert(k, v) => m[k := v]
      case Get(_) => m
      case Remove(k) => m - {k}
      case Clear => map[]
  }

  lemma FindIff<K, V>(view: seq<Pair<K, V>>, k: K, v: V)
    requires UniqueKeys(view)
    ensures Find(view, k) == Some(v) <==> Pair(k, v) in view
  {
    if Pair(k, v) in view {
      var j :| 0 <= j < |view| && view[j] == Pair(k, v);
      assert IndexOf(view, k) == j;
    }
  }

  lemma WithoutIff<K, V>(view: seq<Pair<K, V>>, k: K, p: Pair<K, V>)
    requires UniqueKeys(view)
    ensures UniqueKeys(Without(view, k))
    ensures p in Without(view, k) <==> p in view && p.key != k
  {
    var i := IndexOf(view, k);
    if i < |view| {
      assert view == view[..i] + [view[i]] + view[i + 1..];
    }
  }

  /** One operation keeps keys unique, and an entry present afterwards is either the one just
      inserted or an old one that the operation did not replace or remove. */
  lemma ApplyKeeps<K, V>(view: seq<Pair<K, V>>, op: Op<K, V>, maxSize: nat, elasticity: nat, p: Pair<K, V>)
    requires UniqueKeys(view)
    ensures UniqueKeys(Apply(view, op, maxSize, elasticity))
    ensures p in Apply(view, op, maxSize, elasticity) ==> Wanted(view, op, p)
    ensures maxSize == 0 && Wanted(view, op, p) ==> p in Apply(view, op, maxSize, elasticity)
  {
    match op
    case Insert(k, v) =>
      WithoutIff(view, k, p);
      ConsUnique(Without(view, k), Pair(k, v));
      if Find(view, k).None? {
        ConsUnique(view, Pair(k, v));
      }
    case Get(k) =>
      WithoutIff(view, k, p);
      if Find(view, k).Some? {
        FindIff(view, k, Find(view, k).value);
        if p in view && p.key == k { FindIff(view, k, p.value); }
        ConsUnique(Without(view, k), Pair(k, Find(view, k).value));
      }
    case Remove(k) => WithoutIff(view, k, p);
    case Clear =>
  }

  lemma {:induction false} UniqueAfter<K, V>(view: seq<Pair<K, V>>, op: Op<K, V>, maxSize: nat, elasticity: nat)
    requires UniqueKeys(view)
    ensures UniqueKeys(Apply(view, op, maxSize, elasticity))
  {
    if view != [] {
      ApplyKeeps(view, op, maxSize, elasticity, view[0]);
    } else {
      assert |Apply(view, op, maxSize, elasticity)| <= 1;
    }
  }

  predicate Wanted<K(==), V(==)>(view: seq<Pair<K, V>>, op: Op<K, V>, p: Pair<K, V>) {
    match op
    case Insert(k, v) => if p.key == k then p.value == v else p in view
    case Get(_) => p in view
    case Remove(k) => p in view && p.key != k
    case Clear => false
  }

  lemma ConsUnique<K, V>(view: seq<Pair<K, V>>, p: Pair<K, V>)
    requires UniqueKeys(view)
    requires forall q :: q in view ==> q.key != p.key
    ensures UniqueKeys([p] + view)
  {
  }

  /** Keys stay unique and a hit never returns a stale value, after every sequence of
      operations. */
  lemma {:induction false} HitsAreFresh<K, V>(ops: seq<Op<K, V>>, maxSize: nat, elasticity: nat, k: K)
    ensures var view := Run(ops, maxSize, elasticity);
            && UniqueKeys(view)
            && (Find(view, k).Some? ==> k in Remembered(ops) && Find(view, k).value == Remembered(ops)[k])
  {
    if ops != [] {
      var prev := ops[..|ops| - 1];
      var before := Run(prev, maxSize, elasticity);
      var view := Run(ops, maxSize, elasticity);
      HitsAreFresh(prev, maxSize, elasticity, k);
      if Find(view, k).Some? {
        var p := Pair(k, Find(view, k).value);
        ApplyKeeps(before, ops[|ops| - 1], maxSize, elasticity, p);
        FindIff(view, k, p.value);
        FindIff(before, k, p.value);
      } else {
        UniqueAfter(before, ops[|ops| - 1], maxSize, elasticity);
      }
    }
  }

  /** An unbounded cache (maxSize 0) is exactly that map. */
  lemma {:induction false} UnboundedIsAMap<K, V>(ops: seq<Op<K, V>>, elasticity: nat, k: K)
    ensures Find(Run(ops, 0, elasticity), k) ==
              if k in Remembered(ops) then Some(Remembered(ops)[k]) else None
  {
    HitsAreFresh(ops, 0, elasticity, k);
    if ops != [] && k in Remembered(ops) {
      var prev := ops[..|ops| - 1];
      var before := Run(prev, 0, elasticity);
      var v := Remembered(ops)[k];
      UnboundedIsAMap(prev, elasticity, k);
      HitsAreFresh(prev, 0, elasticity, k);
      FindIff(before, k, v);
      ApplyKeeps(before, ops[|ops| - 1], 0, elasticity, Pair(k, v));
      FindIff(Run(ops, 0, elasticity), k, v);
    }
  }

  // ---------- size ----------

  /** With a bound the cache never holds more than max(maxSize, maxAllowed - 1) entries. */
  lemma {:induction false} SizeIsBounded<K, V>(ops: seq<Op<K, V>>, maxSize: nat, elasticity: nat)
    requires maxSize > 0
    ensures var limit := MaxAllowed(maxSize, elasticity);
            |Run(ops, maxSize, elasticity)| <= if limit <= maxSize then maxSize else limit - 1
  {
    if ops != [] {
      SizeIsBounded(ops[..|ops| - 1], maxSize, elasticity);
    }
  }

  // ---------- retention ----------

  /** The key one operation inserts or hits, unless it is `k`. */
  function Used<K(==), V>(view: seq<Pair<K, V>>, op: Op<K, V>, k: K): set<K> {
    match op
    case Insert(k', _) => {k'} - {k}
    case Get(k') => if Find(view, k').Some? then {k'} - {k} else {}
    case _ => {}
  }

  /** The keys other than `k` inserted or hit by `ops` starting from `view`. */
  function OthersUsed<K(==), V>(view: seq<Pair<K, V>>, ops: seq<Op<K, V>>, maxSize: nat, elasticity: nat, k: K): set<K>
    decreases |ops|
  {
    if ops == [] then {}
    else
      Used(view, ops[0], k)
      + OthersUsed(Apply(view, ops[0], maxSize, elasticity), ops[1..], maxSize, elasticity, k)
  }

  function After<K(==), V>(view: seq<Pair<K, V>>, ops: seq<Op<K, V>>, maxSize: nat, elasticity: nat): seq<Pair<K, V>>
    decreases |ops|
  {
    if ops == [] then view
    else After(Apply(view, ops[0], maxSize, elasticity), ops[1..], maxSize, elasticity)
  }

  /** The keys more recent than `k`. */
  function Newer<K(==), V>(view: seq<Pair<K, V>>, k: K): set<K> {
    Keys(view[..IndexOf(view, k)])
  }

  lemma {:induction false} DistinctCount<K, V>(view: seq<Pair<K, V>>)
    requires UniqueKeys(view)
    ensures |Keys(view)| == |view|
  {
    if view != [] {
      var last := view[|view| - 1];
      var front := view[..|view| - 1];
      DistinctCount(front);
      assert Keys(view) == Keys(front) + {last.key};
      assert last.key !in Keys(front);
    }
  }

  predicate Drops<K(==), V>(op: Op<K, V>, k: K) {
    op == Clear || op == Remove(k)
  }

  lemma IndexInWithout<K, V>(view: seq<Pair<K, V>>, k: K, other: K)
    requires UniqueKeys(view) && Find(view, k).Some? && k != other
    ensures var w, i := Without(view, other), IndexOf(view, k);
            && UniqueKeys(w) && Find(w, k).Some?
            && IndexOf(w, k) == if IndexOf(view, other) < i then i - 1 else i
  {
    var i, j := IndexOf(view, k), IndexOf(view, other);
    var w := Without(view, other);
    WithoutIff(view, other, view[i]);
    FirstIsIndex(w, k, if j < i then i - 1 else i);
  }

  lemma NewerInWithout<K, V>(view: seq<Pair<K, V>>, k: K, other: K)
    requires UniqueKeys(view) && Find(view, k).Some? && k != other
    ensures var w := Without(view, other);
            UniqueKeys(w) && Find(w, k).Some? && Newer(w, k) <= Newer(view, k) - {other}
  {
    IndexInWithout(view, k, other);
    var i, j := IndexOf(view, k), IndexOf(view, other);
    var w := Without(view, other);
    var at := IndexOf(w, k);
    forall x | x in Newer(w, k) ensures x in Newer(view, k) - {other} {
      var l :| 0 <= l < at && w[l].key == x;
      assert view[..i][if l < j then l else l + 1].key == x;
      WithoutIff(view, other, w[l]);
    }
  }

  lemma NewerInCons<K, V>(view: seq<Pair<K, V>>, k: K, p: Pair<K, V>)
    requires Find(view, k).Some? && k != p.key
    ensures var c := [p] + view;
            && IndexOf(c, k) == 1 + IndexOf(view, k)
            && Find(c, k).Some? && Newer(c, k) == Newer(view, k) + {p.key}
  {
    var c := [p] + view;
    var i := IndexOf(view, k);
    assert c[1..] == view;
    assert c[..i + 1] == [p] + view[..i];
    assert c[..i + 1][0] == p;
    forall x | x in Newer(view, k) ensures x in Newer(c, k) {
      var l :| 0 <= l < i && view[l].key == x;
      assert c[..i + 1][l + 1].key == x;
    }
  }

  lemma NewerInPrefix<K, V>(view: seq<Pair<K, V>>, k: K, n: nat)
    requires IndexOf(view, k) < n <= |view|
    ensures IndexOf(view[..n], k) == IndexOf(view, k)
    ensures Find(view[..n], k).Some? && Newer(view[..n], k) == Newer(view, k)
  {
    FirstIsIndex(view[..n], k, IndexOf(view, k));
    assert view[..n][..IndexOf(view, k)] == view[..IndexOf(view, k)];
  }

  lemma FirstIsIndex<K, V>(view: seq<Pair<K, V>>, k: K, i: nat)
    requires i < |view| && view[i].key == k
    requires forall j :: 0 <= j < i ==> view[j].key != k
    ensures IndexOf(view, k) == i
  {
  }

  lemma NewerAfterMove<K, V>(view: seq<Pair<K, V>>, k: K, p: Pair<K, V>)
    requires UniqueKeys(view) && Find(view, k).Some? && p.key != k
    ensures var after := [p] + Without(view, p.key);
            Find(after, k).Some? && Newer(after, k) <= Newer(view, k) + {p.key}
  {
    NewerInWithout(view, k, p.key);
    NewerInCons(Without(view, p.key), k, p);
  }

  lemma NewerAfterInsert<K, V>(view: seq<Pair<K, V>>, k: K, p: Pair<K, V>, maxSize: nat, elasticity: nat)
    requires UniqueKeys(view) && Find(view, k).Some? && Find(view, p.key).None?
    requires maxSize > 0 ==> |Newer(view, k) + {p.key}| < maxSize
    ensures var after := Pruned([p] + view, maxSize, elasticity);
            Find(after, k).Some? && Newer(after, k) == Newer(view, k) + {p.key}
  {
    var c := [p] + view;
    NewerInCons(view, k, p);
    ConsUnique(view, p);
    DistinctCount(c[..IndexOf(c, k)]);
    if Pruned(c, maxSize, elasticity) != c {
      NewerInPrefix(c, k, maxSize);
    }
  }

  /** A key survives one operation unless the operation drops it, while fewer than maxSize keys
      are newer; only a used key can become newer than it. */
  lemma NewerAfter<K, V>(view: seq<Pair<K, V>>, op: Op<K, V>, maxSize: nat, elasticity: nat, k: K)
    requires UniqueKeys(view) && Find(view, k).Some? && !Drops(op, k)
    requires maxSize > 0 ==> |Newer(view, k) + Used(view, op, k)| < maxSize
    ensures var after := Apply(view, op, maxSize, elasticity);
            && UniqueKeys(after) && Find(after, k).Some?
            && Newer(after, k) <= Newer(view, k) + Used(view, op, k)
  {
    UniqueAfter(view, op, maxSize, elasticity);
    match op
    case Insert(k', v) =>
      if k' == k {
        FirstIsIndex([Pair(k, v)] + Without(view, k), k, 0);
      } else if Find(view, k').Some? {
        NewerAfterMove(view, k, Pair(k', v));
      } else {
        NewerAfterInsert(view, k, Pair(k', v), maxSize, elasticity);
      }
    case Get(k') =>
      if Find(view, k').Some? {
        var v := Find(view, k').value;
        if k' == k {
          FirstIsIndex([Pair(k, v)] + Without(view, k), k, 0);
        } else {
          NewerAfterMove(view, k, Pair(k', v));
        }
      }
    case Remove(k') => NewerInWithout(view, k, k');
    case Clear =>
  }

  /** A key that is neither removed nor cleared stays present while fewer than maxSize distinct
      other keys are inserted or hit after its own last use put it at the front. */
  lemma {:induction false} Retention<K, V>(view: seq<Pair<K, V>>, ops: seq<Op<K, V>>, maxSize: nat, elasticity: nat, k: K)
    requires UniqueKeys(view) && Find(view, k).Some?
    requires forall op :: op in ops ==> !Drops(op, k)
    requires maxSize > 0 ==>
               |Newer(view, k) + OthersUsed(view, ops, maxSize, elasticity, k)| < maxSize
    ensures Find(After(view, ops, maxSize, elasticity), k).Some?
    decreases |ops|
  {
    if ops != [] {
      var op := ops[0];
      var next := Apply(view, op, maxSize, elasticity);
      var rest := OthersUsed(next, ops[1..], maxSize, elasticity, k);
      var used := Used(view, op, k);
      Cardinality(Newer(view, k) + used, Newer(view, k) + (used + rest));
      NewerAfter(view, op, maxSize, elasticity, k);
      Cardinality(Newer(next, k) + rest, Newer(view, k) + (used + rest));
      Retention(next, ops[1..], maxSize, elasticity, k);
    }
  }

  predicate Uses<K(==), V>(view: seq<Pair<K, V>>, op: Op<K, V>, k: K) {
    match op
    case Insert(k', _) => k' == k
    case Get(k') => k' == k && Find(view, k).Some?
    case _ => false
  }

  /** The same from the last use on: right after it no key is newer. */
  lemma RetainedSinceUse<K, V>(view: seq<Pair<K, V>>, use: Op<K, V>, ops: seq<Op<K, V>>, maxSize: nat, elasticity: nat, k: K)
    requires UniqueKeys(view) && Uses(view, use, k)
    requires forall op :: op in ops ==> !Drops(op, k)
    requires maxSize > 0 ==>
               |OthersUsed(Apply(view, use, maxSize, elasticity), ops, maxSize, elasticity, k)| < maxSize
    ensures Find(After(view, [use] + ops, maxSize, elasticity), k).Some?
  {
    var next := Apply(view, use, maxSize, elasticity);
    UniqueAfter(view, use, maxSize, elasticity);
    assert next[0].key == k;
    assert IndexOf(next, k) == 0 && Newer(next, k) == {};
    assert {} + OthersUsed(next, ops, maxSize, elasticity, k) == OthersUsed(next, ops, maxSize, elasticity, k);
    Retention(next, ops, maxSize, elasticity, k);
    assert ([use] + ops)[1..] == ops;
  }

  lemma Cardinality<K>(a: set<K>, b: set<K>)
    requires a <= b
    ensures |a| <= |b|
  {
    assert b == a + (b - a);
  }
}
