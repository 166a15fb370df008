/** The LRU cache class: a recency list of nodes and a map from key to list node. */
module LruCache {
  import opened Wrappers
  import opened LruSpec

  /** One list node; the map stores references to nodes as C++ stores list iterators. */
  class Entry<K, V> {
    const key: K
    var value: V

    constructor (key: K, value: V)
      ensures this.key == key && this.value == value
    {
      this.key := key;
      this.value := value;
    }
  }

  /** Map and list are in bijection and no key occurs twice. */
  ghost predicate Linked<K, V>(cache: map<K, Entry<K, V>>, keys: seq<Entry<K, V>>) {
    && (forall k :: k in cache ==> cache[k].key == k && cache[k] in keys)
    && (forall i :: 0 <= i < |keys| ==> keys[i].key in cache && cache[keys[i].key] == keys[i])
    && (forall i, j :: 0 <= i < j < |keys| ==> keys[i] != keys[j])
  }

  ghost function Pairs<K, V>(keys: seq<Entry<K, V>>): seq<Pair<K, V>>
    reads keys
  {
    seq(|keys|, i requires 0 <= i < |keys| reads keys => Pair(keys[i].key, keys[i].value))
  }

  lemma LinkedErase<K, V>(cache: map<K, Entry<K, V>>, keys: seq<Entry<K, V>>, i: nat)
    requires Linked(cache, keys) && i < |keys|
    ensures Linked(cache - {keys[i].key}, keys[..i] + keys[i + 1..])
  {
    var rest := keys[..i] + keys[i + 1..];
    var left := cache - {keys[i].key};
    forall k | k in left ensures left[k].key == k && left[k] in rest {
      var j :| 0 <= j < |keys| && keys[j] == cache[k];
      assert rest[if j < i then j else j - 1] == keys[j];
    }
    forall j | 0 <= j < |rest| ensures rest[j].key in left && left[rest[j].key] == rest[j] {
      var l := if j < i then j else j + 1;
      assert rest[j] == keys[l];
    }
    forall j, l | 0 <= j < l < |rest| ensures rest[j] != rest[l] {
      assert rest[j] == keys[if j < i then j else j + 1];
      assert rest[l] == keys[if l < i then l else l + 1];
    }
  }

  lemma LinkedInsert<K, V>(cache: map<K, Entry<K, V>>, keys: seq<Entry<K, V>>, n: Entry<K, V>)
    requires Linked(cache, keys) && n.key !in cache
    ensures Linked(cache[n.key := n], [n] + keys)
  {
    forall j | 0 <= j < |keys| ensures keys[j] != n {
      assert keys[j].key in cache;
    }
  }

  /** Moving a node to the front is erasing it and inserting it again. */
  lemma LinkedSplice<K, V>(cache: map<K, Entry<K, V>>, keys: seq<Entry<K, V>>, i: nat)
    requires Linked(cache, keys) && i < |keys|
    ensures Linked(cache, [keys[i]] + (keys[..i] + keys[i + 1..]))
  {
    var n := keys[i];
    LinkedErase(cache, keys, i);
    LinkedInsert(cache - {n.key}, keys[..i] + keys[i + 1..], n);
    assert (cache - {n.key})[n.key := n] == cache;
  }

  /** Finding a key in the map is finding its node in the list. */
  lemma Lookup<K, V>(cache: map<K, Entry<K, V>>, keys: seq<Entry<K, V>>, k: K) returns (i: nat)
    requires Linked(cache, keys)
    ensures UniqueKeys(Pairs(keys)) && i == IndexOf(Pairs(keys), k)
    ensures k in cache ==> i < |keys| && keys[i] == cache[k]
    ensures k !in cache ==> i == |keys|
  {
    i := IndexOf(Pairs(keys), k);
    if k in cache {
      var j :| 0 <= j < |keys| && keys[j] == cache[k];
      FirstIsIndex(Pairs(keys), k, j);
    }
    forall a, b | 0 <= a < b < |keys| ensures keys[a].key != keys[b].key {
      assert cache[keys[a].key] == keys[a] && cache[keys[b].key] == keys[b];
    }
  }

  lemma SizesAgree<K, V>(cache: map<K, Entry<K, V>>, keys: seq<Entry<K, V>>)
    requires Linked(cache, keys)
    ensures |cache| == |keys|
    decreases |keys|
  {
    if |keys| == 0 {
      assert cache.Keys == {};
    } else {
      var last := keys[|keys| - 1];
      LinkedErase(cache, keys, |keys| - 1);
      assert keys[..|keys| - 1] + keys[|keys|..] == keys[..|keys| - 1];
      SizesAgree(cache - {last.key}, keys[..|keys| - 1]);
      assert cache.Keys == (cache - {last.key}).Keys + {last.key};
    }
  }

  lemma PairsSplice<K, V>(keys: seq<Entry<K, V>>, i: nat)
    requires i < |keys|
    ensures var view := Pairs(keys);
            Pairs([keys[i]] + (keys[..i] + keys[i + 1..])) == [view[i]] + (view[..i] + view[i + 1..])
  {
  }

  lemma Touched<K, V>(cache: map<K, Entry<K, V>>, keys: seq<Entry<K, V>>, k: K, at: nat)
    requires Linked(cache, keys) && k in cache && at < |keys| && keys[at] == cache[k]
    ensures Pairs([keys[at]] + (keys[..at] + keys[at + 1..])) == [Pair(k, cache[k].value)] + Without(Pairs(keys), k)
    ensures Find(Pairs(keys), k) == Some(cache[k].value)
  {
    var i := Lookup(cache, keys, k);
    PairsSplice(keys, at);
  }

  lemma EraseFront<K, V>(cache: map<K, Entry<K, V>>, keys: seq<Entry<K, V>>)
    requires Linked(cache, keys) && keys != []
    ensures Linked(cache - {keys[0].key}, keys[1..])
  {
    LinkedErase(cache, keys, 0);
    assert keys[..0] + keys[1..] == keys[1..];
  }

  lemma PairsSlice<K, V>(keys: seq<Entry<K, V>>, lo: nat, hi: nat)
    requires lo <= hi <= |keys|
    ensures Pairs(keys[lo..hi]) == Pairs(keys)[lo..hi]
  {
  }

  lemma EraseBack<K, V>(cache: map<K, Entry<K, V>>, keys: seq<Entry<K, V>>)
    requires Linked(cache, keys) && keys != []
    ensures var n := |keys| - 1;
            Linked(cache - {keys[n].key}, keys[..n]) && |cache - {keys[n].key}| == n
  {
    var n := |keys| - 1;
    LinkedErase(cache, keys, n);
    assert keys[..n] + keys[n + 1..] == keys[..n];
    SizesAgree(cache - {keys[n].key}, keys[..n]);
  }

  class Cache<K(==), V> {
    var cache: map<K, Entry<K, V>>
    var keys: seq<Entry<K, V>>
    const maxSize: nat
    const elasticity: nat

    ghost predicate Valid()
      reads this
    {
      Linked(cache, keys)
    }

    ghost function View(): seq<Pair<K, V>>
      reads this, keys
    {
      Pairs(keys)
    }

    constructor (maxSize: nat, elasticity: nat)
      ensures Valid() && View() == [] && this.maxSize == maxSize && this.elasticity == elasticity
    {
      this.maxSize := maxSize;
      this.elasticity := elasticity;
      cache := map[];
      keys := [];
    }

    /** keys_.splice(keys_.begin(), keys_, node): the node's position is where it is found. */
    method Splice(n: Entry<K, V>) returns (ghost at: nat)
      requires Valid() && n in keys
      modifies this`keys
      ensures Valid()
      ensures at < |old(keys)| && old(keys)[at] == n
      ensures keys == [n] + (old(keys)[..at] + old(keys)[at + 1..])
    {
      var i := 0;
      while keys[i] != n
        invariant 0 <= i < |keys|
        invariant n !in keys[..i]
        decreases |keys| - i
      {
        assert n in keys[..i + 1] + keys[i + 1..] by { assert keys == keys[..i + 1] + keys[i + 1..]; }
        i := i + 1;
      }
      LinkedSplice(cache, keys, i);
      keys := [n] + (keys[..i] + keys[i + 1..]);
      at := i;
    }

    /** The common hit path: move the key's node to the front. */
    method Touch(k: K)
      requires Valid() && k in cache
      modifies this`keys
      ensures Valid() && |keys| > 0 && keys[0] == cache[k]
      ensures View() == [Pair(k, cache[k].value)] + Without(old(View()), k)
      ensures Find(old(View()), k) == Some(cache[k].value)
    {
      ghost var before := keys;
      ghost var at := Splice(cache[k]);
      Touched(cache, before, k, at);
    }

    method Insert(k: K, v: V)
      requires Valid()
      modifies this`cache, this`keys, keys
      ensures Valid()
      ensures View() == Apply(old(View()), LruSpec.Insert(k, v), maxSize, elasticity)
    {
      ghost var before := View();
      ghost var i := Lookup(cache, keys, k);
      if k in cache {
        cache[k].value := v;
        assert View() == before[i := Pair(k, v)] by {
          Lookup'(k, i);
        }
        WithoutIgnoresValue(before, k, v);
        Touch(k);
        return;
      }
      var node := new Entry(k, v);
      LinkedInsert(cache, keys, node);
      keys := [node] + keys;
      cache := cache[k := node];
      assert View() == [Pair(k, v)] + before;
      Prune();
    }

    /** Only the node found has the key's position. */
    lemma Lookup'(k: K, i: nat)
      requires Valid() && k in cache && i < |keys| && keys[i] == cache[k]
      ensures forall j :: 0 <= j < |keys| && j != i ==> keys[j] != cache[k]
    {
    }

    method TryGet(k: K) returns (r: Option<V>)
      requires Valid()
      modifies this`keys
      ensures Valid()
      ensures View() == Apply(old(View()), LruSpec.Get(k), maxSize, elasticity)
      ensures r == Find(old(View()), k)
    {
      ghost var i := Lookup(cache, keys, k);
      if k !in cache {
        return None;
      }
      Touch(k);
      r := Some(cache[k].value);
    }

    method Remove(k: K) returns (r: bool)
      requires Valid()
      modifies this`cache, this`keys
      ensures Valid()
      ensures View() == Apply(old(View()), LruSpec.Remove(k), maxSize, elasticity)
      ensures r <==> Find(old(View()), k).Some?
    {
      ghost var i := Lookup(cache, keys, k);
      if k !in cache {
        return false;
      }
      Touch(k);
      PopFront();
      r := true;
    }

    /** keys_.erase(node); cache_.erase(iter), for the node just moved to the front. */
    method PopFront()
      requires Valid() && keys != []
      modifies this`cache, this`keys
      ensures Valid() && View() == old(View())[1..]
    {
      var c, ks := cache, keys;
      EraseFront(c, ks);
      PairsSlice(ks, 1, |ks|);
      cache, keys := c - {ks[0].key}, ks[1..];
    }

    method Clear()
      requires Valid()
      modifies this`cache, this`keys
      ensures Valid() && View() == Apply(old(View()), LruSpec.Clear, maxSize, elasticity)
    {
      cache := map[];
      keys := [];
    }

    method Prune()
      requires Valid()
      modifies this`cache, this`keys
      ensures Valid() && View() == Pruned(old(View()), maxSize, elasticity)
    {
      SizesAgree(cache, keys);
      var maxAllowed := MaxAllowed(maxSize, elasticity);
      if maxSize == 0 || |cache| < maxAllowed {
        return;
      }
      if |keys| > maxSize {
        PairsSlice(keys, 0, maxSize);
      }
      Evict();
    }

    /** Pops the back of the list while the map holds more than maxSize keys. */
    method Evict()
      requires Valid() && |cache| == |keys|
      modifies this`cache, this`keys
      ensures Valid() && keys == if |old(keys)| > maxSize then old(keys)[..maxSize] else old(keys)
    {
      ghost var keys0 := keys;
      while |cache| > maxSize
        invariant Valid() && |cache| == |keys| <= |keys0|
        invariant keys == keys0[..|keys|]
        invariant |keys| >= if |keys0| > maxSize then maxSize else |keys0|
      {
        PopBack();
      }
    }

    /** cache_.erase(keys_.back().key); keys_.pop_back() */
    method PopBack()
      requires Valid() && keys != []
      modifies this`cache, this`keys
      ensures Valid() && keys == old(keys)[..|old(keys)| - 1] && |cache| == |keys|
    {
      var c, ks := cache, keys;
      var n := |ks| - 1;
      EraseBack(c, ks);
      cache, keys := c - {ks[n].key}, ks[..n];
    }
  }

  lemma WithoutIgnoresValue<K, V>(view: seq<Pair<K, V>>, k: K, v: V)
    requires IndexOf(view, k) < |view|
    ensures Without(view[IndexOf(view, k) := Pair(k, v)], k) == Without(view, k)
  {
    var i := IndexOf(view, k);
    FirstIsIndex(view[i := Pair(k, v)], k, i);
  }
}
